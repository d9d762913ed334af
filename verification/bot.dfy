/**
 * The deterministic part of `AITradingBot`: the Buy/Sell decision rule, the
 * execution of a signal as a fixed 0.01 x 10 market order, and one analysis
 * tick over the watch-list. Indicator readings and fresh position ids are
 * inputs; the interval timer is not modelled.
 */
module Bot {
  import opened Wrappers
  import opened Prices
  import opened Ledger
  import opened Engine

  /** RSI, MACD and moving average for one symbol, as the analysis produced them. */
  datatype Indicators = Indicators(rsi: real, macd: real, ma: real)

  datatype Signal = Signal(kind: Side, symbol: Symbol, price: real, confidence: real, reason: string)

  /** An executed signal with the id of the position it opened (its timestamp is not modelled). */
  datatype SignalRecord = SignalRecord(signal: Signal, positionId: PositionId)

  datatype Status = Status(enabled: bool, signalsGenerated: nat, lastSignal: Option<SignalRecord>)

  /** The symbols one tick analyses, in order. */
  const WatchList: seq<Symbol> := ["BTC/USDT", "ETH/USDT", "XRP/USDT"]

  const Confidence: real := 0.85
  const LotSize: real := 0.01
  const BotLeverage: real := 10.0

  /**
   * Buy when oversold, bullish and above the average; otherwise sell when
   * overbought, bearish and below the average; otherwise no signal.
   */
  function GenerateSignal(symbol: Symbol, price: real, ind: Indicators): (s: Option<Signal>)
    ensures s.Some? && s.value.kind == Buy <==> ind.rsi < 30.0 && ind.macd > 0.0 && price > ind.ma
    ensures s.Some? && s.value.kind == Sell <==> ind.rsi > 70.0 && ind.macd < 0.0 && price < ind.ma
    ensures s.Some? ==> s.value.symbol == symbol && s.value.price == price && s.value.confidence == Confidence
  {
    if ind.rsi < 30.0 && ind.macd > 0.0 && price > ind.ma then
      Some(Signal(Buy, symbol, price, Confidence, "RSI oversold, MACD bullish, price above MA"))
    else if ind.rsi > 70.0 && ind.macd < 0.0 && price < ind.ma then
      Some(Signal(Sell, symbol, price, Confidence, "RSI overbought, MACD bearish, price below MA"))
    else
      None
  }

  /**
   * The simulated RSI lies in [30, 70), where neither rule can fire: the
   * bot as shipped never trades.
   */
  lemma SimulatedRsiNeverSignals(symbol: Symbol, price: real, ind: Indicators)
    requires 30.0 <= ind.rsi <= 70.0
    ensures GenerateSignal(symbol, price, ind) == None
  {
  }

  /** The ledger the bot trades on together with the bot's history. */
  datatype BotState = BotState(account: Account, signals: seq<SignalRecord>)

  /**
   * Submits the signal as a market order of 0.01 at 10x under `id`; on
   * success records it with the new position's id, on failure changes nothing.
   */
  function Execute(s: BotState, signal: Signal, id: PositionId): (r: BotState)
    ensures
      var o := OpenMarket(Table, s.account, id, signal.symbol, signal.kind, LotSize, BotLeverage, None, None);
      && (o.Ok? ==> r.account == o.value.account && r.signals == s.signals + [SignalRecord(signal, id)])
      && (o.Err? ==> r == s)
  {
    match OpenMarket(Table, s.account, id, signal.symbol, signal.kind, LotSize, BotLeverage, None, None)
    case Ok(o) => BotState(o.account, s.signals + [SignalRecord(signal, o.position.id)])
    case Err(_) => s
  }

  /** One watched symbol of a tick: execute its signal, if it has one. */
  function Step(s: BotState, symbol: Symbol, reading: Indicators, id: PositionId): (r: BotState)
    ensures s.signals <= r.signals && |r.signals| <= |s.signals| + 1
    ensures |r.signals| > |s.signals| ==> r.signals[|s.signals|].positionId == id
    ensures GenerateSignal(symbol, CurrentPrice(symbol), reading).None? ==> r == s
  {
    match GenerateSignal(symbol, CurrentPrice(symbol), reading)
    case None => s
    case Some(signal) => Execute(s, signal, id)
  }

  lemma StepKeepsBooks(s: BotState, symbol: Symbol, reading: Indicators, id: PositionId)
    requires Books(s.account)
    ensures Books(Step(s, symbol, reading, id).account)
  {
    var signal := GenerateSignal(symbol, CurrentPrice(symbol), reading);
    if signal.Some? {
      OpenKeepsBooks(Table, s.account, id, signal.value.symbol, signal.value.kind, LotSize, BotLeverage, None, None);
    }
  }

  /** The state after the first `n` symbols of one analysis tick. */
  function Tick(s: BotState, readings: seq<Indicators>, ids: seq<PositionId>, n: nat): (r: BotState)
    requires n <= |WatchList| == |readings| == |ids|
    ensures s.signals <= r.signals && |r.signals| <= |s.signals| + n
  {
    if n == 0 then s
    else Step(Tick(s, readings, ids, n - 1), WatchList[n - 1], readings[n - 1], ids[n - 1])
  }

  /** A tick keeps the books of the ledger balanced. */
  lemma {:induction false} TickKeepsBooks(s: BotState, readings: seq<Indicators>, ids: seq<PositionId>, n: nat)
    requires n <= |WatchList| == |readings| == |ids|
    requires Books(s.account)
    ensures Books(Tick(s, readings, ids, n).account)
  {
    if n > 0 {
      TickKeepsBooks(s, readings, ids, n - 1);
      StepKeepsBooks(Tick(s, readings, ids, n - 1), WatchList[n - 1], readings[n - 1], ids[n - 1]);
    }
  }

  /**
   * If every record from `from` on carries one of the first `n - 1` ids, then
   * after the step that uses id `ids[n - 1]` every record from `from` on
   * carries one of the first `n`.
   */
  lemma StepHandsOutIds(prev: BotState, symbol: Symbol, reading: Indicators, ids: seq<PositionId>, n: nat, from: nat)
    requires 0 < n <= |ids| && from <= |prev.signals|
    requires forall k :: from <= k < |prev.signals| ==> exists j :: 0 <= j < n - 1 && prev.signals[k].positionId == ids[j]
    ensures
      var t := Step(prev, symbol, reading, ids[n - 1]);
      forall k :: from <= k < |t.signals| ==> exists j :: 0 <= j < n && t.signals[k].positionId == ids[j]
  {
    var t := Step(prev, symbol, reading, ids[n - 1]);
    forall k | from <= k < |t.signals|
      ensures exists j :: 0 <= j < n && t.signals[k].positionId == ids[j]
    {
      if k < |prev.signals| {
        assert t.signals[k] == prev.signals[k];
        var j :| 0 <= j < n - 1 && prev.signals[k].positionId == ids[j];
      } else {
        assert t.signals[k].positionId == ids[n - 1];
      }
    }
  }

  /**
   * A tick only appends to the history, at most one record per symbol, each
   * carrying the id handed out for its symbol.
   */
  lemma {:induction false} TickAppendsHistory(s: BotState, readings: seq<Indicators>, ids: seq<PositionId>, n: nat)
    requires n <= |WatchList| == |readings| == |ids|
    ensures var t := Tick(s, readings, ids, n);
      && s.signals <= t.signals
      && |t.signals| <= |s.signals| + n
      && forall k :: |s.signals| <= k < |t.signals| ==> exists j :: 0 <= j < n && t.signals[k].positionId == ids[j]
  {
    if n > 0 {
      TickAppendsHistory(s, readings, ids, n - 1);
      StepHandsOutIds(Tick(s, readings, ids, n - 1), WatchList[n - 1], readings[n - 1], ids, n, |s.signals|);
    }
  }

  /** A tick in which no reading meets either rule leaves the ledger and the history untouched. */
  lemma {:induction false} QuietTickChangesNothing(s: BotState, readings: seq<Indicators>, ids: seq<PositionId>, n: nat)
    requires n <= |WatchList| == |readings| == |ids|
    requires forall k :: 0 <= k < |readings| ==> 30.0 <= readings[k].rsi <= 70.0
    ensures Tick(s, readings, ids, n) == s
  {
    if n > 0 {
      QuietTickChangesNothing(s, readings, ids, n - 1);
      SimulatedRsiNeverSignals(WatchList[n - 1], CurrentPrice(WatchList[n - 1]), readings[n - 1]);
    }
  }

  class AITradingBot {
    const engine: TradingEngine
    var enabled: bool
    var signals: seq<SignalRecord>

    constructor (engine: TradingEngine)
      ensures this.engine == engine && !enabled && signals == []
    {
      this.engine := engine;
      enabled := false;
      signals := [];
    }

    /** Sets the flag; starting and stopping the interval timer is not modelled. */
    method SetEnabled(enabled: bool)
      modifies this
      ensures this.enabled == enabled && signals == old(signals)
    {
      this.enabled := enabled;
    }

    /** Submits `signal` to the engine; a rejected order is swallowed and leaves the history as it was. */
    method ExecuteSignal(signal: Signal, id: PositionId)
      requires engine.Valid()
      modifies this, engine
      ensures engine.Valid() && enabled == old(enabled)
      ensures BotState(engine.State(), signals) == Execute(BotState(old(engine.State()), old(signals)), signal, id)
    {
      var r := engine.ExecuteMarketOrder(id, signal.symbol, signal.kind, LotSize, BotLeverage, None, None);
      if r.Ok? {
        signals := signals + [SignalRecord(signal, r.value.id)];
      }
    }

    /**
     * One analysis tick: nothing when disabled; otherwise each watched symbol
     * in turn, executing its signal if it has one.
     */
    method AnalyzeAndTrade(readings: seq<Indicators>, ids: seq<PositionId>)
      requires |readings| == |WatchList| && |ids| == |WatchList|
      requires engine.Valid()
      modifies this, engine
      ensures engine.Valid() && enabled == old(enabled)
      ensures !old(enabled) ==> engine.State() == old(engine.State()) && signals == old(signals)
      ensures old(enabled) ==>
        BotState(engine.State(), signals) == Tick(BotState(old(engine.State()), old(signals)), readings, ids, |WatchList|)
    {
      if !enabled {
        return;
      }
      var i := 0;
      while i < |WatchList|
        invariant 0 <= i <= |WatchList|
        invariant engine.Valid() && enabled == old(enabled)
        invariant BotState(engine.State(), signals) == Tick(BotState(old(engine.State()), old(signals)), readings, ids, i)
      {
        var symbol := WatchList[i];
        var signal := GenerateSignal(symbol, CurrentPrice(symbol), readings[i]);
        if signal.Some? {
          ExecuteSignal(signal.value, ids[i]);
        }
        i := i + 1;
      }
    }

    /** Whether the bot is on, how many signals it executed, and the latest of them. */
    function GetStatus(): (s: Status)
      reads this
      ensures s.enabled == enabled && s.signalsGenerated == |signals|
      ensures s.lastSignal.Some? <==> |signals| > 0
      ensures s.lastSignal.Some? ==> s.lastSignal.value == signals[|signals| - 1]
    {
      Status(enabled, |signals|, if |signals| > 0 then Some(signals[|signals| - 1]) else None)
    }
  }
}
