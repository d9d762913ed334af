/**
 * The terminal's own demo state (app.js): the catalogue of trading pairs,
 * the order form (`AppState.tradingData`) and the demo position list the
 * user opens and closes. The DOM work of each handler is not modelled.
 */
module App {
  import opened Wrappers
  import opened Prices
  import opened Seqs
  import opened Reals

  datatype AssetClass = Crypto | Forex | Commodity

  datatype TradingPair = TradingPair(id: int, symbol: Symbol, name: string, price: real, change: real, kind: AssetClass)

  /** 'long' / 'short' in the form, 'LONG' / 'SHORT' once stored in a position. */
  datatype PositionType = Long | Short

  datatype DemoPosition = DemoPosition(id: int, pair: Symbol, kind: PositionType, size: real,
                                       entry: real, current: real, pnl: real)

  /** What the order form shows for the selected pair. */
  datatype Preview = Preview(positionValue: real, marginRequired: real, fees: real)

  const FeeRate: real := 0.0004

  const InitialPairs: seq<TradingPair> := [
    TradingPair(1, "BTC/USDT", "Bitcoin", 43250.0, 2.45, Crypto),
    TradingPair(2, "ETH/USDT", "Ethereum", 2280.5, 1.82, Crypto),
    TradingPair(3, "BNB/USDT", "Binance Coin", 312.45, -0.56, Crypto),
    TradingPair(4, "XRP/USDT", "Ripple", 0.5234, 3.21, Crypto),
    TradingPair(5, "ADA/USDT", "Cardano", 0.4521, -1.23, Crypto),
    TradingPair(6, "SOL/USDT", "Solana", 98.76, 4.56, Crypto),
    TradingPair(7, "DOGE/USDT", "Dogecoin", 0.0823, 8.92, Crypto),
    TradingPair(8, "EUR/USD", "Euro/US Dollar", 1.0876, 0.12, Forex),
    TradingPair(9, "GBP/USD", "Pound/US Dollar", 1.2634, -0.23, Forex),
    TradingPair(10, "USD/JPY", "US Dollar/Yen", 149.82, 0.45, Forex),
    TradingPair(11, "GOLD", "Gold", 2034.5, 0.78, Commodity),
    TradingPair(12, "OIL", "Crude Oil", 78.45, -1.34, Commodity)
  ]

  const SamplePositions: seq<DemoPosition> := [
    DemoPosition(1, "BTC/USDT", Long, 0.5, 42500.0, 43250.0, 350.0),
    DemoPosition(2, "ETH/USDT", Short, 2.0, 2300.0, 2280.0, 40.0)
  ]

  // ---------------------------------------------------------------------
  // Lookups

  function PairIndexById(pairs: seq<TradingPair>, pairId: int): int
  {
    FirstIndex(pairs, (p: TradingPair) => p.id == pairId)
  }

  function PairIndexBySymbol(pairs: seq<TradingPair>, symbol: Symbol): int
  {
    FirstIndex(pairs, (p: TradingPair) => p.symbol == symbol)
  }

  function PositionIndexById(ps: seq<DemoPosition>, id: int): int
  {
    FirstIndex(ps, (p: DemoPosition) => p.id == id)
  }

  // ---------------------------------------------------------------------
  // The demo position list

  /** `executeTrade`: a fresh position at the pair's price goes to the front, numbered one past the list's length. */
  function WithTrade(ps: seq<DemoPosition>, pair: TradingPair, kind: PositionType, size: real): (r: seq<DemoPosition>)
    ensures |r| == |ps| + 1 && r[1..] == ps
    ensures r[0].id == |ps| + 1 && r[0].pair == pair.symbol && r[0].kind == kind && r[0].size == size
    ensures r[0].entry == pair.price && r[0].current == pair.price && r[0].pnl == 0.0
  {
    [DemoPosition(|ps| + 1, pair.symbol, kind, size, pair.price, pair.price, 0.0)] + ps
  }

  /** `closePosition`: the first position with `id` is removed, the others keep their order; an unknown id changes nothing. */
  function WithoutPosition(ps: seq<DemoPosition>, id: int): (r: seq<DemoPosition>)
    ensures (forall k :: 0 <= k < |ps| ==> ps[k].id != id) ==> r == ps
    ensures (exists k :: 0 <= k < |ps| && ps[k].id == id) ==>
      var i := PositionIndexById(ps, id);
      && |r| == |ps| - 1
      && ps[i].id == id && (forall k :: 0 <= k < i ==> ps[k].id != id)
      && (forall k :: 0 <= k < i ==> r[k] == ps[k])
      && (forall k :: i <= k < |r| ==> r[k] == ps[k + 1])
  {
    var i := PositionIndexById(ps, id);
    if i == -1 then ps else RemoveAt(ps, i)
  }

  /** Closing the position just opened restores the list, even when an older position carries the same id. */
  lemma CloseUndoesTrade(ps: seq<DemoPosition>, pair: TradingPair, kind: PositionType, size: real)
    ensures WithoutPosition(WithTrade(ps, pair, kind, size), |ps| + 1) == ps
  {
    var traded := WithTrade(ps, pair, kind, size);
    assert traded[0].id == |ps| + 1;
    assert PositionIndexById(traded, |ps| + 1) == 0;
  }

  /**
   * Ids come from the list's length, so after a close a new trade can reuse
   * the id of a position still open.
   */
  lemma IdsCanCollide()
    ensures
      var pair := InitialPairs[0];
      var afterClose := WithoutPosition(SamplePositions, 1);
      var afterTrade := WithTrade(afterClose, pair, Long, 0.01);
      |afterTrade| == 2 && afterTrade[0].id == afterTrade[1].id == 2
  {
    var afterClose := WithoutPosition(SamplePositions, 1);
    assert SamplePositions[0].id == 1;
    assert PositionIndexById(SamplePositions, 1) == 0;
    assert afterClose == [SamplePositions[1]];
  }

  /** Profit of a demo position, without leverage: long gains when the price rises, short when it falls. */
  function DemoPnL(kind: PositionType, entry: real, price: real, size: real): (r: real)
    ensures price == entry ==> r == 0.0
  {
    if kind == Long then (price - entry) * size else (entry - price) * size
  }

  /** A demo position marked at the price of the first pair with its symbol; untouched when no pair has it. */
  function Remark(p: DemoPosition, pairs: seq<TradingPair>): (q: DemoPosition)
    ensures PairIndexBySymbol(pairs, p.pair) == -1 ==> q == p
    ensures PairIndexBySymbol(pairs, p.pair) >= 0 ==>
      var price := pairs[PairIndexBySymbol(pairs, p.pair)].price;
      q == p.(current := price, pnl := DemoPnL(p.kind, p.entry, price, p.size))
  {
    var j := PairIndexBySymbol(pairs, p.pair);
    if j == -1 then p
    else p.(current := pairs[j].price, pnl := DemoPnL(p.kind, p.entry, pairs[j].price, p.size))
  }

  /** Every position re-marked against the pairs (`updatePositionsUI`). */
  function Remarked(ps: seq<DemoPosition>, pairs: seq<TradingPair>): (r: seq<DemoPosition>)
    ensures |r| == |ps|
    ensures forall k :: 0 <= k < |ps| ==> r[k] == Remark(ps[k], pairs)
  {
    seq(|ps|, k requires 0 <= k < |ps| => Remark(ps[k], pairs))
  }

  /**
   * Marking twice at the same prices is marking once, and marking changes
   * only `current` and `pnl`.
   */
  lemma RemarkedIdempotent(ps: seq<DemoPosition>, pairs: seq<TradingPair>)
    ensures Remarked(Remarked(ps, pairs), pairs) == Remarked(ps, pairs)
    ensures forall k :: 0 <= k < |ps| ==>
      var q := Remarked(ps, pairs)[k];
      q.id == ps[k].id && q.pair == ps[k].pair && q.kind == ps[k].kind && q.size == ps[k].size && q.entry == ps[k].entry
  {
    var once := Remarked(ps, pairs);
    forall k | 0 <= k < |ps| ensures Remark(once[k], pairs) == once[k] {
      assert once[k].pair == ps[k].pair;
    }
  }

  lemma DemoPnLDirection(entry: real, price: real, size: real)
    requires size > 0.0
    ensures DemoPnL(Long, entry, price, size) > 0.0 <==> price > entry
    ensures DemoPnL(Short, entry, price, size) > 0.0 <==> price < entry
  {
    var rise, fall := price - entry, entry - price;
    assert DemoPnL(Long, entry, price, size) == rise * size;
    assert DemoPnL(Short, entry, price, size) == fall * size;
    SignOfProduct(rise, size);
    SignOfProduct(fall, size);
  }

  /**
   * The sample positions show P&L 350 and 40; marked at the catalogue prices
   * they are worth (43250 - 42500) x 0.5 = 375 and (2300 - 2280.5) x 2 = 39.
   */
  lemma SampleMarksToCatalogue()
    ensures Remarked(SamplePositions, InitialPairs)[0].pnl == 375.0
    ensures Remarked(SamplePositions, InitialPairs)[1].pnl == 39.0
  {
    assert PairIndexBySymbol(InitialPairs, "BTC/USDT") == 0;
    assert InitialPairs[0].symbol != "ETH/USDT";
    assert PairIndexBySymbol(InitialPairs, "ETH/USDT") == 1;
  }

  /** The order form's figures: notional, the margin it needs (lot x price), and a 0.04% fee on the notional. */
  function PreviewFor(lotSize: real, price: real, leverage: int): (p: Preview)
    requires leverage != 0
    ensures p.marginRequired == lotSize * price
    ensures p.positionValue == p.marginRequired * leverage as real
    ensures p.fees == FeeRate * p.positionValue
  {
    var positionValue := lotSize * price * leverage as real;
    Preview(positionValue, positionValue / leverage as real, positionValue * FeeRate)
  }

  // ---------------------------------------------------------------------
  // The terminal's state

  class Terminal {
    var tradingPairs: seq<TradingPair>
    var positions: seq<DemoPosition>
    /** The index of the selected pair: the form keeps a reference to that pair, whose price moves with it. */
    var selectedPair: Option<nat>
    var positionType: PositionType
    var lotSize: real
    var leverage: int
    var isAIBotEnabled: bool

    ghost predicate Valid()
      reads this
    {
      (selectedPair.Some? ==> selectedPair.value < |tradingPairs|) && leverage != 0
    }

    constructor ()
      ensures Valid()
      ensures tradingPairs == InitialPairs && positions == SamplePositions && selectedPair == None
      ensures positionType == Long && lotSize == 0.01 && leverage == 10 && !isAIBotEnabled
    {
      tradingPairs := InitialPairs;
      positions := SamplePositions;
      selectedPair := None;
      positionType := Long;
      lotSize := 0.01;
      leverage := 10;
      isAIBotEnabled := false;
    }

    /** Selects the first pair with `pairId`; an unknown id keeps the current selection. */
    method SelectTradingPair(pairId: int)
      requires Valid()
      modifies this`selectedPair
      ensures Valid()
      ensures PairIndexById(tradingPairs, pairId) == -1 ==> selectedPair == old(selectedPair)
      ensures PairIndexById(tradingPairs, pairId) >= 0 ==>
        selectedPair == Some(PairIndexById(tradingPairs, pairId) as nat) && tradingPairs[selectedPair.value].id == pairId
    {
      var i := PairIndexById(tradingPairs, pairId);
      if i == -1 {
        return;
      }
      selectedPair := Some(i as nat);
    }

    /** Flips the bot flag when the toggle control exists; the bot itself is not started or stopped. */
    method ToggleAIBot(toggleExists: bool)
      modifies this`isAIBotEnabled
      ensures isAIBotEnabled == (if toggleExists then !old(isAIBotEnabled) else old(isAIBotEnabled))
    {
      if !toggleExists {
        return;
      }
      isAIBotEnabled := !isAIBotEnabled;
    }

    /** The order form's figures for the selected pair, none without a selection. */
    function PositionSummary(): (p: Option<Preview>)
      reads this
      requires Valid()
      ensures p.None? <==> selectedPair.None?
      ensures p.Some? ==> p.value.marginRequired == lotSize * tradingPairs[selectedPair.value].price
    {
      match selectedPair
      case None => None
      case Some(i) => Some(PreviewFor(lotSize, tradingPairs[i].price, leverage))
    }

    /** Opens a demo position on the selected pair at its current price; without a selection nothing changes. */
    method ExecuteTrade()
      requires Valid()
      modifies this`positions
      ensures selectedPair.None? ==> positions == old(positions)
      ensures selectedPair.Some? ==>
        positions == WithTrade(old(positions), tradingPairs[selectedPair.value], positionType, lotSize)
    {
      if selectedPair.None? {
        return;
      }
      var pair := tradingPairs[selectedPair.value];
      var newPosition := DemoPosition(|positions| + 1, pair.symbol, positionType, lotSize, pair.price, pair.price, 0.0);
      positions := [newPosition] + positions;
    }

    method ClosePosition(positionId: int)
      modifies this`positions
      ensures positions == WithoutPosition(old(positions), positionId)
    {
      var index := PositionIndexById(positions, positionId);
      if index != -1 {
        positions := positions[..index] + positions[index + 1..];
      }
    }

    /** Marks every demo position at the price of its pair, in place, one position at a time. */
    method UpdatePositionsUI()
      modifies this`positions
      ensures positions == Remarked(old(positions), tradingPairs)
    {
      var i := 0;
      while i < |positions|
        invariant 0 <= i <= |positions| == |old(positions)|
        invariant forall k :: 0 <= k < i ==> positions[k] == Remark(old(positions)[k], tradingPairs)
        invariant forall k :: i <= k < |positions| ==> positions[k] == old(positions)[k]
      {
        var position := positions[i];
        var j := PairIndexBySymbol(tradingPairs, position.pair);
        if j != -1 {
          var pair := tradingPairs[j];
          var pnl := DemoPnL(position.kind, position.entry, pair.price, position.size);
          positions := positions[i := position.(current := pair.price, pnl := pnl)];
        }
        i := i + 1;
      }
    }
  }
}
