/**
 * The paper-trading ledger of `TradingEngine` as values: an account holds a
 * free balance, the open positions, the pending orders and two realised-P&L
 * accumulators. Each engine operation is a function from the old account to
 * the new one; the class in engine.dfy is proved against these functions.
 */
module Ledger {
  import opened Wrappers
  import opened Prices
  import opened Seqs
  import opened Reals

  /** Position ids; the engine draws them at random, here they are supplied by the caller. */
  type PositionId = string

  /** Order ids, drawn the same way. */
  type OrderId = string

  /** 'BUY' or any other side string, which every formula treats as a sell. */
  datatype Side = Buy | Sell

  datatype PositionStatus = Open

  datatype Position = Position(
    id: PositionId,
    symbol: Symbol,
    side: Side,
    quantity: real,
    entryPrice: real,
    currentPrice: real,
    leverage: real,
    margin: real,
    stopLoss: Option<real>,
    takeProfit: Option<real>,
    pnl: real,
    pnlPercent: real,
    status: PositionStatus)

  datatype OrderKind = Limit | Stop

  datatype OrderStatus = Pending

  /** A resting order; `target` is the limit price of a LIMIT order and the stop price of a STOP order. */
  datatype Order = Order(
    id: OrderId,
    kind: OrderKind,
    symbol: Symbol,
    side: Side,
    quantity: real,
    target: real,
    leverage: real,
    stopLoss: Option<real>,
    takeProfit: Option<real>,
    status: OrderStatus)

  datatype Account = Account(
    balance: real,
    positions: seq<Position>,
    orders: seq<Order>,
    tradingProfits: real,
    tradeBalance: real)

  datatype LedgerError = InsufficientBalance | PositionNotFound

  const InitialBalance: real := 10000.0

  /** The maintenance margin behind the liquidation price: 0.5%. */
  const MaintenanceMargin: real := 0.005

  /** A new engine: 10000 free, nothing open, nothing realised. */
  function Fresh(): Account
  {
    Account(InitialBalance, [], [], 0.0, 0.0)
  }

  // ---------------------------------------------------------------------
  // Profit and loss

  /** Profit of `quantity` units at `leverage` marked from `entry` to `price`. */
  function PnL(side: Side, entry: real, price: real, quantity: real, leverage: real): (r: real)
    ensures price == entry ==> r == 0.0
  {
    match side
    case Buy => (price - entry) * quantity * leverage
    case Sell => (entry - price) * quantity * leverage
  }

  /** A long position profits exactly when the price rose, a short one exactly when it fell, and the two are mirror images. */
  lemma PnLDirection(entry: real, price: real, quantity: real, leverage: real)
    requires quantity * leverage > 0.0
    ensures PnL(Buy, entry, price, quantity, leverage) > 0.0 <==> price > entry
    ensures PnL(Sell, entry, price, quantity, leverage) > 0.0 <==> price < entry
    ensures PnL(Sell, entry, price, quantity, leverage) == -PnL(Buy, entry, price, quantity, leverage)
  {
    var exposure, rise, fall := quantity * leverage, price - entry, entry - price;
    assert PnL(Buy, entry, price, quantity, leverage) == rise * exposure;
    assert PnL(Sell, entry, price, quantity, leverage) == fall * exposure;
    SignOfProduct(rise, exposure);
    SignOfProduct(fall, exposure);
  }

  /** Margin reserved by a market order: its notional divided by its leverage, which is quantity times price. */
  function MarginFor(quantity: real, price: real, leverage: real): (m: real)
    requires leverage != 0.0
    ensures m == quantity * price
  {
    var positionValue := quantity * price * leverage;
    positionValue / leverage
  }

  // ---------------------------------------------------------------------
  // Lookup and totals

  /** `positions.findIndex(p => p.id === id)`. */
  function IndexOf(ps: seq<Position>, id: PositionId): (i: int)
    ensures -1 <= i < |ps|
    ensures i == -1 <==> forall k :: 0 <= k < |ps| ==> ps[k].id != id
    ensures 0 <= i ==> ps[i].id == id && forall k :: 0 <= k < i ==> ps[k].id != id
  {
    FirstIndex(ps, (p: Position) => p.id == id)
  }

  /** Replacing positions by positions with the same ids does not move the first match. */
  lemma IndexOfSameIds(ps: seq<Position>, qs: seq<Position>, id: PositionId)
    requires |ps| == |qs|
    requires forall k :: 0 <= k < |ps| ==> ps[k].id == qs[k].id
    ensures IndexOf(ps, id) == IndexOf(qs, id)
  {
    FirstIndexAgrees(ps, qs, (p: Position) => p.id == id);
  }

  /** No open position holds a negative margin, as none does when every order had a non-negative quantity and quote. */
  predicate MarginsNonNegative(ps: seq<Position>)
  {
    forall k :: 0 <= k < |ps| ==> ps[k].margin >= 0.0
  }

  /** Sum of the margins of `ps` (`reduce((sum, p) => sum + p.margin, 0)`). */
  function TotalMargin(ps: seq<Position>): (t: real)
    ensures MarginsNonNegative(ps) ==> t >= 0.0
    ensures |ps| == 1 ==> t == ps[0].margin
  {
    if ps == [] then 0.0 else ps[0].margin + TotalMargin(ps[1..])
  }

  /** Sum of the marked P&L of `ps` (`reduce((sum, p) => sum + p.pnl, 0)`). */
  function TotalPnL(ps: seq<Position>): (t: real)
    ensures (forall k :: 0 <= k < |ps| ==> ps[k].pnl == 0.0) ==> t == 0.0
    ensures (forall k :: 0 <= k < |ps| ==> ps[k].pnl >= 0.0) ==> t >= 0.0
    ensures (forall k :: 0 <= k < |ps| ==> ps[k].pnl <= 0.0) ==> t <= 0.0
  {
    if ps == [] then 0.0 else ps[0].pnl + TotalPnL(ps[1..])
  }

  lemma {:induction false} TotalMarginAppend(ps: seq<Position>, p: Position)
    ensures TotalMargin(ps + [p]) == TotalMargin(ps) + p.margin
  {
    if ps != [] {
      assert (ps + [p])[1..] == ps[1..] + [p];
      TotalMarginAppend(ps[1..], p);
    }
  }

  lemma {:induction false} TotalMarginRemove(ps: seq<Position>, i: nat)
    requires i < |ps|
    ensures TotalMargin(RemoveAt(ps, i)) == TotalMargin(ps) - ps[i].margin
  {
    if i == 0 {
      assert RemoveAt(ps, 0) == ps[1..];
    } else {
      assert RemoveAt(ps, i) == [ps[0]] + RemoveAt(ps[1..], i - 1);
      TotalMarginRemove(ps[1..], i - 1);
    }
  }

  lemma {:induction false} TotalMarginReplace(ps: seq<Position>, i: nat, q: Position)
    requires i < |ps| && q.margin == ps[i].margin
    ensures TotalMargin(ps[i := q]) == TotalMargin(ps)
  {
    if i == 0 {
      assert ps[i := q][1..] == ps[1..];
    } else {
      assert ps[i := q][1..] == ps[1..][i - 1 := q];
      TotalMarginReplace(ps[1..], i - 1, q);
    }
  }

  // ---------------------------------------------------------------------
  // The books: every unit of the initial balance is either free, reserved
  // as margin of an open position, or was won or lost by a closed one.

  ghost predicate Books(a: Account)
  {
    && a.balance + TotalMargin(a.positions) == InitialBalance + a.tradingProfits
    && a.tradeBalance == a.tradingProfits
  }

  lemma FreshBooks()
    ensures Books(Fresh())
  {
  }

  // ---------------------------------------------------------------------
  // executeMarketOrder

  datatype Opened = Opened(account: Account, position: Position)

  /**
   * A market order at the current quote: reserves quantity x price of the
   * balance and appends an open position, or fails when that margin exceeds
   * the balance (a margin equal to the balance is accepted).
   */
  function OpenMarket(quotes: Quotes, a: Account, id: PositionId, symbol: Symbol, side: Side,
                      quantity: real, leverage: real, stopLoss: Option<real>, takeProfit: Option<real>)
    : (r: Result<Opened, LedgerError>)
    requires leverage != 0.0
    ensures r.Err? <==> quantity * PriceOf(quotes, symbol) > a.balance
    ensures r.Err? ==> r.error == InsufficientBalance
    ensures r.Ok? ==>
      var price, p, b := PriceOf(quotes, symbol), r.value.position, r.value.account;
      && b.balance == a.balance - quantity * price
      && b.positions == a.positions + [p]
      && b.orders == a.orders
      && b.tradingProfits == a.tradingProfits && b.tradeBalance == a.tradeBalance
      && p.id == id && p.symbol == symbol && p.side == side && p.quantity == quantity
      && p.leverage == leverage && p.stopLoss == stopLoss && p.takeProfit == takeProfit
      && p.entryPrice == price && p.currentPrice == price && p.margin == quantity * price
      && p.pnl == 0.0 && p.pnlPercent == 0.0 && p.status == Open
  {
    var price := PriceOf(quotes, symbol);
    var margin := MarginFor(quantity, price, leverage);
    if margin > a.balance then
      Err(InsufficientBalance)
    else
      var p := Position(id, symbol, side, quantity, price, price, leverage, margin,
                        stopLoss, takeProfit, 0.0, 0.0, Open);
      Ok(Opened(a.(balance := a.balance - margin, positions := a.positions + [p]), p))
  }

  lemma OpenKeepsBooks(quotes: Quotes, a: Account, id: PositionId, symbol: Symbol, side: Side,
                       quantity: real, leverage: real, stopLoss: Option<real>, takeProfit: Option<real>)
    requires Books(a) && leverage != 0.0
    ensures
      var r := OpenMarket(quotes, a, id, symbol, side, quantity, leverage, stopLoss, takeProfit);
      r.Ok? ==> Books(r.value.account)
  {
    var r := OpenMarket(quotes, a, id, symbol, side, quantity, leverage, stopLoss, takeProfit);
    if r.Ok? {
      TotalMarginAppend(a.positions, r.value.position);
    }
  }

  // ---------------------------------------------------------------------
  // executeLimitOrder / executeStopOrder

  datatype Placed = Placed(account: Account, order: Order)

  /** A resting LIMIT or STOP order: appended as PENDING, with no balance check and no margin reserved. */
  function PlaceOrder(a: Account, id: OrderId, kind: OrderKind, symbol: Symbol, side: Side,
                      quantity: real, target: real, leverage: real,
                      stopLoss: Option<real>, takeProfit: Option<real>): (r: Placed)
    ensures r.account.orders == a.orders + [r.order]
    ensures r.account.balance == a.balance && r.account.positions == a.positions
    ensures r.account.tradingProfits == a.tradingProfits && r.account.tradeBalance == a.tradeBalance
    ensures r.order.kind == kind && r.order.status == Pending && r.order.id == id
    ensures r.order.symbol == symbol && r.order.side == side && r.order.quantity == quantity
    ensures r.order.target == target && r.order.leverage == leverage
    ensures r.order.stopLoss == stopLoss && r.order.takeProfit == takeProfit
  {
    var o := Order(id, kind, symbol, side, quantity, target, leverage, stopLoss, takeProfit, Pending);
    Placed(a.(orders := a.orders + [o]), o)
  }

  lemma PlaceKeepsBooks(a: Account, id: OrderId, kind: OrderKind, symbol: Symbol, side: Side,
                        quantity: real, target: real, leverage: real,
                        stopLoss: Option<real>, takeProfit: Option<real>)
    requires Books(a)
    ensures Books(PlaceOrder(a, id, kind, symbol, side, quantity, target, leverage, stopLoss, takeProfit).account)
  {
  }

  // ---------------------------------------------------------------------
  // closePosition

  datatype Closed = Closed(account: Account, position: Position, pnl: real)

  /**
   * Realises the first position with `id` at the current quote: credits its
   * margin plus its P&L, adds the P&L to both accumulators and removes it.
   */
  function ClosePosition(quotes: Quotes, a: Account, id: PositionId): (r: Result<Closed, LedgerError>)
    ensures r.Err? <==> forall k :: 0 <= k < |a.positions| ==> a.positions[k].id != id
    ensures r.Err? ==> r.error == PositionNotFound
    ensures r.Ok? ==>
      var i := IndexOf(a.positions, id);
      var p, b, pnl := a.positions[i], r.value.account, r.value.pnl;
      && r.value.position == p
      && pnl == PnL(p.side, p.entryPrice, PriceOf(quotes, p.symbol), p.quantity, p.leverage)
      && b.balance == a.balance + p.margin + pnl
      && b.tradingProfits == a.tradingProfits + pnl
      && b.tradeBalance == a.tradeBalance + pnl
      && b.positions == RemoveAt(a.positions, i)
      && b.orders == a.orders
  {
    var i := IndexOf(a.positions, id);
    if i == -1 then
      Err(PositionNotFound)
    else
      var p := a.positions[i];
      var pnl := PnL(p.side, p.entryPrice, PriceOf(quotes, p.symbol), p.quantity, p.leverage);
      Ok(Closed(a.(balance := a.balance + (p.margin + pnl),
                   positions := RemoveAt(a.positions, i),
                   tradingProfits := a.tradingProfits + pnl,
                   tradeBalance := a.tradeBalance + pnl),
                p, pnl))
  }

  /** The account `ClosePosition` leaves when the id is found, spelled out field by field. */
  lemma CloseAt(quotes: Quotes, a: Account, id: PositionId)
    requires IndexOf(a.positions, id) >= 0
    ensures
      var i := IndexOf(a.positions, id);
      var p := a.positions[i];
      var pnl := PnL(p.side, p.entryPrice, PriceOf(quotes, p.symbol), p.quantity, p.leverage);
      ClosePosition(quotes, a, id) ==
        Ok(Closed(Account(a.balance + (p.margin + pnl), a.positions[..i] + a.positions[i + 1..], a.orders,
                          a.tradingProfits + pnl, a.tradeBalance + pnl), p, pnl))
  {
  }

  lemma CloseKeepsBooks(quotes: Quotes, a: Account, id: PositionId)
    requires Books(a)
    ensures ClosePosition(quotes, a, id).Ok? ==> Books(ClosePosition(quotes, a, id).value.account)
  {
    var i := IndexOf(a.positions, id);
    if i != -1 {
      TotalMarginRemove(a.positions, i);
    }
  }

  /** Opening a position under a fresh id and closing it at the same quote realises nothing and restores the account exactly. */
  lemma {:induction false} OpenThenCloseRestoresBalance(quotes: Quotes, a: Account, id: PositionId, symbol: Symbol,
                                    side: Side, quantity: real, leverage: real,
                                    stopLoss: Option<real>, takeProfit: Option<real>)
    requires leverage != 0.0
    requires forall k :: 0 <= k < |a.positions| ==> a.positions[k].id != id
    requires OpenMarket(quotes, a, id, symbol, side, quantity, leverage, stopLoss, takeProfit).Ok?
    ensures
      var afterOpen := OpenMarket(quotes, a, id, symbol, side, quantity, leverage, stopLoss, takeProfit).value.account;
      var c := ClosePosition(quotes, afterOpen, id);
      c.Ok? && c.value.pnl == 0.0 && c.value.account == a
  {
    var o := OpenMarket(quotes, a, id, symbol, side, quantity, leverage, stopLoss, takeProfit).value;
    var ps := o.account.positions;
    assert ps[|a.positions|].id == id;
    assert IndexOf(ps, id) == |a.positions|;
    assert RemoveAt(ps, |a.positions|) == a.positions;
  }

  // ---------------------------------------------------------------------
  // updatePosition

  datatype ExitReason = StopLossHit | TakeProfitHit

  /** What `updatePosition` returns: null, the re-marked open position, or the reason it was closed. */
  datatype UpdateOutcome = NotFound | StillOpen(position: Position) | ClosedOut(reason: ExitReason)

  datatype Updated = Updated(account: Account, outcome: UpdateOutcome)

  /** JavaScript truthiness of an optional price level: neither null nor zero. */
  predicate IsSet(level: Option<real>)
  {
    level.Some? && level.value != 0.0
  }

  /** The position marked at `price`: current price, P&L and P&L as a percentage of margin. */
  function Remark(p: Position, price: real): (q: Position)
    requires p.margin != 0.0
    ensures q == p.(currentPrice := q.currentPrice, pnl := q.pnl, pnlPercent := q.pnlPercent)
    ensures q.currentPrice == price
    ensures q.pnl == PnL(p.side, p.entryPrice, price, p.quantity, p.leverage)
    ensures q.pnlPercent * p.margin == q.pnl * 100.0
  {
    var pnl := PnL(p.side, p.entryPrice, price, p.quantity, p.leverage);
    p.(currentPrice := price, pnl := pnl, pnlPercent := pnl / p.margin * 100.0)
  }

  /** The position `updatePosition(id)` would mark has a margin to divide by. */
  predicate Markable(a: Account, id: PositionId)
  {
    var i := IndexOf(a.positions, id);
    i >= 0 ==> a.positions[i].margin != 0.0
  }

  /** The account with the first position with `id` marked at its current quote. */
  function MarkAt(quotes: Quotes, a: Account, i: nat): (b: Account)
    requires i < |a.positions| && a.positions[i].margin != 0.0
    ensures |b.positions| == |a.positions|
    ensures forall k :: 0 <= k < |a.positions| ==> b.positions[k].id == a.positions[k].id
  {
    var p := a.positions[i];
    a.(positions := a.positions[i := Remark(p, PriceOf(quotes, p.symbol))])
  }

  /**
   * Re-marks the first position with `id`, then closes it when the stop-loss
   * is set and the price is at or below it, else when the take-profit is set
   * and the price is at or above it; both tests ignore the side.
   */
  function UpdatePosition(quotes: Quotes, a: Account, id: PositionId): (r: Updated)
    requires Markable(a, id)
    ensures IndexOf(a.positions, id) == -1 ==> r == Updated(a, NotFound)
    ensures IndexOf(a.positions, id) >= 0 ==>
      var i := IndexOf(a.positions, id);
      var p := a.positions[i];
      var price := PriceOf(quotes, p.symbol);
      var marked := MarkAt(quotes, a, i);
      var slHit := IsSet(p.stopLoss) && price <= p.stopLoss.value;
      var tpHit := IsSet(p.takeProfit) && price >= p.takeProfit.value;
      && ClosePosition(quotes, marked, id).Ok?
      && (slHit ==> r == Updated(ClosePosition(quotes, marked, id).value.account, ClosedOut(StopLossHit)))
      && (!slHit && tpHit ==> r == Updated(ClosePosition(quotes, marked, id).value.account, ClosedOut(TakeProfitHit)))
      && (!slHit && !tpHit ==> r == Updated(marked, StillOpen(marked.positions[i])))
  {
    var i := IndexOf(a.positions, id);
    if i == -1 then
      Updated(a, NotFound)
    else
      var p := a.positions[i];
      var price := PriceOf(quotes, p.symbol);
      var marked := MarkAt(quotes, a, i);
      IndexOfSameIds(a.positions, marked.positions, id);
      if IsSet(p.stopLoss) && price <= p.stopLoss.value then
        Updated(ClosePosition(quotes, marked, id).value.account, ClosedOut(StopLossHit))
      else if IsSet(p.takeProfit) && price >= p.takeProfit.value then
        Updated(ClosePosition(quotes, marked, id).value.account, ClosedOut(TakeProfitHit))
      else
        Updated(marked, StillOpen(marked.positions[i]))
  }

  /**
   * A crossed stop-loss closes the position whatever the take-profit says,
   * and when no other open position shares its id a closed position is gone.
   */
  lemma StopLossBeforeTakeProfit(quotes: Quotes, a: Account, id: PositionId)
    requires Markable(a, id)
    requires forall k :: 0 <= k < |a.positions| && a.positions[k].id == id ==> k == IndexOf(a.positions, id)
    ensures
      var r := UpdatePosition(quotes, a, id);
      && (r.outcome.ClosedOut? ==> forall k :: 0 <= k < |r.account.positions| ==> r.account.positions[k].id != id)
      && (IndexOf(a.positions, id) >= 0 ==>
            var p := a.positions[IndexOf(a.positions, id)];
            IsSet(p.stopLoss) && PriceOf(quotes, p.symbol) <= p.stopLoss.value ==> r.outcome == ClosedOut(StopLossHit))
  {
    var i := IndexOf(a.positions, id);
    if i >= 0 {
      var marked := MarkAt(quotes, a, i);
      IndexOfSameIds(a.positions, marked.positions, id);
      var c := ClosePosition(quotes, marked, id).value.account;
      forall k | 0 <= k < |c.positions| ensures c.positions[k].id != id {
        if k < i {
          assert c.positions[k].id == a.positions[k].id;
        } else {
          assert c.positions[k].id == a.positions[k + 1].id;
        }
      }
    }
  }

  lemma UpdateKeepsBooks(quotes: Quotes, a: Account, id: PositionId)
    requires Books(a) && Markable(a, id)
    ensures Books(UpdatePosition(quotes, a, id).account)
  {
    var i := IndexOf(a.positions, id);
    if i >= 0 {
      var p := a.positions[i];
      var marked := MarkAt(quotes, a, i);
      TotalMarginReplace(a.positions, i, Remark(p, PriceOf(quotes, p.symbol)));
      CloseKeepsBooks(quotes, marked, id);
    }
  }

  // ---------------------------------------------------------------------
  // calculateLiquidationPrice / checkLiquidation

  /** 0.5% below the entry of a long position, 0.5% above the entry of a short one. */
  function LiquidationPrice(side: Side, entry: real): (r: real)
    ensures side == Buy ==> entry - r == entry / 200.0
    ensures side == Sell ==> r - entry == entry / 200.0
    ensures entry > 0.0 ==> (side == Buy <==> r < entry) && (side == Sell <==> r > entry)
  {
    match side
    case Buy => entry * (1.0 - MaintenanceMargin)
    case Sell => entry * (1.0 + MaintenanceMargin)
  }

  datatype Checked = Checked(account: Account, liquidated: bool)

  /**
   * Closes the first position with `id` through `ClosePosition` when the
   * current quote is at or below its liquidation price, the same test for
   * both sides.
   */
  function CheckLiquidation(quotes: Quotes, a: Account, id: PositionId): (r: Checked)
    ensures r.liquidated <==>
      var i := IndexOf(a.positions, id);
      i >= 0 && PriceOf(quotes, a.positions[i].symbol) <= LiquidationPrice(a.positions[i].side, a.positions[i].entryPrice)
    ensures r.liquidated ==> ClosePosition(quotes, a, id).Ok? && r.account == ClosePosition(quotes, a, id).value.account
    ensures !r.liquidated ==> r.account == a
  {
    var i := IndexOf(a.positions, id);
    if i == -1 then
      Checked(a, false)
    else
      var p := a.positions[i];
      if PriceOf(quotes, p.symbol) <= LiquidationPrice(p.side, p.entryPrice) then
        Checked(ClosePosition(quotes, a, id).value.account, true)
      else
        Checked(a, false)
  }

  lemma LiquidationKeepsBooks(quotes: Quotes, a: Account, id: PositionId)
    requires Books(a)
    ensures Books(CheckLiquidation(quotes, a, id).account)
  {
    CloseKeepsBooks(quotes, a, id);
  }

  /**
   * Because the short side is tested with the same `<=` as the long side, a
   * short position that was just opened at a positive quote is liquidated by
   * the very next check, while a fresh long position is not.
   */
  lemma {:induction false} FreshPositionLiquidation(quotes: Quotes, a: Account, id: PositionId, symbol: Symbol,
                                                   side: Side, quantity: real, leverage: real)
    requires leverage != 0.0 && PriceOf(quotes, symbol) > 0.0
    requires forall k :: 0 <= k < |a.positions| ==> a.positions[k].id != id
    requires OpenMarket(quotes, a, id, symbol, side, quantity, leverage, None, None).Ok?
    ensures
      var afterOpen := OpenMarket(quotes, a, id, symbol, side, quantity, leverage, None, None).value.account;
      CheckLiquidation(quotes, afterOpen, id).liquidated <==> side == Sell
  {
    var o := OpenMarket(quotes, a, id, symbol, side, quantity, leverage, None, None).value;
    var ps := o.account.positions;
    assert ps[|a.positions|].id == id;
    assert IndexOf(ps, id) == |a.positions|;
  }

  // ---------------------------------------------------------------------
  // getAccountSummary

  datatype Summary = Summary(
    balance: real,
    tradingProfits: real,
    tradeBalance: real,
    openPositions: nat,
    openPositionsValue: real,
    totalPnL: real,
    availableBalance: real)

  /** Totals over the open positions; the available balance subtracts their margins from the balance. */
  function AccountSummary(a: Account): (s: Summary)
    ensures s.balance == a.balance && s.tradingProfits == a.tradingProfits && s.tradeBalance == a.tradeBalance
    ensures s.openPositions == |a.positions|
    ensures s.openPositionsValue == TotalMargin(a.positions) && s.totalPnL == TotalPnL(a.positions)
    ensures s.availableBalance == a.balance - s.openPositionsValue
  {
    var openPositionsValue := TotalMargin(a.positions);
    Summary(a.balance, a.tradingProfits, a.tradeBalance, |a.positions|,
            openPositionsValue, TotalPnL(a.positions), a.balance - openPositionsValue)
  }

  /**
   * The balance has already been debited with every open margin, so the
   * summary's available balance counts each open margin twice.
   */
  lemma AvailableBalanceCountsMarginTwice(a: Account)
    requires Books(a)
    ensures AccountSummary(a).availableBalance == InitialBalance + a.tradingProfits - 2.0 * TotalMargin(a.positions)
  {
  }
}
