/**
 * `TradingEngine`: the paper-trading ledger as an object whose fields the
 * operations update in place. Every method is proved against the matching
 * function of module Ledger and keeps the books balanced.
 */
module Engine {
  import opened Wrappers
  import opened Prices
  import opened Ledger

  /** What `closePosition` returns: the removed position, its realised P&L and the new balance. */
  datatype CloseReceipt = CloseReceipt(position: Position, pnl: real, balance: real)

  class TradingEngine {
    var positions: seq<Position>
    var orders: seq<Order>
    var balance: real
    var tradingProfits: real
    var tradeBalance: real

    /** The engine's fields as an account value. */
    function State(): Account
      reads this
    {
      Account(balance, positions, orders, tradingProfits, tradeBalance)
    }

    ghost predicate Valid()
      reads this
    {
      Books(State())
    }

    constructor ()
      ensures State() == Fresh() && Valid()
    {
      positions := [];
      orders := [];
      balance := InitialBalance;
      tradingProfits := 0.0;
      tradeBalance := 0.0;
    }

    /**
     * Opens a position of `quantity` at the table quote of `symbol` under the
     * fresh id `id`, or fails with InsufficientBalance and changes nothing.
     */
    method ExecuteMarketOrder(id: PositionId, symbol: Symbol, side: Side, quantity: real, leverage: real,
                              stopLoss: Option<real>, takeProfit: Option<real>)
      returns (r: Result<Position, LedgerError>)
      requires Valid() && leverage != 0.0
      modifies this
      ensures Valid()
      ensures r.Err? <==> quantity * CurrentPrice(symbol) > old(balance)
      ensures r.Ok? ==> balance == old(balance) - quantity * CurrentPrice(symbol)
                        && positions == old(positions) + [r.value]
      ensures
        var outcome := OpenMarket(Table, old(State()), id, symbol, side, quantity, leverage, stopLoss, takeProfit);
        match outcome
        case Ok(o) => r == Ok(o.position) && State() == o.account
        case Err(e) => r == Err(e) && State() == old(State())
    {
      ghost var outcome := OpenMarket(Table, State(), id, symbol, side, quantity, leverage, stopLoss, takeProfit);
      var currentPrice := CurrentPrice(symbol);
      var margin := MarginFor(quantity, currentPrice, leverage);
      if margin > balance {
        return Err(InsufficientBalance);
      }
      var position := Position(id, symbol, side, quantity, currentPrice, currentPrice, leverage, margin,
                               stopLoss, takeProfit, 0.0, 0.0, Open);
      assert outcome.Ok? && outcome.value.position == position;
      OpenKeepsBooks(Table, State(), id, symbol, side, quantity, leverage, stopLoss, takeProfit);
      balance := balance - margin;
      positions := positions + [position];
      r := Ok(position);
    }

    /** Appends a PENDING LIMIT order; no balance check, nothing reserved. */
    method ExecuteLimitOrder(id: OrderId, symbol: Symbol, side: Side, quantity: real, price: real,
                             leverage: real, stopLoss: Option<real>, takeProfit: Option<real>)
      returns (order: Order)
      requires Valid()
      modifies this
      ensures Valid()
      ensures order.kind == Limit && order.status == Pending
      ensures orders == old(orders) + [order]
      ensures balance == old(balance) && positions == old(positions)
      ensures
        var placed := PlaceOrder(old(State()), id, Limit, symbol, side, quantity, price, leverage, stopLoss, takeProfit);
        State() == placed.account && order == placed.order
    {
      order := Order(id, Limit, symbol, side, quantity, price, leverage, stopLoss, takeProfit, Pending);
      orders := orders + [order];
    }

    /** Appends a PENDING STOP order; no balance check, nothing reserved. */
    method ExecuteStopOrder(id: OrderId, symbol: Symbol, side: Side, quantity: real, stopPrice: real,
                            leverage: real, stopLoss: Option<real>, takeProfit: Option<real>)
      returns (order: Order)
      requires Valid()
      modifies this
      ensures Valid()
      ensures order.kind == Stop && order.status == Pending
      ensures orders == old(orders) + [order]
      ensures balance == old(balance) && positions == old(positions)
      ensures
        var placed := PlaceOrder(old(State()), id, Stop, symbol, side, quantity, stopPrice, leverage, stopLoss, takeProfit);
        State() == placed.account && order == placed.order
    {
      order := Order(id, Stop, symbol, side, quantity, stopPrice, leverage, stopLoss, takeProfit, Pending);
      orders := orders + [order];
    }

    /** Realises the first position with `id`, or fails with PositionNotFound and changes nothing. */
    method ClosePosition(id: PositionId) returns (r: Result<CloseReceipt, LedgerError>)
      requires Valid()
      modifies this
      ensures Valid()
      ensures
        match Ledger.ClosePosition(Table, old(State()), id)
        case Err(e) => r == Err(e) && State() == old(State())
        case Ok(c) => r == Ok(CloseReceipt(c.position, c.pnl, c.account.balance)) && State() == c.account
    {
      var positionIndex := IndexOf(positions, id);
      if positionIndex == -1 {
        assert Ledger.ClosePosition(Table, State(), id) == Err(PositionNotFound);
        return Err(PositionNotFound);
      }
      CloseAt(Table, State(), id);
      CloseKeepsBooks(Table, State(), id);
      var position := positions[positionIndex];
      var currentPrice := CurrentPrice(position.symbol);
      var pnl := PnL(position.side, position.entryPrice, currentPrice, position.quantity, position.leverage);
      balance := balance + (position.margin + pnl);
      tradingProfits := tradingProfits + pnl;
      tradeBalance := tradeBalance + pnl;
      positions := positions[..positionIndex] + positions[positionIndex + 1..];
      r := Ok(CloseReceipt(position, pnl, balance));
    }

    /**
     * Marks the first position with `id` at its table quote in place, then
     * closes it on a crossed stop-loss, else on a crossed take-profit.
     */
    method UpdatePosition(id: PositionId) returns (outcome: UpdateOutcome)
      requires Valid() && Markable(State(), id)
      modifies this
      ensures Valid()
      ensures
        var u := Ledger.UpdatePosition(Table, old(State()), id);
        State() == u.account && outcome == u.outcome
    {
      var i := IndexOf(positions, id);
      if i == -1 {
        return NotFound;
      }
      ghost var before := State();
      ghost var marked := MarkAt(Table, before, i);
      var position := positions[i];
      var currentPrice := CurrentPrice(position.symbol);
      var pnl := PnL(position.side, position.entryPrice, currentPrice, position.quantity, position.leverage);
      position := position.(currentPrice := currentPrice, pnl := pnl, pnlPercent := pnl / position.margin * 100.0);
      assert position == Remark(before.positions[i], currentPrice);
      TotalMarginReplace(positions, i, position);
      positions := positions[i := position];
      assert State() == marked;
      UpdateKeepsBooks(Table, before, id);

      if IsSet(position.stopLoss) && currentPrice <= position.stopLoss.value {
        var _ := ClosePosition(id);
        return ClosedOut(StopLossHit);
      }
      if IsSet(position.takeProfit) && currentPrice >= position.takeProfit.value {
        var _ := ClosePosition(id);
        return ClosedOut(TakeProfitHit);
      }
      outcome := StillOpen(position);
    }

    /** Closes the first position with `id` when its quote is at or below its liquidation price. */
    method CheckLiquidation(id: PositionId) returns (liquidated: bool)
      requires Valid()
      modifies this
      ensures Valid()
      ensures
        var c := Ledger.CheckLiquidation(Table, old(State()), id);
        State() == c.account && liquidated == c.liquidated
    {
      var i := IndexOf(positions, id);
      if i == -1 {
        return false;
      }
      var position := positions[i];
      var currentPrice := CurrentPrice(position.symbol);
      var liquidationPrice := LiquidationPrice(position.side, position.entryPrice);
      if currentPrice <= liquidationPrice {
        var _ := ClosePosition(id);
        return true;
      }
      liquidated := false;
    }

    /**
     * The account totals. The available balance subtracts the open margins
     * from a balance that is already net of them, so under the books it
     * counts every open margin twice.
     */
    function GetAccountSummary(): (s: Summary)
      reads this
      ensures s.balance == balance && s.tradingProfits == tradingProfits && s.tradeBalance == tradeBalance
      ensures s.openPositions == |positions| && s.openPositionsValue == TotalMargin(positions)
      ensures s.totalPnL == TotalPnL(positions)
      ensures s.availableBalance == balance - TotalMargin(positions)
      ensures Valid() ==> s.availableBalance == InitialBalance + tradingProfits - 2.0 * TotalMargin(positions)
    {
      AccountSummary(State())
    }

    /** The closed-position history, which the engine does not keep. */
    method GetPositionHistory() returns (history: seq<Position>)
      ensures history == []
    {
      history := [];
    }
  }
}
