/**
 * `RiskManager`: static order limits and a daily-loss accumulator. Order
 * validation reports every violated limit, in a fixed order, and changes
 * nothing.
 */
module Risk {

  datatype Violation = PositionSizeExceeded | LeverageExceeded | DailyLossLimitReached

  /** The order in which `ValidateOrder` reports the violations. */
  function Rank(v: Violation): nat
  {
    match v
    case PositionSizeExceeded => 0
    case LeverageExceeded => 1
    case DailyLossLimitReached => 2
  }

  datatype Verdict = Verdict(valid: bool, errors: seq<Violation>)

  class RiskManager {
    /** Largest notional (quantity x price x leverage) an order may have. */
    const maxPositionSize: real := 1000.0
    const maxLeverage: real := 100.0
    /** Configured, but no check reads it. */
    const maxPositionsPerSymbol: nat := 3
    const maxDailyLoss: real := 500.0
    var dailyLoss: real

    constructor ()
      ensures dailyLoss == 0.0
    {
      dailyLoss := 0.0;
    }

    /**
     * Every limit the order breaks, in the order size, leverage, daily loss:
     * all three are checked, none stops the others. The order is valid
     * exactly when none is broken.
     */
    function ValidateOrder(quantity: real, price: real, leverage: real): (v: Verdict)
      reads this
      ensures v.valid <==> |v.errors| == 0
      ensures PositionSizeExceeded in v.errors <==> quantity * price * leverage > maxPositionSize
      ensures LeverageExceeded in v.errors <==> leverage > maxLeverage
      ensures DailyLossLimitReached in v.errors <==> dailyLoss >= maxDailyLoss
      ensures forall j, k :: 0 <= j < k < |v.errors| ==> Rank(v.errors[j]) < Rank(v.errors[k])
    {
      var size := if quantity * price * leverage > maxPositionSize then [PositionSizeExceeded] else [];
      var lever := if leverage > maxLeverage then [LeverageExceeded] else [];
      var loss := if dailyLoss >= maxDailyLoss then [DailyLossLimitReached] else [];
      var errors := size + lever + loss;
      Verdict(|errors| == 0, errors)
    }

    /** Adds the size of a loss to the daily loss; a gain or a zero result leaves it as it is. */
    method UpdateDailyLoss(pnl: real)
      modifies this
      ensures dailyLoss >= old(dailyLoss)
      ensures pnl < 0.0 ==> dailyLoss == old(dailyLoss) - pnl
      ensures pnl >= 0.0 ==> dailyLoss == old(dailyLoss)
    {
      if pnl < 0.0 {
        var magnitude := if pnl < 0.0 then -pnl else pnl;
        dailyLoss := dailyLoss + magnitude;
      }
    }

    method ResetDailyLoss()
      modifies this
      ensures dailyLoss == 0.0
    {
      dailyLoss := 0.0;
    }
  }

  /** An order whose notional is above 1000 is refused, whatever the other limits say. */
  lemma OversizedOrderRefused(rm: RiskManager, quantity: real, price: real, leverage: real)
    requires quantity * price * leverage > 1000.0
    ensures !rm.ValidateOrder(quantity, price, leverage).valid
    ensures rm.ValidateOrder(quantity, price, leverage).errors[0] == PositionSizeExceeded
  {
  }
}
