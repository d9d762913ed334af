# Trade Dragon Snake Trade — paper-trading ledger in Dafny

A model of the core of a browser-based simulated trading terminal. The core is
the in-memory paper-trading ledger (`TradingEngine`), the order risk checks
(`RiskManager`), the deterministic part of the signal bot (`AITradingBot`), and
the demo position list that the terminal page keeps (app.js).

Modules:

- `Prices` (prices.dfy): the engine's fixed quote table. An unknown symbol is quoted 0.
- `Seqs` (seqs.dfy): `findIndex` (first match or -1) and `splice(i, 1)`.
- `Ledger` (ledger.dfy): the ledger as values. An `Account` holds the balance, the open
  positions, the pending orders and the two realised-P&L accumulators. Every engine
  operation is a function from the old account to the new one, with lemmas about it.
  The main invariant is `Books`: the balance plus the margins of the open positions equals
  10000 plus the realised P&L, and `tradeBalance` always equals `tradingProfits`.
- `Engine` (engine.dfy): the class `TradingEngine`. Its methods update the fields in place,
  as the source does. Each one is proved against its `Ledger` function and keeps `Books`.
- `Risk` (risk.dfy): the class `RiskManager`.
- `Bot` (bot.dfy): the decision rule and the class `AITradingBot`. One analysis tick is
  specified by a left fold (`Tick`) over the watch-list.
- `App` (app.js, app.dfy): the class `Terminal`, which holds the pair catalogue, the order
  form and the demo positions, plus the pure list functions it is proved against.
- `Reals` (reals.dfy): the sign of a product with a positive factor, used by both profit formulas.
- `Wrappers` (wrappers.dfy): `Option` and `Result`.

Money and prices are `real`, so the arithmetic is exact. Position ids, indicator readings
(RSI, MACD, moving average) and the engine's quotes are inputs. The source draws ids and
readings at random.

Behaviour of the code that the model keeps, and that a side-aware design would not:

- `updatePosition` tests `price <= stopLoss` and `price >= takeProfit` for both sides.
  A short position's stop-loss therefore fires when the price falls. The stop-loss is
  tested first, so when both levels are crossed the position closes as a stop-loss.
- `checkLiquidation` tests `price <= liquidationPrice` for both sides. The short
  liquidation price is 0.5% above entry, so a freshly opened short position is liquidated
  by the next check (`Ledger.FreshPositionLiquidation`).
- `getAccountSummary` subtracts the open margins from a balance that has already been
  debited with them (`Ledger.AvailableBalanceCountsMarginTwice`).
- No order parameter is validated. A negative quantity is accepted, and the risk manager
  is never consulted by the engine or the bot.
- `toggleAIBot` flips a page flag only and never starts or stops the bot.
- Demo position ids are `length + 1`, so they can repeat after a close (`App.IdsCanCollide`).
  Closing by id removes the first match only.

## Model

| member | source | states |
|---|---|---|
| `Prices.CurrentPrice` | trading.js:214-231 | quotes are never negative; the quote is positive exactly for the twelve listed symbols, and 0 otherwise |
| `Ledger.PnL` | trading.js:133-138 | the side formula of closePosition and updatePosition; a position marked at its entry price shows zero P&L |
| `Ledger.PnLDirection` | trading.js:133-138 | for positive quantity x leverage, a BUY gains exactly when the price rose, any other side exactly when it fell; the two are negatives of each other |
| `Ledger.MarginFor` | trading.js:28-30 | notional divided by leverage is quantity x price: leverage cancels out of the margin |
| `Ledger.IndexOf` | trading.js:124-126 | -1 exactly when no position has the id; otherwise the first position with that id |
| `Ledger.TotalMargin` | trading.js:241 | the sum of the open margins; with no negative margin it is never negative, and one position contributes exactly its margin |
| `Ledger.TotalPnL` | trading.js:240 | the sum of the marked P&L; 0 when every position's P&L is 0, non-negative when none is losing, non-positive when none is winning |
| `Seqs.RemoveAt` | trading.js:146 | `splice(i, 1)` removes exactly element `i`; the others keep their order |
| `Ledger.FreshBooks` | trading.js:8-14 | a new engine (10000, nothing open, nothing realised) satisfies the books invariant |
| `Ledger.OpenMarket` | trading.js:17-60 | fails with InsufficientBalance iff quantity x price > balance (equality accepted); on success debits exactly quantity x price and appends one OPEN position with entry = current = price, pnl = pnlPercent = 0; orders and accumulators untouched |
| `Ledger.OpenKeepsBooks` | trading.js:55-57 | opening a position keeps balance + open margins = 10000 + realised P&L |
| `Ledger.PlaceOrder` | trading.js:63-119 | a LIMIT or STOP order is appended as PENDING with its fields; balance, positions and accumulators untouched, no balance check |
| `Ledger.PlaceKeepsBooks` | trading.js:74-89 | placing an order keeps the books |
| `Ledger.ClosePosition` | trading.js:123-153 | PositionNotFound iff no position has the id; otherwise the first match is removed with the rest in order, pnl follows the side formula, the balance gains margin + pnl and both accumulators gain pnl |
| `Ledger.CloseKeepsBooks` | trading.js:140-146 | closing keeps the books |
| `Ledger.OpenThenCloseRestoresBalance` | trading.js:123-153 | opening under a fresh id and closing at the same quote realises 0 and restores the account exactly |
| `Ledger.Remark` | trading.js:160-171 | marking changes only currentPrice, pnl (side formula) and pnlPercent, with pnlPercent x margin = pnl x 100 |
| `Ledger.UpdatePosition` | trading.js:156-185 | unknown id: NotFound and no change; otherwise the position is marked in place, then closed through ClosePosition on a set stop-loss with price <= level, else on a set take-profit with price >= level, else reported open |
| `Ledger.StopLossBeforeTakeProfit` | trading.js:173-182 | a crossed stop-loss closes as STOP_LOSS whatever the take-profit; a closed position with a unique id is gone from the positions |
| `Ledger.UpdateKeepsBooks` | trading.js:160-182 | marking and auto-closing keep the books |
| `Ledger.LiquidationPrice` | trading.js:204-211 | the BUY liquidation price lies entry/200 below the entry and the SELL one entry/200 above it; for a positive entry it is below the entry exactly for BUY and above it exactly for SELL |
| `Ledger.CheckLiquidation` | trading.js:188-201 | liquidates iff the position exists and its quote <= its liquidation price (same test for both sides), then the account is exactly ClosePosition's result; otherwise nothing changes |
| `Ledger.LiquidationKeepsBooks` | trading.js:195-198 | a liquidation keeps the books |
| `Ledger.FreshPositionLiquidation` | trading.js:195-210 | a position just opened at a positive quote is liquidated by the next check exactly when it is a SELL |
| `Ledger.AccountSummary` | trading.js:239-252 | the summary copies balance and accumulators, counts the positions, sums margins and pnl, and available = balance - open margins |
| `Ledger.AvailableBalanceCountsMarginTwice` | trading.js:241-250 | under the books, available balance = 10000 + realised P&L - 2 x open margins |
| `Engine.TradingEngine.constructor` | trading.js:8-14 | the fields start as the fresh account, which satisfies the books |
| `Engine.TradingEngine.ExecuteMarketOrder` | trading.js:17-60 | fails iff the margin exceeds the balance and then changes nothing; otherwise the balance drops by quantity x price and the new position is appended; the new state is OpenMarket's and the books hold |
| `Engine.TradingEngine.ExecuteLimitOrder` | trading.js:63-90 | appends one PENDING LIMIT order; balance and positions unchanged |
| `Engine.TradingEngine.ExecuteStopOrder` | trading.js:93-120 | appends one PENDING STOP order; balance and positions unchanged |
| `Engine.TradingEngine.ClosePosition` | trading.js:123-153 | PositionNotFound and no change for an unknown id; otherwise returns position, pnl and new balance and the state is ClosePosition's |
| `Engine.TradingEngine.UpdatePosition` | trading.js:156-185 | the in-place marking and auto-close give exactly UpdatePosition's account and outcome |
| `Engine.TradingEngine.CheckLiquidation` | trading.js:188-201 | the result and new state are exactly CheckLiquidation's |
| `Engine.TradingEngine.GetAccountSummary` | trading.js:239-252 | copies balance and accumulators, counts the positions, sums margins and P&L, and available = balance - open margins, which under the books is 10000 + realised P&L - 2 x open margins |
| `Engine.TradingEngine.GetPositionHistory` | trading.js:255-258 | always the empty history |
| `Bot.GenerateSignal` | trading.js:314-350 | BUY iff rsi < 30, macd > 0 and price > ma; SELL iff rsi > 70, macd < 0 and price < ma; otherwise none; a signal carries the symbol, the price and confidence 0.85 |
| `Bot.SimulatedRsiNeverSignals` | trading.js:377-380 | with RSI in [30, 70], the range of the simulated RSI, no signal is ever produced |
| `Bot.Execute` | trading.js:353-374 | a successful 0.01 x 10 market order appends exactly one record with the new position's id; a rejected one changes nothing |
| `Bot.Step` | trading.js:305-310 | one symbol appends at most one record, carrying that symbol's id, and never rewrites the history; no signal, no change |
| `Bot.Tick` | trading.js:305-310 | the loop over the watched symbols, one Step each in order; the history before the tick stays a prefix and grows by at most one record per symbol |
| `Bot.TickKeepsBooks` | trading.js:297-311 | a tick keeps the ledger's books |
| `Bot.TickAppendsHistory` | trading.js:297-311 | a tick only extends the history, by at most one record per symbol, each with an id handed out in that tick |
| `Bot.QuietTickChangesNothing` | trading.js:303-310 | when every RSI reading lies in [30, 70] a tick changes neither ledger nor history |
| `Bot.AITradingBot.constructor` | trading.js:263-268 | a new bot is disabled, has no history and trades on the given engine |
| `Bot.AITradingBot.SetEnabled` | trading.js:271-278 | sets the flag and keeps the history |
| `Bot.AITradingBot.ExecuteSignal` | trading.js:353-374 | engine and history change exactly as Execute says; failures are swallowed |
| `Bot.AITradingBot.AnalyzeAndTrade` | trading.js:297-311 | disabled: nothing changes; enabled: engine and history end as the Tick over the three watched symbols, in order |
| `Bot.AITradingBot.GetStatus` | trading.js:395-401 | reports the flag, the number of executed signals and the last one, if any |
| `Risk.RiskManager.constructor` | trading.js:406-412 | the daily loss starts at 0 |
| `Risk.RiskManager.ValidateOrder` | trading.js:415-437 | every check runs: size > 1000, leverage > 100 and daily loss >= 500 are each reported iff they hold, in that order, and valid iff none is |
| `Risk.RiskManager.UpdateDailyLoss` | trading.js:440-444 | a loss adds its magnitude; a gain or zero leaves the daily loss as it was; it never decreases |
| `Risk.RiskManager.ResetDailyLoss` | trading.js:447-449 | the daily loss becomes 0 |
| `Risk.OversizedOrderRefused` | trading.js:418-421 | an order with notional above 1000 is invalid and its first error is the size error |
| `App.WithTrade` | app.js:313-323 | the new position goes to the front with id = old length + 1, entry = current = pair price, pnl 0; the old positions follow unchanged |
| `App.WithoutPosition` | app.js:357-365 | an unknown id changes nothing; otherwise exactly the first position with the id is removed and the rest keep their order |
| `App.CloseUndoesTrade` | app.js:357-365 | closing the id a trade just received restores the list, even if an older position has the same id |
| `App.IdsCanCollide` | app.js:315 | after closing position 1 of the sample list a new trade gets id 2, the id of the position still open |
| `App.DemoPnL` | app.js:443-447 | the unleveraged side formula of the terminal; a position marked at its entry shows zero P&L |
| `App.Remark` | app.js:440-448 | a position whose symbol has a pair gets current = pair price and the unleveraged side pnl; without a pair it is untouched |
| `App.Remarked` | app.js:438-451 | every position is marked on its own, the list keeps its length |
| `App.RemarkedIdempotent` | app.js:438-451 | marking twice at the same prices equals marking once; id, pair, type, size and entry never change |
| `App.DemoPnLDirection` | app.js:443-447 | for a positive size a LONG shows a profit iff the price is above entry, a SHORT iff below |
| `App.SampleMarksToCatalogue` | app.js:37-40 | the sample positions, shown with pnl 350 and 40, are worth 375 and 39 once marked at the catalogue prices |
| `App.PreviewFor` | app.js:257-260 | margin required = lot x price, position value = margin x leverage, fees = 0.0004 x position value |
| `App.Terminal.constructor` | app.js:7-18 | the page starts with the twelve pairs, the two sample positions, no selection, long, lot 0.01, leverage 10, bot flag off |
| `App.Terminal.SelectTradingPair` | app.js:138-142 | a known id selects its first pair; an unknown id keeps the selection |
| `App.Terminal.ToggleAIBot` | app.js:273-277 | negates the flag when the toggle exists, otherwise leaves it |
| `App.Terminal.PositionSummary` | app.js:249-260 | nothing without a selected pair; otherwise the preview of the selected pair, whose margin is lot x price |
| `App.Terminal.ExecuteTrade` | app.js:291-323 | no selected pair: positions unchanged; otherwise positions become WithTrade of the selected pair, type, lot |
| `App.Terminal.ClosePosition` | app.js:357-365 | positions become WithoutPosition of the id |
| `App.Terminal.UpdatePositionsUI` | app.js:438-451 | the in-place loop leaves positions equal to Remarked of the old positions |

## Left out

- Rendering, canvas charts, modals, navigation, keyboard shortcuts, toasts, number formatting and console logging are UI with no state to model.
- Timers and scheduling are left out: the 3-second price ticker, the bot's 60-second interval (and the second interval a repeated `setEnabled(true)` leaks), and the `async`/`await` of the bot.
- Randomness is replaced by inputs: the price drift of `updatePrices`, `generateId`, and the simulated RSI, MACD and moving average. Ids and readings are parameters, and no modelled operation changes the pair prices.
- Timestamps (`openTime`, `createTime`, `executedAt`) are not modelled. `GetStatus` reports the last executed signal instead of its time.
- IEEE-754 rounding is not modelled; all arithmetic is exact over the reals.
- Sides are `Buy | Sell`. Any side string other than 'BUY' behaves as a sell in every formula, so it is folded into `Sell`.
- Default arguments (`leverage = 1`, `stopLoss = null`, `takeProfit = null`) are not modelled: callers pass every argument.
- The quote table is a Dafny map. Names that a plain JavaScript object would resolve through its prototype are treated as unknown symbols.
- Engine.TradingEngine.ExecuteMarketOrder: requires leverage != 0, because 0/0 yields NaN and NaN arithmetic is not modelled.
- Engine.TradingEngine.UpdatePosition: requires the marked position to have a non-zero margin (`Markable`), because an unknown symbol's position has margin 0 and the percentage would be Infinity or NaN.
- `maxPositionsPerSymbol` is kept as a constant, but no check uses it, as in the source.
- The form handlers that set the lot size, leverage and position type come from DOM inputs and are not modelled. `Terminal.Valid` assumes the leverage slider never yields 0.
- Limit and stop orders are never filled, since the source has no fill logic.
