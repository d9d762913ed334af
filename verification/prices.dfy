/**
 * The price source of the trading engine. The engine quotes every instrument
 * from a fixed table and answers 0 for a symbol it does not know.
 */
module Prices {

  type Symbol = string

  /** A price source: the latest quote of each known symbol. */
  type Quotes = map<Symbol, real>

  /** The engine's built-in quote table. */
  const Table: Quotes := map[
    "BTC/USDT" := 43250.0,
    "ETH/USDT" := 2280.5,
    "BNB/USDT" := 312.45,
    "XRP/USDT" := 0.5234,
    "ADA/USDT" := 0.4521,
    "SOL/USDT" := 98.76,
    "DOGE/USDT" := 0.0823,
    "EUR/USD" := 1.0876,
    "GBP/USD" := 1.2634,
    "USD/JPY" := 149.82,
    "GOLD" := 2034.5,
    "OIL" := 78.45
  ]

  /** The quote of `symbol`, or 0 when the source has none (a missing or zero quote both read as 0). */
  function PriceOf(quotes: Quotes, symbol: Symbol): real
  {
    if symbol in quotes then quotes[symbol] else 0.0
  }

  /** The engine's own price lookup: the fixed table. */
  function CurrentPrice(symbol: Symbol): (p: real)
    ensures p >= 0.0
    ensures p > 0.0 <==> symbol in Table
  {
    PriceOf(Table, symbol)
  }
}
