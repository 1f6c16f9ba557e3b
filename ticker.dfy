/** The data declarations of the `ticker` package. */
module Ticker {

  /** An instrument identifier such as "BTC_USD". */
  type Ticker = string

  const BTCUSDTicker: Ticker := "BTC_USD"

  /** A point in time; the model never inspects it, only carries it. */
  datatype Time = Time(nanos: int)

  /** One observed price; `price` is decimal text such as "12.2". */
  datatype Price = Price(ticker: Ticker, time: Time, price: string)
}
