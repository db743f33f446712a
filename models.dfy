/** The records the services exchange with the brokerage's REST API and hand to the pages,
    one datatype per response model. Every string property of these models defaults to a
    non-null value and the JSON the API sends carries strings there, so strings are never null. */
module Models {
  import opened Wrappers
  import opened Calendar

  /** A thrown exception, by its `Message`. */
  datatype Exception = Exception(message: string)

  /** A C# `int`. */
  type Int32 = x: int | -0x8000_0000 <= x < 0x8000_0000

  /** `KisTokenResponse`: `access_token`, `token_type` and `expires_in` (seconds). */
  datatype TokenResponse = TokenResponse(accessToken: string, tokenType: string, expiresIn: Int32)

  /** `KisIndexOutput`: an index's level and its change against the previous close.
      `changeDir` is the direction code (1 rise, 2 upper limit, 3 unchanged,
      4 fall, 5 lower limit). */
  datatype IndexOutput = IndexOutput(
    price: string, change: string, changeDir: string, changeRate: string,
    volume: string, transactionAmount: string)

  /** `KisQuoteOutput`: a stock's current price and its change against the previous close. */
  datatype QuoteOutput = QuoteOutput(currentPrice: string, changeAmount: string, changeRate: string)

  /** `KisDailyPriceDetail`: one day (or week, or month) of prices, all as text; `date` is
      `yyyyMMdd` text. */
  datatype DailyPriceDetail = DailyPriceDetail(
    date: string, close: string, open: string, high: string, low: string, volume: string)

  /** The three quotation responses (`KisIndexResponse`, `KisQuoteResponse`,
      `KisDailyPriceResponse`) share one shape: `rt_cd` ("0" on success), `msg1` and an
      `output` that JSON may leave null. */
  datatype QuoteResponse<T> = QuoteResponse(resultCode: string, message: string, output: Option<T>)

  /** `StockData`: one candle of the chart; `decimal` values as reals. */
  datatype StockData = StockData(date: Date, open: real, high: real, low: real, close: real, volume: real)
}
