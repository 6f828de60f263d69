/** Records exchanged between the stock service, the prediction service and the gateway. */
module StockTypes {
  /** A real-time quote for one Hong Kong stock. Prices are exact reals here. */
  datatype StockInfo = StockInfo(
    code: string,
    name: string,
    currentPrice: real,
    changePercent: real,
    volume: int,
    timestamp: string)

  /** One market index line of the market summary. */
  datatype MarketIndex = MarketIndex(name: string, value: real, change: real, changePercent: real)
}
