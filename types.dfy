/** Values the data service exchanges with its clients and its collaborators. */
module Types {

  datatype Option<T> = None | Some(value: T)

  /** The result of a collaborator call that may throw: `Err` carries the exception's text. */
  datatype Result<T> = Ok(value: T) | Err(error: string)

  /** A priced snapshot of one symbol (StockQuote). Prices are exact reals: rounding is not modelled. */
  datatype Quote = Quote(symbol: string, price: real, timestamp: int, currency: string, changePercent: real)

  /** One stored price of a symbol, as the price history reports it. */
  datatype PricePoint = PricePoint(price: real, timestamp: int)

  /**
   * The messages on the two sockets. The first six are the commands a client sends; the
   * others are what the service publishes. A command socket may carry any of them.
   */
  datatype Message =
    | Subscribe(symbol: string)
    | Unsubscribe(symbol: string)
    | Query(symbol: string)
    | PriceHistoryRequest(symbol: string)
    | RequestSubscriptions
    | SetCurrency(currency: string)
    | SubscribeAck(symbol: string)
    | UnsubscribeAck(symbol: string)
    | QuoteUpdate(quote: Quote)
    | PriceHistory(symbol: string, history: seq<PricePoint>)
    | SubscriptionsList(symbols: seq<string>)
    | Error(text: string)

  /** The writes the service makes to its SQLite store. */
  datatype StoreOp =
    | SaveSubscription(symbol: string)
    | RemoveSubscription(symbol: string)
    | SavePrice(symbol: string, price: real, timestamp: int)

  /**
   * The collaborators the service calls, as opaque functions injected at construction:
   * quote generation, the currency service, and the database. `storeFault(op)` is the
   * text of the exception the database throws for the write `op`, if it throws; the two
   * reads of the database are functions of the writes made so far.
   */
  datatype Collaborators = Collaborators(
    generateQuote: string -> Result<Quote>,
    convertCurrency: (real, string) -> Result<real>,
    isValidCurrencyCode: string -> bool,
    storeFault: StoreOp -> Option<string>,
    getSubscriptions: seq<StoreOp> -> Result<seq<string>>,
    getPriceHistory: (seq<StoreOp>, string) -> Result<seq<PricePoint>>)
}
