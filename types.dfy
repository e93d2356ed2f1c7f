/** Records shared by the venue adapters, the order-book store and the statistics
    (src/models/types.py). Decimal prices and volumes are exact `real`s, and the
    wall-clock timestamps the adapters stamp on their updates are opaque integers
    supplied by the caller. */
module Types {

  datatype Option<+T> = None | Some(value: T)

  /** A wall-clock instant, taken by the adapter when it builds its updates. */
  type Timestamp = int

  /** One decoded JSON scalar that the adapters pass through `Decimal(str(x))`:
      either it converts to a finite decimal, or the conversion (or the lookup
      that fetched it) raises. */
  datatype Field = Num(value: real) | NotNumber

  /** OrderBookUpdate. `side` is "bid" or "ask" as written by the adapters; the
      store treats every other value as the ask side. `price` and `volume` are
      optional because the Coinbase adapter can emit a side whose level it has
      just deleted. */
  datatype Update = Update(
    exchange: string,
    timestamp: Timestamp,
    side: string,
    price: Option<real>,
    volume: Option<real>)

  /** OrderBookState: the latest top of book of one venue. */
  datatype BookState = BookState(
    exchange: string,
    bestBidPrice: Option<real>,
    bestBidVolume: Option<real>,
    bestAskPrice: Option<real>,
    bestAskVolume: Option<real>,
    timestamp: Timestamp)
}
