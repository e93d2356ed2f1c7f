# Top-of-book ingestion of an arbitrage monitor, in Dafny

This project models the sequential core of a two-venue crypto arbitrage monitor. That core turns venue messages into top-of-book updates and keeps per-venue state and aggregates:

- **Coinbase adapter** (`coinbase.dfy`, `coinbase_properties.dfy`). The snapshot+delta tracker inside `CoinbaseAdapter.listen`. The class `Coinbase.CoinbaseAdapter` has the six tracker fields of the source. Its `ProcessMessage` handles one decoded message: it overwrites the fields from a `snapshot`, or walks the `changes` of an `l2update` in a loop, updating the fields and the local changed-markers step by step. It returns the updates the generator yields for that message. The method is proved equal to the pure function `Coinbase.Process`, and the properties are proved about that function.
- **Order-book store** (`order_book.dfy`). `OrderBookManager` is a class over a `map` from venue name to optional `BookState`. `Update` replaces one side of one venue's state, and `GetState` is `dict.get`.
- **Streaming statistics** (`statistics.dfy`). `StreamingStats` is a class with the source's venue name (a `const`), its four aggregate fields, and a ghost history of every `update_bid` call. Its invariant ties each field to a function of the calls that pass validation.
- **Kraken adapter** (`kraken.dfy`). The per-message mapping inside `KrakenAdapter.listen`, as a function from one decoded message to 0, 1 or 2 updates.
- **Retry** (`retry.dfy`). `retry_with_backoff` as a method with its loop. The awaited operation is a function from the attempt number to that call's outcome. The sleeps come back as a list of delays.

`types.dfy` holds the shared records of `src/models/types.py`.

Decimal prices and volumes are exact `real`s. `Optional` values are `Option`. `datetime.now(...)` is a `Timestamp` parameter. Decoded JSON is represented by datatypes that keep only what the code looks at. A value passed through `Decimal(str(x))` is a `Field`: a number, or `NotNumber` when the lookup or the conversion raises.

The model follows the code, including behaviour a reader might not expect:
- A Coinbase `snapshot` does not touch the refresh flags; it does not clear them.
- Adopting a level after a deletion resets that side's changed-marker. This cancels an improvement made earlier in the same message.
- A side marked changed and later deleted in the same message is yielded with no price and no volume.
- The Kraken adapter yields the bid update before it reads the ask fields. A message whose ask fields are bad therefore yields one update, not two or none.

## Model

| member | source | states |
|---|---|---|
| Coinbase.CoinbaseAdapter.constructor | src/exchanges/coinbase.py:13-21 | all four best fields start as None and both refresh flags as false |
| Coinbase.CoinbaseAdapter.ProcessMessage | src/exchanges/coinbase.py:37-150 | the fields after one message and the updates yielded for it are those of `Process` applied to the old fields |
| Coinbase.CoinbaseAdapter.ProcessSnapshot | src/exchanges/coinbase.py:46-68 | the snapshot branch assigns the four best fields in order, keeps those assigned before a lookup that raises, and agrees with `SnapshotOutcome` |
| Coinbase.CoinbaseAdapter.ProcessChange | src/exchanges/coinbase.py:76-123 | one parsed change updates the fields and the two changed-markers as `ApplyChange` says |
| Coinbase.CoinbaseAdapter.ProcessChanges | src/exchanges/coinbase.py:69-143 | the l2update branch ends in the state of the walk over its changes and yields the changed sides only when no change was malformed |
| CoinbaseProperties.SnapshotReplacesBothSides | src/exchanges/coinbase.py:46-68 | a snapshot sets bid and ask price and volume from the first levels, keeps both refresh flags, and yields exactly the bid then the ask update with one timestamp |
| CoinbaseProperties.SnapshotWithoutAsksKeepsBid | src/exchanges/coinbase.py:47-52 | a snapshot without `asks` still overwrites the bid side before raising, and yields nothing |
| CoinbaseProperties.TruncatedSnapshotUnpairs | src/exchanges/coinbase.py:47-49 | a snapshot whose first bid level has no size leaves a bid price with no volume |
| CoinbaseProperties.ZeroSizeDeletesOnlyTheBest | src/exchanges/coinbase.py:80-90 | a zero-size change at the tracked best clears price and volume and sets the refresh flag; at any other price it changes nothing; it never marks the side changed |
| CoinbaseProperties.RefreshAdoptsAnyPrice | src/exchanges/coinbase.py:93-98 | with a refresh pending, a non-zero change is adopted whatever its price, the flag is cleared and the changed-marker is reset to false |
| CoinbaseProperties.ImproveOrRefreshVolume | src/exchanges/coinbase.py:99-123 | with no refresh pending: no best or a strictly better price replaces the level and marks the side changed; an equal price replaces only the volume and marks it; a worse price is ignored |
| CoinbaseProperties.OtherMessagesAreInert | src/exchanges/coinbase.py:43-46 | messages of another type, and undecodable ones, change nothing and yield nothing |
| CoinbaseProperties.UnknownSidesAreInert | src/exchanges/coinbase.py:80-123 | changes whose side is neither "buy" nor "sell" leave the tracker and both changed-markers unchanged |
| CoinbaseProperties.UnknownSideMessageIsInert | src/exchanges/coinbase.py:69-143 | a delta message made only of such changes yields nothing and changes nothing |
| CoinbaseProperties.WalkStopsAtMalformed | src/exchanges/coinbase.py:75-79 | the walk over changes stops at the first malformed change, keeping the effects of the changes before it |
| CoinbaseProperties.MalformedChangeKeepsEarlierChanges | src/exchanges/coinbase.py:75-150 | a delta message with a malformed change keeps the changes before it applied and yields nothing |
| CoinbaseProperties.DeltaEmitsEndStatePerChangedSide | src/exchanges/coinbase.py:124-143 | a delta message yields at most one bid update and then at most one ask update; a side is yielded exactly when the message parsed and the side ended marked changed, and the update carries the side's end-of-message state |
| CoinbaseProperties.DeletedLevelIsYieldedEmpty | src/exchanges/coinbase.py:82-134 | an improving bid and then a deletion of that level in one message yield a bid update with no price and no volume |
| CoinbaseProperties.AdoptionCancelsEarlierChange | src/exchanges/coinbase.py:93-103 | improve, delete, then adopt in one message moves the best bid but yields no bid update |
| CoinbaseProperties.DeleteThenAdopt | src/exchanges/coinbase.py:82-98 | deleting the best bid and then receiving any non-zero bid change makes that change the best bid, with no update yielded |
| CoinbaseProperties.WalkPreservesPaired | src/exchanges/coinbase.py:80-123 | every walk over changes keeps each side's price absent exactly when its volume is absent |
| CoinbaseProperties.ProcessPreservesPaired | src/exchanges/coinbase.py:46-143 | every well-formed message keeps that pairing |
| CoinbaseProperties.ReplayPreservesPaired | src/exchanges/coinbase.py:37-150 | every run of well-formed messages keeps that pairing |
| CoinbaseProperties.InitialRunsArePaired | src/exchanges/coinbase.py:16-21 | from the initial fields, every run of well-formed messages ends paired |
| CoinbaseProperties.BidNeverWorsensWithoutDeletes | src/exchanges/coinbase.py:99-107 | without zero-size changes and with no refresh pending, the best bid never falls and no refresh becomes pending |
| OrderBook.OrderBookManager.constructor | src/core/order_book.py:6-10 | the store holds exactly "kraken" and "coinbase", both with no state |
| OrderBook.OrderBookManager.Update | src/core/order_book.py:12-57 | an unknown venue raises KeyError and changes nothing; otherwise only the addressed venue's entry changes, to the merged state, which carries the update's venue and timestamp |
| OrderBook.OrderBookManager.GetState | src/core/order_book.py:59-61 | a name that is not a venue gives None, and a stored state names the venue it is stored under |
| OrderBook.NoStateBeforeFirstUpdate | src/core/order_book.py:7-10 | from a fresh store, every name that no update has addressed gives None |
| OrderBook.NoStateWithoutUpdate | src/core/order_book.py:12-15 | updates to other names never create an entry for a name |
| OrderBook.MergeTakesAddressedSide | src/core/order_book.py:17-57 | the addressed side, the venue and the timestamp come from the update; every side other than "bid" is the ask side |
| OrderBook.MergeKeepsOtherSide | src/core/order_book.py:17-57 | the other side is copied from the current state, or is the zero placeholder on the first update |
| OrderBook.MergeIdempotent | src/core/order_book.py:39-57 | merging the same update twice gives the state merging it once gives |
| OrderBook.ApplyIdempotent | src/core/order_book.py:12-57 | applying the same update twice to the store gives the store applying it once gives |
| OrderBook.ReplayIsolatesVenues | src/core/order_book.py:12-57 | after any run of updates, a venue's entry is what the updates addressed to that venue alone produce |
| OrderBook.ReplayFromSameEntry | src/core/order_book.py:39-57 | updates addressed to one venue lead from equal entries to equal entries |
| OrderBook.ForAddressesOnly | src/core/order_book.py:14-15 | the updates selected for a venue all address it |
| OrderBook.ReplayKeepsLastTimestamp | src/core/order_book.py:39-57 | after a run ending with an update to a venue, its state carries that venue and the last update's timestamp |
| Statistics.StreamingStats.constructor | src/core/statistics.py:5-10 | all aggregates start at 0, with no previous bid and an empty history |
| Statistics.StreamingStats.UpdateBid | src/core/statistics.py:12-29 | the fields stay the aggregates of the valid calls; an invalid call changes no field; a valid call becomes the previous bid; no aggregate decreases |
| Statistics.MaxPriceIsMaximum | src/core/statistics.py:17-18 | the maximum bid price is at least 0 and every valid price, and some valid price reaches it unless it is 0 |
| Statistics.MaxJumpIsMaximum | src/core/statistics.py:20-25 | the maximum change is at least 0 and every jump between consecutive valid prices, and some jump reaches it unless it is 0 |
| Statistics.FirstValidBid | src/core/statistics.py:20-29 | the first valid call leaves the maximum change at 0, remembers its price, and sets the maximum price to it |
| Statistics.SumOfValidVolumesAppend | src/core/statistics.py:27 | the front-to-back sum of valid volumes grows by exactly the new call's volume when the call is valid |
| Statistics.TotalVolumeIsSumOfValidVolumes | src/core/statistics.py:27 | the total volume is the sum of the volumes of all valid calls |
| Statistics.ValidBidsGrow | src/core/statistics.py:14-15 | later calls only extend the sequence of valid calls |
| Statistics.ValidBidsHavePositiveVolume | src/core/statistics.py:14-15 | every call that passes validation has a positive volume |
| Statistics.AggregatesGrowWithPrefix | src/core/statistics.py:17-27 | the three aggregates of a prefix are at most those of the whole |
| Statistics.AggregatesNeverDecrease | src/core/statistics.py:17-27 | none of the three aggregates decreases, whatever calls follow |
| Statistics.ValidBidsAppend | src/core/statistics.py:14-15 | a call joins the valid calls exactly when its price and volume are present and positive |
| Statistics.ThreeBidsExample | tests/test_statistics.py:17-25 | valid bids 110000, 110100, 110020, with invalid calls in between, give a maximum change of 100, a maximum price of 110100 and a total volume of 3 |
| Kraken.Normalize | src/exchanges/kraken.py:33-69 | at most two updates, all from "kraken" with one timestamp and with a price and volume, the bid first and the ask second; none unless channel is "ticker" and type is "update" |
| Kraken.TickerRoundTrip | src/exchanges/kraken.py:38-54 | a well-formed ticker message gives back exactly its bid and bid_qty, then its ask and ask_qty |
| Kraken.TwoUpdatesExactlyForCompleteTickers | src/exchanges/kraken.py:36-54 | two updates come exactly when the message passes the filter and the first entry has all four fields; they carry those fields and nothing else of the message |
| Kraken.OnlyBidWhenAskFails | src/exchanges/kraken.py:38-69 | exactly one update comes exactly when the bid fields are good and an ask field is missing or bad, and it is the bid update carrying `bid` and `bid_qty` with the venue and the instant |
| Kraken.NothingForFilteredOrBrokenMessages | src/exchanges/kraken.py:33-69 | filtered, undecodable, data-less messages and bad bid fields yield nothing |
| Retry.RetryWithBackoff | src/utils/retry.py:6-23 | max_retries defaults to 3; at most max_retries calls; all calls but the last failed with an `Exception`; the first success is returned; a `BaseException` that is not an `Exception` escapes at once with no retry and no further sleep; if all fail, the last error is raised after max_retries calls; with no attempt, `raise None` fails; the delays are the schedule, one per failed attempt that is not the last |
| Retry.DelayClosedForm | src/utils/retry.py:7-19 | the delay schedule is 2, 4, 8, 16 and then 30 for ever |
| Retry.DelayBounds | src/utils/retry.py:7-19 | each delay lies between 2 and 30 and none is shorter than the one before |
| Retry.BackoffAt | src/utils/retry.py:16-19 | the k-th sleep in the list is the k-th delay of the schedule |
| Retry.BackoffBounded | src/utils/retry.py:16-21 | every delay slept lies between 2 and 30 inclusive |

## Left out

- Websocket connect, subscribe and close, and JSON decoding, in both adapters: network I/O through a library. Messages enter the model already decoded.
- The `async for` iteration over the socket: the model processes one message per call. A run of messages is a sequence (`CoinbaseProperties.Replay`).
- `Decimal` special values (`NaN`, `Infinity`): the model reads them as `NotNumber`, like a string that does not convert, so a Coinbase change carrying one is `Malformed` and a Kraken field carrying one yields nothing from that point. In the source they convert and are tracked and yielded like numbers. A Coinbase change with `Infinity` can become the best level (src/exchanges/coinbase.py:99-103), and the rest of its message is still processed. A `NaN` is adopted without any comparison when its side has no best or needs a refresh. A Kraken `NaN` or `Infinity` is yielded (src/exchanges/kraken.py:40-54). `==` with `NaN` is simply false. Only an ordering comparison (`>`, `<`) against a `NaN` raises, and that ends the message at that point.
- JSON shapes the code does not expect (a change that is not a list, a top-level array, a non-string side) collapse to `Malformed`, `Unparseable` or a side other than "buy"/"sell". Each of these raises or compares unequal in the source at a point before any state is touched.
- Statistics.StreamingStats.UpdateBid: sums and differences are exact. Python's `Decimal` rounds them to the context precision of 28 significant digits.
- The "BIG JUMP" message for a change above 50, and every other `print`/logger call: console output with no effect on state.
- `StreamingStats.get_stats`: conversion to `float` for display.
- `asyncio.sleep` and `datetime.now`: the sleeps are returned as a list of delays, and the instant is a parameter.
- Retry.RetryWithBackoff: a `BaseException` (such as `CancelledError`) raised by `asyncio.sleep` itself is not modelled, because the sleeps are only recorded as delays. Only an interruption that comes from the awaited operation escapes in the model.
- src/core/signal_detector.py: `check_signal` and `_should_trigger` have empty bodies, so there is no behaviour to model.
- src/core/orchestrator.py, src/main.py, src/core/executor.py, src/utils/logging.py, src/exchanges/base.py: task scheduling, HTTP order placement, logging configuration and an abstract interface.
