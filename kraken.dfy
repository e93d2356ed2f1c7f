/** The per-message mapping of the Kraken adapter (src/exchanges/kraken.py): a
    decoded ticker message becomes a bid update and an ask update, stamped with
    one instant. The adapter keeps no tracker state, so the mapping is a
    function of the message and the instant alone. */
module Kraken {
  import opened Types

  const ExchangeName := "kraken"

  /** The four fields of the first `data` entry; a missing key or a value that
      is not a number is `NotNumber`. */
  datatype Ticker = Ticker(bid: Field, bidQty: Field, ask: Field, askQty: Field)

  /** A message after JSON decoding. `channel` and `msgType` are `None` when the
      key is absent; `data` is `None` when the key is absent. */
  datatype Message =
    | Unparseable
    | Decoded(channel: Option<string>, msgType: Option<string>, data: Option<seq<Ticker>>)

  /** The subscription filter: channel "ticker" and type "update". */
  predicate IsTickerUpdate(msg: Message)
  {
    msg.Decoded? && msg.channel == Some("ticker") && msg.msgType == Some("update")
  }

  /** The updates `listen` yields for one message. The bid update is yielded
      before the ask fields are read, so a message whose ask fields raise still
      yields its bid; any earlier failure yields nothing. */
  function Normalize(msg: Message, now: Timestamp): (r: seq<Update>)
    ensures |r| <= 2
    ensures forall k :: 0 <= k < |r| ==>
      r[k].exchange == ExchangeName && r[k].timestamp == now
      && r[k].price.Some? && r[k].volume.Some?
    ensures |r| >= 1 ==> r[0].side == "bid"
    ensures |r| == 2 ==> r[1].side == "ask"
    ensures r != [] ==> IsTickerUpdate(msg)
  {
    if !IsTickerUpdate(msg) || msg.data.None? || |msg.data.value| == 0 then []
    else
      var t := msg.data.value[0];
      if t.bid.NotNumber? || t.bidQty.NotNumber? then []
      else
        var bidUpdate := Update(ExchangeName, now, "bid", Some(t.bid.value), Some(t.bidQty.value));
        if t.ask.NotNumber? || t.askQty.NotNumber? then [bidUpdate]
        else [bidUpdate, Update(ExchangeName, now, "ask", Some(t.ask.value), Some(t.askQty.value))]
  }

  /** A well-formed ticker update carrying the given top of book. */
  function TickerMessage(bid: real, bidQty: real, ask: real, askQty: real): Message
  {
    Decoded(Some("ticker"), Some("update"), Some([Ticker(Num(bid), Num(bidQty), Num(ask), Num(askQty))]))
  }

  /** Normalizing a well-formed ticker update gives back exactly its bid and ask. */
  lemma TickerRoundTrip(bid: real, bidQty: real, ask: real, askQty: real, now: Timestamp)
    ensures Normalize(TickerMessage(bid, bidQty, ask, askQty), now)
            == [Update(ExchangeName, now, "bid", Some(bid), Some(bidQty)),
                Update(ExchangeName, now, "ask", Some(ask), Some(askQty))]
  {
  }

  /** Two updates are yielded exactly when the message passes the filter and
      all four fields of its first entry are numbers; they then carry `bid` and
      `bid_qty`, then `ask` and `ask_qty`, and nothing else of the message
      matters: re-encoding them gives the same updates. */
  lemma TwoUpdatesExactlyForCompleteTickers(msg: Message, now: Timestamp)
    ensures var r := Normalize(msg, now);
      |r| == 2 <==>
        && IsTickerUpdate(msg) && msg.data.Some? && |msg.data.value| > 0
        && msg.data.value[0].bid.Num? && msg.data.value[0].bidQty.Num?
        && msg.data.value[0].ask.Num? && msg.data.value[0].askQty.Num?
    ensures var r := Normalize(msg, now);
      |r| == 2 ==>
        var t := msg.data.value[0];
        && r[0].price == Some(t.bid.value) && r[0].volume == Some(t.bidQty.value)
        && r[1].price == Some(t.ask.value) && r[1].volume == Some(t.askQty.value)
        && r == Normalize(TickerMessage(t.bid.value, t.bidQty.value, t.ask.value, t.askQty.value), now)
  {
  }

  /** Exactly one update is yielded when the bid fields are numbers and an ask
      field is not; it carries `bid` and `bid_qty`. */
  lemma OnlyBidWhenAskFails(msg: Message, now: Timestamp)
    ensures var r := Normalize(msg, now);
      |r| == 1 <==>
        && IsTickerUpdate(msg) && msg.data.Some? && |msg.data.value| > 0
        && msg.data.value[0].bid.Num? && msg.data.value[0].bidQty.Num?
        && (msg.data.value[0].ask.NotNumber? || msg.data.value[0].askQty.NotNumber?)
    ensures var r := Normalize(msg, now);
      |r| == 1 ==>
        var t := msg.data.value[0];
        r == [Update(ExchangeName, now, "bid", Some(t.bid.value), Some(t.bidQty.value))]
  {
  }

  /** Messages outside the subscription, undecodable ones, and ones without a
      first entry or with a bad bid field yield nothing. */
  lemma NothingForFilteredOrBrokenMessages(msg: Message, now: Timestamp)
    requires || !IsTickerUpdate(msg)
             || msg.data.None? || |msg.data.value| == 0
             || msg.data.value[0].bid.NotNumber? || msg.data.value[0].bidQty.NotNumber?
    ensures Normalize(msg, now) == []
  {
  }
}
