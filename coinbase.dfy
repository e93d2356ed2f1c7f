/** The snapshot+delta tracker of the Coinbase adapter (src/exchanges/coinbase.py):
    the message-processing body of `CoinbaseAdapter.listen`, which keeps the best
    bid and ask seen on the level-2 channel and turns each decoded message into
    zero, one or two top-of-book updates.

    The pure functions below say what one message does to the tracker and what it
    emits; the class `CoinbaseAdapter` holds the same state in mutable fields and
    its `ProcessMessage` walks the changes step by step, as the source does, and
    is proved to agree with them. */
module Coinbase {
  import opened Types

  const ExchangeName := "coinbase"

  /** One `[price, size, ...]` entry of a snapshot's `bids` or `asks` array. */
  type Level = seq<Field>

  /** One `[side, price, size]` entry of an `l2update`'s `changes` list. A change
      with fewer than three entries or a price or size that is not a number is
      `Malformed`: the source raises while reading it, before touching any state. */
  datatype Change =
    | Change(side: string, price: real, size: real)
    | Malformed

  /** A message as the adapter sees it after JSON decoding. `Snapshot` carries
      the `bids` and `asks` arrays (`None` when the key is absent); a missing
      `changes` key decodes as an empty list. */
  datatype Message =
    | Unparseable
    | Snapshot(bids: Option<seq<Level>>, asks: Option<seq<Level>>)
    | L2Update(changes: seq<Change>)
    | OtherType

  datatype BookSide = BidSide | AskSide

  /** What the adapter tracks about one side: best price and volume, and whether
      the best level was deleted and the next change must be adopted. */
  datatype Best = Best(price: Option<real>, volume: Option<real>, needsRefresh: bool)

  datatype Tracker = Tracker(bid: Best, ask: Best)

  /** The fields as `__init__` sets them. */
  const Initial := Tracker(Best(None, None, false), Best(None, None, false))

  /** A strictly better price: higher for the bid side, lower for the ask side. */
  predicate Improves(side: BookSide, price: real, best: real)
  {
    match side
    case BidSide => price > best
    case AskSide => price < best
  }

  /** One side after one change, with that side's changed-marker. */
  datatype SideStep = SideStep(best: Best, changed: bool)

  /** The rules of one non-malformed change on the side it addresses. */
  function StepSide(side: BookSide, b: Best, price: real, size: real, changed: bool): SideStep
  {
    if size == 0.0 then
      if b.price == Some(price) then SideStep(Best(None, None, true), changed)
      else SideStep(b, changed)
    else if b.needsRefresh then
      SideStep(Best(Some(price), Some(size), false), false)
    else if b.price.None? || Improves(side, price, b.price.value) then
      SideStep(b.(price := Some(price), volume := Some(size)), true)
    else if price == b.price.value then
      SideStep(b.(volume := Some(size)), true)
    else
      SideStep(b, changed)
  }

  /** The tracker and the two changed-markers part-way through a change list;
      `failed` records that a malformed change stopped the walk. */
  datatype Walk = Walk(tracker: Tracker, bidChanged: bool, askChanged: bool, failed: bool)

  /** One change: "buy" addresses the bid side, "sell" the ask side, any other
      side leaves everything as it is. */
  function ApplyChange(t: Tracker, side: string, price: real, size: real, bidChanged: bool, askChanged: bool): Walk
  {
    if side == "buy" then
      var s := StepSide(BidSide, t.bid, price, size, bidChanged);
      Walk(t.(bid := s.best), s.changed, askChanged, false)
    else if side == "sell" then
      var s := StepSide(AskSide, t.ask, price, size, askChanged);
      Walk(t.(ask := s.best), bidChanged, s.changed, false)
    else
      Walk(t, bidChanged, askChanged, false)
  }

  /** The changes of one message applied in order; the first malformed change
      stops the walk and keeps what the changes before it did. */
  function WalkChanges(t: Tracker, changes: seq<Change>, bidChanged: bool, askChanged: bool): Walk
    decreases |changes|
  {
    if changes == [] then Walk(t, bidChanged, askChanged, false)
    else
      match changes[0]
      case Malformed => Walk(t, bidChanged, askChanged, true)
      case Change(side, price, size) =>
        var w := ApplyChange(t, side, price, size, bidChanged, askChanged);
        WalkChanges(w.tracker, changes[1..], w.bidChanged, w.askChanged)
  }

  function SideName(side: BookSide): string
  {
    match side
    case BidSide => "bid"
    case AskSide => "ask"
  }

  /** The update the adapter yields for one side of its tracked state. */
  function SideUpdate(t: Tracker, side: BookSide, now: Timestamp): Update
  {
    var b := match side case BidSide => t.bid case AskSide => t.ask;
    Update(ExchangeName, now, SideName(side), b.price, b.volume)
  }

  /** What one message leaves in the tracker and what it yields. */
  datatype Outcome = Outcome(tracker: Tracker, emitted: seq<Update>)

  /** Entry `i` of the first level, when the array is present, non-empty and
      that entry is a number; `None` marks the point where the source raises. */
  function FirstLevelField(levels: Option<seq<Level>>, i: nat): Option<real>
  {
    if levels.Some? && |levels.value| > 0 && i < |levels.value[0]| && levels.value[0][i].Num? then
      Some(levels.value[0][i].value)
    else
      None
  }

  /** A snapshot assigns bid price, bid volume, ask price and ask volume in that
      order; a lookup that raises stops it there, keeps the assignments already
      made and yields nothing. The refresh flags are not touched. */
  function SnapshotOutcome(t: Tracker, bids: Option<seq<Level>>, asks: Option<seq<Level>>, now: Timestamp): Outcome
  {
    var bidPrice := FirstLevelField(bids, 0);
    if bidPrice.None? then Outcome(t, []) else
    var t1 := t.(bid := t.bid.(price := bidPrice));
    var bidVolume := FirstLevelField(bids, 1);
    if bidVolume.None? then Outcome(t1, []) else
    var t2 := t1.(bid := t1.bid.(volume := bidVolume));
    var askPrice := FirstLevelField(asks, 0);
    if askPrice.None? then Outcome(t2, []) else
    var t3 := t2.(ask := t2.ask.(price := askPrice));
    var askVolume := FirstLevelField(asks, 1);
    if askVolume.None? then Outcome(t3, []) else
    var t4 := t3.(ask := t3.ask.(volume := askVolume));
    Outcome(t4, [SideUpdate(t4, BidSide, now), SideUpdate(t4, AskSide, now)])
  }

  /** The bid update, then the ask update, for each side marked changed. */
  function Emit(w: Walk, now: Timestamp): seq<Update>
  {
    (if w.bidChanged then [SideUpdate(w.tracker, BidSide, now)] else [])
    + (if w.askChanged then [SideUpdate(w.tracker, AskSide, now)] else [])
  }

  /** One decoded message processed by the body of `listen`, error handling
      included: a message that raises yields nothing but keeps its effects. */
  function Process(t: Tracker, msg: Message, now: Timestamp): Outcome
  {
    match msg
    case Unparseable => Outcome(t, [])
    case OtherType => Outcome(t, [])
    case Snapshot(bids, asks) => SnapshotOutcome(t, bids, asks, now)
    case L2Update(changes) =>
      var w := WalkChanges(t, changes, false, false);
      if w.failed then Outcome(w.tracker, []) else Outcome(w.tracker, Emit(w, now))
  }

  /** The tracker fields of `CoinbaseAdapter`. */
  class CoinbaseAdapter {
    var bestBidPrice: Option<real>
    var bestBidVolume: Option<real>
    var bestAskPrice: Option<real>
    var bestAskVolume: Option<real>
    var bestBidNeedsRefresh: bool
    var bestAskNeedsRefresh: bool

    /** The fields read as one tracker value. */
    function State(): Tracker
      reads this
    {
      Tracker(Best(bestBidPrice, bestBidVolume, bestBidNeedsRefresh),
              Best(bestAskPrice, bestAskVolume, bestAskNeedsRefresh))
    }

    constructor ()
      ensures State() == Initial
    {
      bestBidPrice, bestBidVolume := None, None;
      bestAskPrice, bestAskVolume := None, None;
      bestBidNeedsRefresh, bestAskNeedsRefresh := false, false;
    }

    /** Processes one decoded message: updates the tracker fields in place and
        returns the updates the generator yields for it. */
    method ProcessMessage(msg: Message, now: Timestamp) returns (updates: seq<Update>)
      modifies this
      ensures Outcome(State(), updates) == Process(old(State()), msg, now)
    {
      match msg
      case Unparseable =>
        updates := [];
      case OtherType =>
        updates := [];
      case Snapshot(bids, asks) =>
        updates := ProcessSnapshot(bids, asks, now);
      case L2Update(changes) =>
        updates := ProcessChanges(changes, now);
    }

    /** The `snapshot` branch: assigns the four best fields in order, stopping
        where a lookup raises, and yields both sides only when all four succeed. */
    method ProcessSnapshot(bids: Option<seq<Level>>, asks: Option<seq<Level>>, now: Timestamp)
      returns (updates: seq<Update>)
      modifies this
      ensures Outcome(State(), updates) == SnapshotOutcome(old(State()), bids, asks, now)
    {
      updates := [];
      if bids.None? || |bids.value| == 0 { return; }
      var bestBid := bids.value[0];
      if |bestBid| < 1 || bestBid[0].NotNumber? { return; }
      bestBidPrice := Some(bestBid[0].value);
      if |bestBid| < 2 || bestBid[1].NotNumber? { return; }
      bestBidVolume := Some(bestBid[1].value);
      if asks.None? || |asks.value| == 0 { return; }
      var bestAsk := asks.value[0];
      if |bestAsk| < 1 || bestAsk[0].NotNumber? { return; }
      bestAskPrice := Some(bestAsk[0].value);
      if |bestAsk| < 2 || bestAsk[1].NotNumber? { return; }
      bestAskVolume := Some(bestAsk[1].value);
      updates := [Update(ExchangeName, now, "bid", bestBidPrice, bestBidVolume),
                  Update(ExchangeName, now, "ask", bestAskPrice, bestAskVolume)];
    }

    /** The body of the `for change in changes` loop for a change that parsed. */
    method ProcessChange(side: string, price: real, size: real, bidChanged: bool, askChanged: bool)
      returns (bidChanged': bool, askChanged': bool)
      modifies this
      ensures Walk(State(), bidChanged', askChanged', false)
              == ApplyChange(old(State()), side, price, size, bidChanged, askChanged)
    {
      bidChanged', askChanged' := bidChanged, askChanged;
      if size == 0.0 {
        if side == "buy" && Some(price) == bestBidPrice {
          bestBidPrice, bestBidVolume := None, None;
          bestBidNeedsRefresh := true;
        } else if side == "sell" && Some(price) == bestAskPrice {
          bestAskPrice, bestAskVolume := None, None;
          bestAskNeedsRefresh := true;
        }
      } else if side == "buy" {
        if bestBidNeedsRefresh {
          bestBidPrice, bestBidVolume := Some(price), Some(size);
          bestBidNeedsRefresh := false;
          bidChanged' := false;
        } else if bestBidPrice.None? || price > bestBidPrice.value {
          bestBidPrice, bestBidVolume := Some(price), Some(size);
          bidChanged' := true;
        } else if price == bestBidPrice.value {
          bestBidVolume := Some(size);
          bidChanged' := true;
        }
      } else if side == "sell" {
        if bestAskNeedsRefresh {
          bestAskPrice, bestAskVolume := Some(price), Some(size);
          bestAskNeedsRefresh := false;
          askChanged' := false;
        } else if bestAskPrice.None? || price < bestAskPrice.value {
          bestAskPrice, bestAskVolume := Some(price), Some(size);
          askChanged' := true;
        } else if price == bestAskPrice.value {
          bestAskVolume := Some(size);
          askChanged' := true;
        }
      }
    }

    /** The `l2update` branch: applies the changes in order, then yields the bid
        and the ask update for the sides marked changed; a malformed change
        stops it with nothing yielded. */
    method ProcessChanges(changes: seq<Change>, now: Timestamp) returns (updates: seq<Update>)
      modifies this
      ensures var w := WalkChanges(old(State()), changes, false, false);
        Outcome(State(), updates) == if w.failed then Outcome(w.tracker, []) else Outcome(w.tracker, Emit(w, now))
    {
      updates := [];
      var bidChanged, askChanged := false, false;
      var i := 0;
      while i < |changes|
        invariant 0 <= i <= |changes|
        invariant WalkChanges(State(), changes[i..], bidChanged, askChanged)
                  == WalkChanges(old(State()), changes, false, false)
      {
        assert changes[i..][1..] == changes[i + 1..];
        match changes[i]
        case Malformed =>
          return;
        case Change(side, price, size) =>
          bidChanged, askChanged := ProcessChange(side, price, size, bidChanged, askChanged);
        i := i + 1;
      }
      if bidChanged {
        updates := updates + [Update(ExchangeName, now, "bid", bestBidPrice, bestBidVolume)];
      }
      if askChanged {
        updates := updates + [Update(ExchangeName, now, "ask", bestAskPrice, bestAskVolume)];
      }
    }
  }
}
