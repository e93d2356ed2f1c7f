/** What the Coinbase tracker promises, proved about the functions that specify
    `CoinbaseAdapter.ProcessMessage` (src/exchanges/coinbase.py:37-150). */
module CoinbaseProperties {
  import opened Types
  import opened Coinbase

  /** The first level of the array exists and carries a numeric price and size. */
  predicate WellFormedLevels(levels: Option<seq<Level>>)
  {
    FirstLevelField(levels, 0).Some? && FirstLevelField(levels, 1).Some?
  }

  /** A snapshot whose lookups all succeed sets both sides from the first levels,
      keeps both refresh flags and yields the bid then the ask update, stamped
      with the same instant. */
  lemma SnapshotReplacesBothSides(t: Tracker, bids: seq<Level>, asks: seq<Level>, now: Timestamp)
    requires WellFormedLevels(Some(bids)) && WellFormedLevels(Some(asks))
    ensures var o := Process(t, Snapshot(Some(bids), Some(asks)), now);
      && o.tracker.bid == Best(Some(bids[0][0].value), Some(bids[0][1].value), t.bid.needsRefresh)
      && o.tracker.ask == Best(Some(asks[0][0].value), Some(asks[0][1].value), t.ask.needsRefresh)
      && o.emitted == [Update(ExchangeName, now, "bid", Some(bids[0][0].value), Some(bids[0][1].value)),
                       Update(ExchangeName, now, "ask", Some(asks[0][0].value), Some(asks[0][1].value))]
  {
  }

  /** A snapshot whose `asks` key is missing still overwrites the bid side before
      it raises, and yields nothing. */
  lemma SnapshotWithoutAsksKeepsBid(t: Tracker, bids: seq<Level>, now: Timestamp)
    requires WellFormedLevels(Some(bids))
    ensures var o := Process(t, Snapshot(Some(bids), None), now);
      && o.tracker == t.(bid := t.bid.(price := Some(bids[0][0].value), volume := Some(bids[0][1].value)))
      && o.emitted == []
  {
  }

  /** A zero-size change deletes the tracked level only when its price is the
      tracked best, and never marks its side changed. */
  lemma ZeroSizeDeletesOnlyTheBest(side: BookSide, b: Best, price: real, changed: bool)
    ensures var s := StepSide(side, b, price, 0.0, changed);
      && s.changed == changed
      && (b.price == Some(price) ==> s.best == Best(None, None, true))
      && (b.price != Some(price) ==> s.best == b)
  {
  }

  /** With a refresh pending, any non-zero change is adopted whatever its price;
      the flag is cleared and the side's changed-marker is reset. */
  lemma RefreshAdoptsAnyPrice(side: BookSide, b: Best, price: real, size: real, changed: bool)
    requires size != 0.0 && b.needsRefresh
    ensures StepSide(side, b, price, size, changed) == SideStep(Best(Some(price), Some(size), false), false)
  {
  }

  /** With no refresh pending, a non-zero change replaces the level when there is
      none or its price is strictly better, refreshes only the volume at an equal
      price, and is ignored at a worse price. */
  lemma ImproveOrRefreshVolume(side: BookSide, b: Best, price: real, size: real, changed: bool)
    requires size != 0.0 && !b.needsRefresh
    ensures var s := StepSide(side, b, price, size, changed);
      && (b.price.None? || Improves(side, price, b.price.value) ==>
            s == SideStep(Best(Some(price), Some(size), false), true))
      && (b.price == Some(price) ==> s == SideStep(b.(volume := Some(size)), true))
      && (b.price.Some? && b.price.value != price && !Improves(side, price, b.price.value) ==>
            s == SideStep(b, changed))
  {
  }

  /** Messages of another type, and undecodable ones, change nothing and yield nothing. */
  lemma OtherMessagesAreInert(t: Tracker, now: Timestamp)
    ensures Process(t, OtherType, now) == Outcome(t, [])
    ensures Process(t, Unparseable, now) == Outcome(t, [])
  {
  }

  /** Changes whose side is neither "buy" nor "sell" leave the tracker and both
      changed-markers as they were. */
  lemma {:induction false} UnknownSidesAreInert(t: Tracker, changes: seq<Change>, bidChanged: bool, askChanged: bool)
    requires forall k :: 0 <= k < |changes| ==> changes[k].Change? && changes[k].side != "buy" && changes[k].side != "sell"
    ensures WalkChanges(t, changes, bidChanged, askChanged) == Walk(t, bidChanged, askChanged, false)
  {
    if changes != [] {
      UnknownSidesAreInert(t, changes[1..], bidChanged, askChanged);
    }
  }

  /** A delta message made only of such changes yields nothing and leaves the tracker alone. */
  lemma UnknownSideMessageIsInert(t: Tracker, changes: seq<Change>, now: Timestamp)
    requires forall k :: 0 <= k < |changes| ==> changes[k].Change? && changes[k].side != "buy" && changes[k].side != "sell"
    ensures Process(t, L2Update(changes), now) == Outcome(t, [])
  {
    UnknownSidesAreInert(t, changes, false, false);
  }

  /** The walk over `pre + [Malformed] + post` ends in the state the walk over
      `pre` reaches, marked failed. */
  lemma {:induction false} WalkStopsAtMalformed(t: Tracker, pre: seq<Change>, post: seq<Change>, bidChanged: bool, askChanged: bool)
    requires forall k :: 0 <= k < |pre| ==> pre[k].Change?
    ensures WalkChanges(t, pre + [Malformed] + post, bidChanged, askChanged)
            == WalkChanges(t, pre, bidChanged, askChanged).(failed := true)
    decreases |pre|
  {
    if pre == [] {
      assert (pre + [Malformed] + post)[0] == Malformed;
    } else {
      var c := pre[0];
      var w := ApplyChange(t, c.side, c.price, c.size, bidChanged, askChanged);
      assert (pre + [Malformed] + post)[0] == c;
      assert (pre + [Malformed] + post)[1..] == pre[1..] + [Malformed] + post;
      WalkStopsAtMalformed(w.tracker, pre[1..], post, w.bidChanged, w.askChanged);
    }
  }

  /** A parse error inside a delta message is isolated to that message: the
      changes before it stay applied and nothing is yielded. */
  lemma MalformedChangeKeepsEarlierChanges(t: Tracker, pre: seq<Change>, post: seq<Change>, now: Timestamp)
    requires forall k :: 0 <= k < |pre| ==> pre[k].Change?
    ensures Process(t, L2Update(pre + [Malformed] + post), now)
            == Outcome(WalkChanges(t, pre, false, false).tracker, [])
  {
    WalkStopsAtMalformed(t, pre, post, false, false);
  }

  /** A delta message yields at most one update per side, the bid one first; a
      side is yielded exactly when the walk succeeded and left it marked changed,
      and the update carries that side's state at the end of the message. */
  lemma DeltaEmitsEndStatePerChangedSide(t: Tracker, changes: seq<Change>, now: Timestamp)
    ensures var w := WalkChanges(t, changes, false, false);
      var o := Process(t, L2Update(changes), now);
      && o.tracker == w.tracker
      && |o.emitted| <= 2
      && (forall k :: 0 <= k < |o.emitted| ==>
            && o.emitted[k].exchange == ExchangeName
            && o.emitted[k].timestamp == now
            && (o.emitted[k].side == "bid" || o.emitted[k].side == "ask"))
      && (|o.emitted| == 2 ==> o.emitted[0].side == "bid" && o.emitted[1].side == "ask")
      && ((exists k :: 0 <= k < |o.emitted| && o.emitted[k].side == "bid") <==> !w.failed && w.bidChanged)
      && ((exists k :: 0 <= k < |o.emitted| && o.emitted[k].side == "ask") <==> !w.failed && w.askChanged)
      && (forall k :: 0 <= k < |o.emitted| && o.emitted[k].side == "bid" ==>
            o.emitted[k].price == w.tracker.bid.price && o.emitted[k].volume == w.tracker.bid.volume)
      && (forall k :: 0 <= k < |o.emitted| && o.emitted[k].side == "ask" ==>
            o.emitted[k].price == w.tracker.ask.price && o.emitted[k].volume == w.tracker.ask.volume)
  {
    var w := WalkChanges(t, changes, false, false);
    var o := Process(t, L2Update(changes), now);
    if !w.failed && w.bidChanged {
      assert o.emitted[0].side == "bid";
    }
    if !w.failed && w.askChanged {
      assert o.emitted[|o.emitted| - 1].side == "ask";
    }
  }

  /** An improving bid followed, in the same message, by the deletion of that
      level yields a bid update with no price and no volume. */
  lemma DeletedLevelIsYieldedEmpty(t: Tracker, price: real, size: real, now: Timestamp)
    requires !t.bid.needsRefresh && size != 0.0
    requires t.bid.price.None? || price > t.bid.price.value
    ensures var o := Process(t, L2Update([Change("buy", price, size), Change("buy", price, 0.0)]), now);
      && o.tracker.bid == Best(None, None, true)
      && o.emitted == [Update(ExchangeName, now, "bid", None, None)]
  {
    var changes := [Change("buy", price, size), Change("buy", price, 0.0)];
    assert changes[1..] == [Change("buy", price, 0.0)];
    var t1 := t.(bid := Best(Some(price), Some(size), false));
    assert WalkChanges(t, changes, false, false) == WalkChanges(t1, changes[1..], true, false);
    assert WalkChanges(t1, changes[1..], true, false) == Walk(t.(bid := Best(None, None, true)), true, false, false);
  }

  /** Adopting a level after a deletion resets the side's changed-marker, which
      cancels an improvement made earlier in the same message: the best bid
      moves and no bid update is yielded. */
  lemma AdoptionCancelsEarlierChange(t: Tracker, price: real, size: real, adopted: real, adoptedSize: real, now: Timestamp)
    requires !t.bid.needsRefresh && size != 0.0 && adoptedSize != 0.0
    requires t.bid.price.None? || price > t.bid.price.value
    ensures var o := Process(t, L2Update([Change("buy", price, size), Change("buy", price, 0.0),
                                          Change("buy", adopted, adoptedSize)]), now);
      && o.tracker.bid == Best(Some(adopted), Some(adoptedSize), false)
      && o.emitted == []
  {
    var changes := [Change("buy", price, size), Change("buy", price, 0.0), Change("buy", adopted, adoptedSize)];
    assert changes[1..] == [Change("buy", price, 0.0), Change("buy", adopted, adoptedSize)];
    assert changes[1..][1..] == [Change("buy", adopted, adoptedSize)];
    var t1 := t.(bid := Best(Some(price), Some(size), false));
    var t2 := t.(bid := Best(None, None, true));
    var t3 := t.(bid := Best(Some(adopted), Some(adoptedSize), false));
    assert WalkChanges(t, changes, false, false) == WalkChanges(t1, changes[1..], true, false);
    assert WalkChanges(t1, changes[1..], true, false) == WalkChanges(t2, changes[1..][1..], true, false);
    assert WalkChanges(t2, changes[1..][1..], true, false) == Walk(t3, false, false, false);
  }

  /** Deleting the best bid and then receiving any non-zero bid change, in two
      messages, makes that change the best bid whatever its price, silently. */
  lemma DeleteThenAdopt(t: Tracker, best: real, next: real, size: real, now1: Timestamp, now2: Timestamp)
    requires t.bid.price == Some(best) && size != 0.0
    ensures var o1 := Process(t, L2Update([Change("buy", best, 0.0)]), now1);
      var o2 := Process(o1.tracker, L2Update([Change("buy", next, size)]), now2);
      && o1.tracker.bid == Best(None, None, true) && o1.emitted == []
      && o2.tracker.bid == Best(Some(next), Some(size), false) && o2.emitted == []
  {
    var t1 := t.(bid := Best(None, None, true));
    assert WalkChanges(t, [Change("buy", best, 0.0)], false, false) == Walk(t1, false, false, false);
    assert WalkChanges(t1, [Change("buy", next, size)], false, false)
           == Walk(t1.(bid := Best(Some(next), Some(size), false)), false, false, false);
  }

  /** On each side, the price is absent exactly when the volume is. */
  predicate Paired(t: Tracker)
  {
    && (t.bid.price.None? <==> t.bid.volume.None?)
    && (t.ask.price.None? <==> t.ask.volume.None?)
  }

  /** Messages whose processing cannot stop half-way through a side: every
      snapshot lookup succeeds. */
  predicate WellFormed(msg: Message)
  {
    msg.Snapshot? ==> WellFormedLevels(msg.bids) && WellFormedLevels(msg.asks)
  }

  lemma {:induction false} WalkPreservesPaired(t: Tracker, changes: seq<Change>, bidChanged: bool, askChanged: bool)
    requires Paired(t)
    ensures Paired(WalkChanges(t, changes, bidChanged, askChanged).tracker)
    decreases |changes|
  {
    if changes != [] && changes[0].Change? {
      var c := changes[0];
      var w := ApplyChange(t, c.side, c.price, c.size, bidChanged, askChanged);
      WalkPreservesPaired(w.tracker, changes[1..], w.bidChanged, w.askChanged);
    }
  }

  lemma ProcessPreservesPaired(t: Tracker, msg: Message, now: Timestamp)
    requires Paired(t) && WellFormed(msg)
    ensures Paired(Process(t, msg, now).tracker)
  {
    if msg.L2Update? {
      WalkPreservesPaired(t, msg.changes, false, false);
    }
  }

  /** A message together with the instant the adapter stamps on its updates. */
  datatype Received = Received(msg: Message, at: Timestamp)

  /** The tracker after a run of messages. */
  function Replay(t: Tracker, run: seq<Received>): Tracker
    decreases |run|
  {
    if run == [] then t else Replay(Process(t, run[0].msg, run[0].at).tracker, run[1..])
  }

  /** Over any run of well-formed messages from a paired state, each side's
      price stays absent exactly when its volume is. */
  lemma {:induction false} ReplayPreservesPaired(t: Tracker, run: seq<Received>)
    requires Paired(t)
    requires forall k :: 0 <= k < |run| ==> WellFormed(run[k].msg)
    ensures Paired(Replay(t, run))
    decreases |run|
  {
    if run != [] {
      ProcessPreservesPaired(t, run[0].msg, run[0].at);
      ReplayPreservesPaired(Process(t, run[0].msg, run[0].at).tracker, run[1..]);
    }
  }

  /** The initial state is paired, so every well-formed run keeps it so. */
  lemma InitialRunsArePaired(run: seq<Received>)
    requires forall k :: 0 <= k < |run| ==> WellFormed(run[k].msg)
    ensures Paired(Replay(Initial, run))
  {
    ReplayPreservesPaired(Initial, run);
  }

  /** Without well-formedness the pairing breaks: a snapshot whose first bid
      level has a price but no size sets the bid price and then raises, leaving
      a price with no volume. */
  lemma TruncatedSnapshotUnpairs(price: real, now: Timestamp)
    ensures !Paired(Process(Initial, Snapshot(Some([[Num(price)]]), None), now).tracker)
  {
  }

  /** Bid changes that never have size zero and meet no pending refresh can only
      raise the best bid. */
  lemma {:induction false} BidNeverWorsensWithoutDeletes(t: Tracker, changes: seq<Change>, bidChanged: bool, askChanged: bool)
    requires !t.bid.needsRefresh
    requires forall k :: 0 <= k < |changes| ==> changes[k].Change? ==> changes[k].size != 0.0
    ensures var b := WalkChanges(t, changes, bidChanged, askChanged).tracker.bid;
      && !b.needsRefresh
      && (t.bid.price.Some? ==> b.price.Some? && b.price.value >= t.bid.price.value)
    decreases |changes|
  {
    if changes != [] && changes[0].Change? {
      var c := changes[0];
      var w := ApplyChange(t, c.side, c.price, c.size, bidChanged, askChanged);
      BidNeverWorsensWithoutDeletes(w.tracker, changes[1..], w.bidChanged, w.askChanged);
    }
  }
}
