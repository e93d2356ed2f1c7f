/** The shared best-bid/best-ask store (src/core/order_book.py): one optional
    `BookState` per venue, keyed by the venue's name. */
module OrderBook {
  import opened Types

  /** The names `__init__` puts in the dictionary; no other key is ever added. */
  const Venues: set<string> := {"kraken", "coinbase"}

  /** The zero price and volume a new state gets on the side the first update
      does not address. */
  const Placeholder: Option<real> := Some(0.0)

  /** The state of one venue after `u`: the addressed side comes from `u`, the
      other side from the current state (or the placeholder when there is none);
      any side other than "bid" is the ask side. */
  function Merge(current: Option<BookState>, u: Update): BookState
  {
    var askPrice := if current.None? then Placeholder else current.value.bestAskPrice;
    var askVolume := if current.None? then Placeholder else current.value.bestAskVolume;
    var bidPrice := if current.None? then Placeholder else current.value.bestBidPrice;
    var bidVolume := if current.None? then Placeholder else current.value.bestBidVolume;
    if u.side == "bid" then
      BookState(u.exchange, u.price, u.volume, askPrice, askVolume, u.timestamp)
    else
      BookState(u.exchange, bidPrice, bidVolume, u.price, u.volume, u.timestamp)
  }

  /** The dictionary after `update(u)`; an unknown venue raises and leaves it as is. */
  function Apply(states: map<string, Option<BookState>>, u: Update): map<string, Option<BookState>>
  {
    if u.exchange in states then states[u.exchange := Some(Merge(states[u.exchange], u))] else states
  }

  /** The dictionary `__init__` builds. */
  const Fresh: map<string, Option<BookState>> := map["kraken" := None, "coinbase" := None]

  /** `dict.get`: the entry, or `None` for a name that is not a key. */
  function Get(states: map<string, Option<BookState>>, exchange: string): Option<BookState>
  {
    if exchange in states then states[exchange] else None
  }

  datatype Outcome = Done | KeyError(key: string)

  class OrderBookManager {
    var states: map<string, Option<BookState>>

    /** The dictionary has exactly the two venues, and each stored state names its own venue. */
    ghost predicate Valid()
      reads this
    {
      && states.Keys == Venues
      && forall v :: v in states && states[v].Some? ==> states[v].value.exchange == v
    }

    constructor ()
      ensures Valid()
      ensures states == Fresh
    {
      states := map["kraken" := None, "coinbase" := None];
    }

    /** Replaces one side of one venue's state, or raises KeyError for a venue
        the store does not know. */
    method Update(u: Update) returns (r: Outcome)
      requires Valid()
      modifies this
      ensures Valid()
      ensures states == Apply(old(states), u)
      ensures r == if u.exchange in Venues then Done else KeyError(u.exchange)
      ensures u.exchange in Venues ==>
        && states[u.exchange].Some?
        && states[u.exchange].value.exchange == u.exchange
        && states[u.exchange].value.timestamp == u.timestamp
      ensures forall v :: v in old(states) && v != u.exchange ==> v in states && states[v] == old(states)[v]
    {
      var exchange := u.exchange;
      if exchange !in states {
        return KeyError(exchange);
      }
      var current := states[exchange];
      if current.None? {
        if u.side == "bid" {
          states := states[exchange := Some(BookState(exchange, u.price, u.volume, Placeholder, Placeholder, u.timestamp))];
        } else {
          states := states[exchange := Some(BookState(exchange, Placeholder, Placeholder, u.price, u.volume, u.timestamp))];
        }
      } else {
        var s := current.value;
        if u.side == "bid" {
          states := states[exchange := Some(BookState(exchange, u.price, u.volume, s.bestAskPrice, s.bestAskVolume, u.timestamp))];
        } else {
          states := states[exchange := Some(BookState(exchange, s.bestBidPrice, s.bestBidVolume, u.price, u.volume, u.timestamp))];
        }
      }
      r := Done;
    }

    /** `states.get(exchange)`: the stored state, or `None` both for a venue with
        no update yet and for a name the store does not know. */
    function GetState(exchange: string): (r: Option<BookState>)
      requires Valid()
      reads this
      ensures exchange !in Venues ==> r.None?
      ensures r.Some? ==> r.value.exchange == exchange && exchange in states && states[exchange] == r
    {
      Get(states, exchange)
    }
  }

  /** Until an update addresses a name, looking it up answers `None`: in a fresh
      store every name, known venue or not, answers `None`. */
  lemma {:induction false} NoStateBeforeFirstUpdate(us: seq<Update>, exchange: string)
    requires forall k :: 0 <= k < |us| ==> us[k].exchange != exchange
    ensures Get(Replay(Fresh, us), exchange) == None
  {
    NoStateWithoutUpdate(Fresh, us, exchange);
  }

  lemma {:induction false} NoStateWithoutUpdate(states: map<string, Option<BookState>>, us: seq<Update>, exchange: string)
    requires Get(states, exchange) == None
    requires forall k :: 0 <= k < |us| ==> us[k].exchange != exchange
    ensures Get(Replay(states, us), exchange) == None
    decreases |us|
  {
    if us != [] {
      NoStateWithoutUpdate(Apply(states, us[0]), us[1..], exchange);
    }
  }

  /** The addressed side takes the update's price and volume, and the state
      takes the update's venue and timestamp. */
  lemma MergeTakesAddressedSide(current: Option<BookState>, u: Update)
    ensures var s := Merge(current, u);
      && s.exchange == u.exchange && s.timestamp == u.timestamp
      && (u.side == "bid" ==> s.bestBidPrice == u.price && s.bestBidVolume == u.volume)
      && (u.side != "bid" ==> s.bestAskPrice == u.price && s.bestAskVolume == u.volume)
  {
  }

  /** The side the update does not address is copied from the current state,
      or is the zero placeholder on the venue's first update. */
  lemma MergeKeepsOtherSide(current: Option<BookState>, u: Update)
    ensures var s := Merge(current, u);
      && (u.side == "bid" ==>
            if current.None? then s.bestAskPrice == Some(0.0) && s.bestAskVolume == Some(0.0)
            else s.bestAskPrice == current.value.bestAskPrice && s.bestAskVolume == current.value.bestAskVolume)
      && (u.side != "bid" ==>
            if current.None? then s.bestBidPrice == Some(0.0) && s.bestBidVolume == Some(0.0)
            else s.bestBidPrice == current.value.bestBidPrice && s.bestBidVolume == current.value.bestBidVolume)
  {
  }

  /** Applying the same update twice leaves the state applying it once leaves. */
  lemma MergeIdempotent(current: Option<BookState>, u: Update)
    ensures Merge(Some(Merge(current, u)), u) == Merge(current, u)
  {
  }

  lemma ApplyIdempotent(states: map<string, Option<BookState>>, u: Update)
    ensures Apply(Apply(states, u), u) == Apply(states, u)
  {
    if u.exchange in states {
      MergeIdempotent(states[u.exchange], u);
    }
  }

  /** The store after a run of updates. */
  function Replay(states: map<string, Option<BookState>>, us: seq<Update>): map<string, Option<BookState>>
    decreases |us|
  {
    if us == [] then states else Replay(Apply(states, us[0]), us[1..])
  }

  /** The updates of a run that address venue `v`. */
  function For(us: seq<Update>, v: string): seq<Update>
    decreases |us|
  {
    if us == [] then []
    else if us[0].exchange == v then [us[0]] + For(us[1..], v)
    else For(us[1..], v)
  }

  /** A venue's entry after a run depends only on the updates addressed to that
      venue: updates for the other venue never touch it. */
  lemma {:induction false} ReplayIsolatesVenues(states: map<string, Option<BookState>>, us: seq<Update>, v: string)
    requires v in states
    ensures v in Replay(states, us) && v in Replay(states, For(us, v))
    ensures Replay(states, us)[v] == Replay(states, For(us, v))[v]
    decreases |us|
  {
    if us != [] {
      var next := Apply(states, us[0]);
      ReplayIsolatesVenues(next, us[1..], v);
      if us[0].exchange == v {
        assert For(us, v) == [us[0]] + For(us[1..], v);
        assert ([us[0]] + For(us[1..], v))[1..] == For(us[1..], v);
      } else {
        assert next[v] == states[v];
        ForAddressesOnly(us[1..], v);
        ReplayFromSameEntry(states, next, For(us[1..], v), v);
      }
    }
  }

  /** Replaying updates for `v` from two stores that agree on `v` gives the same entry for `v`. */
  lemma {:induction false} ReplayFromSameEntry(a: map<string, Option<BookState>>, b: map<string, Option<BookState>>, us: seq<Update>, v: string)
    requires v in a && v in b && a[v] == b[v]
    requires forall k :: 0 <= k < |us| ==> us[k].exchange == v
    ensures v in Replay(a, us) && v in Replay(b, us) && Replay(a, us)[v] == Replay(b, us)[v]
    decreases |us|
  {
    if us != [] {
      ReplayFromSameEntry(Apply(a, us[0]), Apply(b, us[0]), us[1..], v);
    }
  }

  lemma {:induction false} ForAddressesOnly(us: seq<Update>, v: string)
    ensures forall k :: 0 <= k < |For(us, v)| ==> For(us, v)[k].exchange == v
    decreases |us|
  {
    if us != [] {
      ForAddressesOnly(us[1..], v);
    }
  }

  /** After a run whose last update addresses a known venue, the venue's state
      names the venue and carries that update's timestamp. */
  lemma {:induction false} ReplayKeepsLastTimestamp(states: map<string, Option<BookState>>, us: seq<Update>, v: string)
    requires v in states && us != [] && us[|us| - 1].exchange == v
    ensures v in Replay(states, us) && Replay(states, us)[v].Some?
    ensures Replay(states, us)[v].value.exchange == v
    ensures Replay(states, us)[v].value.timestamp == us[|us| - 1].timestamp
    decreases |us|
  {
    if |us| == 1 {
      assert us[1..] == [];
    } else {
      ReplayKeepsLastTimestamp(Apply(states, us[0]), us[1..], v);
    }
  }
}
