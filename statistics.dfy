/** The streaming sanity aggregates over bid updates (src/core/statistics.py):
    `StreamingStats` with its constructor and `update_bid`. The ghost history
    `calls` records every call; `Valid()` ties each field to a function of the
    calls whose price and volume pass validation. */
module Statistics {
  import opened Types

  /** `update_bid` ignores a call whose price or volume is missing or not positive. */
  predicate IsValidBid(price: Option<real>, volume: Option<real>)
  {
    price.Some? && volume.Some? && price.value > 0.0 && volume.value > 0.0
  }

  /** The arguments of one `update_bid` call. */
  datatype Call = Call(price: Option<real>, volume: Option<real>)

  /** A call that passed validation. */
  datatype Bid = Bid(price: real, volume: real)

  /** The calls that pass validation, in order. */
  function ValidBids(calls: seq<Call>): seq<Bid>
    decreases |calls|
  {
    if calls == [] then []
    else
      var c := calls[|calls| - 1];
      ValidBids(calls[..|calls| - 1])
      + (if IsValidBid(c.price, c.volume) then [Bid(c.price.value, c.volume.value)] else [])
  }

  function Max(a: real, b: real): real
  {
    if a >= b then a else b
  }

  function Abs(x: real): real
  {
    if x >= 0.0 then x else -x
  }

  /** The larger of 0 and every price. */
  function MaxPrice(bids: seq<Bid>): real
    decreases |bids|
  {
    if bids == [] then 0.0 else Max(MaxPrice(bids[..|bids| - 1]), bids[|bids| - 1].price)
  }

  /** The absolute difference between the price at `i` and the one before it. */
  function Jump(bids: seq<Bid>, i: nat): real
    requires 1 <= i < |bids|
  {
    Abs(bids[i].price - bids[i - 1].price)
  }

  /** The larger of 0 and every absolute difference between consecutive prices. */
  function MaxJump(bids: seq<Bid>): real
    decreases |bids|
  {
    if |bids| < 2 then 0.0
    else Max(MaxJump(bids[..|bids| - 1]), Jump(bids, |bids| - 1))
  }

  /** The sum of the volumes. */
  function TotalVolume(bids: seq<Bid>): real
    decreases |bids|
  {
    if bids == [] then 0.0 else TotalVolume(bids[..|bids| - 1]) + bids[|bids| - 1].volume
  }

  function LastPrice(bids: seq<Bid>): Option<real>
  {
    if bids == [] then None else Some(bids[|bids| - 1].price)
  }

  class StreamingStats {
    const exchangeName: string
    var maxBidPriceChange: real
    var totalVolumeAtBestBid: real
    var maxBidPrice: real
    var previousBestBid: Option<real>
    ghost var calls: seq<Call>

    ghost predicate Valid()
      reads this
    {
      var bids := ValidBids(calls);
      && maxBidPrice == MaxPrice(bids)
      && maxBidPriceChange == MaxJump(bids)
      && totalVolumeAtBestBid == TotalVolume(bids)
      && previousBestBid == LastPrice(bids)
    }

    constructor (exchangeName: string)
      ensures Valid() && calls == []
      ensures this.exchangeName == exchangeName
      ensures maxBidPriceChange == 0.0 && totalVolumeAtBestBid == 0.0 && maxBidPrice == 0.0
      ensures previousBestBid == None
    {
      this.exchangeName := exchangeName;
      maxBidPriceChange := 0.0;
      totalVolumeAtBestBid := 0.0;
      maxBidPrice := 0.0;
      previousBestBid := None;
      calls := [];
    }

    /** Folds one bid into the aggregates; an invalid call changes no field. */
    method UpdateBid(price: Option<real>, volume: Option<real>)
      requires Valid()
      modifies this
      ensures Valid()
      ensures calls == old(calls) + [Call(price, volume)]
      ensures !IsValidBid(price, volume) ==>
        && maxBidPrice == old(maxBidPrice)
        && maxBidPriceChange == old(maxBidPriceChange)
        && totalVolumeAtBestBid == old(totalVolumeAtBestBid)
        && previousBestBid == old(previousBestBid)
      ensures IsValidBid(price, volume) ==> previousBestBid == price
      ensures old(maxBidPrice) <= maxBidPrice
      ensures old(maxBidPriceChange) <= maxBidPriceChange
      ensures old(totalVolumeAtBestBid) <= totalVolumeAtBestBid
    {
      ghost var bids := ValidBids(calls);
      calls := calls + [Call(price, volume)];
      assert calls[..|calls| - 1] == old(calls);
      if price.None? || volume.None? || price.value <= 0.0 || volume.value <= 0.0 {
        assert ValidBids(calls) == bids;
        return;
      }
      assert ValidBids(calls) == bids + [Bid(price.value, volume.value)];
      assert (bids + [Bid(price.value, volume.value)])[..|bids|] == bids;
      if price.value > maxBidPrice {
        maxBidPrice := price.value;
      }
      if previousBestBid.Some? {
        var priceChange := Abs(price.value - previousBestBid.value);
        if priceChange > maxBidPriceChange {
          maxBidPriceChange := priceChange;
        }
      }
      totalVolumeAtBestBid := totalVolumeAtBestBid + volume.value;
      previousBestBid := price;
    }
  }

  /** `max_bid_price` is the maximum of 0 and every valid price: no price exceeds
      it, and unless it is 0 some price reaches it. */
  lemma {:induction false} MaxPriceIsMaximum(bids: seq<Bid>)
    ensures MaxPrice(bids) >= 0.0
    ensures forall i :: 0 <= i < |bids| ==> bids[i].price <= MaxPrice(bids)
    ensures MaxPrice(bids) == 0.0 || exists i :: 0 <= i < |bids| && bids[i].price == MaxPrice(bids)
    decreases |bids|
  {
    if bids != [] {
      var init := bids[..|bids| - 1];
      MaxPriceIsMaximum(init);
      assert forall i :: 0 <= i < |init| ==> bids[i] == init[i];
      if MaxPrice(bids) != 0.0 && MaxPrice(bids) == MaxPrice(init) {
        var i :| 0 <= i < |init| && init[i].price == MaxPrice(init);
        assert bids[i].price == MaxPrice(bids);
      }
    }
  }

  /** `max_bid_price_change` is the maximum of 0 and the absolute difference of
      every two consecutive valid prices. */
  lemma {:induction false} MaxJumpIsMaximum(bids: seq<Bid>)
    ensures MaxJump(bids) >= 0.0
    ensures forall i :: 1 <= i < |bids| ==> Jump(bids, i) <= MaxJump(bids)
    ensures MaxJump(bids) == 0.0 || exists i :: 1 <= i < |bids| && Jump(bids, i) == MaxJump(bids)
    decreases |bids|
  {
    if |bids| >= 2 {
      var init := bids[..|bids| - 1];
      MaxJumpIsMaximum(init);
      forall i | 1 <= i < |init|
        ensures Jump(bids, i) == Jump(init, i)
      {
        assert bids[i] == init[i] && bids[i - 1] == init[i - 1];
      }
      if MaxJump(bids) != 0.0 && MaxJump(bids) == MaxJump(init) && MaxJump(init) != 0.0 {
        var i :| 1 <= i < |init| && Jump(init, i) == MaxJump(init);
        assert Jump(bids, i) == MaxJump(bids);
      }
    }
  }

  /** The first valid call leaves the price change at 0 and remembers its price. */
  lemma FirstValidBid(calls: seq<Call>, c: Call)
    requires ValidBids(calls) == [] && IsValidBid(c.price, c.volume)
    ensures MaxJump(ValidBids(calls + [c])) == 0.0
    ensures LastPrice(ValidBids(calls + [c])) == c.price
    ensures MaxPrice(ValidBids(calls + [c])) == c.price.value
  {
    assert (calls + [c])[..|calls|] == calls;
    assert ValidBids(calls + [c]) == [Bid(c.price.value, c.volume.value)];
  }

  /** The sum of the volumes of the valid calls, taken front to back. */
  function SumOfValidVolumes(calls: seq<Call>): real
    decreases |calls|
  {
    if calls == [] then 0.0
    else (if IsValidBid(calls[0].price, calls[0].volume) then calls[0].volume.value else 0.0)
         + SumOfValidVolumes(calls[1..])
  }

  lemma {:induction false} SumOfValidVolumesAppend(calls: seq<Call>, c: Call)
    ensures SumOfValidVolumes(calls + [c])
            == SumOfValidVolumes(calls) + (if IsValidBid(c.price, c.volume) then c.volume.value else 0.0)
    decreases |calls|
  {
    if calls != [] {
      assert (calls + [c])[1..] == calls[1..] + [c];
      SumOfValidVolumesAppend(calls[1..], c);
    }
  }

  /** `total_volume_at_best_bid` is the sum of the volumes of all valid calls. */
  lemma {:induction false} TotalVolumeIsSumOfValidVolumes(calls: seq<Call>)
    ensures TotalVolume(ValidBids(calls)) == SumOfValidVolumes(calls)
    decreases |calls|
  {
    if calls != [] {
      var init := calls[..|calls| - 1];
      var c := calls[|calls| - 1];
      assert calls == init + [c];
      assert calls[..|calls| - 1] == init;
      TotalVolumeIsSumOfValidVolumes(init);
      SumOfValidVolumesAppend(init, c);
      var bids := ValidBids(init);
      if IsValidBid(c.price, c.volume) {
        var b := Bid(c.price.value, c.volume.value);
        assert ValidBids(calls) == bids + [b];
        assert (bids + [b])[..|bids|] == bids;
        assert TotalVolume(bids + [b]) == TotalVolume(bids) + c.volume.value;
      } else {
        assert ValidBids(calls) == bids;
      }
    }
  }

  /** Later calls only extend the valid subsequence. */
  lemma {:induction false} ValidBidsGrow(calls: seq<Call>, more: seq<Call>)
    ensures ValidBids(calls) <= ValidBids(calls + more)
    decreases |more|
  {
    if more == [] {
      assert calls + more == calls;
    } else {
      var init := more[..|more| - 1];
      ValidBidsGrow(calls, init);
      var whole := calls + more;
      assert whole[..|whole| - 1] == calls + init;
      var c := whole[|whole| - 1];
      var extra := if IsValidBid(c.price, c.volume) then [Bid(c.price.value, c.volume.value)] else [];
      var a, b := ValidBids(calls), ValidBids(calls + init);
      assert ValidBids(whole) == b + extra;
      assert a == b[..|a|] == (b + extra)[..|a|];
    }
  }

  lemma {:induction false} ValidBidsHavePositiveVolume(calls: seq<Call>)
    ensures forall i :: 0 <= i < |ValidBids(calls)| ==> ValidBids(calls)[i].volume > 0.0
    decreases |calls|
  {
    if calls != [] {
      ValidBidsHavePositiveVolume(calls[..|calls| - 1]);
    }
  }

  lemma {:induction false} AggregatesGrowWithPrefix(s: seq<Bid>, t: seq<Bid>)
    requires s <= t
    requires forall i :: 0 <= i < |t| ==> t[i].volume > 0.0
    ensures MaxPrice(s) <= MaxPrice(t)
    ensures MaxJump(s) <= MaxJump(t)
    ensures TotalVolume(s) <= TotalVolume(t)
    decreases |t|
  {
    if |s| == |t| {
      assert s == t;
    } else {
      var init := t[..|t| - 1];
      assert s == t[..|s|] == init[..|s|];
      AggregatesGrowWithPrefix(s, init);
      MaxJumpIsMaximum(init);
      assert t[|t| - 1].volume > 0.0;
    }
  }

  /** None of the three aggregates ever decreases, whatever calls follow. */
  lemma AggregatesNeverDecrease(calls: seq<Call>, more: seq<Call>)
    ensures var before, after := ValidBids(calls), ValidBids(calls + more);
      && MaxPrice(before) <= MaxPrice(after)
      && MaxJump(before) <= MaxJump(after)
      && TotalVolume(before) <= TotalVolume(after)
  {
    ValidBidsGrow(calls, more);
    ValidBidsHavePositiveVolume(calls + more);
    AggregatesGrowWithPrefix(ValidBids(calls), ValidBids(calls + more));
  }

  /** One more call extends the valid calls by itself when it passes validation,
      and leaves them as they were when it does not. */
  lemma ValidBidsAppend(calls: seq<Call>, c: Call)
    ensures ValidBids(calls + [c])
            == ValidBids(calls) + (if IsValidBid(c.price, c.volume) then [Bid(c.price.value, c.volume.value)] else [])
  {
    assert (calls + [c])[..|calls|] == calls;
  }

  /** Valid bids 110000, 110100, 110020 give a largest jump of 100 and a
      largest price of 110100; invalid calls in between change nothing. */
  lemma ThreeBidsExample()
    ensures var calls := [Call(Some(110000.0), Some(1.0)), Call(None, Some(1.0)),
                          Call(Some(110100.0), Some(1.0)), Call(Some(-100.0), Some(1.0)),
                          Call(Some(110020.0), Some(1.0))];
      && MaxJump(ValidBids(calls)) == 100.0
      && MaxPrice(ValidBids(calls)) == 110100.0
      && TotalVolume(ValidBids(calls)) == 3.0
  {
    var c1 := [Call(Some(110000.0), Some(1.0))];
    var c2 := c1 + [Call(None, Some(1.0))];
    var c3 := c2 + [Call(Some(110100.0), Some(1.0))];
    var c4 := c3 + [Call(Some(-100.0), Some(1.0))];
    var c5 := c4 + [Call(Some(110020.0), Some(1.0))];
    var b1 := [Bid(110000.0, 1.0)];
    var b2 := b1 + [Bid(110100.0, 1.0)];
    var b3 := b2 + [Bid(110020.0, 1.0)];
    ValidBidsAppend([], c1[0]);
    assert [] + c1 == c1;
    ValidBidsAppend(c1, Call(None, Some(1.0)));
    ValidBidsAppend(c2, Call(Some(110100.0), Some(1.0)));
    ValidBidsAppend(c3, Call(Some(-100.0), Some(1.0)));
    ValidBidsAppend(c4, Call(Some(110020.0), Some(1.0)));
    assert ValidBids(c5) == b3;
    assert b2[..1] == b1 && b3[..2] == b2;
    assert MaxJump(b2) == 100.0;
    assert MaxPrice(b1[..0]) == 0.0 && TotalVolume(b1[..0]) == 0.0;
    assert MaxPrice(b2) == 110100.0 && TotalVolume(b2) == 2.0;
    assert c5 == [Call(Some(110000.0), Some(1.0)), Call(None, Some(1.0)),
                  Call(Some(110100.0), Some(1.0)), Call(Some(-100.0), Some(1.0)),
                  Call(Some(110020.0), Some(1.0))];
  }
}
