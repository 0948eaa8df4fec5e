/** BidAskSpread/TimestampMergeFilter.cpp: neighbouring quotes of one date and time become one quote. */
module TimestampMerge {
  import opened Grouping
  import opened Observations
  import opened Statistics

  function Stamp(q: Quote): (string, string) { (q.date, q.time) }

  function Last(run: seq<Quote>): Quote
    requires |run| > 0
  {
    run[|run| - 1]
  }

  function MedianBid(run: seq<Quote>): (m: real)
    requires |run| > 0
    ensures m > 0.0
  {
    SortKeepsAll(Bids(run), 0);
    Median(Sort(Bids(run)))
  }

  function MedianOffer(run: seq<Quote>): (m: real)
    requires |run| > 0
    ensures m > 0.0
  {
    SortKeepsAll(Offers(run), 0);
    Median(Sort(Offers(run)))
  }

  /** The latest quote of the run, at the medians of the run's prices. */
  function Merged(run: seq<Quote>): Quote
    requires |run| > 0
  {
    if |run| > 1 then Last(run).(offer := MedianOffer(run), bid := MedianBid(run)) else run[0]
  }

  function MergeRun(run: seq<Quote>): seq<Quote> {
    if |run| == 0 then [] else [Merged(run)]
  }

  /** The whole stage: every maximal run of one stamp, merged. */
  function MergeStamps(input: seq<Quote>): seq<Quote> {
    Group(Stamp, MergeRun, input)
  }

  function Reversed(s: seq<Quote>): (r: seq<Quote>)
    ensures |r| == |s| && forall i | 0 <= i < |s| :: r[i] == s[|s| - 1 - i]
  {
    seq(|s|, i requires 0 <= i < |s| => s[|s| - 1 - i])
  }

  lemma {:induction false} ReversedPrices(s: seq<Quote>)
    ensures multiset(Bids(Reversed(s))) == multiset(Bids(s))
    ensures multiset(Offers(Reversed(s))) == multiset(Offers(s))
  {
    if |s| == 0 {
      assert Bids(Reversed(s)) == Bids(s) && Offers(Reversed(s)) == Offers(s);
    } else {
      ReversedPrices(s[1..]);
      assert Bids(s) == [s[0].bid] + Bids(s[1..]);
      assert Offers(s) == [s[0].offer] + Offers(s[1..]);
      assert Bids(Reversed(s)) == Bids(Reversed(s[1..])) + [s[0].bid];
      assert Offers(Reversed(s)) == Offers(Reversed(s[1..])) + [s[0].offer];
    }
  }

  /** Which way round the run is stored makes no difference to its medians. */
  lemma MergedReversed(s: seq<Quote>)
    requires |s| > 1
    ensures MedianOffer(s) == MedianOffer(Reversed(s)) && MedianBid(s) == MedianBid(Reversed(s))
    ensures Merged(Reversed(s)) == s[0].(offer := MedianOffer(s), bid := MedianBid(s))
  {
    ReversedPrices(s);
    SortOrderBlind(Bids(s), Bids(Reversed(s)));
    SortOrderBlind(Offers(s), Offers(Reversed(s)));
  }

  /** The one quote a run becomes: everything from the latest, and on either side the middle of the run's prices. */
  lemma MergedIsMiddle(run: seq<Quote>)
    requires |run| > 0
    ensures var n, q := |run|, Merged(run);
            && q.symbol == Last(run).symbol && q.date == Last(run).date && q.time == Last(run).time && q.mode == Last(run).mode
            && 2.0 * q.bid == Sort(Bids(run))[(n - 1) / 2] + Sort(Bids(run))[n / 2]
            && 2.0 * q.offer == Sort(Offers(run))[(n - 1) / 2] + Sort(Offers(run))[n / 2]
  {
    MedianIsMiddle(Sort(Bids(run)));
    MedianIsMiddle(Sort(Offers(run)));
    if |run| == 1 {
      SortKeepsAll(Bids(run), 0);
      SortKeepsAll(Offers(run), 0);
    }
    hide Sort, Median, Ascending;
  }

  /** Quote by quote: the `r`th one out stands for the `r`th run of quotes with its date and time, and the next one out
      has another date or time. */
  lemma MergedByStamp(input: seq<Quote>, r: nat)
    requires r < |Runs(Stamp, input)|
    ensures |MergeStamps(input)| == |Runs(Stamp, input)|
    ensures var q, run := MergeStamps(input)[r], Runs(Stamp, input)[r];
            && |run| > 0 && q == Merged(run) && forall x | x in run :: x.date == q.date && x.time == q.time
    ensures r + 1 < |MergeStamps(input)| ==>
              var q, next := MergeStamps(input)[r], MergeStamps(input)[r + 1];
              q.date != next.date || q.time != next.time
  {
    hide Merged, Group, MedianBid, MedianOffer;
    RunsAreRuns(Stamp, input);
    GroupAt(Stamp, MergeRun, input, r);
    StampOf(Runs(Stamp, input), input, r);
    if r + 1 < |Runs(Stamp, input)| {
      GroupAt(Stamp, MergeRun, input, r + 1);
      StampOf(Runs(Stamp, input), input, r + 1);
    }
  }

  lemma StampOf(runs: seq<seq<Quote>>, input: seq<Quote>, r: nat)
    requires runs == Runs(Stamp, input) && r < |runs|
    ensures |runs[r]| > 0 && Stamp(Merged(runs[r])) == Stamp(runs[r][0])
    ensures forall x | x in runs[r] :: Stamp(x) == Stamp(runs[r][0])
    ensures r + 1 < |runs| ==> |runs[r + 1]| > 0 && Stamp(runs[r + 1][0]) != Stamp(runs[r][0])
  {
    RunsByKey(Stamp, input, r);
    assert Last(runs[r]) in runs[r];
    hide MedianBid, MedianOffer, Runs;
  }

  class TimestampMergeFilter {
    /** A forward list: the latest quote is in front. */
    var buffer: seq<Quote>

    constructor ()
      ensures buffer == []
    {
      buffer := [];
    }

    method GetMergedObs() returns (result: Quote)
      requires |buffer| > 0
      ensures result == Merged(Reversed(buffer))
    {
      hide Sort, Merged, Median, Ascending;
      if |buffer| > 1 {
        var sortedBids, sortedOffers := [], [];
        for i := 0 to |buffer|
          invariant sortedBids == Bids(buffer[..i]) && sortedOffers == Offers(buffer[..i])
        {
          sortedBids := sortedBids + [buffer[i].bid];
          sortedOffers := sortedOffers + [buffer[i].offer];
        }
        assert buffer[..|buffer|] == buffer;
        MergedReversed(buffer);
        sortedBids, sortedOffers := Sort(sortedBids), Sort(sortedOffers);
        result := buffer[0].(offer := Median(sortedOffers), bid := Median(sortedBids));
      } else {
        result := buffer[0];
        SingleMerged(buffer);
      }
    }

    method Filter(input: seq<Quote>) returns (output: seq<Quote>)
      requires buffer == []
      modifies this
      ensures output == MergeStamps(input) && buffer == []
    {
      hide Merged, Group, GroupStream;
      output := [];
      for i := 0 to |input|
        invariant output + GroupStream(Stamp, MergeRun, Reversed(buffer), input[i..])
               == GroupStream(Stamp, MergeRun, [], input)
      {
        var obs := input[i];
        StreamUnfolds(Stamp, MergeRun, Reversed(buffer), obs, input[i + 1..]);
        assert input[i..] == [obs] + input[i + 1..];
        ghost var step := GroupStep(Stamp, MergeRun, Reversed(buffer), obs);
        if |buffer| == 0 {
          buffer := [obs] + buffer;
        } else if obs.date == buffer[0].date && obs.time == buffer[0].time {
          buffer := [obs] + buffer;
        } else {
          var merged := GetMergedObs();
          output := output + [merged];
          buffer := [];
          buffer := [obs] + buffer;
        }
        assert Reversed(buffer) == step.0;
      }
      Flushed(Stamp, MergeRun, Reversed(buffer), input[|input|..]);
      if |buffer| > 0 {
        var merged := GetMergedObs();
        output := output + [merged];
        buffer := [];
      }
      StreamGroups(Stamp, MergeRun, [], input);
      assert [] + input == input;
    }
  }

  lemma SingleMerged(s: seq<Quote>)
    requires |s| == 1
    ensures Merged(Reversed(s)) == s[0]
  {
  }

  // ---------------------------------------------------------------- scale

  lemma MediansScaled(k: Factor, run: seq<Quote>)
    requires |run| > 0
    ensures MedianBid(Map(Scaler(k), run)) == Times(k, MedianBid(run))
    ensures MedianOffer(Map(Scaler(k), run)) == Times(k, MedianOffer(run))
  {
    var scaled := Map(Scaler(k), run);
    assert Bids(scaled) == Scaled(k, Bids(run)) && Offers(scaled) == Scaled(k, Offers(run));
    SortScaled(k, Bids(run));
    SortScaled(k, Offers(run));
    MedianScaled(k, Sort(Bids(run)));
    MedianScaled(k, Sort(Offers(run)));
    hide Sort, Median, Scaled, Times;
  }

  lemma MergeRunScaled(k: Factor, run: seq<Quote>)
    requires |run| > 0
    ensures MergeRun(Map(Scaler(k), run)) == Map(Scaler(k), MergeRun(run))
  {
    MediansScaled(k, run);
    hide MedianBid, MedianOffer, Times;
    var scaled, merged := Map(Scaler(k), run), Merged(run);
    assert Merged(scaled) == ScaledQuote(k, merged);
    assert Map(Scaler(k), [merged]) == [ScaledQuote(k, merged)];
  }
}
