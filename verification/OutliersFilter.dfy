/** BidAskSpread/OutliersFilter.cpp: day by day, quotes too far from their neighbours are dropped. */
module Outliers {
  import opened Options
  import opened Grouping
  import opened Observations
  import opened Statistics

  const WINDOW_SIZE := 51

  /** `current` is where the quote itself stands, counted from `low`. */
  datatype Interval = Interval(low: int, high: int, current: int) {
    function Size(): int { high - low + 1 }
  }

  /** The window of quote `i` in a day of `n`. */
  function WindowOf(n: nat, i: nat): Interval
    requires i < n
  {
    if i <= (WINDOW_SIZE - 1) / 2 then Interval(0, WINDOW_SIZE - 1, i)
    else if n - i < (WINDOW_SIZE + 1) / 2 then
      Interval(n - (WINDOW_SIZE + 1) / 2, n - 1, i - (n - (WINDOW_SIZE + 1) / 2))
    else Interval(i - (WINDOW_SIZE - 1) / 2, i + (WINDOW_SIZE - 1) / 2, (WINDOW_SIZE - 1) / 2)
  }

  /** How much of the window the day fills. */
  function Reach(n: nat, i: nat): int
    requires i < n
  {
    var size := WindowOf(n, i).Size();
    if size < n then size else n
  }

  /** Every index the window reaches is one of the day, and the quote stands where the window says.
      A full window has 51 quotes, except at the end of a day, where it has only the last 26. */
  lemma WindowInBounds(n: nat, i: nat)
    requires i < n
    ensures var w := WindowOf(n, i);
            && 0 <= w.low <= i < w.low + Reach(n, i) <= n
            && w.low + w.current == i
            && Reach(n, i) == (if n <= 51 && i <= 25 then n else if i > 25 && n - i < 26 then 26 else 51)
  {
  }

  /** Where the window lies: it starts with the day for the first 26 quotes of it, is the last 26 quotes for the last 25
      of it, and otherwise reaches 25 quotes to either side. */
  lemma WindowLies(n: nat, i: nat)
    requires i < n
    ensures var first, beyond := WindowOf(n, i).low, WindowOf(n, i).low + Reach(n, i);
            && (i <= 25 ==> first == 0 && beyond == if n < 51 then n else 51)
            && (i > 25 && n - i >= 26 ==> first == i - 25 && beyond == i + 26)
            && (i > 25 && n - i < 26 ==> first == n - 26 && beyond == n)
  {
  }

  /** Quote `k` is one of those that quote `i` of a day of `n` is judged against. */
  predicate Neighbour(n: nat, i: nat, k: nat) {
    && k < n && k != i
    && (if i <= 25 then k <= 50 else if n - i < 26 then k >= n - 26 else i - 25 <= k <= i + 25)
  }

  /** The window without the quote itself. */
  function Context(day: seq<Quote>, i: nat): (c: seq<Quote>)
    requires i < |day|
    ensures |c| == Reach(|day|, i) - 1
  {
    var low := WindowOf(|day|, i).low;
    WindowInBounds(|day|, i);
    day[low..i] + day[i + 1..low + Reach(|day|, i)]
  }

  /** A quote is judged against its neighbours, each of them once and in the order of the day, and nothing else. */
  lemma ContextIsNeighbours(day: seq<Quote>, i: nat) returns (at: seq<nat>)
    requires i < |day|
    ensures forall a, b | 0 <= a < b < |at| :: at[a] < at[b]
    ensures forall k: nat :: k in at <==> Neighbour(|day|, i, k)
    ensures |Context(day, i)| == |at|
    ensures forall a | 0 <= a < |at| :: at[a] < |day| && Context(day, i)[a] == day[at[a]]
  {
    WindowInBounds(|day|, i);
    WindowLies(|day|, i);
    hide WindowOf, Reach;
    var low, beyond := WindowOf(|day|, i).low, WindowOf(|day|, i).low + Reach(|day|, i);
    at := AllBut(low, beyond, i);
    hide Context;
    forall a | 0 <= a < |at| ensures at[a] < |day| && Context(day, i)[a] == day[at[a]] {
      ContextAt(day, i, a);
    }
    forall k: nat ensures k in at <==> Neighbour(|day|, i, k) {
      AllButHas(low, beyond, i, k);
    }
  }

  lemma ContextAt(day: seq<Quote>, i: nat, a: nat)
    requires i < |day| && a < |Context(day, i)|
    ensures var low := WindowOf(|day|, i).low;
            var k := low + a + (if low + a < i then 0 else 1);
            0 <= k < |day| && Context(day, i)[a] == day[k]
  {
    WindowInBounds(|day|, i);
    hide WindowOf, Reach;
    var low := WindowOf(|day|, i).low;
    var before, after := day[low..i], day[i + 1..low + Reach(|day|, i)];
    assert Context(day, i) == before + after;
    if a < |before| {
      assert (before + after)[a] == before[a] == day[low + a];
    } else {
      assert (before + after)[a] == after[a - |before|] == day[i + 1 + (a - |before|)];
    }
  }

  /** The indices from `low` up to `beyond`, apart from `i`. */
  function AllBut(low: nat, beyond: nat, i: nat): (at: seq<nat>)
    requires low <= i < beyond
    ensures |at| == beyond - low - 1
    ensures forall a | 0 <= a < |at| :: at[a] == low + a + (if low + a < i then 0 else 1)
  {
    seq(beyond - low - 1, a requires 0 <= a => low + a + (if low + a < i then 0 else 1))
  }

  lemma AllButHas(low: nat, beyond: nat, i: nat, k: nat)
    requires low <= i < beyond
    ensures k in AllBut(low, beyond, i) <==> low <= k < beyond && k != i
  {
    var at := AllBut(low, beyond, i);
    if low <= k < i { assert at[k - low] == k; }
    if i < k < beyond { assert at[k - low - 1] == k; }
  }

  /** `Undefined`: fewer than two values have no sample variance. From one value the program divides zero by
      zero, and every comparison with the result is false. From none, in a day of one quote, it reads past
      the end of an empty vector: the model keeps that quote, and promises nothing about the program. */
  datatype Estimate = Undefined | Estimate(mean: real, trimmedMean: real, median: real, variance: real)

  function EstimateOf(values: seq<real>): Estimate {
    if |values| < 2 then Undefined
    else
      var sorted := Sort(values);
      Estimate(Mean(sorted), TrimmedMean(sorted), Median(sorted), Variance(sorted, Mean(sorted)))
  }

  /** More than three standard deviations away from the trimmed mean. */
  predicate Far(x: real, e: Estimate) {
    e.Estimate? && Square(x - e.trimmedMean) > 9.0 * e.variance
  }

  predicate Outlier(day: seq<Quote>, i: nat)
    requires i < |day|
  {
    var context := Context(day, i);
    Far(day[i].bid, EstimateOf(Bids(context))) || Far(day[i].offer, EstimateOf(Offers(context)))
  }

  /** The quotes among the first `n` that stay. */
  function Kept(day: seq<Quote>, n: nat): (kept: seq<Quote>)
    requires n <= |day|
    ensures |kept| <= n
  {
    if n == 0 then []
    else Kept(day, n - 1) + (if Outlier(day, n - 1) then [] else [day[n - 1]])
  }

  function KeepDay(day: seq<Quote>): seq<Quote> { Kept(day, |day|) }

  function DateOf(q: Quote): string { q.date }

  /** The whole stage: every maximal run of one date, without its outliers. */
  function KeepDays(input: seq<Quote>): seq<Quote> {
    Group(DateOf, KeepDay, input)
  }

  /** A day is all the quotes of one date that come together: the next day has another date. */
  lemma DaysByDate(input: seq<Quote>, r: nat)
    requires r < |Runs(DateOf, input)|
    ensures var days := Runs(DateOf, input);
            && |days[r]| > 0 && (forall q | q in days[r] :: q.date == days[r][0].date)
            && (r + 1 < |days| ==> |days[r + 1]| > 0 && days[r + 1][0].date != days[r][0].date)
  {
    RunsByKey(DateOf, input, r);
    forall q | q in Runs(DateOf, input)[r] ensures DateOf(q) == q.date {}
  }

  /** The estimates are defined on every day of three quotes or more. */
  lemma EnoughContext(day: seq<Quote>, i: nat)
    requires i < |day| && |day| >= 3
    ensures |Context(day, i)| >= 2
    ensures EstimateOf(Bids(Context(day, i))).Estimate? && EstimateOf(Offers(Context(day, i))).Estimate?
  {
    hide Sort, Mean, TrimmedMean, Median, Variance;
  }

  /** On such a day a quote stays exactly if, on both sides, its distance from the trimmed mean of its
      context is at most three times the sample standard deviation of its context. */
  lemma ThreeDeviations(day: seq<Quote>, i: nat, sdBid: real, sdOffer: real)
    requires i < |day| && |day| >= 3
    requires var c := Context(day, i);
             && |c| >= 2 && sdBid >= 0.0 && sdOffer >= 0.0
             && Square(sdBid) == Variance(Sort(Bids(c)), Mean(Sort(Bids(c))))
             && Square(sdOffer) == Variance(Sort(Offers(c)), Mean(Sort(Offers(c))))
    ensures var c := Context(day, i);
            !Outlier(day, i) <==>
              && Abs(day[i].bid - TrimmedMean(Sort(Bids(c)))) <= 3.0 * sdBid
              && Abs(day[i].offer - TrimmedMean(Sort(Offers(c)))) <= 3.0 * sdOffer
  {
    hide Sort, Mean, TrimmedMean, Median, Variance, Context;
    var c := Context(day, i);
    BeyondThreeDeviations(day[i].bid - TrimmedMean(Sort(Bids(c))), sdBid, EstimateOf(Bids(c)).variance);
    BeyondThreeDeviations(day[i].offer - TrimmedMean(Sort(Offers(c))), sdOffer, EstimateOf(Offers(c)).variance);
  }

  function Abs(x: real): real { if x >= 0.0 then x else -x }

  /** The kept quotes are those at the indices that are no outliers, in order. */
  lemma {:induction false} KeptExactly(day: seq<Quote>, n: nat) returns (stays: seq<nat>)
    requires n <= |day|
    ensures forall a, b | 0 <= a < b < |stays| :: stays[a] < stays[b]
    ensures forall i: nat :: i in stays <==> i < n && !Outlier(day, i)
    ensures |Kept(day, n)| == |stays|
    ensures forall a | 0 <= a < |stays| :: stays[a] < n && Kept(day, n)[a] == day[stays[a]]
  {
    hide Outlier;
    if n == 0 {
      stays := [];
    } else {
      var before := KeptExactly(day, n - 1);
      stays := before;
      if !Outlier(day, n - 1) {
        stays := before + [n - 1];
        forall i: nat ensures i in stays <==> i in before || i == n - 1 {
          if i == n - 1 { assert stays[|before|] == i; }
        }
        forall a, b | 0 <= a < b < |stays| ensures stays[a] < stays[b] {
          assert stays[a] == before[a] && before[a] in before;
        }
      }
    }
  }

  // ---------------------------------------------------------------- the program

  function Slots(day: seq<Quote>): (r: seq<Option<Quote>>)
    ensures |r| == |day| && forall i | 0 <= i < |day| :: r[i] == Some(day[i])
  {
    seq(|day|, i requires 0 <= i < |day| => Some(day[i]))
  }

  class OutliersFilter {
    /** A deleted observation leaves an empty slot. */
    var buffer: seq<Option<Quote>>
    var sortedContextBids: seq<real>
    var sortedContextOffers: seq<real>

    constructor ()
      ensures buffer == [] && sortedContextBids == [] && sortedContextOffers == []
    {
      buffer, sortedContextBids, sortedContextOffers := [], [], [];
    }

    method ComputeContextStats(ghost day: seq<Quote>, ghost i: nat, window: Interval) returns (bid: Estimate, offer: Estimate)
      requires buffer == Slots(day) && i < |day| && window == WindowOf(|day|, i)
      requires sortedContextBids == [] && sortedContextOffers == []
      modifies this`sortedContextBids, this`sortedContextOffers
      ensures bid == EstimateOf(Bids(Context(day, i))) && offer == EstimateOf(Offers(Context(day, i)))
      ensures sortedContextBids == [] && sortedContextOffers == []
    {
      hide Sort, Mean, TrimmedMean, Median, Variance, WindowOf, EstimateOf, Before, Context;
      BeforeNone(day, i);
      WindowInBounds(|day|, i);
      var j := 0;
      while j < window.Size() && j < |buffer|
        invariant 0 <= j <= Reach(|day|, i)
        invariant sortedContextBids == Bids(Before(day, i, j)) && sortedContextOffers == Offers(Before(day, i, j))
        decreases |buffer| - j
      {
        BeforeGrows(day, i, j);
        assert buffer[window.low + j].value == day[window.low + j];
        if j != window.current {
          sortedContextBids := sortedContextBids + [buffer[window.low + j].value.bid];
          sortedContextOffers := sortedContextOffers + [buffer[window.low + j].value.offer];
        }
        j := j + 1;
      }
      BeforeAll(day, i);
      bid := Summary(sortedContextBids);
      offer := Summary(sortedContextOffers);
      sortedContextBids, sortedContextOffers := [], [];
    }

    method RemoveDayOutliers(ghost day: seq<Quote>)
      requires buffer == Slots(day) && sortedContextBids == [] && sortedContextOffers == []
      modifies this
      ensures sortedContextBids == [] && sortedContextOffers == [] && |buffer| == |day|
      ensures forall i | 0 <= i < |day| :: buffer[i] == (if Outlier(day, i) then None else Some(day[i]))
    {
      hide WindowOf, Context, EstimateOf, Far;
      var deleteFlags: seq<nat> := [];
      for i := 0 to |buffer|
        invariant buffer == Slots(day) && sortedContextBids == [] && sortedContextOffers == []
        invariant forall f | 0 <= f < |deleteFlags| :: deleteFlags[f] < i && Outlier(day, deleteFlags[f])
        invariant forall k | 0 <= k < i && Outlier(day, k) :: k in deleteFlags
      {
        var window := WindowOf(|buffer|, i);
        var bid, offer := ComputeContextStats(day, i, window);
        if Far(buffer[i].value.bid, bid) || Far(buffer[i].value.offer, offer) {
          deleteFlags := deleteFlags + [i];
        }
      }
      for f := 0 to |deleteFlags|
        invariant sortedContextBids == [] && sortedContextOffers == [] && |buffer| == |day|
        invariant forall i | 0 <= i < |day| :: buffer[i] == (if i in deleteFlags[..f] then None else Some(day[i]))
      {
        buffer := buffer[deleteFlags[f] := None];
      }
      assert deleteFlags[..|deleteFlags|] == deleteFlags;
    }

    /** The end of a day: clean the buffer and send on what is left. */
    method EndDay(ghost day: seq<Quote>) returns (output: seq<Quote>)
      requires buffer == Slots(day) && sortedContextBids == [] && sortedContextOffers == []
      modifies this
      ensures output == KeepDay(day)
      ensures buffer == [] && sortedContextBids == [] && sortedContextOffers == []
    {
      hide Outlier;
      RemoveDayOutliers(day);
      output := [];
      for i := 0 to |buffer|
        invariant output == Kept(day, i)
      {
        if buffer[i].Some? {
          output := output + [buffer[i].value];
        }
      }
      buffer := [];
    }

    method Filter(input: seq<Quote>) returns (output: seq<Quote>)
      requires buffer == [] && sortedContextBids == [] && sortedContextOffers == []
      modifies this
      ensures output == KeepDays(input) && buffer == []
    {
      hide KeepDay, Group, GroupStream;
      output := [];
      ghost var day: seq<Quote> := [];
      for i := 0 to |input|
        invariant buffer == Slots(day) && sortedContextBids == [] && sortedContextOffers == []
        invariant output + GroupStream(DateOf, KeepDay, day, input[i..]) == GroupStream(DateOf, KeepDay, [], input)
      {
        var obs := input[i];
        StreamUnfolds(DateOf, KeepDay, day, obs, input[i + 1..]);
        assert input[i..] == [obs] + input[i + 1..];
        ghost var step := GroupStep(DateOf, KeepDay, day, obs);
        if |buffer| == 0 {
          buffer := buffer + [Some(obs)];
        } else if buffer[|buffer| - 1].value.date == obs.date {
          buffer := buffer + [Some(obs)];
        } else {
          var kept := EndDay(day);
          output := output + kept;
          buffer := buffer + [Some(obs)];
        }
        day := step.0;
      }
      Flushed(DateOf, KeepDay, day, input[|input|..]);
      if |buffer| > 0 {
        var kept := EndDay(day);
        output := output + kept;
      }
      StreamGroups(DateOf, KeepDay, [], input);
      assert [] + input == input;
    }
  }

  /** The first `j` quotes of the window, without quote `i`. */
  function Before(day: seq<Quote>, i: nat, j: nat): seq<Quote>
    requires i < |day| && j <= Reach(|day|, i)
  {
    var low := WindowOf(|day|, i).low;
    WindowInBounds(|day|, i);
    Without(day, low, i, low + j)
  }

  /** The quotes from `low` up to `k`, without quote `i`. */
  function Without(day: seq<Quote>, low: nat, i: nat, k: nat): seq<Quote>
    requires low <= i < |day| && low <= k <= |day|
  {
    if k <= i then day[low..k] else day[low..i] + day[i + 1..k]
  }

  lemma WithoutGrows(day: seq<Quote>, low: nat, i: nat, k: nat)
    requires low <= i < |day| && low <= k < |day|
    ensures Without(day, low, i, k + 1) == Without(day, low, i, k) + (if k == i then [] else [day[k]])
  {
    if k < i {
      assert day[low..k + 1] == day[low..k] + [day[k]];
    } else if k > i {
      assert day[i + 1..k + 1] == day[i + 1..k] + [day[k]];
    }
  }

  lemma BeforeGrows(day: seq<Quote>, i: nat, j: nat)
    requires i < |day| && j < Reach(|day|, i)
    ensures var low := WindowOf(|day|, i).low;
            && 0 <= low + j < |day|
            && Before(day, i, j + 1) == Before(day, i, j) + (if low + j == i then [] else [day[low + j]])
  {
    WindowInBounds(|day|, i);
    hide WindowOf, Reach, Without;
    WithoutGrows(day, WindowOf(|day|, i).low, i, WindowOf(|day|, i).low + j);
  }

  lemma BeforeNone(day: seq<Quote>, i: nat)
    requires i < |day|
    ensures Reach(|day|, i) >= 0 && Before(day, i, 0) == []
  {
    WindowInBounds(|day|, i);
  }

  lemma BeforeAll(day: seq<Quote>, i: nat)
    requires i < |day|
    ensures Reach(|day|, i) >= 0 && Before(day, i, Reach(|day|, i)) == Context(day, i)
  {
    WindowInBounds(|day|, i);
  }

  /** Sorts the context and computes its statistics. */
  method Summary(context: seq<real>) returns (e: Estimate)
    ensures e == EstimateOf(context)
  {
    hide Sort, TrimmedMean, Variance, Ascending;
    if |context| < 2 {
      e := Undefined;
    } else {
      var sorted := Sort(context);
      var mean := ComputeMean(sorted);
      var trimmedMean := ComputeTrimmedMean(sorted);
      var variance := ComputeVariance(sorted, mean);
      e := Estimate(mean, trimmedMean, Median(sorted), variance);
    }
  }

  // ---------------------------------------------------------------- scale

  lemma EstimateScaled(k: Factor, values: seq<real>, x: real)
    ensures Far(Times(k, x), EstimateOf(Scaled(k, values))) <==> Far(x, EstimateOf(values))
  {
    hide Sort, TrimmedMean, Variance, Mean, Median, Times, Square;
    if |values| >= 2 {
      var sorted := Sort(values);
      SortScaled(k, values);
      MeanScaled(k, sorted);
      TrimmedMeanScaled(k, sorted);
      VarianceScaled(k, sorted, Mean(sorted));
      SquareScaled(k, x, TrimmedMean(sorted));
      FarScaled(k, Square(x - TrimmedMean(sorted)), Variance(sorted, Mean(sorted)));
    }
  }

  lemma FarScaled(k: Factor, a: real, b: real)
    ensures Times(Square(k), a) > 9.0 * Times(Square(k), b) <==> a > 9.0 * b
  {
    assert Times(Square(k), a) == Times(k, Times(k, a));
    assert 9.0 * Times(Square(k), b) == Times(k, Times(k, 9.0 * b));
    ScaleOrder(k, a, 9.0 * b);
    ScaleOrder(k, Times(k, a), Times(k, 9.0 * b));
  }

  lemma OutlierScaled(k: Factor, day: seq<Quote>, i: nat)
    requires i < |day|
    ensures Outlier(Map(Scaler(k), day), i) <==> Outlier(day, i)
  {
    hide EstimateOf, Far, WindowOf;
    var scaled := Map(Scaler(k), day);
    ContextScaled(k, day, i);
    EstimateScaled(k, Bids(Context(day, i)), day[i].bid);
    EstimateScaled(k, Offers(Context(day, i)), day[i].offer);
  }

  lemma ContextScaled(k: Factor, day: seq<Quote>, i: nat)
    requires i < |day|
    ensures var c := Context(Map(Scaler(k), day), i);
            Bids(c) == Scaled(k, Bids(Context(day, i))) && Offers(c) == Scaled(k, Offers(Context(day, i)))
  {
    hide WindowOf, Times, Reach;
    WindowInBounds(|day|, i);
    var scaled := Map(Scaler(k), day);
    assert forall j | 0 <= j < |day| :: scaled[j] == ScaledQuote(k, day[j]);
    var c, c' := Context(day, i), Context(scaled, i);
    assert |c'| == |c|;
    assert forall j | 0 <= j < |c| :: c'[j] == ScaledQuote(k, c[j]);
    assert forall j | 0 <= j < |c| :: Bids(c')[j] == Scaled(k, Bids(c))[j];
    assert forall j | 0 <= j < |c| :: Offers(c')[j] == Scaled(k, Offers(c))[j];
  }

  lemma {:induction false} KeptScaled(k: Factor, day: seq<Quote>, n: nat)
    requires n <= |day|
    ensures Kept(Map(Scaler(k), day), n) == Map(Scaler(k), Kept(day, n))
  {
    hide Outlier;
    if n > 0 {
      KeptScaled(k, day, n - 1);
      OutlierScaled(k, day, n - 1);
    }
  }
}
