/** BidAskSpread/DayRelSpreadProcessor.cpp: one row a day, found by looking at the next quote before taking it. */
module DayRelSpreads {
  import opened Grouping
  import opened Observations
  import opened Statistics

  function DateOf(p: Priced): string { p.quote.date }

  function Spreads(run: seq<Priced>): (r: seq<real>)
    ensures |r| == |run| && forall i | 0 <= i < |run| :: r[i] == run[i].relSpread
  {
    seq(|run|, i requires 0 <= i < |run| => run[i].relSpread)
  }

  /** The first quote names the day; the spread is the mean of the day's. */
  function DayRow(run: seq<Priced>): DaySpread
    requires |run| > 0
  {
    DaySpread(run[0].quote.symbol, run[0].quote.date, Mean(Spreads(run)))
  }

  function DayRows(run: seq<Priced>): seq<DaySpread> {
    if |run| == 0 then [] else [DayRow(run)]
  }

  /** The whole stage: a row for every maximal run of one date. */
  function RowsOfDays(input: seq<Priced>): seq<DaySpread> {
    Group(DateOf, DayRows, input)
  }

  /** Row by row: the `r`th row is for the `r`th run of one date; it carries that date and the symbol of the run's first
      quote, its spread is the run's mean, and the next run has another date. */
  lemma RowsAreRuns(input: seq<Priced>, r: nat)
    requires r < |Runs(DateOf, input)|
    ensures |RowsOfDays(input)| == |Runs(DateOf, input)| && |Runs(DateOf, input)[r]| > 0
    ensures var row, run := RowsOfDays(input)[r], Runs(DateOf, input)[r];
            && row.symbol == run[0].quote.symbol && (forall p | p in run :: p.quote.date == row.date)
            && Times(row.relSpread, |run| as real) == Sum(Spreads(run))
            && (r + 1 < |Runs(DateOf, input)| ==>
                  |Runs(DateOf, input)[r + 1]| > 0 && Runs(DateOf, input)[r + 1][0].quote.date != row.date)
  {
    hide Group, Mean, Sum;
    RunsAreRuns(DateOf, input);
    GroupAt(DateOf, DayRows, input, r);
    RunsByKey(DateOf, input, r);
    MeanBalances(Spreads(Runs(DateOf, input)[r]));
    forall p | p in Runs(DateOf, input)[r] ensures p.quote.date == DateOf(p) {}
  }

  class DayRelSpreadProcessor {
    /** What the input queue will still deliver before it reports its end. */
    var input: seq<Priced>
    var buffer: seq<Priced>

    constructor (source: seq<Priced>)
      ensures input == source && buffer == []
    {
      input, buffer := source, [];
    }

    /** Takes one whole run; `ended` when the queue reported its end on the way. */
    method PollDayObs() returns (ended: bool)
      requires buffer == []
      modifies this
      ensures buffer + input == old(input) && OneKey(DateOf, buffer)
      ensures ended ==> input == []
      ensures !ended ==> |buffer| > 0 && |input| > 0 && DateOf(input[0]) != DateOf(buffer[0])
    {
      while true
        invariant buffer + input == old(input) && OneKey(DateOf, buffer)
        decreases |input|
      {
        if |input| == 0 {
          return true;
        }
        if |buffer| == 0 || buffer[|buffer| - 1].quote.date == input[0].quote.date {
          assert buffer + [input[0]] + input[1..] == buffer + input;
          input, buffer := input[1..], buffer + [input[0]];
        } else {
          return false;
        }
      }
    }

    method Process() returns (output: seq<DaySpread>)
      requires buffer == []
      modifies this
      ensures output == RowsOfDays(old(input)) && input == [] && buffer == []
    {
      hide Group, DayRow, OneKey;
      output := [];
      var ended := false;
      while !ended
        invariant buffer == [] && (ended ==> input == [])
        invariant output + RowsOfDays(input) == RowsOfDays(old(input))
        decreases |input|, !ended
      {
        ghost var rest := input;
        ended := PollDayObs();
        if |buffer| > 0 {
          ClosingRun(DateOf, DayRows, buffer, input);
          var mean := ComputeMean(Spreads(buffer));
          output := output + [DaySpread(buffer[0].quote.symbol, buffer[0].quote.date, mean)];
          DayRowIs(buffer, mean);
          buffer := [];
        }
      }
      GroupNothing(DateOf, DayRows);
    }
  }

  lemma DayRowIs(run: seq<Priced>, mean: real)
    requires |run| > 0 && mean == Mean(Spreads(run))
    ensures DayRows(run) == [DaySpread(run[0].quote.symbol, run[0].quote.date, mean)]
  {
  }

  /** A mean of spreads in [0, 2) is in [0, 2). */
  lemma {:induction false} MeanSpreadRange(s: seq<real>)
    requires |s| > 0 && forall i | 0 <= i < |s| :: 0.0 <= s[i] < 2.0
    ensures 0.0 <= Mean(s) < 2.0
  {
    MeanBetween(s, 0.0, Greatest(s));
  }

  function Greatest(s: seq<real>): (m: real)
    requires |s| > 0
    ensures m in s && forall i | 0 <= i < |s| :: s[i] <= m
  {
    if |s| == 1 then s[0]
    else
      var m := Greatest(s[1..]);
      assert forall i | 1 <= i < |s| :: s[i] == s[1..][i - 1];
      if s[0] > m then s[0] else m
  }
}
