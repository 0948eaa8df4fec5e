/** Grouping a stream into its maximal runs of one key: what three of the four stages do, each with its
    own key and its own use of a finished run. */
module Grouping {
  import opened StreamNetwork

  function Map<T, U>(f: T -> U, s: seq<T>): (r: seq<U>)
    ensures |r| == |s| && forall i | 0 <= i < |s| :: r[i] == f(s[i])
  {
    seq(|s|, i requires 0 <= i < |s| => f(s[i]))
  }

  function Concat<T>(parts: seq<seq<T>>): seq<T> {
    if parts == [] then [] else parts[0] + Concat(parts[1..])
  }

  predicate OneKey<T, K(==)>(key: T -> K, run: seq<T>) {
    forall i, j | 0 <= i < |run| && 0 <= j < |run| :: key(run[i]) == key(run[j])
  }

  /** Length of the first maximal run. */
  function Lead<T, K(==)>(key: T -> K, s: seq<T>): (n: nat)
    requires |s| > 0
    ensures 1 <= n <= |s| && (n < |s| ==> key(s[n]) != key(s[0]))
    ensures forall i | 0 <= i < n :: key(s[i]) == key(s[0])
  {
    if |s| == 1 || key(s[1]) != key(s[0]) then 1 else 1 + Lead(key, s[1..])
  }

  function Runs<T, K(==)>(key: T -> K, s: seq<T>): seq<seq<T>>
    decreases |s|
  {
    if |s| == 0 then []
    else var n := Lead(key, s); [s[..n]] + Runs(key, s[n..])
  }

  predicate NeighboursDiffer<T, K(==)>(key: T -> K, runs: seq<seq<T>>) {
    |runs| > 1 ==>
      && |runs[0]| > 0 && |runs[1]| > 0 && key(runs[0][0]) != key(runs[1][0])
      && NeighboursDiffer(key, runs[1..])
  }

  /** A division of `s` into non-empty pieces of one key, no two neighbours with the same key. */
  predicate IsRuns<T(==), K(==)>(key: T -> K, s: seq<T>, runs: seq<seq<T>>) {
    && Concat(runs) == s
    && (forall r | 0 <= r < |runs| :: |runs[r]| > 0 && OneKey(key, runs[r]))
    && NeighboursDiffer(key, runs)
  }

  lemma {:induction false} RunsAreRuns<T, K>(key: T -> K, s: seq<T>)
    ensures IsRuns(key, s, Runs(key, s))
    decreases |s|
  {
    if |s| > 0 {
      var n := Lead(key, s);
      var rest := Runs(key, s[n..]);
      RunsAreRuns(key, s[n..]);
      var all := [s[..n]] + rest;
      assert all[1..] == rest;
      assert |rest| > 0 ==> rest[0][0] == s[n];
    }
  }

  /** There is only one such division. */
  lemma {:induction false} RunsUnique<T, K>(key: T -> K, s: seq<T>, runs: seq<seq<T>>)
    requires IsRuns(key, s, runs)
    ensures runs == Runs(key, s)
    decreases |runs|
  {
    if |runs| > 0 {
      var n := |runs[0]|;
      FirstRun(key, s, runs);
      RunsUnique(key, s[n..], runs[1..]);
      assert runs == [runs[0]] + runs[1..];
    }
  }

  lemma FirstRun<T, K>(key: T -> K, s: seq<T>, runs: seq<seq<T>>)
    requires IsRuns(key, s, runs) && |runs| > 0
    ensures |s| > 0 && Lead(key, s) == |runs[0]| && s[..|runs[0]|] == runs[0]
    ensures IsRuns(key, s[|runs[0]|..], runs[1..])
  {
    var n := |runs[0]|;
    var rest := runs[1..];
    assert s[..n] == runs[0] && s[n..] == Concat(rest);
    if |rest| > 0 { assert Concat(rest)[0] == rest[0][0]; }
    hide Concat, Lead;
  }

  lemma {:induction false} RunsWithin<T, K>(key: T -> K, s: seq<T>, r: nat, j: nat)
    requires r < |Runs(key, s)| && j < |Runs(key, s)[r]|
    ensures Runs(key, s)[r][j] in s
    decreases |s|
  {
    if r > 0 { RunsWithin(key, s[Lead(key, s)..], r - 1, j); }
  }

  /** Run by run: one key each, and the next run has another. */
  lemma {:induction false} RunsByKey<T, K>(key: T -> K, s: seq<T>, r: nat)
    requires r < |Runs(key, s)|
    ensures var runs := Runs(key, s);
            && |runs[r]| > 0 && (forall x | x in runs[r] :: key(x) == key(runs[r][0]))
            && (r + 1 < |runs| ==> |runs[r + 1]| > 0 && key(runs[r + 1][0]) != key(runs[r][0]))
    decreases |s|
  {
    var n := Lead(key, s);
    if r > 0 {
      RunsByKey(key, s[n..], r - 1);
    } else {
      forall x | x in s[..n] ensures key(x) == key(s[0]) {
        var i :| 0 <= i < n && s[i] == x;
      }
    }
  }

  /** With a `close` that makes one item of a run, the items are those of the runs. */
  lemma {:induction false} GroupAt<T, K, U>(key: T -> K, close: seq<T> -> seq<U>, s: seq<T>, r: nat)
    requires forall run: seq<T> | |run| > 0 && run in Runs(key, s) :: |close(run)| == 1
    ensures |Group(key, close, s)| == |Runs(key, s)|
    ensures r < |Runs(key, s)| ==> close(Runs(key, s)[r]) == [Group(key, close, s)[r]]
    decreases |s|
  {
    if |s| == 0 {
      GroupNothing(key, close);
    } else {
      var n := Lead(key, s);
      GroupStarts(key, close, s);
      assert s[..n] in Runs(key, s);
      assert forall run | run in Runs(key, s[n..]) :: run in Runs(key, s);
      GroupAt(key, close, s[n..], if r > 0 then r - 1 else 0);
    }
    hide Group, Lead;
  }

  /** Every run, put through `close`, in order. */
  function Group<T, K(==), U>(key: T -> K, close: seq<T> -> seq<U>, s: seq<T>): seq<U> {
    Concat(Map(close, Runs(key, s)))
  }

  lemma GroupStarts<T, K, U>(key: T -> K, close: seq<T> -> seq<U>, s: seq<T>)
    requires |s| > 0
    ensures var n := Lead(key, s); Group(key, close, s) == close(s[..n]) + Group(key, close, s[n..])
  {
    var runs := Runs(key, s);
    assert Map(close, runs)[1..] == Map(close, runs[1..]);
  }

  // ---------------------------------------------------------------- one item at a time

  /** The buffer holds the run so far; an item of another key closes it. */
  function GroupStep<T, K(==), U>(key: T -> K, close: seq<T> -> seq<U>, buf: seq<T>, x: T): (seq<T>, seq<U>) {
    if |buf| == 0 || key(buf[|buf| - 1]) == key(x) then (buf + [x], []) else ([x], close(buf))
  }

  function GroupFlush<T, U>(close: seq<T> -> seq<U>, buf: seq<T>): seq<U> {
    if |buf| == 0 then [] else close(buf)
  }

  /** What streaming makes of the rest of the input. */
  function GroupStream<T, K(==), U>(key: T -> K, close: seq<T> -> seq<U>, buf: seq<T>, input: seq<T>): seq<U>
    decreases |input|
  {
    if |input| == 0 then GroupFlush(close, buf)
    else
      var (buf', out) := GroupStep(key, close, buf, input[0]);
      out + GroupStream(key, close, buf', input[1..])
  }

  lemma StreamUnfolds<T, K, U>(key: T -> K, close: seq<T> -> seq<U>, buf: seq<T>, x: T, rest: seq<T>)
    ensures var (buf', out) := GroupStep(key, close, buf, x);
            GroupStream(key, close, buf, [x] + rest) == out + GroupStream(key, close, buf', rest)
  {
    assert ([x] + rest)[1..] == rest;
  }

  lemma Flushed<T, K, U>(key: T -> K, close: seq<T> -> seq<U>, buf: seq<T>, rest: seq<T>)
    requires |rest| == 0
    ensures GroupStream(key, close, buf, rest) == GroupFlush(close, buf)
  {
  }

  /** Streaming gives what grouping the whole input gives. */
  lemma {:induction false} StreamGroups<T, K, U>(key: T -> K, close: seq<T> -> seq<U>, buf: seq<T>, input: seq<T>)
    requires OneKey(key, buf)
    ensures GroupStream(key, close, buf, input) == Group(key, close, buf + input)
    decreases |input|
  {
    hide Group;
    if |input| == 0 {
      assert buf + input == buf;
      if |buf| > 0 { ClosingRun(key, close, buf, input); }
      GroupNothing(key, close);
    } else if |buf| == 0 || key(buf[|buf| - 1]) == key(input[0]) {
      StreamGroups(key, close, buf + [input[0]], input[1..]);
      assert buf + [input[0]] + input[1..] == buf + input;
    } else {
      StreamGroups(key, close, [input[0]], input[1..]);
      assert [input[0]] + input[1..] == input;
      ClosingRun(key, close, buf, input);
    }
  }

  lemma GroupNothing<T, K, U>(key: T -> K, close: seq<T> -> seq<U>)
    ensures Group(key, close, []) == []
  {
  }

  lemma ClosingRun<T, K, U>(key: T -> K, close: seq<T> -> seq<U>, buf: seq<T>, rest: seq<T>)
    requires |buf| > 0 && OneKey(key, buf) && (|rest| > 0 ==> key(rest[0]) != key(buf[|buf| - 1]))
    ensures Group(key, close, buf + rest) == close(buf) + Group(key, close, rest)
  {
    hide Group;
    var s := buf + rest;
    assert s[..|buf|] == buf && s[|buf|..] == rest;
    GroupStarts(key, close, s);
  }

  lemma LeadMap<T, T', K>(key: T -> K, key': T' -> K, f: T -> T', s: seq<T>)
    requires |s| > 0 && forall i | 0 <= i < |s| :: key'(f(s[i])) == key(s[i])
    ensures Lead(key', Map(f, s)) == Lead(key, s)
  {
    var n, t := Lead(key, s), Map(f, s);
    assert forall i | 0 <= i < |s| :: key'(t[i]) == key(s[i]);
  }

  /** A change `f` of the input that keeps keys, and that `close` turns into a change `g` of its output,
      changes the grouped output by `g`. */
  lemma {:induction false} GroupMap<T(!new), T'(!new), K, U, U'>(
      key: T -> K, close: seq<T> -> seq<U>, key': T' -> K, close': seq<T'> -> seq<U'>,
      f: T -> T', g: U -> U', s: seq<T>)
    requires forall x :: key'(f(x)) == key(x)
    requires forall run: seq<T> | |run| > 0 :: close'(Map(f, run)) == Map(g, close(run))
    ensures Group(key', close', Map(f, s)) == Map(g, Group(key, close, s))
    decreases |s|
  {
    hide Group, Lead;
    var t := Map(f, s);
    if |s| == 0 {
      GroupNothing(key, close);
      GroupNothing(key', close');
    } else {
      var n := Lead(key, s);
      LeadMap(key, key', f, s);
      GroupStarts(key, close, s);
      GroupStarts(key', close', t);
      MapSlices(f, s, n);
      GroupMap(key, close, key', close', f, g, s[n..]);
      MapConcat(g, close(s[..n]), Group(key, close, s[n..]));
      hide Map;
    }
  }

  lemma MapSlices<T, U>(f: T -> U, s: seq<T>, n: nat)
    requires n <= |s|
    ensures Map(f, s)[..n] == Map(f, s[..n]) && Map(f, s)[n..] == Map(f, s[n..])
  {
  }

  lemma MapConcat<T, U>(f: T -> U, a: seq<T>, b: seq<T>)
    ensures Map(f, a + b) == Map(f, a) + Map(f, b)
  {
  }

  // ---------------------------------------------------------------- as a stage of a network

  function GroupStage<X, K(==)>(key: X -> K, close: seq<X> -> seq<X>, peeks: bool): Stage<X> {
    Stage((buf, x) => GroupStep(key, close, buf, x), buf => GroupFlush(close, buf), peeks)
  }

  lemma {:induction false} StageGroups<X, K>(key: X -> K, close: seq<X> -> seq<X>, peeks: bool, buf: seq<X>, input: seq<X>)
    requires OneKey(key, buf)
    ensures Stream(GroupStage(key, close, peeks), buf, input) == Group(key, close, buf + input)
  {
    StreamGroups(key, close, buf, input);
    StageStreams(key, close, peeks, buf, input);
  }

  lemma {:induction false} StageStreams<X, K>(key: X -> K, close: seq<X> -> seq<X>, peeks: bool, buf: seq<X>, input: seq<X>)
    ensures Stream(GroupStage(key, close, peeks), buf, input) == GroupStream(key, close, buf, input)
    decreases |input|
  {
    if |input| > 0 {
      StageStreams(key, close, peeks, GroupStep(key, close, buf, input[0]).0, input[1..]);
    }
  }

  /** Such a stage may stand in a network, peeking or not, if it makes no more of a run than it holds. */
  lemma GroupStageLawful<X(!new), K>(key: X -> K, close: seq<X> -> seq<X>, peeks: bool)
    requires forall run: seq<X> :: |close(run)| <= |run|
    ensures Modest(GroupStage(key, close, peeks)) && PeeksWell(GroupStage(key, close, peeks))
  {
    assert forall x: X :: [] + [x] == [x];
  }
}
