/** The values that travel through the pipeline (BidAskSpread/DataStructures.h). */
module Observations {
  import opened Statistics

  datatype Observation = Observation(
    symbol: string, date: string, time: string, offer: real, bid: real, mode: nat)

  /** What the parser sends on. */
  predicate Accepted(o: Observation) {
    o.bid > 0.01 && o.offer > 0.01 && o.mode == 12
  }

  /** All that the later stages rely on. */
  type Quote = o: Observation | o.bid > 0.0 && o.offer > 0.0 witness Observation("", "", "", 1.0, 1.0, 12)

  /** The records the parser sends on, in their order. */
  function Parsed(records: seq<Observation>): (quotes: seq<Quote>)
    ensures |quotes| <= |records| && forall q | q in quotes :: q in records && Accepted(q)
  {
    if |records| == 0 then [] else (if Accepted(records[0]) then [records[0]] else []) + Parsed(records[1..])
  }

  /** The records with a bid and an offer above a hundredth and mode 12 are those at the indices `at`. */
  ghost predicate Picks(records: seq<Observation>, at: seq<nat>) {
    && (forall a, b | 0 <= a < b < |at| :: at[a] < at[b])
    && (forall k: nat :: k in at <==> k < |records| && records[k].bid > 0.01 && records[k].offer > 0.01 && records[k].mode == 12)
  }

  ghost predicate Stand(records: seq<Observation>, at: seq<nat>, out: seq<Observation>) {
    |out| == |at| && forall a | 0 <= a < |at| :: at[a] < |records| && out[a] == records[at[a]]
  }

  lemma PicksMore(records: seq<Observation>, at: seq<nat>)
    requires |records| > 0 && Picks(records[1..], at)
    ensures Picks(records, (if Accepted(records[0]) then [0] else []) + Shifted(at))
  {
    var first: seq<nat> := if Accepted(records[0]) then [0] else [];
    var later := Shifted(at);
    forall k: nat
      ensures k in first + later <==> k < |records| && records[k].bid > 0.01 && records[k].offer > 0.01 && records[k].mode == 12
    {
      ShiftedHas(at, k);
      if 0 < k < |records| { assert records[k] == records[1..][k - 1]; }
    }
    hide Accepted;
  }

  lemma StandMore(records: seq<Observation>, first: seq<nat>, at: seq<nat>, start: seq<Observation>, out: seq<Observation>)
    requires |records| > 0 && Stand(records[1..], at, out) && Stand(records, first, start)
    ensures Stand(records, first + Shifted(at), start + out)
  {
    var all := first + Shifted(at);
    forall a | 0 <= a < |all| ensures all[a] < |records| && (start + out)[a] == records[all[a]] {
      if a >= |first| { assert all[a] == at[a - |first|] + 1 && (start + out)[a] == out[a - |first|]; }
    }
  }

  /** The parser sends on exactly those, in order. */
  lemma {:induction false} ParsedExactly(records: seq<Observation>) returns (at: seq<nat>)
    ensures Picks(records, at) && Stand(records, at, Parsed(records))
  {
    if |records| == 0 {
      at := [];
    } else {
      var rest := ParsedExactly(records[1..]);
      PicksMore(records, rest);
      var first: seq<nat>, start := if Accepted(records[0]) then [0] else [], if Accepted(records[0]) then [records[0]] else [];
      StandMore(records, first, rest, start, Parsed(records[1..]));
      at := first + Shifted(rest);
      hide Picks, Shifted;
    }
  }

  function Shifted(s: seq<nat>): (r: seq<nat>)
    ensures |r| == |s| && forall i | 0 <= i < |s| :: r[i] == s[i] + 1
  {
    seq(|s|, i requires 0 <= i < |s| => s[i] + 1)
  }

  lemma ShiftedHas(s: seq<nat>, k: nat)
    ensures k in Shifted(s) <==> k > 0 && k - 1 in s
  {
    if k > 0 && k - 1 in s {
      var i :| 0 <= i < |s| && s[i] == k - 1;
      assert Shifted(s)[i] == k;
    }
  }

  /** A quote whose relative spread has been set. */
  datatype Priced = Priced(quote: Quote, relSpread: real)

  datatype DaySpread = DaySpread(symbol: string, date: string, relSpread: real)

  function Bids(quotes: seq<Quote>): (r: seq<real>)
    ensures |r| == |quotes| && forall i | 0 <= i < |quotes| :: r[i] == quotes[i].bid
  {
    seq(|quotes|, i requires 0 <= i < |quotes| => quotes[i].bid)
  }

  function Offers(quotes: seq<Quote>): (r: seq<real>)
    ensures |r| == |quotes| && forall i | 0 <= i < |quotes| :: r[i] == quotes[i].offer
  {
    seq(|quotes|, i requires 0 <= i < |quotes| => quotes[i].offer)
  }

  /** The same quote in another currency unit. */
  function ScaledQuote(k: Factor, q: Quote): Quote {
    Positive(k, q.bid);
    Positive(k, q.offer);
    q.(bid := Times(k, q.bid), offer := Times(k, q.offer))
  }

  function Scaler(k: Factor): Quote -> Quote { q => ScaledQuote(k, q) }
}
