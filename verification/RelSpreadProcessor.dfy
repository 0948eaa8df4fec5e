/** BidAskSpread/RelSpreadProcessor.cpp: quotes get their relative spread; crossed quotes are dropped. */
module RelSpreads {
  import opened Grouping
  import opened Observations
  import opened Statistics

  function RelSpread(q: Quote): real {
    2.0 * (q.offer - q.bid) / (q.offer + q.bid)
  }

  /** The spread is what the offer is above the bid, measured by the price half-way between them. */
  lemma RelativeToMidquote(q: Quote)
    ensures RelSpread(q) * ((q.bid + q.offer) / 2.0) == q.offer - q.bid
  {
    var n := q.offer + q.bid;
    assert n * RelSpread(q) == 2.0 * (q.offer - q.bid);
  }

  /** Kept exactly when the offer is not below the bid, and then the spread is in [0, 2). */
  lemma RelSpreadRange(q: Quote)
    ensures RelSpread(q) >= 0.0 <==> q.offer >= q.bid
    ensures RelSpread(q) < 2.0
  {
    var n, r := q.offer + q.bid, RelSpread(q);
    assert n * r == 2.0 * (q.offer - q.bid);
    if r >= 2.0 { Positive(n, r - 1.0); }
  }

  function Price(q: Quote): seq<Priced> {
    if RelSpread(q) >= 0.0 then [Priced(q, RelSpread(q))] else []
  }

  /** The whole stage. */
  function PriceAll(input: seq<Quote>): seq<Priced> { Concat(Map(Price, input)) }

  lemma {:induction false} ConcatEnds<T>(parts: seq<seq<T>>, last: seq<T>)
    ensures Concat(parts + [last]) == Concat(parts) + last
  {
    if |parts| == 0 {
      assert [last][1..] == [];
    } else {
      ConcatEnds(parts[1..], last);
      assert (parts + [last])[1..] == parts[1..] + [last];
    }
  }

  method Filter(input: seq<Quote>) returns (output: seq<Priced>)
    ensures output == PriceAll(input)
  {
    hide RelSpread;
    output := [];
    for i := 0 to |input|
      invariant output == PriceAll(input[..i])
    {
      var obs := input[i];
      var relSpread := RelSpread(obs);
      if relSpread >= 0.0 {
        output := output + [Priced(obs, relSpread)];
      }
      ConcatEnds(Map(Price, input[..i]), Price(obs));
      assert Map(Price, input[..i + 1]) == Map(Price, input[..i]) + [Price(obs)];
    }
    assert input[..|input|] == input;
  }

  /** The outputs come from the inputs in order, and every spread is in [0, 2). */
  lemma {:induction false} PricedInOrder(input: seq<Quote>)
    ensures forall i | 0 <= i < |PriceAll(input)| ::
      && PriceAll(input)[i].relSpread == RelSpread(PriceAll(input)[i].quote)
      && 0.0 <= PriceAll(input)[i].relSpread < 2.0
    ensures Map((p: Priced) => p.quote, PriceAll(input)) == Uncrossed(input)
  {
    hide RelSpread;
    if |input| > 0 {
      PricedInOrder(input[1..]);
      RelSpreadRange(input[0]);
      assert Map(Price, input)[1..] == Map(Price, input[1..]);
    }
  }

  /** The quotes whose offer is not below their bid, in order. */
  function Uncrossed(input: seq<Quote>): seq<Quote> {
    if |input| == 0 then []
    else (if input[0].offer >= input[0].bid then [input[0]] else []) + Uncrossed(input[1..])
  }

  // ---------------------------------------------------------------- scale

  lemma RelSpreadScaled(k: Factor, q: Quote)
    ensures RelSpread(ScaledQuote(k, q)) == RelSpread(q)
  {
    var a, n := 2.0 * (q.offer - q.bid), q.offer + q.bid;
    assert 2.0 * (Times(k, q.offer) - Times(k, q.bid)) == Times(k, a);
  }

}
