/** The four stages of `processFile` (BidAskSpread/BidAskSpread.cpp) between the parser and the writer. */
module Pipeline {
  import opened DayRelSpreads
  import opened Grouping
  import opened Observations
  import opened Outliers
  import opened RelSpreads
  import opened Statistics
  import opened StreamNetwork
  import opened TimestampMerge

  /** The rows of a file, one whole stage after the other. */
  function Rows(quotes: seq<Quote>): seq<DaySpread> {
    RowsOfDays(PriceAll(KeepDays(MergeStamps(quotes))))
  }

  /** The same as a program that runs the stages' own loops one after the other. */
  method ProcessSequentially(quotes: seq<Quote>) returns (rows: seq<DaySpread>)
    ensures rows == Rows(quotes)
  {
    var merger := new TimestampMergeFilter();
    var merged := merger.Filter(quotes);
    var filter := new OutliersFilter();
    var kept := filter.Filter(merged);
    var priced := RelSpreads.Filter(kept);
    var processor := new DayRelSpreadProcessor(priced);
    rows := processor.Process();
  }

  // ---------------------------------------------------------------- the network

  /** What may lie in a queue. */
  datatype Item = OfQuote(quote: Quote) | OfPriced(priced: Priced) | OfRow(row: DaySpread)

  function QuoteItem(q: Quote): Item { OfQuote(q) }

  function PricedItem(p: Priced): Item { OfPriced(p) }

  function RowItem(r: DaySpread): Item { OfRow(r) }

  function Quotes(items: seq<Item>): (r: seq<Quote>)
    ensures |r| <= |items|
  {
    if |items| == 0 then [] else (if items[0].OfQuote? then [items[0].quote] else []) + Quotes(items[1..])
  }

  function PricedOnes(items: seq<Item>): (r: seq<Priced>)
    ensures |r| <= |items|
  {
    if |items| == 0 then [] else (if items[0].OfPriced? then [items[0].priced] else []) + PricedOnes(items[1..])
  }

  lemma {:induction false} QuotesBack(s: seq<Quote>)
    ensures Quotes(Map(QuoteItem, s)) == s
  {
    if |s| > 0 {
      QuotesBack(s[1..]);
      assert Map(QuoteItem, s)[1..] == Map(QuoteItem, s[1..]);
    }
  }

  lemma {:induction false} PricedBack(s: seq<Priced>)
    ensures PricedOnes(Map(PricedItem, s)) == s
  {
    if |s| > 0 {
      PricedBack(s[1..]);
      assert Map(PricedItem, s)[1..] == Map(PricedItem, s[1..]);
    }
  }

  function ItemDate(i: Item): string {
    match i
    case OfQuote(q) => q.date
    case OfPriced(p) => p.quote.date
    case OfRow(r) => r.date
  }

  function ItemStamp(i: Item): (string, string) {
    (ItemDate(i), match i
                  case OfQuote(q) => q.time
                  case OfPriced(p) => p.quote.time
                  case OfRow(r) => "")
  }

  function ItemMerge(run: seq<Item>): (r: seq<Item>)
    ensures |r| <= |run|
  {
    Map(QuoteItem, MergeRun(Quotes(run)))
  }

  function ItemKeep(run: seq<Item>): (r: seq<Item>)
    ensures |r| <= |run|
  {
    Map(QuoteItem, KeepDay(Quotes(run)))
  }

  function ItemPrice(i: Item): (r: seq<Item>)
    ensures |r| <= 1
  {
    if i.OfQuote? then Map(PricedItem, Price(i.quote)) else []
  }

  function ItemRows(run: seq<Item>): (r: seq<Item>)
    ensures |r| <= |run|
  {
    Map(RowItem, DayRows(PricedOnes(run)))
  }

  function PriceStage(): Stage<Item> {
    Stage((buf: seq<Item>, x: Item) => (buf, ItemPrice(x)), (buf: seq<Item>) => [], false)
  }

  /** Only the last stage looks at an item before taking it. */
  function Stages(): seq<Stage<Item>> {
    [GroupStage(ItemStamp, ItemMerge, false), GroupStage(ItemDate, ItemKeep, false), PriceStage(),
     GroupStage(ItemDate, ItemRows, true)]
  }

  lemma StagesLawful()
    ensures Lawful(Stages())
  {
    hide ItemStamp, ItemDate, ItemMerge, ItemKeep, ItemRows, GroupStage, Modest, PeeksWell;
    GroupStageLawful(ItemStamp, ItemMerge, false);
    GroupStageLawful(ItemDate, ItemKeep, false);
    GroupStageLawful(ItemDate, ItemRows, true);
    PriceStageLawful();
  }

  lemma PriceStageLawful()
    ensures Modest(PriceStage()) && PeeksWell(PriceStage())
  {
  }

  lemma MergeStageIs(quotes: seq<Quote>)
    ensures Stream(GroupStage(ItemStamp, ItemMerge, false), [], Map(QuoteItem, quotes)) == Map(QuoteItem, MergeStamps(quotes))
  {
    hide Group, MergeRun, Stream, GroupStage, Quotes, Runs;
    StageGroups(ItemStamp, ItemMerge, false, [], Map(QuoteItem, quotes));
    assert [] + Map(QuoteItem, quotes) == Map(QuoteItem, quotes);
    forall run: seq<Quote> | |run| > 0 ensures ItemMerge(Map(QuoteItem, run)) == Map(QuoteItem, MergeRun(run)) {
      QuotesBack(run);
    }
    GroupMap(Stamp, MergeRun, ItemStamp, ItemMerge, QuoteItem, QuoteItem, quotes);
  }

  lemma KeepStageIs(quotes: seq<Quote>)
    ensures Stream(GroupStage(ItemDate, ItemKeep, false), [], Map(QuoteItem, quotes)) == Map(QuoteItem, KeepDays(quotes))
  {
    hide Group, KeepDay, Stream, GroupStage, Quotes, Runs;
    StageGroups(ItemDate, ItemKeep, false, [], Map(QuoteItem, quotes));
    assert [] + Map(QuoteItem, quotes) == Map(QuoteItem, quotes);
    forall run: seq<Quote> | |run| > 0 ensures ItemKeep(Map(QuoteItem, run)) == Map(QuoteItem, KeepDay(run)) {
      QuotesBack(run);
    }
    GroupMap(Outliers.DateOf, KeepDay, ItemDate, ItemKeep, QuoteItem, QuoteItem, quotes);
  }

  lemma {:induction false} PriceStageIs(quotes: seq<Quote>)
    ensures Stream(PriceStage(), [], Map(QuoteItem, quotes)) == Map(PricedItem, PriceAll(quotes))
  {
    if |quotes| > 0 {
      var items := Map(QuoteItem, quotes);
      assert items[1..] == Map(QuoteItem, quotes[1..]);
      assert Map(Price, quotes)[1..] == Map(Price, quotes[1..]);
      PriceStageIs(quotes[1..]);
    }
  }

  lemma RowStageIs(priced: seq<Priced>)
    ensures Stream(GroupStage(ItemDate, ItemRows, true), [], Map(PricedItem, priced)) == Map(RowItem, RowsOfDays(priced))
  {
    hide Group, DayRows, Stream, GroupStage, PricedOnes, Runs;
    StageGroups(ItemDate, ItemRows, true, [], Map(PricedItem, priced));
    assert [] + Map(PricedItem, priced) == Map(PricedItem, priced);
    forall run: seq<Priced> | |run| > 0 ensures ItemRows(Map(PricedItem, run)) == Map(RowItem, DayRows(run)) {
      PricedBack(run);
    }
    GroupMap(DayRelSpreads.DateOf, DayRows, ItemDate, ItemRows, PricedItem, RowItem, priced);
  }

  lemma BatchIsRows(quotes: seq<Quote>)
    ensures Batch(Stages(), Map(QuoteItem, quotes)) == Map(RowItem, Rows(quotes))
  {
    hide MergeStamps, KeepDays, PriceAll, RowsOfDays, Stream, GroupStage, PriceStage;
    var items, all := Map(QuoteItem, quotes), Stages();
    assert all[..3][..2] == all[..2] && all[..2][..1] == all[..1] && all[..1][..0] == [];
    MergeStageIs(quotes);
    assert Batch(all[..1], items) == Stream(all[0], [], Batch(all[..1][..0], items));
    KeepStageIs(MergeStamps(quotes));
    assert Batch(all[..2], items) == Stream(all[1], [], Batch(all[..2][..1], items));
    PriceStageIs(KeepDays(MergeStamps(quotes)));
    assert Batch(all[..3], items) == Stream(all[2], [], Batch(all[..3][..2], items));
    RowStageIs(PriceAll(KeepDays(MergeStamps(quotes))));
  }

  /** Whatever the queue capacities and however the six threads are scheduled: what the writer has written
      is a beginning of the rows of the file, and once no thread can move it is all of them. */
  lemma PipelineDeterministic(capacity: nat, quotes: seq<Quote>, schedule: seq<Move>)
    requires capacity >= 1
    ensures var s := Exec(Start(Stages(), capacity, Map(QuoteItem, quotes)), schedule);
            && s.written <= Map(RowItem, Rows(quotes))
            && ((forall m :: !Enabled(s, m)) ==> Finished(s) && s.written == Map(RowItem, Rows(quotes)))
  {
    hide Stages, Lawful, Exec, Start, Finished, Enabled, Batch;
    StagesLawful();
    BatchIsRows(quotes);
    Deterministic(Stages(), capacity, Map(QuoteItem, quotes), schedule);
    StuckMeansFinished(Exec(Start(Stages(), capacity, Map(QuoteItem, quotes)), schedule));
  }

  // ---------------------------------------------------------------- the rows

  /** Whatever the records of the file, no spread divides by zero and every daily spread is in [0, 2). */
  lemma RowsInRange(records: seq<Observation>, i: nat)
    ensures forall q | q in Parsed(records) :: q.offer + q.bid > 0.02
    ensures i < |Rows(Parsed(records))| ==> 0.0 <= Rows(Parsed(records))[i].relSpread < 2.0
  {
    if i < |Rows(Parsed(records))| { QuoteRowsInRange(Parsed(records), i); }
  }

  lemma QuoteRowsInRange(quotes: seq<Quote>, i: nat)
    requires i < |Rows(quotes)|
    ensures 0.0 <= Rows(quotes)[i].relSpread < 2.0
  {
    hide KeepDays, MergeStamps, PriceAll;
    var kept := KeepDays(MergeStamps(quotes));
    var priced := PriceAll(kept);
    PricedInOrder(kept);
    var runs := Runs(DayRelSpreads.DateOf, priced);
    RunsAreRuns(DayRelSpreads.DateOf, priced);
    RowOfRun(runs, i);
    var run := runs[i];
    forall j | 0 <= j < |run| ensures 0.0 <= Spreads(run)[j] < 2.0 {
      RunsWithin(DayRelSpreads.DateOf, priced, i, j);
    }
    MeanSpreadRange(Spreads(run));
  }

  /** Row `i` is the row of run `i`. */
  lemma {:induction false} RowOfRun(runs: seq<seq<Priced>>, i: nat)
    requires forall r | 0 <= r < |runs| :: |runs[r]| > 0
    requires i < |Concat(Map(DayRows, runs))|
    ensures i < |runs| && Concat(Map(DayRows, runs))[i] == DayRow(runs[i])
  {
    hide DayRow;
    if |runs| > 0 {
      assert Map(DayRows, runs)[1..] == Map(DayRows, runs[1..]);
      if i > 0 { RowOfRun(runs[1..], i - 1); }
    }
  }

  function PricedScaler(k: Factor): Priced -> Priced { (p: Priced) => Priced(ScaledQuote(k, p.quote), p.relSpread) }

  function Same(r: DaySpread): DaySpread { r }

  lemma {:induction false} PriceAllScaled(k: Factor, quotes: seq<Quote>)
    ensures PriceAll(Map(Scaler(k), quotes)) == Map(PricedScaler(k), PriceAll(quotes))
  {
    hide RelSpread, ScaledQuote;
    if |quotes| > 0 {
      var scaled := Map(Scaler(k), quotes);
      assert scaled[1..] == Map(Scaler(k), quotes[1..]);
      assert Map(Price, quotes)[1..] == Map(Price, quotes[1..]);
      assert Map(Price, scaled)[1..] == Map(Price, scaled[1..]);
      PriceAllScaled(k, quotes[1..]);
      RelSpreadScaled(k, quotes[0]);
    }
  }

  lemma RowsScaled(k: Factor, priced: seq<Priced>)
    ensures RowsOfDays(Map(PricedScaler(k), priced)) == RowsOfDays(priced)
  {
    hide Group;
    forall run: seq<Priced> | |run| > 0 ensures DayRows(Map(PricedScaler(k), run)) == Map(Same, DayRows(run)) {
      assert Spreads(Map(PricedScaler(k), run)) == Spreads(run);
    }
    GroupMap(DayRelSpreads.DateOf, DayRows, DayRelSpreads.DateOf, DayRows, PricedScaler(k), Same, priced);
    assert Map(Same, RowsOfDays(priced)) == RowsOfDays(priced);
  }

  lemma MergeScaled(k: Factor, quotes: seq<Quote>)
    ensures MergeStamps(Map(Scaler(k), quotes)) == Map(Scaler(k), MergeStamps(quotes))
  {
    hide Group, MergeRun;
    forall run: seq<Quote> | |run| > 0 ensures MergeRun(Map(Scaler(k), run)) == Map(Scaler(k), MergeRun(run)) {
      MergeRunScaled(k, run);
    }
    GroupMap(Stamp, MergeRun, Stamp, MergeRun, Scaler(k), Scaler(k), quotes);
  }

  lemma KeepScaled(k: Factor, quotes: seq<Quote>)
    ensures KeepDays(Map(Scaler(k), quotes)) == Map(Scaler(k), KeepDays(quotes))
  {
    hide Group, Kept;
    forall run: seq<Quote> | |run| > 0 ensures KeepDay(Map(Scaler(k), run)) == Map(Scaler(k), KeepDay(run)) {
      KeptScaled(k, run, |run|);
    }
    GroupMap(Outliers.DateOf, KeepDay, Outliers.DateOf, KeepDay, Scaler(k), Scaler(k), quotes);
  }

  /** The rows do not depend on the currency unit. */
  lemma ScaleInvariant(k: Factor, quotes: seq<Quote>)
    ensures Rows(Map(Scaler(k), quotes)) == Rows(quotes)
  {
    hide MergeStamps, KeepDays, PriceAll, RowsOfDays;
    MergeScaled(k, quotes);
    KeepScaled(k, MergeStamps(quotes));
    PriceAllScaled(k, KeepDays(MergeStamps(quotes)));
    RowsScaled(k, PriceAll(KeepDays(MergeStamps(quotes))));
  }
}
