/** The price store over whole runs of ingests and flushes: it answers like one last-write-wins map. */
module StoreRuns {
  import opened BarSeries
  import opened PriceStore

  datatype Event = Ingest(bars: seq<Bar>, backfill: bool) | Flush

  /** The cache and the rows of the archive. */
  datatype Tiers = Tiers(hot: Series, rows: Series)

  /** What the store's methods do to the two tiers. */
  ghost function After(n: nat, t: Tiers, e: Event): Tiers {
    match e
    case Ingest(bars, backfill) =>
      Tiers(if bars == [] then t.hot else Newest(Written(t.hot, bars), n),
            if backfill then Written(t.rows, bars) else t.rows)
    case Flush => Tiers(t.hot, Written(t.rows, Ascending(t.hot)))
  }

  ghost function RunStore(n: nat, events: seq<Event>): Tiers
    decreases |events|
  {
    if |events| == 0 then Tiers(map[], map[])
    else After(n, RunStore(n, events[..|events| - 1]), events[|events| - 1])
  }

  /** Every bar ever ingested, in order. */
  function Ingested(events: seq<Event>): seq<Bar>
    decreases |events|
  {
    if |events| == 0 then []
    else
      var e := events[|events| - 1];
      Ingested(events[..|events| - 1]) + if e.Ingest? then e.bars else []
  }

  /** The simple map the store stands for: last write wins. */
  function Truth(events: seq<Event>): Series {
    Written(map[], Ingested(events))
  }

  /** The event pushes a bar out of the cache that is not archived with its value. */
  ghost predicate Loses(n: nat, t: Tiers, e: Event) {
    e.Ingest? && exists k :: LosesBar(n, t, e, k)
  }

  ghost predicate LosesBar(n: nat, t: Tiers, e: Event, k: Time)
    requires e.Ingest?
  {
    var full := Written(t.hot, e.bars);
    k in full && k !in Newest(full, n) && Lookup(After(n, t, e).rows, k) != Lookup(full, k)
  }

  ghost predicate NeverLoses(n: nat, events: seq<Event>) {
    forall i :: 0 <= i < |events| ==> !Loses(n, RunStore(n, events[..i]), events[i])
  }

  lemma TruthStep(events: seq<Event>)
    requires |events| > 0
    ensures var before, e := Truth(events[..|events| - 1]), events[|events| - 1];
            Truth(events) == if e.Ingest? then Written(before, e.bars) else before
  {
    var init, e := events[..|events| - 1], events[|events| - 1];
    if e.Ingest? {
      WrittenConcat(map[], Ingested(init), e.bars);
    } else {
      assert Ingested(init) + [] == Ingested(init);
    }
  }

  /** The cache is always the newest n of everything ingested, and the archive holds no bar that was
      never ingested. */
  lemma {:induction false} CacheIsNewest(n: nat, events: seq<Event>)
    ensures RunStore(n, events).hot == Newest(Truth(events), n)
    ensures Keyed(Truth(events))
    ensures RunStore(n, events).rows.Keys <= Truth(events).Keys
    decreases |events|
  {
    WrittenKeyed(map[], Ingested(events));
    if |events| == 0 {
      assert Truth(events) == map[];
    } else {
      var init, e := events[..|events| - 1], events[|events| - 1];
      CacheIsNewest(n, init);
      TruthStep(events);
      var t, all := RunStore(n, init), Truth(init);
      if e.Ingest? {
        NewestOfWritten(all, e.bars, n);
        IngestedRows(all, t.rows, RunStore(n, events).rows, e.bars);
      } else {
        HotKeyed(all, n);
        FlushedRows(t.rows, t.hot, Ascending(t.hot));
        FlushKeeps(all, t.hot, t.rows, RunStore(n, events).rows);
      }
    }
  }

  /** While no bar is lost the two tiers together hold everything ingested with its last value:
      what is not cached is archived. */
  lemma {:induction false} NothingIsLost(n: nat, events: seq<Event>)
    requires NeverLoses(n, events)
    ensures Covers(Truth(events), RunStore(n, events).hot, RunStore(n, events).rows)
    decreases |events|
  {
    if |events| > 0 {
      var init, e := events[..|events| - 1], events[|events| - 1];
      assert NeverLoses(n, init) by {
        forall i | 0 <= i < |init| ensures !Loses(n, RunStore(n, init[..i]), init[i]) {
          assert init[..i] == events[..i] && init[i] == events[i];
        }
      }
      NothingIsLost(n, init);
      CacheIsNewest(n, init);
      CacheIsNewest(n, events);
      TruthStep(events);
      assert events[..|init|] == init && !Loses(n, RunStore(n, init), events[|init|]);
      StepCovers(n, Truth(init), RunStore(n, init), e);
    }
  }

  lemma StepCovers(n: nat, all: Series, t: Tiers, e: Event)
    requires Keyed(all) && t.hot == Newest(all, n) && t.rows.Keys <= all.Keys && Covers(all, t.hot, t.rows)
    requires !Loses(n, t, e)
    ensures Covers(if e.Ingest? then Written(all, e.bars) else all, After(n, t, e).hot, After(n, t, e).rows)
  {
    if e.Ingest? {
      var next := After(n, t, e);
      NewestOfWritten(all, e.bars, n);
      forall k | k in Written(t.hot, e.bars) && k !in next.hot
        ensures Lookup(next.rows, k) == Lookup(Written(t.hot, e.bars), k)
      {
        assert !LosesBar(n, t, e, k);
      }
      CoverageIff(all, t.rows, t.hot, next.hot, next.rows, e.bars, n);
    } else {
      HotKeyed(all, n);
      FlushedRows(t.rows, t.hot, Ascending(t.hot));
      FlushKeeps(all, t.hot, t.rows, After(n, t, e).rows);
    }
  }

  /** A loss shows: right after an event of a covered run that loses a bar, the tiers no longer hold
      that bar's value. */
  lemma LossBreaksCoverage(n: nat, all: Series, t: Tiers, e: Event)
    requires Keyed(all) && t.hot == Newest(all, n) && t.rows.Keys <= all.Keys && Covers(all, t.hot, t.rows)
    requires Loses(n, t, e)
    ensures !Covers(Written(all, e.bars), After(n, t, e).hot, After(n, t, e).rows)
  {
    var next := After(n, t, e);
    NewestOfWritten(all, e.bars, n);
    var k :| LosesBar(n, t, e, k);
    CoverageIff(all, t.rows, t.hot, next.hot, next.rows, e.bars, n);
  }

  /** Flushing often enough never loses: a cache flushed just before an ingest that leaves every
      flushed bar's value alone loses only what the ingest itself brings and drops. */
  lemma FlushThenIngest(n: nat, t: Tiers, bars: seq<Bar>, k: Time)
    requires Keyed(t.hot) && LosesBar(n, After(n, t, Flush), Ingest(bars, false), k)
    ensures LastAt(bars, k).Some?
  {
    var flushed := After(n, t, Flush);
    FlushedRows(t.rows, t.hot, Ascending(t.hot));
    WrittenLookup(flushed.hot, bars, k);
  }

  // ---------------------------------------------------------------- the store itself over a run

  /** The two tiers of a store. */
  ghost function TiersOf(s: PriceStore): Tiers
    requires s.Valid()
    reads s
  {
    Tiers(s.hot, Rows(s.archive))
  }

  /** Run a list of ingests and flushes on a store: its tiers are those of the run, what it stands for
      is the last-write-wins map, and it is covered while nothing is lost. */
  method RunEvents(n: nat, events: seq<Event>) returns (s: PriceStore)
    requires n >= 1
    ensures fresh(s) && s.Valid() && s.hotLen == n
    ensures TiersOf(s) == RunStore(n, events) && s.all == Truth(events)
    ensures NeverLoses(n, events) ==> s.Covered()
  {
    hide Rows, Newest, Covers;
    s := new PriceStore(n);
    assert TiersOf(s) == Tiers(map[], map[]) by {
      EmptyTiers(s, n);
    }
    for i := 0 to |events|
      invariant fresh(s) && s.Valid() && s.hotLen == n
      invariant TiersOf(s) == RunStore(n, events[..i]) && s.all == Truth(events[..i])
    {
      assert events[..i + 1][..i] == events[..i] && events[..i + 1][i] == events[i];
      TruthStep(events[..i + 1]);
      CacheIsNewest(n, events[..i + 1]);
      match events[i] {
        case Ingest(bars, backfill) =>
          s.IngestBars(bars, backfill);
        case Flush =>
          ghost var t := TiersOf(s);
          HotKeyed(s.all, n);
          var _ := s.FlushToParquet();
          FlushedRows(t.rows, t.hot, Ascending(t.hot));
          SameSeries(Rows(s.archive), Written(t.rows, Ascending(t.hot)));
      }
    }
    assert events[..|events|] == events;
    if NeverLoses(n, events) {
      NothingIsLost(n, events);
    }
  }

  lemma EmptyTiers(s: PriceStore, n: nat)
    requires s.Valid() && s.all == map[] && s.hotLen == n
    ensures TiersOf(s) == Tiers(map[], map[])
  {
  }

  /** Reading the newest bars after any run that loses nothing gives the newest of everything
      ingested... */
  method BarsAfter(n: nat, events: seq<Event>, limit: int) returns (out: seq<Bar>)
    requires n >= 1
    ensures NeverLoses(n, events) ==> out == Ascending(Newest(Truth(events), if limit < 1 then 1 else limit))
  {
    var s := RunEvents(n, events);
    out := s.GetBars(limit);
  }

  /** ... and reading a window gives exactly the bars ingested for it. */
  method WindowAfter(n: nat, events: seq<Event>, start: Time, end: Time, limit: nat) returns (out: seq<Bar>)
    requires n >= 1
    ensures NeverLoses(n, events) && |Between(RunStore(n, events).rows, start, end)| <= limit ==>
              out == Ascending(Between(Truth(events), start, end))
  {
    var s := RunEvents(n, events);
    out := s.GetWindow(start, end, limit);
  }
}
