/**
 The two-tier price store of one (timeframe, symbol): a hot cache of the newest bars, trimmed on
 every write, and an archive with one file per day.  Reads answer as if there were one series.
 */
module PriceStore {
  import opened Prelude
  import opened BarSeries

  type Day = int
  type Archive = map<Day, Series>

  const DAY_US := 86_400_000_000

  /** UTC day of a time in microseconds. */
  function DayOf(ts: Time): Day {
    ts / DAY_US
  }

  /** Each file only holds bars of its own day. */
  predicate Filed(archive: Archive) {
    forall d :: d in archive ==> Keyed(archive[d]) && forall k :: k in archive[d] ==> DayOf(k) == d
  }

  /** The rows a query over all files sees. */
  function Rows(archive: Archive): Series
    requires Filed(archive)
  {
    map k | k in (set d, k | d in archive && k in archive[d] :: k) :: archive[DayOf(k)][k]
  }

  lemma RowsLookup(archive: Archive, k: Time)
    requires Filed(archive)
    ensures Lookup(Rows(archive), k) ==
              if DayOf(k) in archive then Lookup(archive[DayOf(k)], k) else None
  {
  }

  lemma RowsKeyed(archive: Archive)
    requires Filed(archive)
    ensures Keyed(Rows(archive))
  {
  }

  function Between(m: Series, start: Time, end: Time): Series {
    map k | k in m && start <= k < end :: m[k]
  }

  function Before(m: Series, end: Option<Time>): Series {
    map k | k in m && (end.Some? ==> k < end.value) :: m[k]
  }

  /** Dedup by time (later entries win) and return ascending. */
  method DedupSort(bars: seq<Bar>) returns (out: seq<Bar>)
    ensures out == Ascending(Written(map[], bars))
    ensures |out| == |Written(map[], bars)|
  {
    var byTs: Series := map[];
    for i := 0 to |bars|
      invariant byTs == Written(map[], bars[..i])
    {
      assert bars[..i + 1][..i] == bars[..i];
      byTs := byTs[bars[i].ts := bars[i]];
    }
    assert bars[..|bars|] == bars;
    out := [];
    var rest := byTs.Keys;
    ghost var left := byTs;
    while rest != {}
      invariant left.Keys == rest && rest <= byTs.Keys && Part(left, byTs)
      invariant out + Ascending(left) == Ascending(byTs)
      decreases rest
    {
      HasLeast(rest);
      var k :| k in rest && forall j :: j in rest ==> k <= j;
      assert k == Least(left);
      assert out + [left[k]] + Ascending(left - {k}) == out + Ascending(left);
      out := out + [byTs[k]];
      rest := rest - {k};
      left := left - {k};
    }
    assert left == map[];
    AscendingSize(byTs);
  }

  /** The bars of a list that fall on one day, in order. */
  function OnDay(bars: seq<Bar>, d: Day): seq<Bar>
    decreases |bars|
  {
    if |bars| == 0 then []
    else
      var init := OnDay(bars[..|bars| - 1], d);
      if DayOf(bars[|bars| - 1].ts) == d then init + [bars[|bars| - 1]] else init
  }

  lemma {:induction false} LastOnDay(bars: seq<Bar>, k: Time)
    ensures LastAt(OnDay(bars, DayOf(k)), k) == LastAt(bars, k)
    decreases |bars|
  {
    if |bars| > 0 {
      var init := OnDay(bars[..|bars| - 1], DayOf(k));
      LastOnDay(bars[..|bars| - 1], k);
      assert (init + [bars[|bars| - 1]])[..|init|] == init;
    }
  }

  lemma {:induction false} OnDayIsOn(bars: seq<Bar>, d: Day)
    ensures forall b :: b in OnDay(bars, d) ==> b in bars && DayOf(b.ts) == d
    ensures OnDay(bars, d) == [] ==> forall b :: b in bars ==> DayOf(b.ts) != d
    decreases |bars|
  {
    if |bars| > 0 {
      OnDayIsOn(bars[..|bars| - 1], d);
    }
  }

  /** Merging a day's bars into its file. */
  lemma FileMerged(file: Series, bars: seq<Bar>, d: Day)
    requires Keyed(file) && forall k :: k in file ==> DayOf(k) == d
    ensures var merged := Written(file, OnDay(bars, d));
            && Keyed(merged) && (forall k :: k in merged ==> DayOf(k) == d)
            && forall k :: DayOf(k) == d ==> Lookup(merged, k) == Lookup(Written(file, bars), k)
  {
    var merged := Written(file, OnDay(bars, d));
    WrittenKeyed(file, OnDay(bars, d));
    OnDayIsOn(bars, d);
    forall k ensures k in merged ==> DayOf(k) == d
             ensures DayOf(k) == d ==> Lookup(merged, k) == Lookup(Written(file, bars), k) {
      WrittenLookup(file, OnDay(bars, d), k);
      WrittenLookup(file, bars, k);
      if DayOf(k) == d {
        LastOnDay(bars, k);
      }
    }
  }

  method GroupByDay(bars: seq<Bar>) returns (byDay: map<Day, seq<Bar>>)
    ensures forall d :: d in byDay ==> byDay[d] == OnDay(bars, d)
    ensures forall d :: d !in byDay ==> OnDay(bars, d) == []
  {
    byDay := map[];
    for i := 0 to |bars|
      invariant forall d :: d in byDay ==> byDay[d] == OnDay(bars[..i], d)
      invariant forall d :: d !in byDay ==> OnDay(bars[..i], d) == []
    {
      assert bars[..i + 1][..i] == bars[..i];
      var d := DayOf(bars[i].ts);
      byDay := byDay[d := (if d in byDay then byDay[d] else []) + [bars[i]]];
    }
    assert bars[..|bars|] == bars;
  }

  /** Every bar that is not cached is among the rows, with its last value. */
  ghost predicate Covers(all: Series, hot: Series, rows: Series) {
    forall k :: k in all && k !in hot ==> Lookup(rows, k) == Some(all[k])
  }

  class PriceStore {
    const hotLen: nat
    var hot: Series
    var archive: Archive
    // Everything ingested so far, last write wins.
    ghost var all: Series

    ghost predicate Valid()
      reads this
    {
      && hotLen >= 1
      && Keyed(all) && Filed(archive)
      && hot == Newest(all, hotLen)
      && Rows(archive).Keys <= all.Keys
    }

    /** No bar was lost: what left the cache is in the archive. */
    ghost predicate Covered()
      requires Valid()
      reads this
    {
      Covers(all, hot, Rows(archive))
    }

    constructor (hotLen: nat)
      requires hotLen >= 1
      ensures Valid() && Covered() && all == map[] && this.hotLen == hotLen
    {
      this.hotLen := hotLen;
      hot, archive, all := map[], map[], map[];
    }

    /** Upsert into the cache, then trim it to the newest hotLen. */
    method AppendHot(bars: seq<Bar>)
      modifies this`hot
      ensures hot == if bars == [] then old(hot) else Newest(Written(old(hot), bars), hotLen)
    {
      if bars == [] {
        return;
      }
      for i := 0 to |bars|
        invariant hot == Written(old(hot), bars[..i])
      {
        assert bars[..i + 1][..i] == bars[..i];
        hot := hot - {bars[i].ts};
        hot := hot[bars[i].ts := bars[i]];
        assert hot == Written(old(hot), bars[..i])[bars[i].ts := bars[i]];
      }
      assert bars[..|bars|] == bars;
      hot := Newest(hot, hotLen);
    }

    /** Merge bars into their day files: the archive becomes the one with the bars written. */
    method WriteParquet(bars: seq<Bar>)
      requires Filed(archive)
      modifies this`archive
      ensures Filed(archive) && Rows(archive) == Written(Rows(old(archive)), bars)
    {
      hide Rows;
      var byDay := GroupByDay(bars);
      ghost var rows := Rows(archive);
      var days := byDay.Keys;
      while days != {}
        invariant days <= byDay.Keys && Filed(archive)
        invariant MergedFor(Rows(archive), rows, bars, byDay.Keys - days)
        decreases days
      {
        ghost var some := AnyOf(days);
        var d :| d in days;
        MergeStep(archive, rows, bars, byDay.Keys - days, d);
        archive := archive[d := Written(if d in archive then archive[d] else map[], byDay[d])];
        assert byDay.Keys - days + {d} == byDay.Keys - (days - {d});
        days := days - {d};
      }
      assert byDay.Keys - days == byDay.Keys;
      MergedAll(Rows(archive), rows, bars, byDay.Keys);
    }

    /** What a write would push out of the cache. */
    ghost predicate Dropped(bars: seq<Bar>, k: Time)
      reads this
    {
      k in Written(hot, bars) && k !in Newest(Written(hot, bars), hotLen)
    }

    /** The single write path: the cache always, the archive only when backfilling. */
    method IngestBars(bars: seq<Bar>, backfill: bool)
      requires Valid()
      modifies this
      ensures Valid() && all == Written(old(all), bars)
      ensures Rows(archive) == if backfill then Written(Rows(old(archive)), bars) else Rows(old(archive))
      // Coverage survives exactly when every bar the write pushed out is archived with its value.
      ensures old(Covered()) ==>
                (Covered() <==> forall k :: old(Dropped(bars, k)) ==>
                   Lookup(Rows(archive), k) == Lookup(Written(old(hot), bars), k))
    {
      ghost var before := hot;
      ghost var a0, r0 := all, Rows(archive);
      AppendHot(bars);
      if backfill {
        WriteParquet(bars);
      }
      all := Written(all, bars);
      WrittenKeyed(a0, bars);
      NewestOfWritten(a0, bars, hotLen);
      IngestedRows(a0, r0, Rows(archive), bars);
      CoverageIff(a0, r0, before, hot, Rows(archive), bars, hotLen);
    }

    /** Persist the cache: coverage is kept, and every cached bar is archived. */
    method FlushToParquet() returns (written: nat)
      requires Valid()
      modifies this`archive
      ensures Valid() && written == |hot|
      ensures old(Covered()) ==> Covered()
      ensures forall k :: Lookup(Rows(archive), k) ==
                if k in hot then Some(hot[k]) else Lookup(Rows(old(archive)), k)
    {
      hide Rows, Newest;
      ghost var rows := Rows(archive);
      HotKeyed(all, hotLen);
      var bars := GetHot(hotLen);
      NewestOfNewest(all, hotLen, hotLen);
      WriteParquet(bars);
      FlushedRows(rows, hot, bars);
      FlushKeeps(all, hot, rows, Rows(archive));
      return |bars|;
    }

    /** The newest max(1, limit) cached bars, ascending. */
    method GetHot(limit: int) returns (out: seq<Bar>)
      requires Keyed(hot)
      ensures out == Ascending(Newest(hot, if limit < 1 then 1 else limit))
      ensures |out| == |Newest(hot, if limit < 1 then 1 else limit)|
    {
      var raws := ReadNewest(hot, if limit < 1 then 1 else limit);
      out := DedupSort(raws);
    }

    /** Recent bars: the cache first, deeper windows merged with the archive.  A limit below one reads
        as one. */
    method GetBars(limit: int) returns (out: seq<Bar>)
      requires Valid()
      ensures Covered() || limit < 1 ==> out == Ascending(Newest(all, if limit < 1 then 1 else limit))
    {
      hide Rows, Newest, From, Before, Covers, Part, Keyed, Filed;
      HotKeyed(all, hotLen);
      var hotPart := GetHot(limit);
      if |hotPart| >= limit {
        if limit < 1 {
          NewestOfNewest(all, hotLen, 1);
        } else {
          EnoughCached(all, hot, hotLen, limit);
        }
        return hotPart;
      }
      EnoughCached(all, hot, hotLen, limit);
      var earliest := if |hotPart| > 0 then Some(hotPart[0].ts) else None;
      RowsKeyed(archive);
      var older := ReadRows(archive, None, earliest, limit - |hotPart| + 50);
      var merged := DedupSort(older + hotPart);
      if Covered() {
        DeepReadIsNewest(all, hot, Rows(archive), earliest, hotLen, limit, older, hotPart);
      }
      return LastOf(merged, limit);
    }

    /** The latest bar: the cache, and the archive only when the cache is empty. */
    method GetLastBar() returns (out: Option<Bar>)
      requires Keyed(hot) && Filed(archive)
      ensures var m := if hot != map[] then hot else Rows(archive);
              if m == map[] then out == None else out.Some? && IsLatest(m, out.value)
      ensures Valid() && all != map[] ==> out.Some? && IsLatest(all, out.value)
    {
      hide Rows, Newest, From, Before;
      var hotPart := GetHot(1);
      NewestOne(hot);
      if Valid() && all != map[] {
        LatestCached(all, hot, hotLen);
      }
      if |hotPart| > 0 {
        return Some(hotPart[|hotPart| - 1]);
      }
      RowsKeyed(archive);
      var older := ReadRows(archive, None, None, 1);
      NoBounds(Rows(archive));
      NewestOne(Rows(archive));
      return if |older| > 0 then Some(older[|older| - 1]) else None;
    }

    /** The bars of [start, end), ascending: archive rows, and cached bars over them. */
    method GetWindow(start: Time, end: Time, limit: nat) returns (out: seq<Bar>)
      requires Valid()
      ensures Covered() && |Between(Rows(archive), start, end)| <= limit ==>
                out == Ascending(Between(all, start, end))
    {
      hide Rows, Newest, From, Before, Between, Covers;
      RowsKeyed(archive);
      HotKeyed(all, hotLen);
      var older := ReadRows(archive, Some(start), Some(end), limit);
      var cached := GetHot(hotLen);
      var inside: seq<Bar> := [];
      for i := 0 to |cached|
        invariant forall b :: b in inside <==> b in cached[..i] && start <= b.ts < end
      {
        assert cached[..i + 1] == cached[..i] + [cached[i]];
        if start <= cached[i].ts < end {
          inside := inside + [cached[i]];
        }
      }
      assert cached[..|cached|] == cached;
      out := DedupSort(older + inside);
      if Covered() && |Between(Rows(archive), start, end)| <= limit {
        NewestOfNewest(all, hotLen, hotLen);
        WindowBounds(Rows(archive), start, end);
        NewestSize(Between(Rows(archive), start, end), limit);
        AscendingLists(hot);
        WindowMerges(all, hot, Rows(archive), start, end, older, inside);
      }
    }
  }

  // ---------------------------------------------------------------- the stores' own reads

  function From(m: Series, start: Option<Time>): Series {
    map k | k in m && (start.Some? ==> start.value <= k) :: m[k]
  }

  /** ZREVRANGE: the newest n members; their order does not matter to the caller. */
  method ReadNewest(m: Series, n: nat) returns (out: seq<Bar>)
    requires Keyed(m)
    ensures Written(map[], out) == Newest(m, n)
  {
    out := ListSeries(Newest(m, n));
    WrittenAscending(Newest(m, n));
  }

  /** The query over all day files: filter by time, newest `limit` rows, returned ascending. */
  method ReadRows(archive: Archive, since: Option<Time>, before: Option<Time>, limit: nat) returns (out: seq<Bar>)
    requires Filed(archive)
    ensures out == Ascending(Newest(Before(From(Rows(archive), since), before), limit))
  {
    RowsKeyed(archive);
    out := ListSeries(Newest(Before(From(Rows(archive), since), before), limit));
  }

  method ListSeries(m: Series) returns (out: seq<Bar>)
    ensures out == Ascending(m)
  {
    out := [];
    var rest := m.Keys;
    ghost var left := m;
    while rest != {}
      invariant left.Keys == rest && rest <= m.Keys && Part(left, m)
      invariant out + Ascending(left) == Ascending(m)
      decreases rest
    {
      HasLeast(rest);
      var k :| k in rest && forall j :: j in rest ==> k <= j;
      assert k == Least(left);
      assert out + [left[k]] + Ascending(left - {k}) == out + Ascending(left);
      out := out + [m[k]];
      rest := rest - {k};
      left := left - {k};
    }
    assert left == map[];
  }

  // ---------------------------------------------------------------- proofs of the operations

  lemma IngestedRows(all: Series, rows: Series, rows': Series, bars: seq<Bar>)
    requires rows.Keys <= all.Keys && (rows' == rows || rows' == Written(rows, bars))
    ensures rows'.Keys <= Written(all, bars).Keys
  {
    forall k | k in rows' ensures k in Written(all, bars) {
      WrittenLookup(all, bars, k);
      WrittenLookup(rows, bars, k);
    }
  }

  lemma CoverageIff(all: Series, rows: Series, hot: Series, hot': Series, rows': Series, bars: seq<Bar>, n: nat)
    requires hot == Newest(all, n) && hot' == Newest(Written(all, bars), n)
    requires hot' == Newest(Written(hot, bars), n)
    requires rows' == rows || rows' == Written(rows, bars)
    ensures Covers(all, hot, rows) ==>
              (Covers(Written(all, bars), hot', rows') <==>
                 forall k :: k in Written(hot, bars) && k !in hot' ==>
                   Lookup(rows', k) == Lookup(Written(hot, bars), k))
  {
    forall k ensures k in Written(hot, bars) ==> Lookup(Written(all, bars), k) == Lookup(Written(hot, bars), k)
             ensures Covers(all, hot, rows) && k in Written(all, bars) && k !in Written(hot, bars) ==>
                       Lookup(rows', k) == Lookup(Written(all, bars), k) {
      WrittenLookup(all, bars, k);
      WrittenLookup(hot, bars, k);
      WrittenLookup(rows, bars, k);
    }
  }

  lemma FlushedRows(rows: Series, hot: Series, bars: seq<Bar>)
    requires Keyed(hot) && bars == Ascending(hot)
    ensures forall k :: Lookup(Written(rows, bars), k) == if k in hot then Some(hot[k]) else Lookup(rows, k)
  {
    AscendingLists(hot);
    forall k ensures Lookup(Written(rows, bars), k) == if k in hot then Some(hot[k]) else Lookup(rows, k) {
      WrittenLookup(rows, bars, k);
      if k in hot {
        assert hot[k] in bars;
      }
    }
  }

  lemma HotKeyed(all: Series, n: nat)
    requires Keyed(all)
    ensures Keyed(Newest(all, n)) && Part(Newest(all, n), all)
  {
  }

  lemma FlushKeeps(all: Series, hot: Series, rows: Series, rows': Series)
    requires Part(hot, all) && rows.Keys <= all.Keys
    requires forall k :: Lookup(rows', k) == if k in hot then Some(hot[k]) else Lookup(rows, k)
    ensures rows'.Keys <= all.Keys && (Covers(all, hot, rows) ==> Covers(all, hot, rows'))
  {
    forall k | k in rows' ensures k in all {
      assert Lookup(rows', k).Some?;
      assert Lookup(rows, k).Some? || k in hot;
    }
  }

  lemma ListedLookup(m: Series, k: Time)
    requires Keyed(m)
    ensures LastAt(Ascending(m), k) == Lookup(m, k)
  {
    WrittenAscending(m);
    WrittenLookup(map[], Ascending(m), k);
  }

  /** The cache answers alone when it holds `limit` bars; otherwise all of it was read. */
  lemma EnoughCached(all: Series, hot: Series, n: nat, limit: nat)
    requires hot == Newest(all, n)
    ensures if |Newest(hot, limit)| >= limit then Newest(hot, limit) == Newest(all, limit)
            else Newest(hot, limit) == hot && |hot| < limit
  {
    NewestSize(hot, limit);
    NewestSize(all, n);
    SubsetSize(hot.Keys, all.Keys);
    if |Newest(hot, limit)| >= limit {
      SubsetSize(Newest(hot, limit).Keys, hot.Keys);
      NewestOfNewest(all, n, limit);
    }
  }

  function LastOf(bars: seq<Bar>, n: nat): seq<Bar> {
    if |bars| > n then bars[|bars| - n..] else bars
  }

  lemma LastOfPart(all: Series, m: Series, limit: nat)
    requires Part(m, all) && Newest(all, limit).Keys <= m.Keys
    ensures Ascending(Newest(all, limit)) == LastOf(Ascending(m), limit)
  {
    hide Newest, Part;
    NewestOfPart(all, m, limit);
    NewestSize(m, limit);
    AscendingSize(m);
    if |m| > limit {
      LastOfAscending(m, limit);
    }
  }

  ghost predicate IsLatest(m: Series, b: Bar) {
    b.ts in m && m[b.ts] == b && forall k :: k in m ==> k <= b.ts
  }

  lemma NewestOne(m: Series)
    requires Keyed(m)
    ensures if m == map[] then Ascending(Newest(m, 1)) == []
            else |Ascending(Newest(m, 1))| == 1 && IsLatest(m, Ascending(Newest(m, 1))[0])
  {
    NewestSize(m, 1);
    AscendingLists(Newest(m, 1));
    if m != map[] {
      var b := Ascending(Newest(m, 1))[0];
      assert b in Ascending(Newest(m, 1));
      forall k | k in m ensures k <= b.ts {
        if k in Newest(m, 1) {
          assert m[k] in Ascending(Newest(m, 1));
        } else {
          KeptAreNewer(m, 1, b.ts, k);
        }
      }
    }
  }

  lemma LatestCached(all: Series, hot: Series, n: nat)
    requires hot == Newest(all, n) && n >= 1 && all != map[]
    ensures hot != map[] && forall b :: IsLatest(hot, b) ==> IsLatest(all, b)
  {
    NewestSize(all, n);
    forall b | IsLatest(hot, b) ensures IsLatest(all, b) {
      forall k | k in all ensures k <= b.ts {
        if k !in hot {
          KeptAreNewer(all, n, b.ts, k);
        }
      }
    }
  }

  lemma NoBounds(rows: Series)
    ensures Before(From(rows, None), None) == rows
  {
  }

  lemma WindowBounds(rows: Series, start: Time, end: Time)
    requires Keyed(rows)
    ensures Before(From(rows, Some(start)), Some(end)) == Between(rows, start, end)
    ensures Keyed(Between(rows, start, end))
  {
  }

  /** Merging older rows with the whole cache loses none of the newest `limit` bars. */
  lemma DeepRead(all: Series, hot: Series, rows: Series, earliest: Option<Time>, n: nat, limit: nat,
                 older: seq<Bar>, cached: seq<Bar>)
    requires Keyed(all) && n >= 1 && hot == Newest(all, n) && |hot| < limit
    requires Covers(all, hot, rows) && rows.Keys <= all.Keys && Keyed(rows)
    requires cached == Ascending(hot)
    requires earliest == if |cached| > 0 then Some(cached[0].ts) else None
    requires older == Ascending(Newest(Before(From(rows, None), earliest), limit - |hot| + 50))
    ensures var m := Written(map[], older + cached);
            Part(m, all) && Newest(all, limit).Keys <= m.Keys
  {
    hide Before, From, Newest, Covers, Uncached;
    var q := limit - |hot| + 50;
    RestIsOlder(all, hot, rows, earliest, n);
    HotKeyed(all, n);
    UncachedKeyed(all, hot);
    HotKeyed(Uncached(all, hot), q);
    DeepMerge(hot, Newest(Uncached(all, hot), q), older, cached);
    DeepPart(all, hot, n, limit, q, Written(map[], older + cached));
  }

  /** The last `limit` of the merge are the newest `limit` of everything ingested. */
  lemma DeepReadIsNewest(all: Series, hot: Series, rows: Series, earliest: Option<Time>, n: nat, limit: nat,
                         older: seq<Bar>, cached: seq<Bar>)
    requires Keyed(all) && n >= 1 && hot == Newest(all, n) && |hot| < limit
    requires Covers(all, hot, rows) && rows.Keys <= all.Keys && Keyed(rows)
    requires cached == Ascending(hot)
    requires earliest == if |cached| > 0 then Some(cached[0].ts) else None
    requires older == Ascending(Newest(Before(From(rows, None), earliest), limit - |hot| + 50))
    ensures LastOf(Ascending(Written(map[], older + cached)), limit) == Ascending(Newest(all, limit))
  {
    hide Before, From, Newest, Covers;
    DeepRead(all, hot, rows, earliest, n, limit, older, cached);
    LastOfPart(all, Written(map[], older + cached), limit);
  }

  lemma UncachedKeyed(all: Series, hot: Series)
    requires Keyed(all)
    ensures Keyed(Uncached(all, hot))
  {
  }

  lemma DeepPart(all: Series, hot: Series, n: nat, limit: nat, q: nat, m: Series)
    requires hot == Newest(all, n) && limit <= q + |hot|
    requires forall k :: Lookup(m, k) == if k in hot then Lookup(hot, k) else Lookup(Newest(Uncached(all, hot), q), k)
    ensures Part(m, all) && Newest(all, limit).Keys <= m.Keys
  {
    var rest := Uncached(all, hot);
    forall k ensures k in m ==> k in all && m[k] == all[k] {
      assert Lookup(m, k) == if k in hot then Lookup(hot, k) else Lookup(Newest(rest, q), k);
    }
    forall k | k in Newest(all, limit) ensures k in m {
      assert Lookup(m, k) == if k in hot then Lookup(hot, k) else Lookup(Newest(rest, q), k);
      if k !in hot {
        RestRank(all, hot, n, k);
      }
    }
  }

  lemma DeepMerge(hot: Series, past: Series, older: seq<Bar>, cached: seq<Bar>)
    requires Keyed(hot) && Keyed(past) && cached == Ascending(hot) && older == Ascending(past)
    ensures forall k :: Lookup(Written(map[], older + cached), k) ==
                        if k in hot then Lookup(hot, k) else Lookup(past, k)
  {
    WrittenConcat(map[], older, cached);
    WrittenAscending(past);
    forall k ensures Lookup(Written(map[], older + cached), k) == if k in hot then Lookup(hot, k) else Lookup(past, k) {
      WrittenLookup(past, cached, k);
      ListedLookup(hot, k);
    }
  }

  function Uncached(all: Series, hot: Series): Series {
    map k | k in all && k !in hot :: all[k]
  }

  /** What is not cached is exactly the archive before the earliest cached bar. */
  lemma RestIsOlder(all: Series, hot: Series, rows: Series, earliest: Option<Time>, n: nat)
    requires Keyed(all) && n >= 1 && hot == Newest(all, n)
    requires Covers(all, hot, rows) && rows.Keys <= all.Keys
    requires var cached := Ascending(hot); earliest == if |cached| > 0 then Some(cached[0].ts) else None
    ensures Before(From(rows, None), earliest) == Uncached(all, hot)
  {
    var cached := Ascending(hot);
    AscendingLists(hot);
    NewestSize(all, n);
    if |cached| == 0 {
      assert all == map[];
    } else {
      assert cached[0] in cached;
      forall k | k in hot ensures earliest.value <= k {
        assert hot[k] in cached;
      }
      forall k | k in all && k !in hot ensures k < earliest.value {
        KeptAreNewer(all, n, earliest.value, k);
      }
    }
    forall k ensures Lookup(Before(From(rows, None), earliest), k)
                  == Lookup(Uncached(all, hot), k) {
    }
    SameSeries(Before(From(rows, None), earliest), Uncached(all, hot));
  }

  /** Every cached bar is newer than one that is not, so it counts before it. */
  lemma RestRank(all: Series, hot: Series, n: nat, k: Time)
    requires hot == Newest(all, n) && k in all && k !in hot
    ensures var rest := Uncached(all, hot);
            |Newer(rest, k)| + |hot| <= |Newer(all, k)|
  {
    var rest := Uncached(all, hot);
    forall j | j in hot ensures j in Newer(all, k) {
      KeptAreNewer(all, n, j, k);
    }
    SubsetSize(Newer(rest, k) + hot.Keys, Newer(all, k));
    assert |Newer(rest, k) + hot.Keys| == |Newer(rest, k)| + |hot.Keys| by {
      assert Newer(rest, k) !! hot.Keys;
    }
  }

  lemma WindowMerges(all: Series, hot: Series, rows: Series, start: Time, end: Time,
                     older: seq<Bar>, inside: seq<Bar>)
    requires Keyed(all) && Part(hot, all) && Keyed(rows) && rows.Keys <= all.Keys && Covers(all, hot, rows)
    requires older == Ascending(Between(rows, start, end))
    requires forall b :: b in inside <==> b.ts in hot && hot[b.ts] == b && start <= b.ts < end
    ensures Written(map[], older + inside) == Between(all, start, end)
  {
    WrittenConcat(map[], older, inside);
    WrittenAscending(Between(rows, start, end));
    forall k ensures Lookup(Written(map[], older + inside), k) == Lookup(Between(all, start, end), k) {
      WrittenLookup(Between(rows, start, end), inside, k);
      if k in hot && start <= k < end {
        assert hot[k] in inside;
      }
    }
    SameSeries(Written(map[], older + inside), Between(all, start, end));
  }

  /** `now` is `rows` with the bars of the days done so far written over it. */
  ghost predicate MergedFor(now: Series, rows: Series, bars: seq<Bar>, done: set<Day>) {
    forall k :: Lookup(now, k) == Lookup(if DayOf(k) in done then Written(rows, bars) else rows, k)
  }

  function MergedDay(archive: Archive, bars: seq<Bar>, d: Day): Archive {
    archive[d := Written(if d in archive then archive[d] else map[], OnDay(bars, d))]
  }

  lemma MergeFiled(archive: Archive, bars: seq<Bar>, d: Day)
    requires Filed(archive)
    ensures Filed(MergedDay(archive, bars, d))
  {
    FileMerged(if d in archive then archive[d] else map[], bars, d);
  }

  lemma MergeKey(archive: Archive, rows: Series, bars: seq<Bar>, done: set<Day>, d: Day, k: Time)
    requires Filed(archive) && Filed(MergedDay(archive, bars, d)) && d !in done
    requires Lookup(Rows(archive), k) == Lookup(if DayOf(k) in done then Written(rows, bars) else rows, k)
    ensures Lookup(Rows(MergedDay(archive, bars, d)), k)
              == Lookup(if DayOf(k) in done + {d} then Written(rows, bars) else rows, k)
  {
    RowsLookup(archive, k);
    RowsLookup(MergedDay(archive, bars, d), k);
    if DayOf(k) == d {
      var file := if d in archive then archive[d] else map[];
      FileMerged(file, bars, d);
      WrittenLookup(file, bars, k);
      WrittenLookup(rows, bars, k);
    }
    hide Rows, Filed;
  }

  lemma MergeStep(archive: Archive, rows: Series, bars: seq<Bar>, done: set<Day>, d: Day)
    requires Filed(archive) && MergedFor(Rows(archive), rows, bars, done) && d !in done
    ensures var next := archive[d := Written(if d in archive then archive[d] else map[], OnDay(bars, d))];
            Filed(next) && MergedFor(Rows(next), rows, bars, done + {d})
  {
    hide Rows, Filed, Lookup;
    MergeFiled(archive, bars, d);
    forall k ensures Lookup(Rows(MergedDay(archive, bars, d)), k)
                       == Lookup(if DayOf(k) in done + {d} then Written(rows, bars) else rows, k) {
      MergeKey(archive, rows, bars, done, d, k);
    }
  }

  lemma MergedAll(now: Series, rows: Series, bars: seq<Bar>, days: set<Day>)
    requires MergedFor(now, rows, bars, days)
    requires forall d :: d !in days ==> OnDay(bars, d) == []
    ensures now == Written(rows, bars)
  {
    forall k ensures Lookup(now, k) == Lookup(Written(rows, bars), k) {
      OnDayIsOn(bars, DayOf(k));
      WrittenLookup(rows, bars, k);
    }
    SameSeries(now, Written(rows, bars));
  }
}
