/** Bars keyed by time: last write wins, the newest n, and listing in ascending order. */
module BarSeries {
  import opened Prelude

  type Time = int

  datatype Bar = Bar(ts: Time, open: real, high: real, low: real, close: real, volume: real)

  type Series = map<Time, Bar>

  predicate Keyed(m: Series) {
    forall k :: k in m ==> m[k].ts == k
  }

  function Lookup(m: Series, k: Time): Option<Bar> {
    if k in m then Some(m[k]) else None
  }

  /** Write the bars one after the other; a later bar of the same time replaces an earlier one. */
  function Written(m: Series, bars: seq<Bar>): Series
    decreases |bars|
  {
    if |bars| == 0 then m
    else Written(m, bars[..|bars| - 1])[bars[|bars| - 1].ts := bars[|bars| - 1]]
  }

  function LastAt(bars: seq<Bar>, k: Time): Option<Bar>
    decreases |bars|
  {
    if |bars| == 0 then None
    else if bars[|bars| - 1].ts == k then Some(bars[|bars| - 1])
    else LastAt(bars[..|bars| - 1], k)
  }

  lemma {:induction false} WrittenLookup(m: Series, bars: seq<Bar>, k: Time)
    ensures Lookup(Written(m, bars), k) == if LastAt(bars, k).Some? then LastAt(bars, k) else Lookup(m, k)
    ensures LastAt(bars, k).Some? ==> LastAt(bars, k).value in bars && LastAt(bars, k).value.ts == k
    ensures LastAt(bars, k).None? ==> forall b :: b in bars ==> b.ts != k
    decreases |bars|
  {
    if |bars| > 0 {
      WrittenLookup(m, bars[..|bars| - 1], k);
    }
  }

  lemma {:induction false} WrittenConcat(m: Series, a: seq<Bar>, b: seq<Bar>)
    ensures Written(m, a + b) == Written(Written(m, a), b)
    decreases |b|
  {
    if |b| == 0 {
      assert a + b == a;
    } else {
      assert (a + b)[..|a + b| - 1] == a + b[..|b| - 1];
      WrittenConcat(m, a, b[..|b| - 1]);
    }
  }

  lemma {:induction false} WrittenKeyed(m: Series, bars: seq<Bar>)
    requires Keyed(m)
    ensures Keyed(Written(m, bars))
    decreases |bars|
  {
    if |bars| > 0 {
      WrittenKeyed(m, bars[..|bars| - 1]);
    }
  }

  /** Equality of series, time by time. */
  lemma SameSeries(a: Series, b: Series)
    requires forall k :: Lookup(a, k) == Lookup(b, k)
    ensures a == b
  {
    forall k ensures k in a <==> k in b {
      assert Lookup(a, k) == Lookup(b, k);
    }
    forall k | k in a ensures a[k] == b[k] {
      assert Lookup(a, k) == Lookup(b, k);
    }
  }

  // ---------------------------------------------------------------- the newest n

  function Newer(m: Series, k: Time): set<Time> {
    set j | j in m && j > k
  }

  function Newest(m: Series, n: nat): Series {
    map k | k in m && |Newer(m, k)| < n :: m[k]
  }

  predicate Part(c: Series, m: Series) {
    forall k :: k in c ==> k in m && c[k] == m[k]
  }

  lemma NewerShrinks(m: Series, i: Time, j: Time)
    requires i <= j
    ensures |Newer(m, j)| <= |Newer(m, i)|
  {
    SubsetSize(Newer(m, j), Newer(m, i));
  }

  /** A kept bar is newer than a dropped one. */
  lemma KeptAreNewer(m: Series, n: nat, kept: Time, dropped: Time)
    requires kept in Newest(m, n) && dropped in m && dropped !in Newest(m, n)
    ensures dropped < kept
  {
    if kept <= dropped {
      NewerShrinks(m, kept, dropped);
    }
  }

  ghost function Least(m: Series): Time
    requires m != map[]
  {
    HasLeast(m.Keys);
    var k :| k in m && forall j :: j in m ==> k <= j;
    k
  }

  lemma DropLeast(m: Series, n: nat)
    requires m != map[] && |m| > n
    ensures Newest(m, n) == Newest(m - {Least(m)}, n)
  {
    var x := Least(m);
    var r := m - {x};
    assert Newer(m, x) == m.Keys - {x};
    assert |m.Keys - {x}| == |m| - 1;
    forall k | k in r ensures Newer(m, k) == Newer(r, k) {}
  }

  lemma {:induction false} NewestSize(m: Series, n: nat)
    ensures |m| >= n ==> |Newest(m, n)| == n
    ensures |m| <= n ==> Newest(m, n) == m
    decreases |m|
  {
    if |m| > n {
      DropLeast(m, n);
      NewestSize(m - {Least(m)}, n);
    } else {
      forall k | k in m ensures |Newer(m, k)| < n {
        SubsetSize(Newer(m, k), m.Keys - {k});
        assert |m.Keys - {k}| == |m.Keys| - 1 == |m| - 1;
      }
      assert Newest(m, n) == m;
    }
  }

  /** A part that still holds the newest n has the same newest n. */
  lemma NewestOfPart(m: Series, c: Series, n: nat)
    requires Part(c, m) && Newest(m, n).Keys <= c.Keys
    ensures Newest(c, n) == Newest(m, n)
  {
    forall k | k in c ensures |Newer(c, k)| < n <==> |Newer(m, k)| < n {
      SubsetSize(Newer(c, k), Newer(m, k));
      if |Newer(m, k)| >= n {
        SubsetSize(Newer(m, k), m.Keys);
        NewestSize(m, n);
        forall j | j in Newest(m, n) ensures j in Newer(c, k) {
          KeptAreNewer(m, n, j, k);
        }
        SubsetSize(Newest(m, n).Keys, Newer(c, k));
      }
    }
  }

  /** Trimming before or after a write keeps the same bars: what was trimmed is never needed. */
  lemma NewestOfWritten(m: Series, bars: seq<Bar>, n: nat)
    ensures Newest(Written(Newest(m, n), bars), n) == Newest(Written(m, bars), n)
  {
    var full, trimmed := Written(m, bars), Written(Newest(m, n), bars);
    forall k ensures k in trimmed ==> k in full && trimmed[k] == full[k] {
      WrittenLookup(m, bars, k);
      WrittenLookup(Newest(m, n), bars, k);
    }
    forall k | k in Newest(full, n) ensures k in trimmed {
      WrittenLookup(m, bars, k);
      WrittenLookup(Newest(m, n), bars, k);
      if k in m {
        forall j | j in Newer(m, k) ensures j in Newer(full, k) {
          WrittenLookup(m, bars, j);
        }
        SubsetSize(Newer(m, k), Newer(full, k));
      }
    }
    NewestOfPart(full, trimmed, n);
  }

  lemma NewestOfNewest(m: Series, n: nat, k: nat)
    requires k <= n
    ensures Newest(Newest(m, n), k) == Newest(m, k)
  {
    NewestOfPart(m, Newest(m, n), k);
  }

  // ---------------------------------------------------------------- listing

  ghost function Ascending(m: Series): seq<Bar>
    decreases |m|
  {
    if m == map[] then [] else [m[Least(m)]] + Ascending(m - {Least(m)})
  }

  /** The listing has each bar once, in strictly ascending time. */
  lemma {:induction false} AscendingLists(m: Series)
    requires Keyed(m)
    ensures |Ascending(m)| == |m|
    ensures forall i, j :: 0 <= i < j < |Ascending(m)| ==> Ascending(m)[i].ts < Ascending(m)[j].ts
    ensures forall b :: b in Ascending(m) <==> b.ts in m && m[b.ts] == b
    decreases |m|
  {
    if m != map[] {
      AscendingLists(m - {Least(m)});
    }
  }

  /** Writing a listing gives the series back, whatever its order. */
  lemma WrittenListing(m: Series, bars: seq<Bar>)
    requires Keyed(m) && forall b :: b in bars <==> b.ts in m && m[b.ts] == b
    ensures Written(map[], bars) == m
  {
    forall k ensures Lookup(Written(map[], bars), k) == Lookup(m, k) {
      WrittenLookup(map[], bars, k);
      if k in m {
        assert m[k] in bars;
      }
    }
    SameSeries(Written(map[], bars), m);
  }

  lemma WrittenAscending(m: Series)
    requires Keyed(m)
    ensures Written(map[], Ascending(m)) == m
  {
    AscendingLists(m);
    WrittenListing(m, Ascending(m));
  }

  /** The last n of a listing list the newest n. */
  lemma {:induction false} LastOfAscending(m: Series, n: nat)
    requires n <= |m|
    ensures |Ascending(m)| == |m|
    ensures Ascending(m)[|m| - n..] == Ascending(Newest(m, n))
    decreases |m|
  {
    NewestSize(m, n);
    AscendingSize(m);
    if n < |m| {
      var rest := m - {Least(m)};
      DropLeast(m, n);
      LastOfAscending(rest, n);
      TailOfCons(m[Least(m)], Ascending(rest), |m| - n);
    }
  }

  lemma TailOfCons<T>(x: T, xs: seq<T>, k: nat)
    requires 0 < k <= |xs| + 1
    ensures ([x] + xs)[k..] == xs[k - 1..]
  {
  }

  lemma {:induction false} AscendingSize(m: Series)
    ensures |Ascending(m)| == |m|
    decreases |m|
  {
    if m != map[] {
      AscendingSize(m - {Least(m)});
    }
  }
}
