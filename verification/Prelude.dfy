/** Result types shared by the other modules. */
module Prelude {

  datatype Option<+T> = None | Some(value: T) {
    function GetOr(default: T): T {
      if Some? then value else default
    }
  }

  /** A computed value, or an exception. */
  datatype Result<+T> = Ok(value: T) | Raises {
    function GetOr(default: T): T {
      if Ok? then value else default
    }
  }

  function Min(a: real, b: real): (r: real) {
    if a <= b then a else b
  }

  function Max(a: real, b: real): (r: real) {
    if a >= b then a else b
  }

  function Abs(a: real): (r: real) {
    if a >= 0.0 then a else -a
  }

  /** Python's round(x, 2): to the nearest cent, ties to the even one. */
  function RoundCents(x: real): real {
    RoundedCents(x) as real / 100.0
  }

  function RoundedCents(x: real): int {
    var n := (100.0 * x).Floor;
    var rest := 100.0 * x - n as real;
    if rest > 0.5 || (rest == 0.5 && n % 2 == 1) then n + 1 else n
  }

  /** The fraction of a cent is above a half, or exactly a half on an odd cent. */
  predicate RoundsUp(x: real) {
    var n := (100.0 * x).Floor;
    var rest := 100.0 * x - n as real;
    rest > 0.5 || (rest == 0.5 && n % 2 == 1)
  }

  lemma RoundCentsAboveIff(x: real)
    ensures RoundCents(x) > x <==> RoundsUp(x)
  {
  }

  lemma RoundCentsNear(x: real)
    ensures x - 0.005 <= RoundCents(x) <= x + 0.005
    ensures x >= 0.0 ==> RoundCents(x) >= 0.0
  {
  }

  lemma CentsMonotone(x: real, y: real)
    requires x <= y
    ensures RoundCents(x) <= RoundCents(y)
  {
    var n, m := (100.0 * x).Floor, (100.0 * y).Floor;
    assert 100.0 * x <= 100.0 * y && n <= m;
  }

  /** What is rounded already stays. */
  lemma CentsFixed(x: real)
    ensures RoundCents(RoundCents(x)) == RoundCents(x)
  {
    var n := RoundedCents(x);
    assert 100.0 * (n as real / 100.0) == n as real;
    hide RoundedCents;
    WholeCents(n);
  }

  lemma WholeCents(n: int)
    ensures RoundCents(n as real / 100.0) == n as real / 100.0
  {
    assert 100.0 * (n as real / 100.0) == n as real;
  }

  // ---------------------------------------------------------------- products and quotients

  lemma ScaleMonotone(w: real, x: real, y: real)
    requires w >= 0.0 && x <= y
    ensures w * x <= w * y
  {
  }

  lemma ScaleStrict(w: real, x: real, y: real)
    requires w > 0.0 && x < y
    ensures w * x < w * y
  {
  }

  lemma DivideBetween(n: real, w: real, lo: real, hi: real)
    requires w > 0.0 && w * lo <= n <= w * hi
    ensures lo <= n / w <= hi
  {
    var z := n / w;
    assert w * z == n;
    if z < lo { ScaleStrict(w, z, lo); }
    if z > hi { ScaleStrict(w, hi, z); }
  }

  lemma NonnegativeFactor(w: real, x: real)
    requires w > 0.0 && w * x >= 0.0
    ensures x >= 0.0
  {
  }

  // ---------------------------------------------------------------- finite sets

  lemma SubsetSize<T>(a: set<T>, b: set<T>)
    requires a <= b
    ensures |a| <= |b|
  {
    assert b == a + (b - a);
  }

  lemma AnyOf<T>(s: set<T>) returns (x: T)
    requires s != {}
    ensures x in s
  {
    x :| x in s;
  }

  lemma {:induction false} HasLeast(s: set<int>)
    requires s != {}
    ensures exists k :: k in s && forall j :: j in s ==> k <= j
    decreases |s|
  {
    var x := AnyOf(s);
    var rest := s - {x};
    if rest == {} {
      assert s == {x};
    } else {
      HasLeast(rest);
      var k :| k in rest && forall j :: j in rest ==> k <= j;
      var least := if k <= x then k else x;
      forall j | j in s ensures least <= j {
        assert j == x || j in rest;
      }
      assert least in s;
    }
  }
}
