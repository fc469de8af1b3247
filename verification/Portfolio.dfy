/**
 The signed position and cash arithmetic of the P&L spine: a positive quantity is a long, a
 negative one a short, and one fill never carries a position through zero.
 */
module Portfolio {
  import opened Prelude
  import opened Money

  datatype Side = Buy | Sell

  datatype PositionState = PositionState(qty: Qty, avgEntry: Money)

  datatype FillOutcome = FillOutcome(
    cash: Money, position: PositionState, realized: Money, filled: Qty, fee: Money)

  const FLAT := PositionState(0, 0)

  /** A fill on this side of a position held at `qty` opens or increases it. */
  predicate IsOpen(side: Side, qty: Qty) {
    (side.Buy? && qty >= 0) || (side.Sell? && qty <= 0)
  }

  /** Fees scale with the executed part of the requested quantity. */
  function Prorate(fees: Money, filled: Qty, qty: Qty): Money {
    if qty > 0 then Round(fees as real * filled as real / qty as real) else fees
  }

  function Mean(a: real, x: real, b: real, y: real): real
    requires a + b != 0.0
  {
    (a * x + b * y) / (a + b)
  }

  /** Entry price of a holding made of `held` at `avg` and `qty` at `price`. */
  function Average(held: Qty, avg: Money, qty: Qty, price: real): Money {
    if held + qty > 0 then Round(Mean(held as real, avg as real, qty as real, price)) else 0
  }

  function ApplyFill(cash: Money, pos: PositionState, side: Side, qty: Qty, price: real, fees: Money)
    : FillOutcome
  {
    if side.Buy? && pos.qty < 0 then
      var filled := if qty <= -pos.qty then qty else -pos.qty;
      var f := Prorate(fees, filled, qty);
      var cost := Round(Value(filled, price) + f as real);
      var realized := Round(Value(filled, pos.avgEntry as real - price) - f as real);
      var newQty := pos.qty + filled;
      FillOutcome(cash - cost, PositionState(newQty, if newQty < 0 then pos.avgEntry else 0),
                  realized, filled, f)
    else if side.Sell? && pos.qty > 0 then
      var filled := if qty <= pos.qty then qty else pos.qty;
      var f := Prorate(fees, filled, qty);
      var proceeds := Round(Value(filled, price) - f as real);
      var realized := Round(Value(filled, price - pos.avgEntry as real) - f as real);
      var newQty := pos.qty - filled;
      FillOutcome(cash + proceeds, PositionState(newQty, if newQty > 0 then pos.avgEntry else 0),
                  realized, filled, f)
    else if side.Buy? then
      var cost := Round(Value(qty, price) + fees as real);
      var newQty := pos.qty + qty;
      FillOutcome(cash - cost,
                  PositionState(newQty, Average(pos.qty, pos.avgEntry, qty, price)),
                  0, qty, fees)
    else
      var proceeds := Round(Value(qty, price) - fees as real);
      var newQty := pos.qty - qty;
      FillOutcome(cash + proceeds,
                  PositionState(newQty, Average(-pos.qty, pos.avgEntry, qty, price)),
                  0, qty, fees)
  }

  /** The effect of one recorded fill on cash. */
  function CashDelta(side: Side, qty: Qty, price: real, fee: Money): Money {
    if side.Buy? then -Round(Value(qty, price) + fee as real) else Round(Value(qty, price) - fee as real)
  }

  function SignedQty(side: Side, qty: Qty): Qty {
    if side.Buy? then qty else -qty
  }

  /** Cash and position move by exactly what the recorded fill says, whichever transition ran. */
  lemma FillIsRecorded(cash: Money, pos: PositionState, side: Side, qty: Qty, price: real, fees: Money)
    ensures var out := ApplyFill(cash, pos, side, qty, price, fees);
            && out.cash == cash + CashDelta(side, out.filled, price, out.fee)
            && out.position.qty == pos.qty + SignedQty(side, out.filled)
  {
  }

  /** A fill never flips a position: the sign is kept or the position goes flat, and a flat
      position has no entry price.  An opening fill executes in full. */
  lemma NeverFlips(cash: Money, pos: PositionState, side: Side, qty: Qty, price: real, fees: Money)
    requires qty >= 0
    ensures var out := ApplyFill(cash, pos, side, qty, price, fees);
            && (pos.qty > 0 ==> out.position.qty >= 0)
            && (pos.qty < 0 ==> out.position.qty <= 0)
            && (out.position.qty == 0 ==> out.position.avgEntry == 0)
            && 0 <= out.filled <= qty
            && (IsOpen(side, pos.qty) ==> out.filled == qty && out.fee == fees)
            && (!IsOpen(side, pos.qty) ==>
                  out.filled == (if qty <= AbsQty(pos.qty) then qty else AbsQty(pos.qty)))
  {
  }

  /** What a fill realizes: nothing when it opens; when it closes, what the executed part gains on the average
      entry, which a remaining position keeps, less its part of the fee, to half a unit. */
  lemma FillRealizes(cash: Money, pos: PositionState, side: Side, qty: Qty, price: real, fees: Money)
    requires qty > 0
    ensures var out := ApplyFill(cash, pos, side, qty, price, fees);
            if IsOpen(side, pos.qty) then out.realized == 0
            else
              var avg := pos.avgEntry as real;
              && out.realized ==
                   Round(Value(out.filled, if side.Sell? then price - avg else avg - price) - out.fee as real)
              && (out.position.qty != 0 ==> out.position.avgEntry == pos.avgEntry)
              && IsShare(out.fee, fees, out.filled, qty)
  {
    var out := ApplyFill(cash, pos, side, qty, price, fees);
    if !IsOpen(side, pos.qty) {
      ProrateIsShare(fees, out.filled, qty);
    }
    hide Value, Round, IsShare, Prorate;
  }

  /** `fee` is the `filled` part of `qty` of the fees, to half a unit. */
  predicate IsShare(fee: Money, fees: Money, filled: Qty, qty: Qty) {
    Abs(qty as real * fee as real - fees as real * filled as real) <= qty as real * 0.5
  }

  lemma ProrateIsShare(fees: Money, filled: Qty, qty: Qty)
    requires qty > 0
    ensures IsShare(Prorate(fees, filled, qty), fees, filled, qty)
  {
    var total := fees as real * filled as real;
    RoundNearest(total / qty as real);
    hide Round;
    NearQuotient(total, qty as real, Prorate(fees, filled, qty) as real);
  }

  lemma NearQuotient(total: real, w: real, f: real)
    requires w > 0.0 && -0.5 <= f - total / w <= 0.5
    ensures Abs(w * f - total) <= w * 0.5
  {
    var x := total / w;
    assert w * x == total;
    ScaleMonotone(w, f - x, 0.5);
    ScaleMonotone(w, -0.5, f - x);
    assert w * (f - x) == w * f - total && w * -0.5 == -(w * 0.5);
  }

  /** The position an opening fill leaves is zero exactly when nothing was filled into a flat one. */
  lemma OpenFromFlat(cash: Money, side: Side, qty: Qty, price: real, fees: Money)
    ensures ApplyFill(cash, FLAT, side, qty, price, fees).position.qty == SignedQty(side, qty)
  {
  }

  function AbsQty(q: Qty): Qty {
    if q >= 0 then q else -q
  }

  /** A fill executed in full is charged the whole fee. */
  lemma ProrateFull(fees: Money, qty: Qty)
    ensures Prorate(fees, qty, qty) == fees
  {
    if qty > 0 {
      assert fees as real * qty as real / qty as real == fees as real;
      RoundInteger(fees);
    }
  }

  /** Closing the whole position leaves it flat in one fill and charges the whole fee. */
  lemma CloseInFull(cash: Money, pos: PositionState, price: real, fees: Money)
    requires pos.qty != 0
    ensures var side := if pos.qty > 0 then Sell else Buy;
            var out := ApplyFill(cash, pos, side, AbsQty(pos.qty), price, fees);
            out.position == FLAT && out.filled == AbsQty(pos.qty) && out.fee == fees
  {
    ProrateFull(fees, AbsQty(pos.qty));
  }

  // ---------------------------------------------------------------- the average entry price

  lemma SumAbove(a: real, x: real, b: real, y: real, lo: real)
    requires a >= 0.0 && b >= 0.0 && lo <= y && (a > 0.0 ==> lo <= x)
    ensures (a + b) * lo <= a * x + b * y
  {
    ScaleMonotone(b, lo, y);
    ScaleMonotone(a, lo, if a > 0.0 then x else lo);
    assert a * lo <= a * x;
  }

  lemma SumBelow(a: real, x: real, b: real, y: real, hi: real)
    requires a >= 0.0 && b >= 0.0 && y <= hi && (a > 0.0 ==> x <= hi)
    ensures a * x + b * y <= (a + b) * hi
  {
    ScaleMonotone(b, y, hi);
    ScaleMonotone(a, if a > 0.0 then x else hi, hi);
    assert a * x <= a * hi;
  }

  lemma WeightedMean(a: real, x: real, b: real, y: real, lo: real, hi: real)
    requires a >= 0.0 && b >= 0.0 && a + b > 0.0
    requires lo <= y <= hi && (a > 0.0 ==> lo <= x <= hi)
    ensures lo <= Mean(a, x, b, y) <= hi
  {
    SumAbove(a, x, b, y, lo);
    SumBelow(a, x, b, y, hi);
    DivideBetween(a * x + b * y, a + b, lo, hi);
  }

  /** An opening fill leaves the rounded average between the bounds that held before it and the
      (rounded) fill price, so rounding can never push it outside the prices paid. */
  lemma AverageBetween(cash: Money, pos: PositionState, side: Side, qty: Qty, price: real, fees: Money,
                       lo: Money, hi: Money)
    requires qty >= 0 && IsOpen(side, pos.qty)
    requires pos.qty != 0 ==> lo <= pos.avgEntry <= hi
    requires lo as real <= price <= hi as real
    ensures var out := ApplyFill(cash, pos, side, qty, price, fees);
            out.position.qty != 0 ==> lo <= out.position.avgEntry <= hi
  {
    hide Average, Value;
    AverageWithin(AbsQty(pos.qty), pos.avgEntry, qty, price, lo, hi);
  }

  lemma AverageWithin(held: Qty, avg: Money, qty: Qty, price: real, lo: Money, hi: Money)
    requires held >= 0 && qty >= 0
    requires held != 0 ==> lo <= avg <= hi
    requires lo as real <= price <= hi as real
    ensures held + qty > 0 ==> lo <= Average(held, avg, qty, price) <= hi
  {
    hide Mean, Round;
    if held + qty > 0 {
      WeightedMean(held as real, avg as real, qty as real, price, lo as real, hi as real);
      RoundBetween(lo, Mean(held as real, avg as real, qty as real, price), hi);
    }
  }

  /** Positions and fills as a whole run sees them. */
  datatype FillRequest = FillRequest(side: Side, qty: Qty, price: Money, fees: Money)

  function ApplyFills(cash: Money, pos: PositionState, fs: seq<FillRequest>): (r: (Money, PositionState)) {
    if |fs| == 0 then (cash, pos)
    else
      var (c, p) := ApplyFills(cash, pos, fs[..|fs| - 1]);
      var f := fs[|fs| - 1];
      var out := ApplyFill(c, p, f.side, f.qty, f.price as real, f.fees);
      (out.cash, out.position)
  }

  /** Prices of the fills that opened or added to the position since it was last flat. */
  function OpeningPrices(cash: Money, fs: seq<FillRequest>): seq<Money> {
    if |fs| == 0 then []
    else
      var init := fs[..|fs| - 1];
      var f := fs[|fs| - 1];
      var (_, before) := ApplyFills(cash, FLAT, init);
      var (_, after) := ApplyFills(cash, FLAT, fs);
      if after.qty == 0 then []
      else if IsOpen(f.side, before.qty) then OpeningPrices(cash, init) + [f.price]
      else OpeningPrices(cash, init)
  }

  lemma EntryStaysWithin(cash: Money, pos: PositionState, f: FillRequest, lo: Money, hi: Money)
    requires f.qty >= 0
    requires pos.qty != 0 ==> lo <= pos.avgEntry <= hi
    requires IsOpen(f.side, pos.qty) ==> lo <= f.price <= hi
    ensures var after := ApplyFill(cash, pos, f.side, f.qty, f.price as real, f.fees).position;
            after.qty != 0 ==> lo <= after.avgEntry <= hi
  {
    if IsOpen(f.side, pos.qty) {
      AverageBetween(cash, pos, f.side, f.qty, f.price as real, f.fees, lo, hi);
    }
  }

  /** Over any sequence of fills the average entry lies between the lowest and the highest
      opening price since the position was last flat. */
  lemma {:induction false} AverageWithinOpenings(cash: Money, fs: seq<FillRequest>, lo: Money, hi: Money)
    requires forall f :: f in fs ==> f.qty >= 0
    requires forall p :: p in OpeningPrices(cash, fs) ==> lo <= p <= hi
    ensures var pos := ApplyFills(cash, FLAT, fs).1;
            pos.qty != 0 ==> lo <= pos.avgEntry <= hi
    decreases |fs|
  {
    if |fs| > 0 && ApplyFills(cash, FLAT, fs).1.qty != 0 {
      var init, f := fs[..|fs| - 1], fs[|fs| - 1];
      assert forall p :: p in OpeningPrices(cash, init) ==> p in OpeningPrices(cash, fs);
      AverageWithinOpenings(cash, init, lo, hi);
      var (c, p) := ApplyFills(cash, FLAT, init);
      assert IsOpen(f.side, p.qty) ==> f.price in OpeningPrices(cash, fs);
      EntryStaysWithin(c, p, f, lo, hi);
    }
  }

  function QtyAfter(cash: Money, fs: seq<FillRequest>): Qty {
    ApplyFills(cash, FLAT, fs).1.qty
  }

  predicate Opposite(a: Qty, b: Qty) {
    (a > 0 && b < 0) || (a < 0 && b > 0)
  }

  lemma OneFillKeepsSide(cash: Money, fs: seq<FillRequest>)
    requires |fs| > 0 && fs[|fs| - 1].qty >= 0
    ensures !Opposite(QtyAfter(cash, fs[..|fs| - 1]), QtyAfter(cash, fs))
  {
    var f := fs[|fs| - 1];
    var (c, p) := ApplyFills(cash, FLAT, fs[..|fs| - 1]);
    NeverFlips(c, p, f.side, f.qty, f.price as real, f.fees);
  }

  /** Over any sequence of fills a position is never long after one prefix and short after a
      later one without having been flat in between. */
  lemma {:induction false} FlatBetweenSides(cash: Money, fs: seq<FillRequest>, i: nat, j: nat)
    requires forall f :: f in fs ==> f.qty >= 0
    requires i <= j <= |fs|
    requires Opposite(QtyAfter(cash, fs[..i]), QtyAfter(cash, fs[..j]))
    ensures exists k :: i < k < j && QtyAfter(cash, fs[..k]) == 0
    decreases j - i
  {
    assert fs[..j][..j - 1] == fs[..j - 1];
    assert fs[j - 1] in fs;
    OneFillKeepsSide(cash, fs[..j]);
    if QtyAfter(cash, fs[..j - 1]) != 0 {
      FlatBetweenSides(cash, fs, i, j - 1);
    }
  }
}
