/** Expiry payoff and worst-case loss of an option structure, in real arithmetic. */
module OptionRisk {
  import opened Prelude

  datatype Right = Call | Put

  datatype Leg = Leg(right: Right, long: bool, strike: real, ratio: int)

  /** The 100 shares per contract of a covered call, if any. */
  datatype Stock = NoStock | Held(entry: real)

  datatype Loss = Bounded(amount: real) | Unbounded

  function Intrinsic(spot: real, strike: real, right: Right): real {
    if right.Call? then Max(0.0, spot - strike) else Max(0.0, strike - spot)
  }

  /** Signed number of options. */
  function Weight(leg: Leg): int {
    if leg.long then leg.ratio else -leg.ratio
  }

  function LegPayoff(leg: Leg, p: real): real {
    Weight(leg) as real * Intrinsic(p, leg.strike, leg.right)
  }

  function Payoff(legs: seq<Leg>, p: real): real {
    if |legs| == 0 then 0.0 else LegPayoff(legs[0], p) + Payoff(legs[1..], p)
  }

  function StockPayoff(stock: Stock, p: real): real {
    if stock.Held? then p - stock.entry else 0.0
  }

  /** P&L in dollars of one structure if the underlying expires at `p`; `credit` is the opening
      premium per share, and a contract is 100 shares. */
  function PnlPerContract(legs: seq<Leg>, credit: real, stock: Stock, p: real): real {
    (credit + Payoff(legs, p) + StockPayoff(stock, p)) * 100.0
  }

  function Strikes(legs: seq<Leg>, stock: Stock): seq<real> {
    seq(|legs|, i requires 0 <= i < |legs| => legs[i].strike) + if stock.Held? then [stock.entry] else []
  }

  function Highest(xs: seq<real>): (r: real)
    requires |xs| > 0
    ensures r in xs && forall x :: x in xs ==> x <= r
  {
    assert xs == [xs[0]] + xs[1..];
    if |xs| == 1 then xs[0] else Max(xs[0], Highest(xs[1..]))
  }

  function Lowest(xs: seq<real>): (r: real)
    requires |xs| > 0
    ensures r in xs && forall x :: x in xs ==> r <= x
  {
    assert xs == [xs[0]] + xs[1..];
    if |xs| == 1 then xs[0] else Min(xs[0], Lowest(xs[1..]))
  }

  function TopStrike(legs: seq<Leg>, stock: Stock): real {
    var strikes := Strikes(legs, stock);
    if |strikes| > 0 then Highest(strikes) else 1.0
  }

  /** Zero, the breakpoints, and two large prices to read the final slope from. */
  function Probes(legs: seq<Leg>, stock: Stock): (ps: seq<real>)
    ensures |ps| >= 3
  {
    var hi := TopStrike(legs, stock);
    [0.0] + Strikes(legs, stock) + [4.0 * hi, 8.0 * hi]
  }

  function PnlsAt(legs: seq<Leg>, credit: real, stock: Stock, ps: seq<real>): (r: seq<real>)
    ensures |r| == |ps| && forall i :: 0 <= i < |ps| ==> r[i] == PnlPerContract(legs, credit, stock, ps[i])
  {
    seq(|ps|, i requires 0 <= i < |ps| => PnlPerContract(legs, credit, stock, ps[i]))
  }

  function MaxLoss(legs: seq<Leg>, credit: real, stock: Stock): Loss {
    var pnls := PnlsAt(legs, credit, stock, Probes(legs, stock));
    if pnls[|pnls| - 1] < pnls[|pnls| - 2] - 0.000001 then Unbounded
    else Bounded(Max(0.0, -Lowest(pnls)))
  }

  function IsDefinedRisk(legs: seq<Leg>, credit: real, stock: Stock): bool {
    MaxLoss(legs, credit, stock).Bounded?
  }

  /** Structures to open so that the total defined risk stays within the budget. */
  function SizedContracts(equity: real, riskPct: real, maxLoss: Loss): int {
    if maxLoss.Unbounded? || maxLoss.amount <= 0.0 then 0
    else
      var n := (equity * riskPct / maxLoss.amount).Floor;
      if n > 0 then n else 0
  }

  // ---------------------------------------------------------------- the shape of the payoff

  /** Slope per share above every breakpoint. */
  function Slope(legs: seq<Leg>, stock: Stock): int {
    CallSlope(legs) + if stock.Held? then 1 else 0
  }

  function CallSlope(legs: seq<Leg>): int {
    if |legs| == 0 then 0
    else
      (if legs[0].right.Put? then 0 else Weight(legs[0])) + CallSlope(legs[1..])
  }

  /** No breakpoint lies strictly between `a` and `b`. */
  predicate NoStrikeWithin(legs: seq<Leg>, a: real, b: real) {
    forall l :: l in legs ==> l.strike <= a || b <= l.strike
  }

  /** `x` at weight `u` is the mix of `y` and `z` at weights `v` and `w`. */
  ghost predicate OnLine(u: real, x: real, v: real, y: real, w: real, z: real) {
    u * x == v * y + w * z
  }

  lemma ScaleLine(s: real, u: real, x: real, v: real, y: real, w: real, z: real)
    requires OnLine(u, x, v, y, w, z)
    ensures OnLine(u, s * x, v, s * y, w, s * z)
  {
    assert u * (s * x) == s * (u * x);
    assert v * (s * y) == s * (v * y);
    assert w * (s * z) == s * (w * z);
    Sum3(s, v * y, w * z);
  }

  lemma AddLines(u: real, x: real, x': real, v: real, y: real, y': real, w: real, z: real, z': real)
    requires OnLine(u, x, v, y, w, z) && OnLine(u, x', v, y', w, z')
    ensures OnLine(u, x + x', v, y + y', w, z + z')
  {
    Sum3(u, x, x');
    Sum3(v, y, y');
    Sum3(w, z, z');
  }

  lemma Sum3(u: real, x: real, y: real)
    ensures u * (x + y) == u * x + u * y
  {
  }

  lemma LegLinear(leg: Leg, a: real, p: real, b: real)
    requires a <= p <= b && (leg.strike <= a || b <= leg.strike)
    ensures OnLine(b - a, LegPayoff(leg, p), b - p, LegPayoff(leg, a), p - a, LegPayoff(leg, b))
  {
    ScaleLine(Weight(leg) as real, b - a, Intrinsic(p, leg.strike, leg.right),
              b - p, Intrinsic(a, leg.strike, leg.right), p - a, Intrinsic(b, leg.strike, leg.right));
  }

  /** Between neighbouring breakpoints the payoff is a straight line. */
  lemma {:induction false} PayoffLinear(legs: seq<Leg>, a: real, p: real, b: real)
    requires a <= p <= b && NoStrikeWithin(legs, a, b)
    ensures OnLine(b - a, Payoff(legs, p), b - p, Payoff(legs, a), p - a, Payoff(legs, b))
  {
    if |legs| > 0 {
      LegLinear(legs[0], a, p, b);
      PayoffLinear(legs[1..], a, p, b);
      hide OnLine, LegPayoff;
      AddLines(b - a, LegPayoff(legs[0], p), Payoff(legs[1..], p), b - p, LegPayoff(legs[0], a),
               Payoff(legs[1..], a), p - a, LegPayoff(legs[0], b), Payoff(legs[1..], b));
    }
  }

  /** What a slope adds over a price move. */
  function Rise(slope: int, move: real): real {
    slope as real * move
  }

  lemma RiseSum(s: int, t: int, d: real)
    ensures Rise(s + t, d) == Rise(s, d) + Rise(t, d)
  {
    assert (s + t) as real == s as real + t as real;
  }

  lemma RiseMultiple(s: int, k: real, d: real)
    ensures Rise(s, k * d) == k * Rise(s, d)
  {
  }

  lemma RiseSign(s: int, d: real)
    requires d >= 0.0
    ensures s >= 0 ==> Rise(s, d) >= 0.0
    ensures s <= -1 ==> Rise(s, d) <= -d
  {
  }

  lemma {:induction false} PayoffAbove(legs: seq<Leg>, hi: real, p: real)
    requires hi <= p && forall l :: l in legs ==> l.strike <= hi
    ensures Payoff(legs, p) == Payoff(legs, hi) + Rise(CallSlope(legs), p - hi)
  {
    if |legs| > 0 {
      PayoffAbove(legs[1..], hi, p);
      LegAbove(legs[0], hi, p);
      RiseSum(if legs[0].right.Put? then 0 else Weight(legs[0]), CallSlope(legs[1..]), p - hi);
      hide LegPayoff, Rise;
    }
  }

  lemma LegAbove(leg: Leg, hi: real, p: real)
    requires leg.strike <= hi <= p
    ensures LegPayoff(leg, p) == LegPayoff(leg, hi) + Rise(if leg.right.Put? then 0 else Weight(leg), p - hi)
  {
    var w := Weight(leg) as real;
    if leg.right.Call? {
      assert Intrinsic(p, leg.strike, Call) == (hi - leg.strike) + (p - hi);
      assert Intrinsic(hi, leg.strike, Call) == hi - leg.strike;
      Sum3(w, hi - leg.strike, p - hi);
    } else {
      assert Intrinsic(p, leg.strike, Put) == 0.0 == Intrinsic(hi, leg.strike, Put);
      assert Rise(0, p - hi) == 0.0;
    }
  }

  // ---------------------------------------------------------------- the worst case

  /** The loss grows past every bound as the underlying moves over P >= 0. */
  ghost predicate UnboundedBelow(legs: seq<Leg>, credit: real, stock: Stock) {
    forall bound: real :: FallsUnder(legs, credit, stock, bound)
  }

  ghost predicate FallsUnder(legs: seq<Leg>, credit: real, stock: Stock, bound: real) {
    exists p :: p >= 0.0 && PnlPerContract(legs, credit, stock, p) < bound
  }

  lemma BreakpointsBelowTop(legs: seq<Leg>, stock: Stock)
    ensures forall l :: l in legs ==> l.strike in Strikes(legs, stock) && l.strike <= TopStrike(legs, stock)
    ensures stock.Held? ==> stock.entry in Strikes(legs, stock) && stock.entry <= TopStrike(legs, stock)
    ensures |legs| > 0 || stock.Held? ==> TopStrike(legs, stock) in Strikes(legs, stock)
  {
    var strikes := Strikes(legs, stock);
    forall l | l in legs ensures l.strike in strikes {
      var i :| 0 <= i < |legs| && legs[i] == l;
      assert strikes[i] == l.strike;
    }
    if stock.Held? {
      assert strikes[|legs|] == stock.entry;
    }
    if |legs| > 0 {
      assert legs[0] in legs;
    }
  }

  /** Above every breakpoint P&L moves at 100 times the final slope. */
  lemma PnlAbove(legs: seq<Leg>, credit: real, stock: Stock, hi: real, d: real)
    requires d >= 0.0 && forall l :: l in legs ==> l.strike <= hi
    ensures PnlPerContract(legs, credit, stock, hi + d)
              == PnlPerContract(legs, credit, stock, hi) + 100.0 * Rise(Slope(legs, stock), d)
  {
    PayoffAbove(legs, hi, hi + d);
    assert hi + d - hi == d;
    RiseSum(CallSlope(legs), if stock.Held? then 1 else 0, d);
    assert Rise(1, d) == d && Rise(0, d) == 0.0;
    hide Rise, Payoff;
  }

  /** P&L is unbounded below exactly when the final slope is negative. */
  lemma UnboundedIffNegativeSlope(legs: seq<Leg>, credit: real, stock: Stock)
    ensures UnboundedBelow(legs, credit, stock) <==> Slope(legs, stock) < 0
  {
    var s := Slope(legs, stock);
    if s < 0 {
      forall bound: real ensures FallsUnder(legs, credit, stock, bound) {
        FallsBelow(legs, credit, stock, bound);
      }
    } else {
      var least := Lowest(PnlsAt(legs, credit, stock, Probes(legs, stock)));
      if FallsUnder(legs, credit, stock, least) {
        var p :| p >= 0.0 && PnlPerContract(legs, credit, stock, p) < least;
        ProbesBelow(legs, credit, stock);
        ProbesBound(legs, credit, stock, p, least);
      }
    }
  }

  lemma FallsBelow(legs: seq<Leg>, credit: real, stock: Stock, bound: real)
    requires Slope(legs, stock) < 0
    ensures FallsUnder(legs, credit, stock, bound)
  {
    hide PnlPerContract;
    BreakpointsBelowTop(legs, stock);
    var hi := Max(0.0, TopStrike(legs, stock));
    var start := PnlPerContract(legs, credit, stock, hi);
    var rise := Max(0.0, start - bound) / 100.0 + 1.0;
    PnlAbove(legs, credit, stock, hi, rise);
    RiseSign(Slope(legs, stock), rise);
    hide Slope, Rise;
    assert start - 100.0 * rise < bound;
    assert PnlPerContract(legs, credit, stock, hi + rise) < bound;
  }

  /** The highest of zero and the strikes up to `p`. */
  function StrikeBelow(legs: seq<Leg>, p: real): (r: real)
    requires p >= 0.0
    ensures 0.0 <= r <= p && (r == 0.0 || exists l :: l in legs && l.strike == r)
    ensures forall l :: l in legs && l.strike <= p ==> l.strike <= r
  {
    if |legs| == 0 then 0.0
    else
      assert legs == [legs[0]] + legs[1..];
      var r := StrikeBelow(legs[1..], p);
      if r < legs[0].strike <= p then legs[0].strike else r
  }

  /** The lowest strike above `p`. */
  function StrikeAbove(legs: seq<Leg>, p: real): (r: Option<real>)
    ensures r.Some? ==> r.value > p && exists l :: l in legs && l.strike == r.value
    ensures r.Some? ==> forall l :: l in legs && l.strike > p ==> r.value <= l.strike
    ensures r.None? ==> forall l :: l in legs ==> l.strike <= p
  {
    if |legs| == 0 then None
    else
      assert legs == [legs[0]] + legs[1..];
      var r := StrikeAbove(legs[1..], p);
      if legs[0].strike > p && (r.None? || legs[0].strike < r.value) then Some(legs[0].strike) else r
  }

  /** A line that is at least `least` at both ends is so in between. */
  lemma LineAbove(a: real, fa: real, p: real, fp: real, b: real, fb: real, least: real)
    requires a <= p < b && OnLine(b - a, fp, b - p, fa, p - a, fb)
    requires least <= fa && least <= fb
    ensures least <= fp
  {
    assert (b - p) * (fa - least) >= 0.0 && (p - a) * (fb - least) >= 0.0;
    assert (b - a) * (fp - least) == (b - p) * (fa - least) + (p - a) * (fb - least);
    NonnegativeFactor(b - a, fp - least);
  }

  lemma PnlLinear(legs: seq<Leg>, credit: real, stock: Stock, a: real, p: real, b: real)
    requires a <= p <= b && NoStrikeWithin(legs, a, b)
    ensures OnLine(b - a, PnlPerContract(legs, credit, stock, p), b - p, PnlPerContract(legs, credit, stock, a),
                   p - a, PnlPerContract(legs, credit, stock, b))
  {
    PayoffLinear(legs, a, p, b);
    StockLinear(credit, stock, a, p, b);
    hide OnLine, StockPayoff;
    AddLines(b - a, credit + StockPayoff(stock, p), Payoff(legs, p), b - p, credit + StockPayoff(stock, a),
             Payoff(legs, a), p - a, credit + StockPayoff(stock, b), Payoff(legs, b));
    ScaleLine(100.0, b - a, credit + StockPayoff(stock, p) + Payoff(legs, p),
              b - p, credit + StockPayoff(stock, a) + Payoff(legs, a),
              p - a, credit + StockPayoff(stock, b) + Payoff(legs, b));
    assert PnlPerContract(legs, credit, stock, p) == 100.0 * (credit + StockPayoff(stock, p) + Payoff(legs, p));
    assert PnlPerContract(legs, credit, stock, a) == 100.0 * (credit + StockPayoff(stock, a) + Payoff(legs, a));
    assert PnlPerContract(legs, credit, stock, b) == 100.0 * (credit + StockPayoff(stock, b) + Payoff(legs, b));
  }

  lemma StockLinear(credit: real, stock: Stock, a: real, p: real, b: real)
    ensures OnLine(b - a, credit + StockPayoff(stock, p), b - p, credit + StockPayoff(stock, a),
                   p - a, credit + StockPayoff(stock, b))
  {
  }

  /** With a non-negative final slope the probes at zero and at the breakpoints bound P&L from
      below: the payoff is a line between neighbouring ones. */
  lemma ProbesBound(legs: seq<Leg>, credit: real, stock: Stock, p: real, least: real)
    requires p >= 0.0 && Slope(legs, stock) >= 0
    requires least <= PnlPerContract(legs, credit, stock, 0.0)
    requires forall x :: x in Strikes(legs, stock) ==> least <= PnlPerContract(legs, credit, stock, x)
    ensures least <= PnlPerContract(legs, credit, stock, p)
  {
    hide PnlPerContract, OnLine, Slope, Strikes;
    StrikesAreProbes(legs, stock, p);
    var a, b := StrikeBelow(legs, p), StrikeAbove(legs, p);
    if b.Some? {
      PnlLinear(legs, credit, stock, a, p, b.value);
      LineAbove(a, PnlPerContract(legs, credit, stock, a), p, PnlPerContract(legs, credit, stock, p),
                b.value, PnlPerContract(legs, credit, stock, b.value), least);
    } else {
      AboveStart(legs, credit, stock, a, p);
    }
  }

  lemma StrikesAreProbes(legs: seq<Leg>, stock: Stock, p: real)
    requires p >= 0.0
    ensures StrikeBelow(legs, p) == 0.0 || StrikeBelow(legs, p) in Strikes(legs, stock)
    ensures StrikeAbove(legs, p).Some? ==> StrikeAbove(legs, p).value in Strikes(legs, stock)
    ensures StrikeAbove(legs, p).Some? ==> NoStrikeWithin(legs, StrikeBelow(legs, p), StrikeAbove(legs, p).value)
  {
    BreakpointsBelowTop(legs, stock);
  }

  lemma AboveStart(legs: seq<Leg>, credit: real, stock: Stock, a: real, p: real)
    requires a <= p && Slope(legs, stock) >= 0 && forall l :: l in legs ==> l.strike <= a
    ensures PnlPerContract(legs, credit, stock, a) <= PnlPerContract(legs, credit, stock, p)
  {
    hide PnlPerContract, Slope, Rise;
    PnlAbove(legs, credit, stock, a, p - a);
    RiseSign(Slope(legs, stock), p - a);
    assert a + (p - a) == p;
  }

  /** The lowest probed P&L is below the ones at zero and at every breakpoint. */
  lemma ProbesBelow(legs: seq<Leg>, credit: real, stock: Stock)
    ensures var least := Lowest(PnlsAt(legs, credit, stock, Probes(legs, stock)));
            && least <= PnlPerContract(legs, credit, stock, 0.0)
            && (forall x :: x in Strikes(legs, stock) ==> least <= PnlPerContract(legs, credit, stock, x))
  {
    hide PnlPerContract, TopStrike;
    var ps := Probes(legs, stock);
    var pnls := PnlsAt(legs, credit, stock, ps);
    assert pnls[0] in pnls && ps[0] == 0.0;
    var strikes := Strikes(legs, stock);
    forall x | x in strikes ensures Lowest(pnls) <= PnlPerContract(legs, credit, stock, x) {
      var i :| 0 <= i < |strikes| && strikes[i] == x;
      assert ps[i + 1] == x;
      assert pnls[i + 1] in pnls;
    }
  }

  // ---------------------------------------------------------------- the theorems

  /** How fast P&L changes, per share, over a price move as large as the top strike. */
  function FinalMove(legs: seq<Leg>, stock: Stock): real {
    Rise(Slope(legs, stock), TopStrike(legs, stock))
  }

  /** The slope test fires exactly when the fall between the two large probes exceeds its
      tolerance. */
  lemma DetectionIff(legs: seq<Leg>, credit: real, stock: Stock)
    requires TopStrike(legs, stock) >= 0.0
    ensures MaxLoss(legs, credit, stock).Unbounded? <==>
              400.0 * FinalMove(legs, stock) < -0.000001
  {
    hide PnlPerContract, TopStrike, Slope, MaxLoss, Rise;
    var hi := TopStrike(legs, stock);
    BreakpointsBelowTop(legs, stock);
    PnlAbove(legs, credit, stock, hi, 3.0 * hi);
    PnlAbove(legs, credit, stock, hi, 7.0 * hi);
    RiseMultiple(Slope(legs, stock), 3.0, hi);
    RiseMultiple(Slope(legs, stock), 7.0, hi);
    LargeProbes(legs, credit, stock);
  }

  lemma LargeProbes(legs: seq<Leg>, credit: real, stock: Stock)
    ensures var hi := TopStrike(legs, stock);
            MaxLoss(legs, credit, stock).Unbounded? <==>
              PnlPerContract(legs, credit, stock, hi + 7.0 * hi)
              < PnlPerContract(legs, credit, stock, hi + 3.0 * hi) - 0.000001
  {
    hide PnlPerContract, TopStrike;
    var hi := TopStrike(legs, stock);
    var ps := Probes(legs, stock);
    assert ps[|ps| - 2] == hi + 3.0 * hi && ps[|ps| - 1] == hi + 7.0 * hi;
  }

  /** max_loss is infinite exactly when P&L is unbounded below - precisely when a negative final
      slope times the highest breakpoint is steep enough for the tolerance of the test. */
  lemma UnboundedLossExactly(legs: seq<Leg>, credit: real, stock: Stock)
    requires TopStrike(legs, stock) >= 0.0
    ensures (MaxLoss(legs, credit, stock).Unbounded? <==> UnboundedBelow(legs, credit, stock))
              <==> (Slope(legs, stock) < 0 ==>
                      400.0 * FinalMove(legs, stock) < -0.000001)
  {
    hide UnboundedBelow, MaxLoss, TopStrike, Slope;
    DetectionIff(legs, credit, stock);
    UnboundedIffNegativeSlope(legs, credit, stock);
    RiseSign(Slope(legs, stock), TopStrike(legs, stock));
  }

  /** A cent-sized or larger top strike is always enough: a structure passes as defined-risk exactly
      when its loss is bounded, and naked short calls never do. */
  lemma UnboundedLossDetected(legs: seq<Leg>, credit: real, stock: Stock)
    requires TopStrike(legs, stock) >= 0.01
    ensures MaxLoss(legs, credit, stock).Unbounded? <==> UnboundedBelow(legs, credit, stock)
    ensures IsDefinedRisk(legs, credit, stock) <==> Slope(legs, stock) >= 0
  {
    UnboundedIffNegativeSlope(legs, credit, stock);
    UnboundedLossExactly(legs, credit, stock);
    hide MaxLoss, UnboundedBelow, TopStrike, Slope, Rise;
    RiseSign(Slope(legs, stock), TopStrike(legs, stock));
  }

  /** A naked short call at a tiny positive strike is not detected. */
  lemma TinyStrikeEscapes()
    ensures var legs := [Leg(Call, false, 0.000000001, 1)];
            MaxLoss(legs, 0.0, NoStock).Bounded? && UnboundedBelow(legs, 0.0, NoStock)
  {
    var legs := [Leg(Call, false, 0.000000001, 1)];
    assert legs[1..] == [];
    assert Strikes(legs, NoStock) == [0.000000001];
    assert Slope(legs, NoStock) == -1;
    DetectionIff(legs, 0.0, NoStock);
    UnboundedIffNegativeSlope(legs, 0.0, NoStock);
  }

  /** The worst case over every price: unless P&L is unbounded below, no price loses more than
      max_loss. */
  lemma WorstCase(legs: seq<Leg>, credit: real, stock: Stock, p: real)
    requires p >= 0.0 && Slope(legs, stock) >= 0 && MaxLoss(legs, credit, stock).Bounded?
    ensures PnlPerContract(legs, credit, stock, p) >= -MaxLoss(legs, credit, stock).amount
  {
    hide PnlPerContract;
    ProbesBelow(legs, credit, stock);
    ProbesBound(legs, credit, stock, p, Lowest(PnlsAt(legs, credit, stock, Probes(legs, stock))));
  }

  /** When max_loss is finite it bounds the loss at every price exactly when the final slope is not
      negative. */
  lemma WorstCaseExactly(legs: seq<Leg>, credit: real, stock: Stock)
    requires MaxLoss(legs, credit, stock).Bounded?
    ensures (forall p :: p >= 0.0 ==> PnlPerContract(legs, credit, stock, p) >= -MaxLoss(legs, credit, stock).amount)
              <==> Slope(legs, stock) >= 0
  {
    hide PnlPerContract, MaxLoss, Slope;
    if Slope(legs, stock) >= 0 {
      forall p | p >= 0.0 ensures PnlPerContract(legs, credit, stock, p) >= -MaxLoss(legs, credit, stock).amount {
        WorstCase(legs, credit, stock, p);
      }
    } else {
      FallsBelow(legs, credit, stock, -MaxLoss(legs, credit, stock).amount);
    }
  }

  /** A positive max_loss is the loss at some price, when no strike is negative. */
  lemma WorstCaseAttained(legs: seq<Leg>, credit: real, stock: Stock)
    requires MaxLoss(legs, credit, stock).Bounded? && MaxLoss(legs, credit, stock).amount > 0.0
    requires forall x :: x in Strikes(legs, stock) ==> x >= 0.0
    ensures exists p :: p >= 0.0 && PnlPerContract(legs, credit, stock, p) == -MaxLoss(legs, credit, stock).amount
  {
    hide PnlPerContract;
    var ps := Probes(legs, stock);
    var pnls := PnlsAt(legs, credit, stock, ps);
    var i :| 0 <= i < |pnls| && pnls[i] == Lowest(pnls);
    BreakpointsBelowTop(legs, stock);
    if 0 < i < |ps| - 2 {
      assert ps[i] == Strikes(legs, stock)[i - 1];
    }
    assert ps[i] >= 0.0;
  }

  /** Sizing by floor keeps the total defined risk within the budget, and is the largest count
      that does. */
  lemma SizedWithinBudget(equity: real, riskPct: real, maxLoss: Loss)
    ensures var n := SizedContracts(equity, riskPct, maxLoss);
            if maxLoss.Unbounded? || maxLoss.amount <= 0.0 then n == 0
            else
              && n >= 0
              && (n > 0 ==> n as real * maxLoss.amount <= equity * riskPct)
              && equity * riskPct < (n + 1) as real * maxLoss.amount
  {
    if maxLoss.Bounded? && maxLoss.amount > 0.0 {
      FloorOfQuotient(equity * riskPct, maxLoss.amount);
      var n := (equity * riskPct / maxLoss.amount).Floor;
      if n < 0 {
        TimesStrict((n + 1) as real, 1.0, maxLoss.amount);
      }
    }
  }

  /** The whole number of units in a budget. */
  lemma FloorOfQuotient(budget: real, unit: real)
    requires unit > 0.0
    ensures var n := (budget / unit).Floor;
            n as real * unit <= budget < (n + 1) as real * unit
    ensures (budget / unit).Floor < 0 ==> budget < unit
  {
    var x := budget / unit;
    QuotientTimes(budget, unit);
    hide Times;
    TimesStrict(x, (x.Floor + 1) as real, unit);
    if x.Floor as real < x {
      TimesStrict(x.Floor as real, x, unit);
    }
    if x.Floor < 0 {
      TimesStrict(x, 1.0, unit);
    }
    TimesIsProduct(x.Floor as real, unit);
    TimesIsProduct((x.Floor + 1) as real, unit);
    TimesIsProduct(1.0, unit);
  }

  function Times(a: real, b: real): real {
    a * b
  }

  lemma TimesIsProduct(a: real, b: real)
    ensures Times(a, b) == a * b
  {
  }

  lemma TimesStrict(a: real, b: real, unit: real)
    requires unit > 0.0 && a < b
    ensures Times(a, unit) < Times(b, unit)
  {
  }

  lemma QuotientTimes(budget: real, unit: real)
    requires unit > 0.0
    ensures Times(budget / unit, unit) == budget
  {
  }
}
