/**
 The volatility surface the legs are priced on, and what it makes of a pricing formula's bounds: they
 hold under the skew for puts, covered calls and put spreads, and need not for condors.
 */
module OptionSurface {
  import opened Prelude
  import opened OptionRisk
  import opened OptionStructures

  datatype Knobs = Knobs(vrp: real, skew: real, term: real, floor: real)

  type Formula = (real, real, real, real, Right) -> real  // spot, strike, years, volatility, right

  /** The default knobs. */
  const DEFAULT := Knobs(1.15, 0.35, 0.0, 0.05)

  function Scale(vol: real, skew: real): real {
    vol * skew
  }

  /** Realized volatility with the premium and the term slope, before the skew. */
  function FlatVol(kn: Knobs, t: real, rv: real): real {
    rv * kn.vrp * (1.0 + kn.term * Max(0.0, t))
  }

  function Tilt(log: real -> real, kn: Knobs, spot: real, strike: real): real
    requires spot > 0.0
  {
    1.0 - kn.skew * log(strike / spot)
  }

  /** The volatility to price at: richer for lower strikes, never below the floor. */
  function ImpliedVol(log: real -> real, kn: Knobs, spot: real, strike: real, t: real, rv: real): real {
    if spot <= 0.0 || strike <= 0.0 then Max(kn.floor, if rv != 0.0 then rv else kn.floor)
    else Max(kn.floor, Scale(FlatVol(kn, t, rv), Tilt(log, kn, spot, strike)))
  }

  /** The premium times the realized volatility, tilted by the log of the moneyness and stretched by the years,
      but the floor when that is higher; without prices the realized volatility itself. */
  lemma SurfaceIs(log: real -> real, kn: Knobs, spot: real, strike: real, t: real, rv: real, iv: real)
    requires t >= 0.0 && rv >= 0.0 && kn.floor > 0.0
    requires spot > 0.0 && strike > 0.0 ==>
               iv == rv * kn.vrp * (1.0 - kn.skew * log(strike / spot)) * (1.0 + kn.term * t)
    requires spot <= 0.0 || strike <= 0.0 ==> iv == rv
    ensures ImpliedVol(log, kn, spot, strike, t, rv) == Max(kn.floor, iv)
  {
    if spot > 0.0 && strike > 0.0 {
      var tilt := 1.0 - kn.skew * log(strike / spot);
      Regroup(rv * kn.vrp, tilt, 1.0 + kn.term * t);
    }
  }

  lemma Regroup(a: real, b: real, c: real)
    ensures a * b * c == a * c * b
  {
  }

  ghost predicate Increasing(log: real -> real) {
    forall x, y :: 0.0 < x <= y ==> log(x) <= log(y)
  }

  predicate Nonnegative(kn: Knobs) {
    kn.vrp >= 0.0 && kn.skew >= 0.0 && kn.term >= 0.0 && kn.floor > 0.0
  }

  /** The skew falls with the strike, so the surface does. */
  lemma SurfaceFalls(log: real -> real, kn: Knobs, spot: real, j: real, k: real, t: real, rv: real)
    requires Increasing(log) && Nonnegative(kn) && spot > 0.0 && 0.0 < j <= k && rv >= 0.0
    ensures ImpliedVol(log, kn, spot, k, t, rv) <= ImpliedVol(log, kn, spot, j, t, rv)
  {
    TiltFalls(log, kn, spot, j, k);
    FlatVolSign(kn, t, rv);
    hide FlatVol, Tilt;
    ScaleMonotone(FlatVol(kn, t, rv), Tilt(log, kn, spot, k), Tilt(log, kn, spot, j));
  }

  lemma TiltFalls(log: real -> real, kn: Knobs, spot: real, j: real, k: real)
    requires Increasing(log) && kn.skew >= 0.0 && spot > 0.0 && 0.0 < j <= k
    ensures Tilt(log, kn, spot, k) <= Tilt(log, kn, spot, j)
  {
    var x, y := j / spot, k / spot;
    assert x * spot == j && y * spot == k;
    if x > y {
      ScaleStrict(spot, y, x);
    }
    if x <= 0.0 {
      ScaleMonotone(spot, x, 0.0);
    }
    ScaleMonotone(kn.skew, log(x), log(y));
  }

  lemma FlatVolSign(kn: Knobs, t: real, rv: real)
    requires Nonnegative(kn) && rv >= 0.0
    ensures FlatVol(kn, t, rv) >= 0.0
  {
    assert rv * kn.vrp >= 0.0 && kn.term * Max(0.0, t) >= 0.0;
  }

  /** Textbook facts of the pricing formula at one volatility, for interest and dividend rates that are
      not negative: intrinsic value when an input degenerates; a put within its strike and a call
      within the spot; a put worth more at a higher volatility; a put spread within its width. */
  ghost predicate FlatFormula(bs: Formula) {
    && (forall s, k, t, v, right :: t <= 0.0 || v <= 0.0 || s <= 0.0 || k <= 0.0 ==>
          bs(s, k, t, v, right) == Intrinsic(s, k, right))
    && (forall s, k, t, v :: s > 0.0 && k > 0.0 && t > 0.0 && v > 0.0 ==>
          0.0 <= bs(s, k, t, v, Put) <= k && bs(s, k, t, v, Call) <= s)
    && (forall s, k, t, v, w :: s > 0.0 && k > 0.0 && t > 0.0 && 0.0 < v <= w ==>
          bs(s, k, t, v, Put) <= bs(s, k, t, w, Put))
    && (forall s, j, k, t, v :: s > 0.0 && 0.0 < j <= k && t > 0.0 && v > 0.0 ==>
          bs(s, k, t, v, Put) - bs(s, j, t, v, Put) <= k - j)
  }

  /** Intrinsic value itself has them. */
  lemma IntrinsicIsFlat()
    ensures FlatFormula((s, k, t, v, right) => Intrinsic(s, k, right))
  {
  }

  /** The pricer of the program: the formula at the surface's volatility. */
  ghost predicate PricesOnSurface(m: Pricing, bs: Formula, log: real -> real, kn: Knobs) {
    forall s, k, t, rv, right :: m.price(s, k, t, rv, right) == bs(s, k, t, ImpliedVol(log, kn, s, k, t, rv), right)
  }

  lemma PutSpreadOnSurface(m: Pricing, bs: Formula, log: real -> real, kn: Knobs,
                           s: real, j: real, k: real, t: real, rv: real)
    requires FlatFormula(bs) && Increasing(log) && Nonnegative(kn) && PricesOnSurface(m, bs, log, kn)
    requires s >= 0.0 && rv >= 0.0 && j <= k
    ensures m.price(s, k, t, rv, Put) - m.price(s, j, t, rv, Put) <= k - j
  {
    if j > 0.0 && s > 0.0 && t > 0.0 {
      SurfaceFalls(log, kn, s, j, k, t, rv);
      var v, w := ImpliedVol(log, kn, s, k, t, rv), ImpliedVol(log, kn, s, j, t, rv);
      assert 0.0 < v <= w by {
        hide Scale, FlatVol, Tilt;
      }
      hide ImpliedVol;
      assert bs(s, k, t, v, Put) <= bs(s, k, t, w, Put) && bs(s, k, t, w, Put) - bs(s, j, t, w, Put) <= k - j;
    } else {
      hide ImpliedVol;
      OnePriceOnSurface(m, bs, log, kn, s, k, t, rv);
      assert m.price(s, j, t, rv, Put) == Intrinsic(s, j, Put);
    }
  }

  lemma OnePriceOnSurface(m: Pricing, bs: Formula, log: real -> real, kn: Knobs, s: real, k: real, t: real, rv: real)
    requires FlatFormula(bs) && Nonnegative(kn) && PricesOnSurface(m, bs, log, kn) && s >= 0.0
    ensures 0.0 <= m.price(s, k, t, rv, Put) <= Max(0.0, k) && m.price(s, k, t, rv, Call) <= s + Max(0.0, -k)
    ensures s == 0.0 || t <= 0.0 || k <= 0.0 ==> m.price(s, k, t, rv, Put) == Intrinsic(s, k, Put)
  {
    hide Scale, Tilt, FlatVol;
    assert ImpliedVol(log, kn, s, k, t, rv) > 0.0;
    hide ImpliedVol;
  }

  /** The default surface, or any that is richer for lower strikes, leaves the bounds of the formula in
      place that cash-secured puts, covered calls and put spreads need. */
  lemma SkewedSurfaceQualifies(m: Pricing, bs: Formula, log: real -> real, kn: Knobs)
    requires FlatFormula(bs) && Increasing(log) && Nonnegative(kn) && PricesOnSurface(m, bs, log, kn)
    requires VolNonnegative(m)
    ensures IntrinsicAtExpiry(m) && Nonnegative(DEFAULT)
    ensures forall a: Archetype :: !a.IronCondor? ==> MarksBounded(a, m)
  {
    forall s, k, t, rv | s >= 0.0
      ensures 0.0 <= m.price(s, k, t, rv, Put) <= Max(0.0, k) && m.price(s, k, t, rv, Call) <= s + Max(0.0, -k)
    {
      OnePriceOnSurface(m, bs, log, kn, s, k, t, rv);
    }
    forall s, j, k, t, rv | s >= 0.0 && rv >= 0.0 && j <= k
      ensures m.price(s, k, t, rv, Put) - m.price(s, j, t, rv, Put) <= k - j
    {
      PutSpreadOnSurface(m, bs, log, kn, s, j, k, t, rv);
    }
    assert IntrinsicAtExpiry(m) by {
      hide ImpliedVol;
    }
    hide FlatFormula, PricesOnSurface, IntrinsicAtExpiry, VolNonnegative;
    assert PriceBounds(m);
  }

  // ---------------------------------------------------------------- condors need more

  /** Half the strike for a put; the spot for a call up to 105 once the spot is above 200. */
  function Gapped(spot: real, strike: real, t: real, right: Right): real {
    if t <= 0.0 then Intrinsic(spot, strike, right)
    else if right.Put? then Max(0.0, strike) / 2.0
    else if spot > 200.0 && strike <= 105.0 then spot
    else 0.0
  }

  const GAPPED := Pricing(
    (spot: real, strike: real, t: real, rv: real, right: Right) => Gapped(spot, strike, t, right),
    (spot: real, t: real, rv: real, right: Right, delta: real) => Some(if right.Put? then 35.0 else 105.0),
    (xs: seq<real>) => Some(0.2))

  const CONDOR := Spec(IronCondor, 30, 0.16, 5.0, 0.02, 0.5, 0, None)

  function CondorLegs(): seq<Leg> {
    [Leg(Put, false, 35.0, 1), Leg(Put, true, 30.0, 1), Leg(Call, false, 105.0, 1), Leg(Call, true, 110.0, 1)]
  }

  lemma GappedLegs()
    ensures ValidStructure(CONDOR) && LegsFor(CONDOR, GAPPED, 100.0, 0.2) == Some((CondorLegs(), NoStock))
    ensures Shaped(IronCondor, CondorLegs(), NoStock) && InOrder(CondorLegs())
  {
    WholeCents(3_500);
    WholeCents(3_000);
    WholeCents(10_500);
    WholeCents(11_000);
    hide RoundCents;
  }

  lemma GappedCosts()
    ensures Shaped(IronCondor, CondorLegs(), NoStock)
    ensures LegsValue(CondorLegs(), GAPPED, 100.0, 30 as real / 365.0, 0.2) == -2.5
    ensures BuyBack(CondorLegs(), GAPPED, 500.0, Years(29), 0.2) == 502.5 && WiderWing(CondorLegs()) == 5.0
    ensures Payoff(CondorLegs(), 0.0) == -5.0
  {
    assert BuyBack(CondorLegs(), GAPPED, 100.0, 30 as real / 365.0, 0.2) == 2.5;
    hide Payoff, LegsValue;
    FourLegs(CondorLegs(), GAPPED, 100.0, 30 as real / 365.0, 0.2, 0.0);
  }

  /** The condor is opened for a credit of 2.5 with a defined risk. */
  lemma GappedOpens()
    ensures OpenStructure(CONDOR, GAPPED, 100.0, 0, 0.2).Some?
    ensures OpenStructure(CONDOR, GAPPED, 100.0, 0, 0.2).value.legs == CondorLegs()
  {
    hide LegsValue, Payoff, MaxLoss, CondorLegs, Shaped, InOrder, LegsFor, Strikes, BuyBack, WiderWing, Slope;
    GappedLegs();
    GappedCosts();
    LegsAreDefinedRisk(CONDOR, GAPPED, 100.0, 0.2);
    CondorStrikes(CondorLegs());
    TopIsStrike(CondorLegs());
    BoundedWhenFlat(CondorLegs(), 2.5);
  }

  lemma TopIsStrike(legs: seq<Leg>)
    requires forall x :: x in Strikes(legs, NoStock) ==> x >= 0.0
    ensures TopStrike(legs, NoStock) >= 0.0
  {
  }

  lemma BoundedWhenFlat(legs: seq<Leg>, credit: real)
    requires TopStrike(legs, NoStock) >= 0.0 && Slope(legs, NoStock) == 0 && credit + Payoff(legs, 0.0) < 0.0
    ensures var ml := MaxLoss(legs, credit, NoStock); ml.Bounded? && ml.amount > 0.0
  {
    DetectionIff(legs, credit, NoStock);
    ProbesBelow(legs, credit, NoStock);
    hide TopStrike, Slope, Payoff, Probes, Lowest;
  }

  /** The bounds that suffice for the other archetypes do not for a condor: under a pricer that meets
      them a built condor is marked below its defined risk, because buying the call spread back costs
      more than its width. */
  lemma CondorEscapes()
    ensures PriceBounds(GAPPED) && VolNonnegative(GAPPED) && IntrinsicAtExpiry(GAPPED)
    ensures var st := OpenStructure(CONDOR, GAPPED, 100.0, 0, 0.2);
            st.Some? && MarkOf(st.value, GAPPED, 500.0, 1, 0.2) < -st.value.maxLoss
  {
    GappedBounds();
    hide PriceBounds, VolNonnegative, IntrinsicAtExpiry;
    hide OpenStructure, WellOpened, Shaped, InOrder, BuyBack, WiderWing, MarkOf, LegsFor, MaxLoss, CondorLegs;
    GappedLegs();
    GappedOpens();
    GappedCosts();
    OpenedStructures(CONDOR, GAPPED, 100.0, 0, 0.2);
    CondorMarkIff(OpenStructure(CONDOR, GAPPED, 100.0, 0, 0.2).value, GAPPED, 500.0, 1, 0.2);
  }

  lemma GappedBounds()
    ensures PriceBounds(GAPPED) && VolNonnegative(GAPPED) && IntrinsicAtExpiry(GAPPED)
  {
  }
}
