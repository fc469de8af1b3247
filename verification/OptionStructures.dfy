/** Opening and marking defined-risk option structures, and when a mark stays within its defined risk. */
module OptionStructures {
  import opened Prelude
  import opened OptionRisk

  type Day = int

  datatype Archetype = CashSecuredPut | CoveredCall | VerticalSpread | IronCondor

  datatype Spec = Spec(archetype: Archetype, dte: int, shortDelta: real, width: real, riskPct: real,
                       allocPct: real, closeAtDte: int, profitTarget: Option<real>)

  /** validate_structure. */
  predicate ValidStructure(s: Spec) {
    && s.dte > 0
    && 0.0 < s.shortDelta < 1.0
    && (s.archetype.VerticalSpread? || s.archetype.IronCondor? ==> s.width > 0.0)
    && 0.0 < s.riskPct <= 1.0
    && 0.0 < s.allocPct <= 1.0
    && s.closeAtDte >= 0
    && (s.profitTarget.Some? ==> 0.0 < s.profitTarget.value <= 1.0)
  }

  /** The pricer (Black-Scholes at the modelled volatility), the strike-by-delta search and the
      trailing realized volatility, all left abstract. */
  datatype Pricing = Pricing(
    price: (real, real, real, real, Right) -> real,           // spot, strike, years, rv, right
    strikeFor: (real, real, real, Right, real) -> Option<real>,  // spot, years, rv, right, delta; before rounding
    realizedVol: seq<real> -> Option<real>)

  /** The one fact used of the pricer: at or after expiry it returns intrinsic value. */
  ghost predicate IntrinsicAtExpiry(m: Pricing) {
    forall s, k, t, rv, right :: t <= 0.0 ==> m.price(s, k, t, rv, right) == Intrinsic(s, k, right)
  }

  datatype Structure = Structure(legs: seq<Leg>, credit: real, stock: Stock, expiry: Day, maxLoss: real, contracts: int)

  function Years(days: int): real {
    Max(0.0, days as real / 365.0)
  }

  /** The strike for a delta, rounded to cents. */
  function StrikeAt(m: Pricing, spot: real, t: real, rv: real, right: Right, delta: real): Option<real> {
    var k := m.strikeFor(spot, t, rv, right, delta);
    if k.None? then None else Some(RoundCents(k.value))
  }

  /** The legs by archetype; None when a strike cannot be found. */
  function LegsFor(s: Spec, m: Pricing, spot: real, rv: real): Option<(seq<Leg>, Stock)> {
    var t := s.dte as real / 365.0;
    var put := StrikeAt(m, spot, t, rv, Put, s.shortDelta);
    var call := StrikeAt(m, spot, t, rv, Call, s.shortDelta);
    match s.archetype
    case CashSecuredPut =>
      if put.None? then None else Some(([Leg(Put, false, put.value, 1)], NoStock))
    case CoveredCall =>
      if call.None? then None else Some(([Leg(Call, false, call.value, 1)], Held(spot)))
    case VerticalSpread =>
      if put.None? then None
      else Some(([Leg(Put, false, put.value, 1), Leg(Put, true, RoundCents(put.value - s.width), 1)], NoStock))
    case IronCondor =>
      if put.None? || call.None? then None
      else Some(([Leg(Put, false, put.value, 1), Leg(Put, true, RoundCents(put.value - s.width), 1),
                  Leg(Call, false, call.value, 1), Leg(Call, true, RoundCents(call.value + s.width), 1)], NoStock))
  }

  /** What the legs cost to buy back, per share (short legs count negative). */
  function LegsValue(legs: seq<Leg>, m: Pricing, spot: real, t: real, rv: real): real
    decreases |legs|
  {
    if |legs| == 0 then 0.0
    else
      var l := legs[|legs| - 1];
      var p := m.price(spot, l.strike, t, rv, l.right);
      LegsValue(legs[..|legs| - 1], m, spot, t, rv) + if l.long then p else -p
  }

  /** open_structure: None unless it earns a credit and its worst case is bounded and positive. */
  function OpenStructure(s: Spec, m: Pricing, spot: real, day: Day, rv: real): Option<Structure> {
    var legs := LegsFor(s, m, spot, rv);
    if legs.None? then None
    else
      var credit := -LegsValue(legs.value.0, m, spot, s.dte as real / 365.0, rv);
      if credit <= 0.0 then None
      else
        var ml := MaxLoss(legs.value.0, credit, legs.value.1);
        if ml.Unbounded? || ml.amount <= 0.0 then None
        else Some(Structure(legs.value.0, credit, legs.value.1, day + s.dte, ml.amount, 1))
  }

  /** Mark-to-market P&L of one contract. */
  function MarkOf(st: Structure, m: Pricing, spot: real, day: Day, rv: real): real {
    (st.credit + LegsValue(st.legs, m, spot, Years(st.expiry - day), rv) + StockPayoff(st.stock, spot)) * 100.0
  }

  method Mark(st: Structure, m: Pricing, spot: real, day: Day, rv: real) returns (pnl: real)
    ensures pnl == MarkOf(st, m, spot, day, rv)
  {
    var t := Years(st.expiry - day);
    var mtm := st.credit;
    for i := 0 to |st.legs|
      invariant mtm == st.credit + LegsValue(st.legs[..i], m, spot, t, rv)
    {
      assert st.legs[..i + 1][..i] == st.legs[..i];
      var p := m.price(spot, st.legs[i].strike, t, rv, st.legs[i].right);
      mtm := mtm + if st.legs[i].long then p else -p;
    }
    assert st.legs[..|st.legs|] == st.legs;
    if st.stock.Held? {
      mtm := mtm + (spot - st.stock.entry);
    }
    pnl := mtm * 100.0;
  }

  /** A mark is taken a calendar year of 365 days to a year before expiry, and at none once it has passed. */
  lemma MarkTime(st: Structure, m: Pricing, spot: real, day: Day, rv: real, years: real)
    requires years * 365.0 == if day < st.expiry then (st.expiry - day) as real else 0.0
    ensures MarkOf(st, m, spot, day, rv) ==
              (st.credit + LegsValue(st.legs, m, spot, years, rv)
               + if st.stock.Held? then spot - st.stock.entry else 0.0) * 100.0
  {
    assert years == Years(st.expiry - day);
    hide LegsValue;
  }

  // ---------------------------------------------------------------- at expiry a mark is the payoff

  predicate SingleRatios(legs: seq<Leg>) {
    forall l :: l in legs ==> l.ratio == 1
  }

  lemma {:induction false} PayoffLast(legs: seq<Leg>, p: real)
    requires |legs| > 0
    ensures Payoff(legs, p) == Payoff(legs[..|legs| - 1], p) + LegPayoff(legs[|legs| - 1], p)
    decreases |legs|
  {
    if |legs| == 1 {
      assert legs[1..] == [] && legs[..0] == [];
    } else {
      PayoffLast(legs[1..], p);
      assert legs[1..][..|legs| - 2] == legs[..|legs| - 1][1..];
    }
  }

  function Counted(n: int, x: real): real {
    n as real * x
  }

  /** What the risk math counts of the legs beyond one option each. */
  function Excess(legs: seq<Leg>, p: real): real
    decreases |legs|
  {
    if |legs| == 0 then 0.0
    else
      var l := legs[|legs| - 1];
      var more := Counted(l.ratio - 1, Intrinsic(p, l.strike, l.right));
      Excess(legs[..|legs| - 1], p) + if l.long then more else -more
  }

  lemma {:induction false} SingleHaveNoExcess(legs: seq<Leg>, p: real)
    requires SingleRatios(legs)
    ensures Excess(legs, p) == 0.0
    decreases |legs|
  {
    if |legs| > 0 {
      assert legs[|legs| - 1] in legs;
      SingleHaveNoExcess(legs[..|legs| - 1], p);
    }
  }

  /** Priced at intrinsic value, the legs are worth their payoff less that excess. */
  lemma {:induction false} ValueIsPayoff(legs: seq<Leg>, m: Pricing, spot: real, t: real, rv: real)
    requires forall k, right :: m.price(spot, k, t, rv, right) == Intrinsic(spot, k, right)
    ensures LegsValue(legs, m, spot, t, rv) == Payoff(legs, spot) - Excess(legs, spot)
    decreases |legs|
  {
    hide Counted, Intrinsic, Weight, LegPayoff;
    if |legs| > 0 {
      var l := legs[|legs| - 1];
      ValueIsPayoff(legs[..|legs| - 1], m, spot, t, rv);
      PayoffLast(legs, spot);
      RatioSplit(l, spot);
    }
  }

  lemma RatioSplit(l: Leg, p: real)
    ensures var x := Intrinsic(p, l.strike, l.right);
            LegPayoff(l, p) == if l.long then x + Counted(l.ratio - 1, x) else -x - Counted(l.ratio - 1, x)
  {
    var x := Intrinsic(p, l.strike, l.right);
    assert (l.ratio - 1) as real * x == l.ratio as real * x - x;
    assert (-l.ratio) as real * x == -(l.ratio as real * x);
    hide Intrinsic;
  }

  /** The marker ignores the ratio that the risk math uses.  At or after expiry the mark of a structure
      is its risk payoff exactly when the legs have no excess at the price. */
  lemma MarkAtExpiryIff(st: Structure, m: Pricing, spot: real, day: Day, rv: real)
    requires IntrinsicAtExpiry(m) && day >= st.expiry
    ensures MarkOf(st, m, spot, day, rv) == PnlPerContract(st.legs, st.credit, st.stock, spot) <==>
              Excess(st.legs, spot) == 0.0
  {
    ValueIsPayoff(st.legs, m, spot, Years(st.expiry - day), rv);
  }

  /** They do differ: for a ratio of 2. */
  lemma MarkIgnoresRatio(m: Pricing)
    requires IntrinsicAtExpiry(m)
    ensures var st := Structure([Leg(Put, false, 100.0, 2)], 1.0, NoStock, 0, 1.0, 1);
            MarkOf(st, m, 90.0, 0, 0.2) != PnlPerContract(st.legs, st.credit, st.stock, 90.0)
  {
    var st := Structure([Leg(Put, false, 100.0, 2)], 1.0, NoStock, 0, 1.0, 1);
    assert st.legs[..0] == [];
    assert Excess(st.legs, 90.0) == -10.0;
    MarkAtExpiryIff(st, m, 90.0, 0, 0.2);
  }

  /** They do not for legs of ratio 1, which are all that open_structure builds. */
  lemma MarkAtExpiry(st: Structure, m: Pricing, spot: real, day: Day, rv: real)
    requires IntrinsicAtExpiry(m) && SingleRatios(st.legs) && day >= st.expiry
    ensures MarkOf(st, m, spot, day, rv) == PnlPerContract(st.legs, st.credit, st.stock, spot)
  {
    SingleHaveNoExcess(st.legs, spot);
    MarkAtExpiryIff(st, m, spot, day, rv);
  }

  /** What open_structure promises of what it builds: legs the marker and the risk math agree on, a
      payoff that does not fall for ever, and a loss budget that covers every price. */
  ghost predicate WellOpened(st: Structure) {
    && SingleRatios(st.legs) && Slope(st.legs, st.stock) >= 0
    && st.credit > 0.0 && st.maxLoss > 0.0
    && MaxLoss(st.legs, st.credit, st.stock) == Bounded(st.maxLoss)
    && (st.stock.Held? ==> Payoff(st.legs, 0.0) <= 0.0)
  }

  /** The legs of each archetype, wings on the far side of what is sold. */
  predicate Shaped(a: Archetype, legs: seq<Leg>, stock: Stock) {
    match a
    case CashSecuredPut => |legs| == 1 && IsLeg(legs[0], Put, false) && stock.NoStock?
    case CoveredCall => |legs| == 1 && IsLeg(legs[0], Call, false) && stock.Held?
    case VerticalSpread => |legs| == 2 && IsPutSpread(legs[0], legs[1]) && stock.NoStock?
    case IronCondor =>
      |legs| == 4 && IsPutSpread(legs[0], legs[1]) && IsCallSpread(legs[2], legs[3]) && stock.NoStock?
  }

  predicate IsLeg(l: Leg, right: Right, long: bool) {
    l == Leg(right, long, l.strike, 1)
  }

  predicate IsPutSpread(short: Leg, long: Leg) {
    IsLeg(short, Put, false) && IsLeg(long, Put, true) && long.strike <= short.strike
  }

  predicate IsCallSpread(short: Leg, long: Leg) {
    IsLeg(short, Call, false) && IsLeg(long, Call, true) && short.strike <= long.strike
  }

  lemma OpenedStructures(s: Spec, m: Pricing, spot: real, day: Day, rv: real)
    requires OpenStructure(s, m, spot, day, rv).Some?
    ensures var st := OpenStructure(s, m, spot, day, rv).value;
            WellOpened(st) && (ValidStructure(s) ==> Shaped(s.archetype, st.legs, st.stock)) && st.expiry == day + s.dte
  {
    hide MaxLoss;
    LegsAreDefinedRisk(s, m, spot, rv);
    if ValidStructure(s) {
      LegsAreShaped(s, m, spot, rv);
    }
  }

  lemma LegsAreShaped(s: Spec, m: Pricing, spot: real, rv: real)
    requires ValidStructure(s) && LegsFor(s, m, spot, rv).Some?
    ensures var (legs, stock) := LegsFor(s, m, spot, rv).value; Shaped(s.archetype, legs, stock)
  {
    var t := s.dte as real / 365.0;
    var put, call := m.strikeFor(spot, t, rv, Put, s.shortDelta), m.strikeFor(spot, t, rv, Call, s.shortDelta);
    if s.archetype.VerticalSpread? || s.archetype.IronCondor? {
      WingApart(put.GetOr(0.0), s.width);
      WingApart(call.GetOr(0.0), s.width);
    }
    hide RoundCents;
  }

  /** A wing a positive width away from a rounded strike is not rounded across it. */
  lemma WingApart(k: real, width: real)
    requires width > 0.0
    ensures RoundCents(RoundCents(k) - width) <= RoundCents(k) <= RoundCents(RoundCents(k) + width)
  {
    var x := RoundCents(k);
    CentsFixed(k);
    CentsMonotone(x - width, x);
    CentsMonotone(x, x + width);
    hide RoundCents;
  }

  /** Each short leg is a put or is covered, by a long call or by stock. */
  lemma LegsAreDefinedRisk(s: Spec, m: Pricing, spot: real, rv: real)
    requires LegsFor(s, m, spot, rv).Some?
    ensures var (legs, stock) := LegsFor(s, m, spot, rv).value;
            SingleRatios(legs) && Slope(legs, stock) == 0 && (stock.Held? ==> Payoff(legs, 0.0) <= 0.0)
  {
    var legs := LegsFor(s, m, spot, rv).value.0;
    if s.archetype.IronCondor? {
      assert legs[1..][1..] == legs[2..] && legs[2..][1..] == [legs[3]] && [legs[3]][1..] == [];
      assert CallSlope([legs[3]]) == 1;
      assert CallSlope(legs[2..]) == 0;
      assert CallSlope(legs[1..]) == 0;
    } else if s.archetype.VerticalSpread? {
      assert legs[1..] == [legs[1]] && [legs[1]][1..] == [];
      assert CallSlope([legs[1]]) == 0;
    } else {
      assert legs[1..] == [] && CallSlope(legs[1..]) == 0;
    }
  }

  /** An expiry settlement of any structure loses at most its max_loss per contract. */
  lemma SettlementBounded(st: Structure, m: Pricing, spot: real, day: Day, rv: real)
    requires IntrinsicAtExpiry(m) && WellOpened(st) && spot >= 0.0 && day >= st.expiry
    ensures MarkOf(st, m, spot, day, rv) >= -st.maxLoss
  {
    MarkAtExpiry(st, m, spot, day, rv);
    WorstCase(st.legs, st.credit, st.stock, spot);
  }

  // ---------------------------------------------------------------- marks before expiry

  /** Exactly when the mark of a structure is within its defined risk: when it is no worse than some
      outcome at expiry. */
  lemma MarkWithinIff(st: Structure, m: Pricing, spot: real, day: Day, rv: real)
    requires WellOpened(st) && forall x :: x in Strikes(st.legs, st.stock) ==> x >= 0.0
    ensures MarkOf(st, m, spot, day, rv) >= -st.maxLoss <==>
              exists p :: p >= 0.0 && PnlPerContract(st.legs, st.credit, st.stock, p) <= MarkOf(st, m, spot, day, rv)
  {
    hide MaxLoss, PnlPerContract, MarkOf;
    if MarkOf(st, m, spot, day, rv) >= -st.maxLoss {
      WorstCaseAttained(st.legs, st.credit, st.stock);
    }
    if p :| p >= 0.0 && PnlPerContract(st.legs, st.credit, st.stock, p) <= MarkOf(st, m, spot, day, rv) {
      WorstCase(st.legs, st.credit, st.stock, p);
    }
  }

  /** Realized volatility is a standard deviation. */
  ghost predicate VolNonnegative(m: Pricing) {
    forall xs :: m.realizedVol(xs).Some? ==> m.realizedVol(xs).value >= 0.0
  }

  /** Bounds on single prices and put spreads: a put costs at most its strike, a call at most the spot
      (both more for a negative strike), and a put spread at most its width. */
  ghost predicate PriceBounds(m: Pricing) {
    && (forall s, k, t, rv :: s >= 0.0 && rv >= 0.0 ==> 0.0 <= m.price(s, k, t, rv, Put) <= Max(0.0, k))
    && (forall s, k, t, rv :: s >= 0.0 && rv >= 0.0 ==> m.price(s, k, t, rv, Call) <= s + Max(0.0, -k))
    && (forall s, j, k, t, rv :: s >= 0.0 && rv >= 0.0 && j <= k ==>
          m.price(s, k, t, rv, Put) - m.price(s, j, t, rv, Put) <= k - j)
  }

  ghost predicate Floor(legs: seq<Leg>, floor: real) {
    forall p :: p >= 0.0 ==> floor <= Payoff(legs, p)
  }

  /** A condor is not priced below what it must be worth at expiry, whatever the price then. */
  ghost predicate CondorsPriced(m: Pricing) {
    forall legs, floor, s, t, rv ::
      Shaped(IronCondor, legs, NoStock) && floor <= 0.0 && Floor(legs, floor) && s >= 0.0 && t >= 0.0 && rv >= 0.0 ==>
        floor <= LegsValue(legs, m, s, t, rv)
  }

  /** What is asked of the pricer, by archetype. */
  ghost predicate MarksBounded(a: Archetype, m: Pricing) {
    VolNonnegative(m) && if a.IronCondor? then CondorsPriced(m) else PriceBounds(m)
  }

  /** Under those bounds no mark of a built structure, at any time and volatility, is below its defined
      risk. */
  lemma EveryMarkBounded(a: Archetype, st: Structure, m: Pricing, spot: real, day: Day, rv: real)
    requires MarksBounded(a, m) && WellOpened(st) && Shaped(a, st.legs, st.stock) && spot >= 0.0 && rv >= 0.0
    ensures MarkOf(st, m, spot, day, rv) >= -st.maxLoss
  {
    hide MaxLoss, PriceBounds, CondorsPriced, VolNonnegative, IsPutSpread, IsCallSpread, MarkOf;
    match a
    case CashSecuredPut => PutMarkBounded(st, m, spot, day, rv);
    case CoveredCall => CallMarkBounded(st, m, spot, day, rv);
    case VerticalSpread => SpreadMarkBounded(st, m, spot, day, rv);
    case IronCondor => CondorMarkBounded(st, m, spot, day, rv);
  }

  lemma PutMarkBounded(st: Structure, m: Pricing, spot: real, day: Day, rv: real)
    requires PriceBounds(m) && WellOpened(st) && Shaped(CashSecuredPut, st.legs, st.stock) && spot >= 0.0 && rv >= 0.0
    ensures MarkOf(st, m, spot, day, rv) >= -st.maxLoss
  {
    WorstCase(st.legs, st.credit, st.stock, 0.0);
    hide MaxLoss;
    assert st.legs[1..] == [] && st.legs[..0] == [];
    assert Payoff(st.legs, 0.0) == -Max(0.0, st.legs[0].strike);
    var t := Years(st.expiry - day);
    assert LegsValue(st.legs, m, spot, t, rv) == -m.price(spot, st.legs[0].strike, t, rv, Put);
  }

  lemma CallMarkBounded(st: Structure, m: Pricing, spot: real, day: Day, rv: real)
    requires PriceBounds(m) && WellOpened(st) && Shaped(CoveredCall, st.legs, st.stock) && spot >= 0.0 && rv >= 0.0
    ensures MarkOf(st, m, spot, day, rv) >= -st.maxLoss
  {
    WorstCase(st.legs, st.credit, st.stock, 0.0);
    hide MaxLoss;
    assert st.legs[1..] == [] && st.legs[..0] == [];
    assert Payoff(st.legs, 0.0) == -Max(0.0, -st.legs[0].strike);
    var t := Years(st.expiry - day);
    assert LegsValue(st.legs, m, spot, t, rv) == -m.price(spot, st.legs[0].strike, t, rv, Call);
  }

  lemma TwoLegs(legs: seq<Leg>, m: Pricing, spot: real, t: real, rv: real, p: real)
    requires |legs| == 2 && IsPutSpread(legs[0], legs[1])
    ensures Payoff(legs, p) == Intrinsic(p, legs[1].strike, Put) - Intrinsic(p, legs[0].strike, Put)
    ensures LegsValue(legs, m, spot, t, rv) ==
              m.price(spot, legs[1].strike, t, rv, Put) - m.price(spot, legs[0].strike, t, rv, Put)
  {
    assert legs[1..][1..] == [] && legs[..1][..0] == [];
    assert Payoff(legs[1..], p) == Intrinsic(p, legs[1].strike, Put);
    assert LegsValue(legs[..1], m, spot, t, rv) == -m.price(spot, legs[0].strike, t, rv, Put);
    hide Intrinsic;
  }

  lemma SpreadMarkBounded(st: Structure, m: Pricing, spot: real, day: Day, rv: real)
    requires PriceBounds(m) && WellOpened(st) && Shaped(VerticalSpread, st.legs, st.stock) && spot >= 0.0 && rv >= 0.0
    ensures MarkOf(st, m, spot, day, rv) >= -st.maxLoss
  {
    var t, j, k := Years(st.expiry - day), st.legs[1].strike, st.legs[0].strike;
    WorstCase(st.legs, st.credit, st.stock, Max(0.0, j));
    TwoLegs(st.legs, m, spot, t, rv, Max(0.0, j));
    hide MaxLoss, LegsValue, Payoff;
    assert m.price(spot, k, t, rv, Put) - m.price(spot, j, t, rv, Put) <= k - j;
    assert m.price(spot, k, t, rv, Put) - m.price(spot, j, t, rv, Put) <= Max(0.0, k) - 0.0;
  }

  lemma CondorMarkBounded(st: Structure, m: Pricing, spot: real, day: Day, rv: real)
    requires CondorsPriced(m) && WellOpened(st) && Shaped(IronCondor, st.legs, st.stock) && spot >= 0.0 && rv >= 0.0
    ensures MarkOf(st, m, spot, day, rv) >= -st.maxLoss
  {
    var floor := -st.credit - st.maxLoss / 100.0;
    forall p | p >= 0.0 ensures floor <= Payoff(st.legs, p) {
      WorstCase(st.legs, st.credit, st.stock, p);
    }
    hide MaxLoss, Payoff;
    assert Floor(st.legs, floor) && floor <= 0.0 && Years(st.expiry - day) >= 0.0;
    assert floor <= LegsValue(st.legs, m, spot, Years(st.expiry - day), rv);
  }

  /** Intrinsic value at all times meets every one of them. */
  lemma IntrinsicPricerQualifies(m: Pricing)
    requires forall s, k, t, rv, right :: m.price(s, k, t, rv, right) == Intrinsic(s, k, right)
    requires VolNonnegative(m)
    ensures IntrinsicAtExpiry(m) && forall a :: MarksBounded(a, m)
  {
    forall legs, floor, s, t, rv |
      Shaped(IronCondor, legs, NoStock) && floor <= 0.0 && Floor(legs, floor) && s >= 0.0 && t >= 0.0 && rv >= 0.0
      ensures floor <= LegsValue(legs, m, s, t, rv)
    {
      SingleHaveNoExcess(legs, s);
      ValueIsPayoff(legs, m, s, t, rv);
    }
    assert CondorsPriced(m);
    assert PriceBounds(m);
    hide CondorsPriced, PriceBounds, VolNonnegative;
  }

  // ---------------------------------------------------------------- condors

  /** What it costs to buy both spreads back. */
  function BuyBack(legs: seq<Leg>, m: Pricing, spot: real, t: real, rv: real): real
    requires |legs| == 4
  {
    (m.price(spot, legs[0].strike, t, rv, Put) - m.price(spot, legs[1].strike, t, rv, Put))
    + (m.price(spot, legs[2].strike, t, rv, Call) - m.price(spot, legs[3].strike, t, rv, Call))
  }

  function WiderWing(legs: seq<Leg>): real
    requires |legs| == 4
  {
    Max(legs[0].strike - legs[1].strike, legs[3].strike - legs[2].strike)
  }

  lemma FourLegs(legs: seq<Leg>, m: Pricing, spot: real, t: real, rv: real, p: real)
    requires Shaped(IronCondor, legs, NoStock)
    ensures Payoff(legs, p) ==
              Intrinsic(p, legs[1].strike, Put) - Intrinsic(p, legs[0].strike, Put)
              + Intrinsic(p, legs[3].strike, Call) - Intrinsic(p, legs[2].strike, Call)
    ensures LegsValue(legs, m, spot, t, rv) == -BuyBack(legs, m, spot, t, rv)
  {
    assert legs[1..][1..] == legs[2..] && legs[2..][1..] == [legs[3]] && [legs[3]][1..] == [];
    assert Payoff([legs[3]], p) == Intrinsic(p, legs[3].strike, Call);
    assert Payoff(legs[2..], p) == Intrinsic(p, legs[3].strike, Call) - Intrinsic(p, legs[2].strike, Call);
    assert Payoff(legs[1..], p) == LegPayoff(legs[1], p) + Payoff(legs[2..], p);
    assert legs[..3][..2] == legs[..2] && legs[..2][..1] == legs[..1] && legs[..1][..0] == [];
    assert LegsValue(legs[..1], m, spot, t, rv) == -m.price(spot, legs[0].strike, t, rv, Put);
    assert LegsValue(legs[..2], m, spot, t, rv) ==
           m.price(spot, legs[1].strike, t, rv, Put) - m.price(spot, legs[0].strike, t, rv, Put);
    hide Intrinsic;
  }

  /** The puts below the calls, no strike negative. */
  predicate InOrder(legs: seq<Leg>)
    requires |legs| == 4
  {
    0.0 <= legs[1].strike && legs[0].strike <= legs[2].strike
  }

  /** The most a condor can cost at expiry is its wider wing, and it can. */
  lemma CondorWorst(legs: seq<Leg>, m: Pricing) returns (worst: real)
    requires Shaped(IronCondor, legs, NoStock) && InOrder(legs)
    ensures forall p :: p >= 0.0 ==> Payoff(legs, p) >= -WiderWing(legs)
    ensures worst >= 0.0 && Payoff(legs, worst) == -WiderWing(legs)
  {
    hide LegsValue, Payoff, BuyBack;
    worst := if WiderWing(legs) == legs[0].strike - legs[1].strike then 0.0 else legs[3].strike;
    FourLegs(legs, m, 0.0, 0.0, 0.0, worst);
    forall p | p >= 0.0 ensures Payoff(legs, p) >= -WiderWing(legs) {
      FourLegs(legs, m, 0.0, 0.0, 0.0, p);
    }
  }

  /** Exactly when the mark of a condor is within its defined risk: when buying it back costs no more
      than its wider wing, as four quotes tell. */
  lemma CondorMarkIff(st: Structure, m: Pricing, spot: real, day: Day, rv: real)
    requires WellOpened(st) && Shaped(IronCondor, st.legs, st.stock) && InOrder(st.legs)
    ensures MarkOf(st, m, spot, day, rv) >= -st.maxLoss <==>
              BuyBack(st.legs, m, spot, Years(st.expiry - day), rv) <= WiderWing(st.legs)
  {
    assert st.stock == NoStock;
    hide MaxLoss, LegsValue, Payoff, BuyBack, WiderWing, InOrder, Shaped, WellOpened;
    CondorStrikes(st.legs);
    MarkWithinIff(st, m, spot, day, rv);
    FourLegs(st.legs, m, spot, Years(st.expiry - day), rv, 0.0);
    var worst := CondorWorst(st.legs, m);
    if BuyBack(st.legs, m, spot, Years(st.expiry - day), rv) <= WiderWing(st.legs) {
      assert PnlPerContract(st.legs, st.credit, st.stock, worst) <= MarkOf(st, m, spot, day, rv);
    }
  }

  lemma CondorStrikes(legs: seq<Leg>)
    requires Shaped(IronCondor, legs, NoStock) && InOrder(legs)
    ensures forall x :: x in Strikes(legs, NoStock) ==> x >= 0.0
  {
    forall x | x in Strikes(legs, NoStock) ensures x >= 0.0 {
      var i :| 0 <= i < |Strikes(legs, NoStock)| && Strikes(legs, NoStock)[i] == x;
    }
  }
}
