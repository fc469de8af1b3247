/** When a structure is opened, and on what terms. */
module OptionTerms {
  import opened Prelude
  import opened OptionRisk
  import opened OptionStructures

  /** The strike is what the search found for the delta, to half a cent. */
  ghost predicate FoundStrike(m: Pricing, strike: real, spot: real, years: real, rv: real, right: Right, delta: real) {
    var k := m.strikeFor(spot, years, rv, right, delta);
    k.Some? && Abs(strike - k.value) <= 0.005
  }

  /** The wing is the width away, to half a cent. */
  predicate WidthApart(low: real, high: real, width: real) {
    Abs(high - low - width) <= 0.005
  }

  /** The terms of an opened structure: shorts at the strikes of the delta, wings a width beyond, the stock of
      a covered call at the spot, and what the shorts sell for less what the longs cost as credit. */
  lemma TermsAre(s: Spec, m: Pricing, spot: real, day: Day, rv: real, years: real)
    requires OpenStructure(s, m, spot, day, rv).Some? && years * 365.0 == s.dte as real
    ensures var st := OpenStructure(s, m, spot, day, rv).value;
            && st.expiry - day == s.dte
            && match s.archetype {
              case CashSecuredPut =>
                && |st.legs| == 1 && FoundStrike(m, st.legs[0].strike, spot, years, rv, Put, s.shortDelta)
                && st.credit == m.price(spot, st.legs[0].strike, years, rv, Put)
              case CoveredCall =>
                && |st.legs| == 1 && FoundStrike(m, st.legs[0].strike, spot, years, rv, Call, s.shortDelta)
                && st.credit == m.price(spot, st.legs[0].strike, years, rv, Call) && st.stock == Held(spot)
              case VerticalSpread =>
                && |st.legs| == 2 && FoundStrike(m, st.legs[0].strike, spot, years, rv, Put, s.shortDelta)
                && WidthApart(st.legs[1].strike, st.legs[0].strike, s.width)
                && st.credit == m.price(spot, st.legs[0].strike, years, rv, Put)
                                - m.price(spot, st.legs[1].strike, years, rv, Put)
              case IronCondor =>
                && |st.legs| == 4 && FoundStrike(m, st.legs[0].strike, spot, years, rv, Put, s.shortDelta)
                && FoundStrike(m, st.legs[2].strike, spot, years, rv, Call, s.shortDelta)
                && WidthApart(st.legs[1].strike, st.legs[0].strike, s.width)
                && WidthApart(st.legs[2].strike, st.legs[3].strike, s.width)
                && st.credit == m.price(spot, st.legs[0].strike, years, rv, Put)
                                - m.price(spot, st.legs[1].strike, years, rv, Put)
                                + m.price(spot, st.legs[2].strike, years, rv, Call)
                                - m.price(spot, st.legs[3].strike, years, rv, Call)
            }
  {
    assert years == s.dte as real / 365.0;
    var put, call := m.strikeFor(spot, years, rv, Put, s.shortDelta), m.strikeFor(spot, years, rv, Call, s.shortDelta);
    CentsNear(put.GetOr(0.0));
    CentsNear(call.GetOr(0.0));
    CentsNear(RoundCents(put.GetOr(0.0)) - s.width);
    CentsNear(RoundCents(call.GetOr(0.0)) + s.width);
    hide RoundCents, MaxLoss, LegsValue;
    var legs := OpenStructure(s, m, spot, day, rv).value.legs;
    if |legs| == 1 {
      ValueOfOne(legs, m, spot, years, rv);
    } else if |legs| == 2 {
      ValueOfTwo(legs, m, spot, years, rv);
    } else {
      ValueOfFour(legs, m, spot, years, rv);
    }
  }

  lemma CentsNear(x: real)
    ensures Abs(RoundCents(x) - x) <= 0.005
  {
    RoundCentsNear(x);
    hide RoundCents;
  }

  /** What one leg adds to what a structure costs to buy back. */
  function Signed(l: Leg, m: Pricing, spot: real, t: real, rv: real): real {
    if l.long then m.price(spot, l.strike, t, rv, l.right) else -m.price(spot, l.strike, t, rv, l.right)
  }

  lemma ValueOfOne(legs: seq<Leg>, m: Pricing, spot: real, t: real, rv: real)
    requires |legs| == 1
    ensures LegsValue(legs, m, spot, t, rv) == Signed(legs[0], m, spot, t, rv)
  {
    assert legs[..0] == [];
  }

  lemma ValueOfTwo(legs: seq<Leg>, m: Pricing, spot: real, t: real, rv: real)
    requires |legs| == 2
    ensures LegsValue(legs, m, spot, t, rv) == Signed(legs[0], m, spot, t, rv) + Signed(legs[1], m, spot, t, rv)
  {
    ValueOfOne(legs[..1], m, spot, t, rv);
  }

  lemma ValueOfFour(legs: seq<Leg>, m: Pricing, spot: real, t: real, rv: real)
    requires |legs| == 4
    ensures LegsValue(legs, m, spot, t, rv) ==
              Signed(legs[0], m, spot, t, rv) + Signed(legs[1], m, spot, t, rv)
              + Signed(legs[2], m, spot, t, rv) + Signed(legs[3], m, spot, t, rv)
  {
    assert legs[..3][..2] == legs[..2];
    ValueOfTwo(legs[..2], m, spot, t, rv);
  }

  /** A structure is opened exactly when its strikes are found, it earns a credit, and it can lose something
      at expiry. */
  lemma OpensIff(s: Spec, m: Pricing, spot: real, day: Day, rv: real)
    requires LegsFor(s, m, spot, rv).Some?
    requires var (legs, stock) := LegsFor(s, m, spot, rv).value; forall x :: x in Strikes(legs, stock) ==> x >= 0.0
    ensures var (legs, stock) := LegsFor(s, m, spot, rv).value;
            var credit := -LegsValue(legs, m, spot, s.dte as real / 365.0, rv);
            OpenStructure(s, m, spot, day, rv).Some? <==>
              credit > 0.0 && exists p :: p >= 0.0 && PnlPerContract(legs, credit, stock, p) < 0.0
  {
    var (legs, stock) := LegsFor(s, m, spot, rv).value;
    var credit := -LegsValue(legs, m, spot, s.dte as real / 365.0, rv);
    hide *;
    LegsAreDefinedRisk(s, m, spot, rv);
    OpenedWhen(s, m, spot, day, rv);
    LosesIff(legs, credit, stock);
  }

  lemma OpenedWhen(s: Spec, m: Pricing, spot: real, day: Day, rv: real)
    requires LegsFor(s, m, spot, rv).Some?
    ensures var (legs, stock) := LegsFor(s, m, spot, rv).value;
            var credit := -LegsValue(legs, m, spot, s.dte as real / 365.0, rv);
            OpenStructure(s, m, spot, day, rv).Some? <==>
              credit > 0.0 && MaxLoss(legs, credit, stock).Bounded? && MaxLoss(legs, credit, stock).amount > 0.0
  {
    hide MaxLoss, LegsFor, LegsValue;
  }

  lemma LosesIff(legs: seq<Leg>, credit: real, stock: Stock)
    requires Slope(legs, stock) == 0 && forall x :: x in Strikes(legs, stock) ==> x >= 0.0
    ensures MaxLoss(legs, credit, stock).Bounded?
    ensures MaxLoss(legs, credit, stock).amount > 0.0 <==>
              exists p :: p >= 0.0 && PnlPerContract(legs, credit, stock, p) < 0.0
  {
    hide MaxLoss, PnlPerContract, Slope, Strikes, Rise;
    FlatIsBounded(legs, credit, stock);
    var most := MaxLoss(legs, credit, stock).amount;
    forall p | p >= 0.0 ensures PnlPerContract(legs, credit, stock, p) >= -most {
      WorstCase(legs, credit, stock, p);
    }
    if most > 0.0 {
      WorstCaseAttained(legs, credit, stock);
      var p :| p >= 0.0 && PnlPerContract(legs, credit, stock, p) == -most;
    }
  }

  lemma FlatIsBounded(legs: seq<Leg>, credit: real, stock: Stock)
    requires Slope(legs, stock) == 0 && forall x :: x in Strikes(legs, stock) ==> x >= 0.0
    ensures MaxLoss(legs, credit, stock).Bounded?
  {
    assert TopStrike(legs, stock) >= 0.0;
    hide MaxLoss, Slope, TopStrike;
    DetectionIff(legs, credit, stock);
    RiseSign(0, TopStrike(legs, stock));
  }
}
