/** Backtesting one defined-risk option structure at a time over daily bars. */
module OptionsBacktest {
  import opened Prelude
  import opened OptionRisk
  import opened OptionStructures
  import opened Drawdown

  datatype DailyBar = DailyBar(day: Day, close: real)

  datatype Reason = Expiry | ProfitTarget | CloseAtDte | EodClose

  /** `maxLoss` is the defined risk of one contract, `risk` that of all of them. */
  datatype Trade = Trade(pnl: real, credit: real, reason: Reason, contracts: int, maxLoss: real, risk: real)

  datatype Report = Report(trades: seq<Trade>, cash: real, maxDrawdown: real, settled: int, assignments: int)

  function BudgetPct(s: Spec): real {
    if s.archetype.CashSecuredPut? || s.archetype.CoveredCall? then s.allocPct else s.riskPct
  }

  function Budget(s: Spec, cash: real): real {
    BudgetPct(s) * cash
  }

  function RiskOf(st: Structure): real {
    Times(st.maxLoss, st.contracts)
  }

  /** A figure per contract times the number of contracts. */
  function Times(x: real, n: int): real {
    x * n as real
  }

  lemma TimesSign(x: real, loss: real, n: int)
    requires n >= 1
    ensures x >= -loss ==> Times(x, n) >= -Times(loss, n)
    ensures x > 0.0 ==> Times(x, n) > 0.0
  {
    if x >= -loss {
      assert (x + loss) * n as real >= 0.0;
    }
  }

  function Contracts(budget: real, maxLoss: real): int {
    if maxLoss > 0.0 then (budget / maxLoss).Floor else 0
  }

  predicate ShortLegItm(legs: seq<Leg>, spot: real) {
    exists l :: l in legs && !l.long && if l.right.Call? then spot > l.strike else spot < l.strike
  }

  function Closes(bars: seq<DailyBar>): seq<real> {
    seq(|bars|, i requires 0 <= i < |bars| => bars[i].close)
  }

  predicate NonnegativeCloses(bars: seq<DailyBar>) {
    forall b :: b in bars ==> b.close >= 0.0
  }

  const RV_WINDOW := 20

  /** Cash after the given trades. */
  function CashAfter(start: real, trades: seq<Trade>): real
    decreases |trades|
  {
    if |trades| == 0 then start
    else CashAfter(start, trades[..|trades| - 1]) + trades[|trades| - 1].pnl
  }

  /** A positive risk within the structure's share of the cash. */
  predicate Affordable(s: Spec, cash: real, risk: real) {
    0.0 < risk <= Budget(s, cash)
  }

  /** Each trade risked at most its share of the cash it was opened with. */
  ghost predicate WithinBudget(s: Spec, start: real, trades: seq<Trade>) {
    forall k :: 0 <= k < |trades| ==> Affordable(s, CashAfter(start, trades[..k]), trades[k].risk)
  }

  /** The contracts fit the given share of the cash, and one more would not. */
  predicate FitsShare(share: real, cash: real, maxLoss: real, contracts: int) {
    && contracts >= 1 && maxLoss > 0.0
    && maxLoss * contracts as real <= share * cash < maxLoss * (contracts + 1) as real
  }

  /** What ties up collateral takes the allocation's share of the cash, spreads the risk budget's. */
  function ShareFor(s: Spec): real {
    match s.archetype
    case CashSecuredPut => s.allocPct
    case CoveredCall => s.allocPct
    case VerticalSpread => s.riskPct
    case IronCondor => s.riskPct
  }

  predicate SizedFor(s: Spec, cash: real, maxLoss: real, contracts: int) {
    FitsShare(ShareFor(s), cash, maxLoss, contracts)
  }

  /** Each trade was sized on the cash as it was when it opened. */
  ghost predicate SizedTrades(s: Spec, start: real, trades: seq<Trade>) {
    forall k :: 0 <= k < |trades| ==> SizedTrade(s, CashAfter(start, trades[..k]), trades[k])
  }

  predicate SizedTrade(s: Spec, cash: real, t: Trade) {
    SizedFor(s, cash, t.maxLoss, t.contracts) && t.risk == t.maxLoss * t.contracts as real
  }

  lemma SizedIff(s: Spec, cash: real, maxLoss: real, n: int)
    requires maxLoss > 0.0 && n >= 1
    ensures SizedFor(s, cash, maxLoss, n) <==> n == Contracts(Budget(s, cash), maxLoss)
  {
    ContractsWithinBudget(Budget(s, cash), maxLoss);
    var k := Contracts(Budget(s, cash), maxLoss);
    assert SizedFor(s, cash, maxLoss, n) <==> Times(maxLoss, n) <= Budget(s, cash) < Times(maxLoss, n + 1);
    hide SizedFor, FitsShare, Contracts, Budget;
    if n < k {
      ScaleMonotone(maxLoss, (n + 1) as real, k as real);
    } else if n > k {
      ScaleMonotone(maxLoss, (k + 1) as real, n as real);
    }
  }

  predicate WithinRisk(trades: seq<Trade>) {
    forall t :: t in trades ==> t.pnl >= -t.risk
  }

  predicate SettledWithinRisk(trades: seq<Trade>) {
    forall t :: t in trades ==>
      && (t.reason.Expiry? ==> t.pnl >= -t.risk)
      && (t.reason.ProfitTarget? ==> t.pnl > 0.0)
  }

  ghost predicate NeverNegative(start: real, trades: seq<Trade>) {
    forall k :: 0 <= k <= |trades| ==> CashAfter(start, trades[..k]) >= 0.0
  }

  lemma ContractsWithinBudget(budget: real, maxLoss: real)
    requires maxLoss > 0.0
    ensures Times(maxLoss, Contracts(budget, maxLoss)) <= budget < Times(maxLoss, Contracts(budget, maxLoss) + 1)
  {
    FloorOfQuotient(budget, maxLoss);
  }

  /** A trade that loses at most what it risked leaves cash non-negative. */
  lemma {:induction false} Solvent(s: Spec, start: real, trades: seq<Trade>)
    requires ValidStructure(s) && start >= 0.0
    requires WithinBudget(s, start, trades) && WithinRisk(trades)
    ensures NeverNegative(start, trades)
    decreases |trades|
  {
    hide Affordable, ValidStructure, CashAfter;
    if |trades| > 0 {
      var init, t := trades[..|trades| - 1], trades[|trades| - 1];
      InitWithin(s, start, trades);
      Solvent(s, start, init);
      assert t in trades && trades[..|init|] == init && init[..|init|] == init;
      assert Affordable(s, CashAfter(start, trades[..|init|]), trades[|init|].risk);
      RiskWithinCash(s, CashAfter(start, init), t.risk);
      LastTrade(start, trades);
      forall k | 0 <= k <= |trades| ensures CashAfter(start, trades[..k]) >= 0.0 {
        if k == |trades| {
          assert trades[..k] == trades;
        } else {
          assert init[..k] == trades[..k];
        }
      }
    } else {
      LastTrade(start, trades);
      assert trades[..0] == trades;
    }
  }

  lemma LastTrade(start: real, trades: seq<Trade>)
    ensures CashAfter(start, trades) ==
              if |trades| == 0 then start
              else CashAfter(start, trades[..|trades| - 1]) + trades[|trades| - 1].pnl
  {
  }

  lemma InitWithin(s: Spec, start: real, trades: seq<Trade>)
    requires |trades| > 0 && WithinBudget(s, start, trades) && WithinRisk(trades)
    ensures WithinBudget(s, start, trades[..|trades| - 1]) && WithinRisk(trades[..|trades| - 1])
  {
    hide Affordable;
    var init := trades[..|trades| - 1];
    forall k | 0 <= k < |init| ensures Affordable(s, CashAfter(start, init[..k]), init[k].risk) {
      assert init[k] == trades[k] && init[..k] == trades[..k];
    }
    forall u | u in init ensures u in trades {}
  }

  lemma RiskWithinCash(s: Spec, cash: real, risk: real)
    requires ValidStructure(s) && cash >= 0.0 && Affordable(s, cash, risk)
    ensures risk <= cash
  {
    ShareOfCash(BudgetPct(s), cash);
  }

  lemma ShareOfCash(pct: real, cash: real)
    requires 0.0 < pct <= 1.0 && cash >= 0.0
    ensures pct * cash <= cash
  {
  }

  // ---------------------------------------------------------------- one day, and the whole run

  /** `marks` is history kept by the model; the program keeps its peak and its worst drop. */
  datatype DayState = DayState(
    cash: real, marks: seq<real>, trades: seq<Trade>, settled: int, assignments: int, pos: Option<Structure>)

  function CloseReason(s: Spec, daysLeft: int, pnl: real, maxCredit: real): Option<Reason> {
    if daysLeft <= 0 then Some(Expiry)
    else if s.profitTarget.Some? && pnl >= s.profitTarget.value * maxCredit then Some(ProfitTarget)
    else if s.closeAtDte > 0 && daysLeft <= s.closeAtDte then Some(CloseAtDte)
    else None
  }

  function MaxCredit(st: Structure): real {
    Times(st.credit * 100.0, st.contracts)
  }

  /** Open as many structures as the budget's floor allows, if any. */
  function Opened(s: Spec, m: Pricing, bar: DailyBar, rv: real, cash: real): Option<Structure> {
    var st := OpenStructure(s, m, bar.close, bar.day, rv);
    if st.None? then None
    else
      var n := Contracts(Budget(s, cash), st.value.maxLoss);
      if n <= 0 then None else Some(st.value.(contracts := n))
  }

  function TradeOf(st: Structure, pnl: real, reason: Reason): Trade {
    Trade(pnl, MaxCredit(st), reason, st.contracts, st.maxLoss, RiskOf(st))
  }

  /** A day with an open structure: mark it, then settle, take profit, close early, or keep it. */
  function Manage(s: Spec, m: Pricing, d: DayState, st: Structure, bar: DailyBar, rv: real): DayState {
    var pnl := Times(MarkOf(st, m, bar.close, bar.day, rv), st.contracts);
    var daysLeft := st.expiry - bar.day;
    var reason := CloseReason(s, daysLeft, pnl, MaxCredit(st));
    var expired := daysLeft <= 0;
    var closed := reason.Some?;
    DayState(if closed then d.cash + pnl else d.cash, d.marks + [d.cash + pnl],
             if closed then d.trades + [TradeOf(st, pnl, reason.value)] else d.trades,
             d.settled + (if expired then 1 else 0),
             d.assignments + (if expired && ShortLegItm(st.legs, bar.close) then 1 else 0),
             if closed then None else Some(st))
  }

  /** Volatility is taken from the closes up to this day. */
  function OnDay(s: Spec, m: Pricing, bars: seq<DailyBar>, i: nat, d: DayState): DayState
    requires i < |bars|
  {
    var rv := m.realizedVol(Closes(bars[..i + 1]));
    if rv.None? then d
    else if d.pos.None? then d.(pos := Opened(s, m, bars[i], rv.value, d.cash))
    else Manage(s, m, d, d.pos.value, bars[i], rv.value)
  }

  /** The state after the first `n` bars. */
  function Days(s: Spec, m: Pricing, bars: seq<DailyBar>, start: real, n: nat): DayState
    requires n <= |bars|
  {
    if n <= RV_WINDOW + 1 then DayState(start, [], [], 0, 0, None)
    else OnDay(s, m, bars, n - 1, Days(s, m, bars, start, n - 1))
  }

  /** A structure still open is closed at the last bar. */
  function CloseOut(m: Pricing, bars: seq<DailyBar>, d: DayState): DayState {
    if d.pos.None? || |bars| <= RV_WINDOW + 1 then d
    else
      var st, last := d.pos.value, bars[|bars| - 1];
      var rv := m.realizedVol(Closes(bars)).GetOr(0.2);
      var pnl := Times(MarkOf(st, m, last.close, last.day, if rv == 0.0 then 0.2 else rv), st.contracts);
      d.(cash := d.cash + pnl, trades := d.trades + [TradeOf(st, pnl, EodClose)])
  }

  function Final(s: Spec, m: Pricing, bars: seq<DailyBar>, start: real): DayState {
    CloseOut(m, bars, Days(s, m, bars, start, |bars|))
  }

  /** Mark the open structure and settle, close or keep it. */
  method ManageDay(s: Spec, m: Pricing, st: Structure, bar: DailyBar, rv: real, cash: real, trades: seq<Trade>,
                   settled: int, assignments: int, ghost marks: seq<real>)
    returns (cash': real, trades': seq<Trade>, settled': int, assignments': int, pos': Option<Structure>, equity: real)
    ensures DayState(cash', marks + [equity], trades', settled', assignments', pos')
              == Manage(s, m, DayState(cash, marks, trades, settled, assignments, Some(st)), st, bar, rv)
  {
    hide MarkOf, ShortLegItm, Times, CloseReason, TradeOf, MaxCredit;
    cash', trades', settled', assignments', pos' := cash, trades, settled, assignments, Some(st);
    var pnlPc := Mark(st, m, bar.close, bar.day, rv);
    var pnl := Times(pnlPc, st.contracts);
    equity := cash + pnl;
    var daysLeft := st.expiry - bar.day;
    if daysLeft <= 0 {
      settled' := settled + 1;
      if ShortLegItm(st.legs, bar.close) {
        assignments' := assignments + 1;
      }
    }
    var reason := CloseReason(s, daysLeft, pnl, MaxCredit(st));
    if reason.Some? {
      cash' := cash + pnl;
      trades' := trades + [TradeOf(st, pnl, reason.value)];
      pos' := None;
    }
  }

  /** Replay a structure over daily bars. */
  method BacktestStructure(s: Spec, m: Pricing, bars: seq<DailyBar>, startingCash: real) returns (r: Report)
    ensures var d := Final(s, m, bars, startingCash);
            r == Report(d.trades, d.cash, MaxDrop(startingCash, d.marks), d.settled, d.assignments)
  {
    hide MarkOf, Opened, Manage, Times, TradeOf, Closes;
    var cash, peak, maxDd := startingCash, startingCash, 0.0;
    var trades: seq<Trade> := [];
    var assignments, settled := 0, 0;
    var pos: Option<Structure> := None;
    ghost var marks: seq<real> := [];
    var i := RV_WINDOW + 1;
    while i < |bars|
      invariant i > RV_WINDOW && (i <= |bars| || i == RV_WINDOW + 1)
      invariant Days(s, m, bars, startingCash, if i <= |bars| then i else |bars|)
                  == DayState(cash, marks, trades, settled, assignments, pos)
      invariant peak == Peak(startingCash, marks) && maxDd == MaxDrop(startingCash, marks)
      decreases |bars| - i
    {
      var bar := bars[i];
      var rv := m.realizedVol(Closes(bars[..i + 1]));
      i := i + 1;
      if rv.None? {
        continue;
      }
      if pos.None? {
        pos := TryOpen(s, m, bar, rv.value, cash);
        continue;
      }
      var equity;
      cash, trades, settled, assignments, pos, equity :=
        ManageDay(s, m, pos.value, bar, rv.value, cash, trades, settled, assignments, marks);
      peak, maxDd := MarkEquity(startingCash, marks, peak, maxDd, equity);
      marks := marks + [equity];
    }
    if pos.Some? && |bars| > RV_WINDOW + 1 {
      var last := bars[|bars| - 1];
      var rv := m.realizedVol(Closes(bars)).GetOr(0.2);
      var pnlPc := Mark(pos.value, m, last.close, last.day, if rv == 0.0 then 0.2 else rv);
      var pnl := Times(pnlPc, pos.value.contracts);
      trades := trades + [TradeOf(pos.value, pnl, EodClose)];
      cash := cash + pnl;
    }
    r := Report(trades, cash, maxDd, settled, assignments);
  }

  /** Ratchet the peak and the worst drop with one more equity mark. */
  method MarkEquity(ghost start: real, ghost marks: seq<real>, peak: real, maxDd: real, equity: real)
    returns (peak': real, maxDd': real)
    requires peak == Peak(start, marks) && maxDd == MaxDrop(start, marks)
    ensures peak' == Peak(start, marks + [equity]) && maxDd' == MaxDrop(start, marks + [equity])
  {
    assert (marks + [equity])[..|marks|] == marks;
    MaxDropNonnegative(start, marks);
    peak', maxDd' := Max(peak, equity), maxDd;
    if peak' > 0.0 {
      maxDd' := Max(maxDd, (peak' - equity) / peak');
    }
  }

  method TryOpen(s: Spec, m: Pricing, bar: DailyBar, rv: real, cash: real) returns (pos: Option<Structure>)
    ensures pos == Opened(s, m, bar, rv, cash)
  {
    hide Contracts, OpenStructure, Budget;
    var st := OpenStructure(s, m, bar.close, bar.day, rv);
    if st.None? {
      return None;
    }
    var n := Contracts(Budget(s, cash), st.value.maxLoss);
    if n <= 0 {
      return None;
    }
    return Some(st.value.(contracts := n));
  }

  // ---------------------------------------------------------------- what every day keeps

  /** As open_structure builds it for the spec. */
  ghost predicate Built(s: Spec, st: Structure) {
    WellOpened(st) && Shaped(s.archetype, st.legs, st.stock)
  }

  /** Cash is the start plus the trades, each trade was within its share of the cash it was opened
      with, settled trades are within their risk and with bounded marks all are, and an open structure
      is well formed and within its share of the cash. */
  ghost predicate Sound(s: Spec, m: Pricing, start: real, d: DayState) {
    && d.cash == CashAfter(start, d.trades) && WithinBudget(s, start, d.trades)
    && SettledWithinRisk(d.trades) && (MarksBounded(s.archetype, m) ==> WithinRisk(d.trades))
    && SizedTrades(s, start, d.trades)
    && (d.pos.Some? ==> Built(s, d.pos.value) && Carries(s, d.cash, d.pos.value))
    && 0 <= d.assignments <= d.settled <= |d.trades|
  }

  lemma SettledAppend(trades: seq<Trade>, t: Trade)
    requires SettledWithinRisk(trades)
    requires t.reason.Expiry? ==> t.pnl >= -t.risk
    requires t.reason.ProfitTarget? ==> t.pnl > 0.0
    ensures SettledWithinRisk(trades + [t])
    ensures WithinRisk(trades) && t.pnl >= -t.risk ==> WithinRisk(trades + [t])
  {
  }

  /** An open structure's total risk is positive and within its share of the cash. */
  ghost predicate Carries(s: Spec, cash: real, st: Structure) {
    st.contracts >= 1 && Affordable(s, cash, RiskOf(st)) && SizedFor(s, cash, st.maxLoss, st.contracts)
  }

  lemma OpenedCarries(s: Spec, cash: real, st: Structure, n: int)
    requires Built(s, st) && n == Contracts(Budget(s, cash), st.maxLoss) && n > 0
    ensures Built(s, st.(contracts := n)) && Carries(s, cash, st.(contracts := n))
  {
    hide MaxLoss, Times, Shaped, SizedFor;
    SizedIff(s, cash, st.maxLoss, n);
    ContractsWithinBudget(Budget(s, cash), st.maxLoss);
    TimesSign(st.maxLoss, 0.0, n);
  }

  lemma AddTrade(s: Spec, start: real, trades: seq<Trade>, t: Trade)
    requires WithinBudget(s, start, trades) && Affordable(s, CashAfter(start, trades), t.risk)
    ensures WithinBudget(s, start, trades + [t])
    ensures CashAfter(start, trades + [t]) == CashAfter(start, trades) + t.pnl
  {
    hide Affordable;
    var more := trades + [t];
    assert more[..|trades|] == trades;
    forall k | 0 <= k < |more| ensures Affordable(s, CashAfter(start, more[..k]), more[k].risk) {
      if k < |trades| {
        assert more[..k] == trades[..k];
      }
    }
  }

  lemma RiskIs(st: Structure)
    ensures RiskOf(st) == st.maxLoss * st.contracts as real
  {
  }

  lemma AddSized(s: Spec, start: real, trades: seq<Trade>, t: Trade)
    requires SizedTrades(s, start, trades) && SizedTrade(s, CashAfter(start, trades), t)
    ensures SizedTrades(s, start, trades + [t])
  {
    hide SizedTrade;
    var more := trades + [t];
    assert more[..|trades|] == trades;
    forall k | 0 <= k < |more| ensures SizedTrade(s, CashAfter(start, more[..k]), more[k]) {
      if k < |trades| {
        assert more[..k] == trades[..k];
      }
    }
  }

  lemma TradeOutcome(s: Spec, m: Pricing, st: Structure, spot: real, day: Day, rv: real, t: Trade)
    requires ValidStructure(s) && IntrinsicAtExpiry(m) && Built(s, st) && st.contracts >= 1
    requires VolNonnegative(m) ==> rv >= 0.0
    requires t.pnl == Times(MarkOf(st, m, spot, day, rv), st.contracts)
    requires t.risk == RiskOf(st)
    requires t.reason.Expiry? ==> day >= st.expiry
    requires t.reason.ProfitTarget? ==>
               s.profitTarget.Some? && t.pnl >= s.profitTarget.value * Times(st.credit * 100.0, st.contracts)
    ensures t.reason.Expiry? && spot >= 0.0 ==> t.pnl >= -t.risk
    ensures t.reason.ProfitTarget? ==> t.pnl > 0.0
    ensures MarksBounded(s.archetype, m) && spot >= 0.0 ==> t.pnl >= -t.risk
  {
    hide MarkOf, Times, MaxLoss, PriceBounds, CondorsPriced, VolNonnegative, Shaped, IntrinsicAtExpiry;
    if MarksBounded(s.archetype, m) && spot >= 0.0 {
      EveryMarkBounded(s.archetype, st, m, spot, day, rv);
      TimesSign(MarkOf(st, m, spot, day, rv), st.maxLoss, st.contracts);
    }
    if t.reason.Expiry? && spot >= 0.0 {
      SettlementBounded(st, m, spot, day, rv);
      TimesSign(MarkOf(st, m, spot, day, rv), st.maxLoss, st.contracts);
    }
    if t.reason.ProfitTarget? {
      TimesSign(st.credit * 100.0, 0.0, st.contracts);
      PositiveProduct(s.profitTarget.value, Times(st.credit * 100.0, st.contracts));
    }
  }

  lemma PositiveProduct(a: real, b: real)
    requires a > 0.0 && b > 0.0
    ensures a * b > 0.0
  {
  }

  lemma OpensSound(s: Spec, m: Pricing, start: real, d: DayState, bar: DailyBar, rv: real)
    requires ValidStructure(s) && Sound(s, m, start, d) && d.pos.None?
    ensures Sound(s, m, start, d.(pos := Opened(s, m, bar, rv, d.cash)))
  {
    hide WellOpened, Shaped, Affordable, WithinBudget, SettledWithinRisk, WithinRisk, MarksBounded;
    hide Contracts, OpenStructure, Budget, ValidStructure;
    var st := OpenStructure(s, m, bar.close, bar.day, rv);
    if st.Some? {
      OpenedStructures(s, m, bar.close, bar.day, rv);
      var n := Contracts(Budget(s, d.cash), st.value.maxLoss);
      if n > 0 {
        OpenedCarries(s, d.cash, st.value, n);
      }
    }
  }

  /** One closing trade keeps everything. */
  lemma TradeSound(s: Spec, m: Pricing, start: real, d: DayState, st: Structure, t: Trade, d': DayState)
    requires Sound(s, m, start, d) && d.pos == Some(st) && t.risk == RiskOf(st)
    requires t.maxLoss == st.maxLoss && t.contracts == st.contracts
    requires t.reason.Expiry? || MarksBounded(s.archetype, m) ==> t.pnl >= -t.risk
    requires t.reason.ProfitTarget? ==> t.pnl > 0.0
    requires d'.trades == d.trades + [t] && d'.cash == d.cash + t.pnl && d'.pos.None?
    requires 0 <= d'.assignments <= d'.settled <= |d'.trades|
    ensures Sound(s, m, start, d')
  {
    RiskIs(st);
    hide Built, Affordable, MarksBounded, SizedFor, RiskOf, WithinBudget, SettledWithinRisk, WithinRisk, SizedTrades;
    AddTrade(s, start, d.trades, t);
    AddSized(s, start, d.trades, t);
    SettledAppend(d.trades, t);
  }

  lemma ManageSound(s: Spec, m: Pricing, start: real, d: DayState, bar: DailyBar, rv: real)
    requires ValidStructure(s) && IntrinsicAtExpiry(m) && bar.close >= 0.0
    requires Sound(s, m, start, d) && d.pos.Some? && (VolNonnegative(m) ==> rv >= 0.0)
    ensures Sound(s, m, start, Manage(s, m, d, d.pos.value, bar, rv))
  {
    hide MarkOf, Times, ShortLegItm, IntrinsicAtExpiry, ValidStructure, WithinBudget, SettledWithinRisk, Built,
         Affordable, RiskOf, MarksBounded, VolNonnegative, WithinRisk;
    var st := d.pos.value;
    var pnl := Times(MarkOf(st, m, bar.close, bar.day, rv), st.contracts);
    var reason := CloseReason(s, st.expiry - bar.day, pnl, MaxCredit(st));
    if reason.Some? {
      var t := TradeOf(st, pnl, reason.value);
      TradeOutcome(s, m, st, bar.close, bar.day, rv, t);
      TradeSound(s, m, start, d, st, t, Manage(s, m, d, st, bar, rv));
    }
  }

  lemma {:induction false} DaysSound(s: Spec, m: Pricing, bars: seq<DailyBar>, start: real, n: nat)
    requires ValidStructure(s) && IntrinsicAtExpiry(m) && NonnegativeCloses(bars) && n <= |bars|
    ensures Sound(s, m, start, Days(s, m, bars, start, n))
  {
    hide Manage, Opened, Sound, ValidStructure, IntrinsicAtExpiry;
    assert VolNonnegative(m) && n > 0 && m.realizedVol(Closes(bars[..n])).Some? ==>
             m.realizedVol(Closes(bars[..n])).value >= 0.0;
    hide VolNonnegative;
    if n <= RV_WINDOW + 1 {
      StartSound(s, m, start);
    } else {
      DaysSound(s, m, bars, start, n - 1);
      var d := Days(s, m, bars, start, n - 1);
      var rv := m.realizedVol(Closes(bars[..n]));
      assert bars[n - 1] in bars;
      if rv.Some? && d.pos.None? {
        OpensSound(s, m, start, d, bars[n - 1], rv.value);
      } else if rv.Some? {
        ManageSound(s, m, start, d, bars[n - 1], rv.value);
      }
    }
  }

  lemma StartSound(s: Spec, m: Pricing, start: real)
    ensures Sound(s, m, start, DayState(start, [], [], 0, 0, None))
  {
  }

  lemma FinalSound(s: Spec, m: Pricing, bars: seq<DailyBar>, start: real)
    requires ValidStructure(s) && IntrinsicAtExpiry(m) && NonnegativeCloses(bars)
    ensures Sound(s, m, start, Final(s, m, bars, start).(pos := None))
  {
    assert VolNonnegative(m) ==> m.realizedVol(Closes(bars)).GetOr(0.2) >= 0.0;
    hide MarkOf, Times, Built, Affordable, RiskOf, WithinBudget, SettledWithinRisk, WithinRisk;
    hide IntrinsicAtExpiry, ValidStructure, MarksBounded, VolNonnegative;
    DaysSound(s, m, bars, start, |bars|);
    var d, f := Days(s, m, bars, start, |bars|), Final(s, m, bars, start);
    if f != d {
      var st, t, last := d.pos.value, f.trades[|d.trades|], bars[|bars| - 1];
      var rv := m.realizedVol(Closes(bars)).GetOr(0.2);
      assert last in bars;
      TradeOutcome(s, m, st, last.close, last.day, if rv == 0.0 then 0.2 else rv, t);
      TradeSound(s, m, start, d, st, t, f.(pos := None));
    }
  }

  /** The whole run stays solvent.  Every trade risked at most its share of the cash, every expiry
      settlement lost at most its risk, every profit-target close made money; and with a pricer that
      meets the archetype's bounds no trade lost more than its risk and flat cash never went negative. */
  lemma RunStaysSolvent(s: Spec, m: Pricing, bars: seq<DailyBar>, start: real)
    requires ValidStructure(s) && IntrinsicAtExpiry(m) && NonnegativeCloses(bars) && start >= 0.0
    ensures var d := Final(s, m, bars, start);
            && d.cash == CashAfter(start, d.trades)
            && WithinBudget(s, start, d.trades) && SettledWithinRisk(d.trades)
            && 0 <= d.assignments <= d.settled <= |d.trades|
            && (MarksBounded(s.archetype, m) ==>
                  WithinRisk(d.trades) && NeverNegative(start, d.trades) && d.cash >= 0.0)
  {
    FinalSound(s, m, bars, start);
    hide Final, WithinBudget, SettledWithinRisk, WithinRisk, MarksBounded;
    var d := Final(s, m, bars, start);
    if MarksBounded(s.archetype, m) {
      Solvent(s, start, d.trades);
      assert d.trades[..|d.trades|] == d.trades;
    }
  }

  /** How much a run may risk: each trade of a cash-secured put or covered call the allocation's share of
      the cash it was opened with, each of a spread or condor the risk budget's, rounded down to whole
      contracts and no further. */
  lemma TradesWithinShare(s: Spec, m: Pricing, bars: seq<DailyBar>, start: real, k: nat)
    requires ValidStructure(s) && IntrinsicAtExpiry(m) && NonnegativeCloses(bars)
    requires k < |Final(s, m, bars, start).trades|
    ensures var trades := Final(s, m, bars, start).trades;
            SizedTrade(s, CashAfter(start, trades[..k]), trades[k])
  {
    FinalSound(s, m, bars, start);
    hide Final, WithinBudget, SettledWithinRisk, WithinRisk, MarksBounded, SizedTrade;
  }

  /** On a day without a structure one is opened exactly when it can be built and one contract of it
      fits the share. */
  lemma OpensIff(s: Spec, m: Pricing, bar: DailyBar, rv: real, cash: real)
    ensures var st, pos := OpenStructure(s, m, bar.close, bar.day, rv), Opened(s, m, bar, rv, cash);
            && (pos.Some? <==> st.Some? && st.value.maxLoss <= ShareFor(s) * cash)
            && (pos.Some? ==> pos.value == st.value.(contracts := pos.value.contracts))
            && (pos.Some? ==> SizedFor(s, cash, pos.value.maxLoss, pos.value.contracts))
  {
    hide OpenStructure, Contracts, Budget, SizedFor;
    var st := OpenStructure(s, m, bar.close, bar.day, rv);
    if st.Some? {
      OpenedStructures(s, m, bar.close, bar.day, rv);
      hide WellOpened, Shaped;
      BudgetIs(s, cash);
      OneFits(Budget(s, cash), st.value.maxLoss);
      var n := Contracts(Budget(s, cash), st.value.maxLoss);
      if n >= 1 {
        SizedIff(s, cash, st.value.maxLoss, n);
      }
    }
  }

  lemma BudgetIs(s: Spec, cash: real)
    ensures Budget(s, cash) == ShareFor(s) * cash
  {
  }

  lemma OneFits(budget: real, maxLoss: real)
    requires maxLoss > 0.0
    ensures Contracts(budget, maxLoss) >= 1 <==> maxLoss <= budget
  {
    ContractsWithinBudget(budget, maxLoss);
    var k := Contracts(budget, maxLoss);
    hide Contracts;
    assert Times(maxLoss, k) == maxLoss * k as real && Times(maxLoss, k + 1) == maxLoss * (k + 1) as real;
    hide Times;
    if k >= 1 {
      ScaleMonotone(maxLoss, 1.0, k as real);
    } else {
      ScaleMonotone(maxLoss, (k + 1) as real, 1.0);
    }
  }

  // ---------------------------------------------------------------- what a day does

  /** Some option sold is in the money: a call below the price, a put above it. */
  ghost predicate SoldInTheMoney(legs: seq<Leg>, spot: real) {
    exists i :: 0 <= i < |legs| && !legs[i].long
             && match legs[i].right { case Call => legs[i].strike < spot case Put => spot < legs[i].strike }
  }

  /** Why a structure is closed on a day: it has expired, or else it has made its target, or else the
      days left have come down to the limit set for them. */
  ghost predicate ClosesFor(s: Spec, st: Structure, day: Day, pnl: real, reason: Reason) {
    var target := s.profitTarget.Some? && s.profitTarget.value * (st.credit * 100.0 * st.contracts as real) <= pnl;
    match reason
    case Expiry => st.expiry <= day
    case ProfitTarget => day < st.expiry && target
    case CloseAtDte => day < st.expiry <= day + s.closeAtDte && 0 < s.closeAtDte && !target
    case EodClose => false
  }

  /** A day with an open structure: equity is marked; the structure is closed, at its mark, exactly when
      there is a reason; and settlements and assignments are counted on expiry alone. */
  lemma DayMeaning(s: Spec, m: Pricing, d: DayState, st: Structure, bar: DailyBar, rv: real, pnl: real)
    requires pnl == MarkOf(st, m, bar.close, bar.day, rv) * st.contracts as real
    ensures var after := Manage(s, m, d, st, bar, rv);
            && after.marks == d.marks + [d.cash + pnl]
            && after.settled == d.settled + (if st.expiry <= bar.day then 1 else 0)
            && after.assignments ==
                 d.assignments + (if st.expiry <= bar.day && SoldInTheMoney(st.legs, bar.close) then 1 else 0)
            && (after.pos.None? <==> exists r :: ClosesFor(s, st, bar.day, pnl, r))
            && (after.pos.Some? ==> after.pos == Some(st) && after.cash == d.cash && after.trades == d.trades)
            && (after.pos.None? ==>
                  && after.cash == d.cash + pnl && |after.trades| == |d.trades| + 1
                  && after.trades[..|d.trades|] == d.trades
                  && var t := after.trades[|d.trades|];
                  && t.pnl == pnl && t.credit == st.credit * 100.0 * st.contracts as real && t.contracts == st.contracts
                  && ClosesFor(s, st, bar.day, pnl, t.reason))
  {
    DayFigures(st, m, bar, rv);
    hide MarkOf, Times, MaxCredit, RiskOf;
    ItmMeaning(st.legs, bar.close);
    hide ShortLegItm, SoldInTheMoney;
    ReasonMeaning(s, st, bar.day, pnl);
    hide CloseReason, ClosesFor;
  }

  lemma DayFigures(st: Structure, m: Pricing, bar: DailyBar, rv: real)
    ensures Times(MarkOf(st, m, bar.close, bar.day, rv), st.contracts)
              == MarkOf(st, m, bar.close, bar.day, rv) * st.contracts as real
    ensures MaxCredit(st) == st.credit * 100.0 * st.contracts as real
  {
  }

  lemma ItmMeaning(legs: seq<Leg>, spot: real)
    ensures ShortLegItm(legs, spot) <==> SoldInTheMoney(legs, spot)
  {
    if SoldInTheMoney(legs, spot) {
      var i :| 0 <= i < |legs| && !legs[i].long
               && match legs[i].right { case Call => legs[i].strike < spot case Put => spot < legs[i].strike };
      assert legs[i] in legs;
    }
    if ShortLegItm(legs, spot) {
      var l :| l in legs && !l.long && if l.right.Call? then spot > l.strike else spot < l.strike;
      var i :| 0 <= i < |legs| && legs[i] == l;
    }
  }

  lemma ReasonMeaning(s: Spec, st: Structure, day: Day, pnl: real)
    ensures var r := CloseReason(s, st.expiry - day, pnl, st.credit * 100.0 * st.contracts as real);
            && (r.Some? <==> exists x :: ClosesFor(s, st, day, pnl, x))
            && (r.Some? ==> ClosesFor(s, st, day, pnl, r.value))
  {
    var r := CloseReason(s, st.expiry - day, pnl, st.credit * 100.0 * st.contracts as real);
    assert r.Some? ==> ClosesFor(s, st, day, pnl, r.value);
  }

  /** A structure still open after the last bar is closed there at its mark, at the trailing volatility or
      20 percent when there is none. */
  lemma LastCloseMeaning(m: Pricing, bars: seq<DailyBar>, d: DayState)
    requires |bars| > 21
    ensures var after := CloseOut(m, bars, d);
            if d.pos.None? then after == d
            else
              var st, last, vol := d.pos.value, bars[|bars| - 1], m.realizedVol(Closes(bars));
              var rv := if vol.None? || vol.value == 0.0 then 0.2 else vol.value;
              var pnl := MarkOf(st, m, last.close, last.day, rv) * st.contracts as real;
              && after.cash == d.cash + pnl && |after.trades| == |d.trades| + 1
              && after.trades[|d.trades|].pnl == pnl && after.trades[|d.trades|].reason.EodClose?
              && after.trades[|d.trades|].contracts == st.contracts && after.trades[..|d.trades|] == d.trades
  {
    hide MarkOf, Closes, RiskOf, MaxCredit;
  }

  /** Days are skipped until 20 returns can be looked back on, and while there is no volatility. */
  lemma DaysStart(s: Spec, m: Pricing, bars: seq<DailyBar>, start: real, n: nat)
    requires n <= |bars|
    ensures n <= 21 ==> Days(s, m, bars, start, n) == DayState(start, [], [], 0, 0, None)
    ensures n > 21 ==>
              var d, rv := Days(s, m, bars, start, n - 1), m.realizedVol(Closes(bars[..n]));
              Days(s, m, bars, start, n) ==
                if rv.None? then d
                else if d.pos.None? then d.(pos := Opened(s, m, bars[n - 1], rv.value, d.cash))
                else Manage(s, m, d, d.pos.value, bars[n - 1], rv.value)
  {
    hide Opened, Manage, Closes;
  }

  predicate SettledOnly(trades: seq<Trade>) {
    forall t :: t in trades ==> t.reason.Expiry? || t.reason.ProfitTarget?
  }

  lemma {:induction false} NoEarlyCloses(s: Spec, m: Pricing, bars: seq<DailyBar>, start: real, n: nat)
    requires n <= |bars| && s.closeAtDte <= 0
    ensures SettledOnly(Days(s, m, bars, start, n).trades)
  {
    hide Opened, MarkOf, Times, ShortLegItm;
    if n > RV_WINDOW + 1 {
      NoEarlyCloses(s, m, bars, start, n - 1);
    }
  }

  /** Without any assumption on marks before expiry the run stays solvent when the spec never closes
      early and the data does not end inside a structure. */
  lemma SettledRunStaysSolvent(s: Spec, m: Pricing, bars: seq<DailyBar>, start: real)
    requires ValidStructure(s) && IntrinsicAtExpiry(m) && NonnegativeCloses(bars) && start >= 0.0
    requires s.closeAtDte == 0 && Days(s, m, bars, start, |bars|).pos.None?
    ensures var d := Final(s, m, bars, start); NeverNegative(start, d.trades) && d.cash >= 0.0
  {
    DaysSound(s, m, bars, start, |bars|);
    NoEarlyCloses(s, m, bars, start, |bars|);
    var d := Days(s, m, bars, start, |bars|);
    hide MarksBounded, OnDay, Built, ValidStructure, IntrinsicAtExpiry;
    forall k | 0 <= k < |d.trades| ensures d.trades[k].pnl >= -d.trades[k].risk {
      assert Affordable(s, CashAfter(start, d.trades[..k]), d.trades[k].risk);
      assert d.trades[k] in d.trades;
    }
    Solvent(s, start, d.trades);
    assert d.trades[..|d.trades|] == d.trades;
  }

  /** No lookahead: the state after `n` bars depends on those bars only. */
  lemma {:induction false} DaysLookBackOnly(s: Spec, m: Pricing, bars: seq<DailyBar>, start: real, n: nat, k: nat)
    requires n <= k <= |bars|
    ensures Days(s, m, bars, start, n) == Days(s, m, bars[..k], start, n)
  {
    hide Manage, Opened;
    if n > RV_WINDOW + 1 {
      DaysLookBackOnly(s, m, bars, start, n - 1, k);
      assert bars[..k][..n] == bars[..n] && bars[..k][n - 1] == bars[n - 1];
    }
  }
}
