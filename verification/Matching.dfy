/** Pricing of simulated fills, crossing of resting orders, and the deterministic exit decision. */
module Matching {
  import opened Prelude
  import opened Money
  import opened Portfolio

  /** Latest quote of a symbol; prices are in money units and not quantized. */
  datatype Quote = Quote(bid: Option<real>, ask: Option<real>, last: real, stale: bool) {
    function SidePrice(side: Side): real {
      if side.Buy? && ask.Some? then ask.value
      else if side.Sell? && bid.Some? then bid.value
      else last
    }
  }

  /** An order asks for a quantity or for a notional amount, never both. */
  datatype Size = Quantity(qty: real) | Notional(amount: real) {
    predicate Positive() {
      if Quantity? then qty > 0.0 else amount > 0.0
    }

    predicate Nonnegative() {
      if Quantity? then qty >= 0.0 else amount >= 0.0
    }
  }

  datatype FillQuote = FillQuote(qty: Qty, price: Money, slippageBps: int, fees: Money)

  const USD: real := 100_000_000.0

  function BasisPoints(n: int): real {
    n as real / 10_000.0
  }

  function SlippageBpsFor(notional: real): int {
    if notional < 1_000.0 * USD then 1
    else if notional < 10_000.0 * USD then 3
    else if notional < 100_000.0 * USD then 8
    else 15
  }

  function FeeBpsFor(crypto: bool): int {
    if crypto then 10 else 0
  }

  function Slipped(ref: real, side: Side, bps: int): real {
    if side.Buy? then ref * (1.0 + BasisPoints(bps)) else ref * (1.0 - BasisPoints(bps))
  }

  function SlippedPrice(ref: real, side: Side, bps: int): Money {
    Round(Slipped(ref, side, bps))
  }

  function FeeOn(gross: Money, crypto: bool): Money {
    Round(gross as real * BasisPoints(FeeBpsFor(crypto)))
  }

  /** Price a market fill; None where the program raises (non-positive reference price, or a
      notional divided by a price that was rounded to zero). */
  function ComputeFill(quote: Quote, side: Side, crypto: bool, size: Size): Option<FillQuote> {
    var ref := quote.SidePrice(side);
    if ref <= 0.0 then None
    else
      var bps := SlippageBpsFor(if size.Notional? then size.amount else PerUnit(size.qty * ref));
      var price := SlippedPrice(ref, side, bps);
      if size.Notional? && price == 0 then None
      else
        var qty := if size.Notional? then Round(size.amount / price as real * 10_000_000_000.0)
                   else Round(size.qty);
        Some(FillQuote(qty, price, bps, FeeOn(Round(Value(qty, price as real)), crypto)))
  }

  lemma SlipWithin(ref: real, s: real)
    requires ref > 0.0 && 0.0 < s <= 0.0015
    ensures 0.0 <= ref * (1.0 - s) <= ref <= ref * (1.0 + s)
    ensures ref * (1.0 + s) <= ref + 0.0015 * ref
    ensures 0.0 <= ref - 0.0015 * ref <= ref * (1.0 - s)
  {
    ScaleMonotone(ref, 0.0, s);
    ScaleMonotone(ref, s, 0.0015);
    ScaleMonotone(ref, 0.0, 1.0 - s);
  }

  /** Slippage is adverse to the taker and at most 15 basis points, up to rounding of the price. */
  lemma SlippageAdverse(ref: real, side: Side, bps: int)
    requires ref > 0.0 && 1 <= bps <= 15
    ensures SlippedPrice(ref, side, bps) >= 0
    ensures side.Buy? ==> Round(ref) <= SlippedPrice(ref, side, bps)
    ensures side.Sell? ==> SlippedPrice(ref, side, bps) <= Round(ref)
    ensures Abs(SlippedPrice(ref, side, bps) as real - ref) <= 0.0015 * ref + 0.5
  {
    SlippedWithin(ref, side, bps);
    hide Slipped;
    PriceNear(ref, Slipped(ref, side, bps), side);
  }

  lemma SlippedWithin(ref: real, side: Side, bps: int)
    requires ref > 0.0 && 1 <= bps <= 15
    ensures var x := Slipped(ref, side, bps);
            if side.Buy? then ref <= x <= ref + 0.0015 * ref else 0.0 <= ref - 0.0015 * ref <= x <= ref
  {
    hide BasisPoints;
    SlipFraction(bps);
    SlipWithin(ref, BasisPoints(bps));
  }

  lemma SlipFraction(bps: int)
    requires 1 <= bps <= 15
    ensures 0.0 < BasisPoints(bps) <= 0.0015
  {
  }

  lemma PriceNear(ref: real, x: real, side: Side)
    requires x >= 0.0 && ref > 0.0
    requires if side.Buy? then ref <= x <= ref + 0.0015 * ref else ref - 0.0015 * ref <= x <= ref
    ensures Round(x) >= 0
    ensures if side.Buy? then Round(ref) <= Round(x) else Round(x) <= Round(ref)
    ensures Abs(Round(x) as real - ref) <= 0.0015 * ref + 0.5
  {
    RoundNearest(x);
    RoundMonotone(if side.Buy? then ref else x, if side.Buy? then x else ref);
  }

  lemma FeeBounds(gross: Money, crypto: bool)
    requires gross >= 0
    ensures FeeOn(gross, crypto) >= 0
    ensures FeeOn(gross, crypto) as real <= 0.002 * gross as real
    ensures FeeOn(gross, crypto) > 0 ==> gross >= 500
  {
    var x := gross as real * BasisPoints(FeeBpsFor(crypto));
    assert x == if crypto then gross as real / 1000.0 else 0.0;
    RoundNearest(x);
  }

  /** Every priced fill has a non-negative quantity, price and fee, and the fee is a small part of
      what is traded. */
  lemma FillTerms(quote: Quote, side: Side, crypto: bool, size: Size)
    requires size.Nonnegative()
    ensures var fq := ComputeFill(quote, side, crypto, size);
            fq.Some? ==>
              && fq.value.qty >= 0 && fq.value.price >= 0 && fq.value.fees >= 0
              && Value(fq.value.qty, fq.value.price as real) >= 499.0 * fq.value.fees as real
  {
    var fq := ComputeFill(quote, side, crypto, size);
    if fq.Some? {
      var FillQuote(qty, price, bps, fees) := fq.value;
      SlippageAdverse(quote.SidePrice(side), side, bps);
      hide Slipped, SlippedPrice, FeeOn, Value, Round;
      if size.Notional? {
        UnitsNonnegative(size.amount, price as real);
      } else {
        RoundNearest(size.qty);
      }
      FeeTerms(qty, price, crypto);
    }
  }

  lemma UnitsNonnegative(amount: real, price: real)
    requires amount >= 0.0 && price > 0.0
    ensures Round(amount / price * 10_000_000_000.0) >= 0
  {
    DivideBetween(amount, price, 0.0, amount / price);
    RoundNearest(amount / price * 10_000_000_000.0);
    hide Round;
  }

  lemma FeeTerms(qty: Qty, price: Money, crypto: bool)
    requires qty >= 0 && price >= 0
    ensures var fees := FeeOn(Round(Value(qty, price as real)), crypto);
            fees >= 0 && Value(qty, price as real) >= 499.0 * fees as real
  {
    ValueNonnegative(qty, price as real);
    RoundNearest(Value(qty, price as real));
    FeeBounds(Round(Value(qty, price as real)), crypto);
    hide FeeOn, Value, Round;
  }

  /** A priced fill is for what was asked: the quantity to half a unit, or a quantity worth the
      notional to half a unit of quantity. */
  lemma FillMatchesRequest(quote: Quote, side: Side, crypto: bool, size: Size)
    requires ComputeFill(quote, side, crypto, size).Some?
    ensures var f := ComputeFill(quote, side, crypto, size).value;
            if size.Quantity? then -0.5 <= f.qty as real - size.qty <= 0.5
            else Abs(Value(f.qty, f.price as real) - size.amount) <= PerUnit(f.price as real) / 2.0
  {
    var f := ComputeFill(quote, side, crypto, size).value;
    if size.Quantity? {
      RoundNearest(size.qty);
    } else {
      SlippageAdverse(quote.SidePrice(side), side, f.slippageBps);
      hide Slipped, SlippedPrice, FeeOn;
      UnitsWorth(size.amount, f.price as real);
    }
  }

  lemma UnitsWorth(amount: real, price: real)
    requires price > 0.0
    ensures Abs(Value(Round(amount / price * 10_000_000_000.0), price) - amount) <= PerUnit(price) / 2.0
  {
    var x := amount / price * 10_000_000_000.0;
    var n := Round(x);
    RoundNearest(x);
    var r := amount / price;
    assert r * price == amount;
    ScaledNear(price, r, n as real - x);
    assert n as real == r * 10_000_000_000.0 + (n as real - x);
    PerUnitNear(n as real * price, amount, 0.5 * price);
    PerUnitHalf(price);
  }

  lemma ScaledNear(price: real, r: real, d: real)
    requires price > 0.0 && -0.5 <= d <= 0.5
    ensures Abs((r * 10_000_000_000.0 + d) * price - r * price * 10_000_000_000.0) <= 0.5 * price
  {
    ScaleMonotone(price, d, 0.5);
    ScaleMonotone(price, -0.5, d);
    assert (r * 10_000_000_000.0 + d) * price - r * price * 10_000_000_000.0 == price * d;
  }

  lemma PerUnitNear(total: real, amount: real, slack: real)
    requires Abs(total - amount * 10_000_000_000.0) <= slack
    ensures Abs(PerUnit(total) - amount) <= PerUnit(slack)
  {
  }

  lemma PerUnitHalf(x: real)
    ensures PerUnit(0.5 * x) == PerUnit(x) / 2.0
  {
  }

  /** The slippage tier only grows with the amount traded, and the tiers change at 1,000, 10,000 and 100,000
      dollars. */
  lemma SlippageTiers(a: real, b: real)
    ensures a <= b ==> SlippageBpsFor(a) <= SlippageBpsFor(b)
    ensures SlippageBpsFor(a) in {1, 3, 8, 15}
    ensures SlippageBpsFor(a) == 1 <==> a < 1_000.0 * USD
    ensures SlippageBpsFor(a) <= 3 <==> a < 10_000.0 * USD
    ensures SlippageBpsFor(a) == 15 <==> a >= 100_000.0 * USD
  {
  }

  /** The price on the taker's side: the ask for a buy, the bid for a sell, the last trade when missing. */
  function Reference(quote: Quote, side: Side): real {
    match side
    case Buy => quote.ask.GetOr(quote.last)
    case Sell => quote.bid.GetOr(quote.last)
  }

  /** The estimated value that decides the slippage. */
  function Estimate(quote: Quote, side: Side, size: Size): real {
    match size
    case Notional(amount) => amount
    case Quantity(qty) => qty * Reference(quote, side) / 10_000_000_000.0
  }

  /** The nearest whole number of money units, up to the half. */
  predicate Nearest(n: Money, x: real) {
    n as real - 0.5 <= x <= n as real + 0.5
  }

  /** The price of a fill: the reference moved against the taker by 1, 3, 8 or 15 basis points as the
      estimated value is below 1,000 dollars, below 10,000, below 100,000, or more. */
  lemma PricedByTier(quote: Quote, side: Side, crypto: bool, size: Size)
    requires ComputeFill(quote, side, crypto, size).Some?
    ensures var price, ref, est := ComputeFill(quote, side, crypto, size).value.price, Reference(quote, side),
                                   Estimate(quote, side, size);
            && ref > 0.0
            && (est < 1_000.0 * USD ==> Nearest(price, if side.Buy? then ref * 1.0001 else ref * 0.9999))
            && (1_000.0 * USD <= est < 10_000.0 * USD ==>
                  Nearest(price, if side.Buy? then ref * 1.0003 else ref * 0.9997))
            && (10_000.0 * USD <= est < 100_000.0 * USD ==>
                  Nearest(price, if side.Buy? then ref * 1.0008 else ref * 0.9992))
            && (100_000.0 * USD <= est ==> Nearest(price, if side.Buy? then ref * 1.0015 else ref * 0.9985))
  {
    var ref, est := Reference(quote, side), Estimate(quote, side, size);
    EstimateDecides(quote, side, size);
    hide Slipped, Round, FeeOn, Value, Estimate, PerUnit;
    TierRates(ref);
    RoundNearest(Slipped(ref, side, SlippageBpsFor(est)));
  }

  lemma EstimateDecides(quote: Quote, side: Side, size: Size)
    ensures Reference(quote, side) == quote.SidePrice(side)
    ensures TierFor(quote, side, size) == SlippageBpsFor(Estimate(quote, side, size))
  {
  }

  lemma TierRates(ref: real)
    ensures Slipped(ref, Buy, 1) == ref * 1.0001 && Slipped(ref, Sell, 1) == ref * 0.9999
    ensures Slipped(ref, Buy, 3) == ref * 1.0003 && Slipped(ref, Sell, 3) == ref * 0.9997
    ensures Slipped(ref, Buy, 8) == ref * 1.0008 && Slipped(ref, Sell, 8) == ref * 0.9992
    ensures Slipped(ref, Buy, 15) == ref * 1.0015 && Slipped(ref, Sell, 15) == ref * 0.9985
  {
    assert BasisPoints(1) == 0.0001 && BasisPoints(3) == 0.0003 && BasisPoints(8) == 0.0008;
    assert BasisPoints(15) == 0.0015;
    hide BasisPoints;
  }

  /** It cannot be priced exactly without a positive reference, or when a notional would be divided by a
      price that rounds to nothing. */
  lemma PricedIff(quote: Quote, side: Side, crypto: bool, size: Size)
    ensures ComputeFill(quote, side, crypto, size).None? <==>
              || Reference(quote, side) <= 0.0
              || (size.Notional? && SlippedPrice(Reference(quote, side), side, TierFor(quote, side, size)) == 0)
  {
    hide SlippedPrice;
  }

  /** The fee: ten basis points of the rounded gross for crypto, nothing for equities. */
  lemma FeeIs(quote: Quote, side: Side, crypto: bool, size: Size)
    requires ComputeFill(quote, side, crypto, size).Some?
    ensures var f := ComputeFill(quote, side, crypto, size).value;
            && (crypto ==> Nearest(f.fees, Round(Value(f.qty, f.price as real)) as real * 0.001))
            && (!crypto ==> f.fees == 0)
  {
    var f := ComputeFill(quote, side, crypto, size).value;
    FeeOnIs(Round(Value(f.qty, f.price as real)), crypto);
    hide SlippedPrice, FeeOn, Value, Round;
  }

  lemma FeeOnIs(gross: Money, crypto: bool)
    ensures if crypto then Nearest(FeeOn(gross, crypto), gross as real * 0.001) else FeeOn(gross, crypto) == 0
  {
    var x := gross as real * BasisPoints(FeeBpsFor(crypto));
    assert x == if crypto then gross as real * 0.001 else 0.0;
    RoundNearest(x);
    RoundInteger(0);
    hide Round;
  }

  // ---------------------------------------------------------------- resting orders

  datatype OrderKind = Market | Limit | Stop | StopLimit

  /** None where the program compares a price with a missing level and raises. */
  function Crosses(kind: OrderKind, side: Side, limit: Option<real>, stop: Option<real>, quote: Quote)
    : Option<bool>
  {
    var ref := quote.SidePrice(side);
    match kind
    case Limit => if limit.None? then None else Some(WithinLimit(side, ref, limit.value))
    case Stop => if stop.None? then None else Some(StopTriggered(side, ref, stop.value))
    case StopLimit =>
      if stop.None? then None
      else if !StopTriggered(side, ref, stop.value) then Some(false)
      else if limit.None? then None
      else Some(WithinLimit(side, ref, limit.value))
    case Market => Some(false)
  }

  predicate WithinLimit(side: Side, ref: real, limit: real) {
    if side.Buy? then ref <= limit else ref >= limit
  }

  predicate StopTriggered(side: Side, ref: real, stop: real) {
    if side.Buy? then ref >= stop else ref <= stop
  }

  /** Which quotes fill a resting order: a limit buy at or below its limit, a stop buy at or above its
      stop, sells the other way, and a stop-limit when both hold. */
  lemma CrossesIff(side: Side, limit: real, stop: real, quote: Quote)
    ensures var ref := Reference(quote, side);
            && Crosses(Limit, side, Some(limit), None, quote)
                 == Some(if side.Buy? then ref <= limit else limit <= ref)
            && Crosses(Stop, side, None, Some(stop), quote) == Some(if side.Buy? then stop <= ref else ref <= stop)
            && Crosses(StopLimit, side, Some(limit), Some(stop), quote)
                 == Some(if side.Buy? then stop <= ref <= limit else limit <= ref <= stop)
  {
    var ref := Reference(quote, side);
    assert ref == quote.SidePrice(side);
  }

  /** Other levels play no part, and a missing one raises when it is reached. */
  lemma CrossesNeeds(kind: OrderKind, side: Side, limit: Option<real>, stop: Option<real>, quote: Quote)
    ensures kind.Limit? ==> Crosses(kind, side, limit, stop, quote) == Crosses(kind, side, limit, None, quote)
    ensures kind.Stop? ==> Crosses(kind, side, limit, stop, quote) == Crosses(kind, side, None, stop, quote)
    ensures kind.Market? ==> Crosses(kind, side, limit, stop, quote) == Some(false)
    ensures Crosses(kind, side, limit, stop, quote).None? <==>
              match kind {
                case Market => false
                case Limit => limit.None?
                case Stop => stop.None?
                case StopLimit => stop.None? || (limit.None? && Crosses(Stop, side, None, stop, quote) == Some(true))
              }
  {
  }

  /** A crossed order with a limit is filled at a price that can be worse than its limit, by the
      slippage added after the crossing test, and by no more. */
  lemma LimitOvershootBound(kind: OrderKind, side: Side, limit: real, stop: Option<real>, quote: Quote,
                            crypto: bool, size: Size)
    requires kind.Limit? || kind.StopLimit?
    requires Crosses(kind, side, Some(limit), stop, quote) == Some(true)
    requires ComputeFill(quote, side, crypto, size).Some?
    ensures var price := ComputeFill(quote, side, crypto, size).value.price as real;
            if side.Buy? then price <= limit + 0.0015 * limit + 0.5
            else limit - 0.0015 * quote.SidePrice(side) - 0.5 <= price
  {
    var f := ComputeFill(quote, side, crypto, size).value;
    SlippageAdverse(quote.SidePrice(side), side, f.slippageBps);
  }

  /** A fill on a limited order keeps its limit exactly when the slipped price, known from the quote
      before the call, still rounds to one within it. */
  lemma LimitKeptIff(limit: Money, side: Side, quote: Quote, crypto: bool, size: Size)
    requires ComputeFill(quote, side, crypto, size).Some?
    ensures var price := ComputeFill(quote, side, crypto, size).value.price;
            var x := Slipped(quote.SidePrice(side), side, TierFor(quote, side, size));
            if side.Buy? then price <= limit <==> x < limit as real + 0.5
            else price >= limit <==> x >= limit as real - 0.5
  {
    SlippedWithin(quote.SidePrice(side), side, TierFor(quote, side, size));
    hide Slipped;
    RoundAgainst(Slipped(quote.SidePrice(side), side, TierFor(quote, side, size)), limit);
  }

  /** The slippage tier of a request at a quote. */
  function TierFor(quote: Quote, side: Side, size: Size): int {
    SlippageBpsFor(if size.Notional? then size.amount else PerUnit(size.qty * quote.SidePrice(side)))
  }

  const HUNDRED := Quote(None, Some(100.0 * USD), 100.0 * USD, false)

  /** One unit bought at an ask of 100 dollars. */
  lemma FillAtHundred()
    ensures ComputeFill(HUNDRED, Buy, false, Quantity(10_000_000_000.0)) ==
              Some(FillQuote(10_000_000_000, 10_001_000_000, 1, 0))
    ensures Round(Value(10_000_000_000, 10_001_000_000.0)) == 10_001_000_000
  {
    assert Slipped(100.0 * USD, Buy, 1) == 10_001_000_000.0;
    assert Value(10_000_000_000, 10_001_000_000.0) == 10_001_000_000.0;
    RoundInteger(10_001_000_000);
    RoundInteger(10_000_000_000);
    RoundInteger(0);
    hide Round, Slipped, Value;
  }

  /** It does happen: a buy limited to 100 dollars at an ask of 100 dollars fills at 100.01. */
  lemma LimitOvershoots()
    ensures Crosses(Limit, Buy, Some(100.0 * USD), None, HUNDRED) == Some(true)
    ensures var f := ComputeFill(HUNDRED, Buy, false, Quantity(10_000_000_000.0));
            f.Some? && f.value.price == 10_001_000_000 && f.value.price as real > 100.0 * USD
  {
    FillAtHundred();
  }

  // ---------------------------------------------------------------- exits

  datatype ExitReason = StopLoss | TrailingStop | TakeProfit

  datatype ExitDecision = ExitDecision(reason: Option<ExitReason>, highWater: real)

  /** Exit levels as fractions of the entry price (the trailing one: of the extreme). */
  datatype ExitLevels = ExitLevels(stopLoss: Option<real>, takeProfit: Option<real>, trailing: Option<real>)

  /** Python truth of an optional number. */
  predicate IsSet(p: Option<real>) {
    p.Some? && p.value != 0.0
  }

  /** `price` is at or beyond `level` on the losing side of the position. */
  predicate AtOrWorse(short: bool, price: real, level: real) {
    if short then price >= level else price <= level
  }

  /** The level `pct` away from `base`, on the losing side of the position. */
  function LossLevel(short: bool, base: real, pct: real): real {
    if short then base * (1.0 + pct) else base * (1.0 - pct)
  }

  function LevelAt(short: bool, base: real, pct: Option<real>): Option<real> {
    if IsSet(pct) then Some(LossLevel(short, base, pct.value)) else None
  }

  /** `highWater` is the highest price since entry of a long and the lowest of a short. */
  function EvaluateExit(avg: real, last: real, short: bool, highWater: Option<real>, levels: ExitLevels)
    : ExitDecision
  {
    var wm := highWater.GetOr(avg);
    if !short then
      var wm := if last > wm then last else wm;
      Decide(false, last, wm, LevelAt(false, avg, levels.stopLoss), LevelAt(false, wm, levels.trailing),
             LevelAt(true, avg, levels.takeProfit))
    else
      var wm := if last < wm then last else wm;
      Decide(true, last, wm, LevelAt(true, avg, levels.stopLoss), LevelAt(true, wm, levels.trailing),
             LevelAt(false, avg, levels.takeProfit))
  }

  /** The tighter of the two stops is tested first (the fixed one on a tie), then the target. */
  function Decide(short: bool, last: real, wm: real, fixed: Option<real>, trail: Option<real>,
                  target: Option<real>): ExitDecision
  {
    var trailTighter := trail.Some? && (fixed.None? || (if short then trail.value < fixed.value
                                                        else trail.value > fixed.value));
    var tight := if trailTighter then trail else fixed;
    if tight.Some? && (if short then last >= tight.value else last <= tight.value) then
      ExitDecision(Some(if trailTighter then TrailingStop else StopLoss), wm)
    else if target.Some? && (if short then last <= target.value else last >= target.value) then
      ExitDecision(Some(TakeProfit), wm)
    else
      ExitDecision(None, wm)
  }

  predicate Hit(short: bool, last: real, level: Option<real>) {
    level.Some? && AtOrWorse(short, last, level.value)
  }

  /** A position exits exactly when the price is at or beyond one of its set levels, whichever is
      the tighter, with the trailing level taken from the extreme that includes this price. */
  lemma ExitIffLevelHit(avg: real, last: real, short: bool, highWater: Option<real>, levels: ExitLevels)
    ensures var d := EvaluateExit(avg, last, short, highWater, levels);
            var extreme := Extreme(short, highWater.GetOr(avg), last);
            && d.highWater == extreme
            && (d.reason.Some? <==>
                  || Hit(short, last, LevelAt(short, avg, levels.stopLoss))
                  || Hit(short, last, LevelAt(short, extreme, levels.trailing))
                  || Hit(!short, last, LevelAt(!short, avg, levels.takeProfit)))
  {
    var wm := Extreme(short, highWater.GetOr(avg), last);
    DecideIff(short, last, wm, LevelAt(short, avg, levels.stopLoss), LevelAt(short, wm, levels.trailing),
              LevelAt(!short, avg, levels.takeProfit));
  }

  /** In prices: a long leaves at or below its stop or its trailing stop, or at or above its target; a short
      the other way round.  A percent of zero sets no level. */
  predicate Leaves(short: bool, avg: real, reached: real, last: real, stop: real, trail: real, target: real) {
    if short then
      || (stop != 0.0 && last >= avg * (1.0 + stop))
      || (trail != 0.0 && last >= Min(reached, last) * (1.0 + trail))
      || (target != 0.0 && last <= avg * (1.0 - target))
    else
      || (stop != 0.0 && last <= avg * (1.0 - stop))
      || (trail != 0.0 && last <= Max(reached, last) * (1.0 - trail))
      || (target != 0.0 && last >= avg * (1.0 + target))
  }

  lemma HitIs(last: real, base: real, pct: Option<real>)
    ensures Hit(false, last, LevelAt(false, base, pct)) <==>
              pct.GetOr(0.0) != 0.0 && last <= base * (1.0 - pct.GetOr(0.0))
    ensures Hit(true, last, LevelAt(true, base, pct)) <==>
              pct.GetOr(0.0) != 0.0 && last >= base * (1.0 + pct.GetOr(0.0))
  {
  }

  /** The decision is to exit exactly at such a price, counted from the entry and the extreme so far. */
  lemma ExitAtLevels(short: bool, avg: real, last: real, highWater: Option<real>, levels: ExitLevels)
    ensures EvaluateExit(avg, last, short, highWater, levels).reason.Some? <==>
              Leaves(short, avg, highWater.GetOr(avg), last,
                     levels.stopLoss.GetOr(0.0), levels.trailing.GetOr(0.0), levels.takeProfit.GetOr(0.0))
  {
    var extreme := if short then Min(highWater.GetOr(avg), last) else Max(highWater.GetOr(avg), last);
    HitIs(last, avg, levels.stopLoss);
    HitIs(last, extreme, levels.trailing);
    HitIs(last, avg, levels.takeProfit);
    ExitIffLevelHit(avg, last, short, highWater, levels);
    hide EvaluateExit, Hit, LevelAt, Min, Max;
  }

  lemma DecideIff(short: bool, last: real, wm: real, fixed: Option<real>, trail: Option<real>,
                  target: Option<real>)
    ensures var d := Decide(short, last, wm, fixed, trail, target);
            && d.highWater == wm
            && (d.reason.Some? <==> Hit(short, last, fixed) || Hit(short, last, trail) || Hit(!short, last, target))
  {
  }

  predicate Tighter(short: bool, a: real, b: real) {
    if short then a < b else a > b
  }

  /** The reason is the tighter of the two stops, the fixed one on a tie, and the target only when
      neither stop is hit. */
  lemma ExitReasonIs(avg: real, last: real, short: bool, highWater: Option<real>, levels: ExitLevels)
    ensures var reason := EvaluateExit(avg, last, short, highWater, levels).reason;
            var fixed := LevelAt(short, avg, levels.stopLoss);
            var trail := LevelAt(short, Extreme(short, highWater.GetOr(avg), last), levels.trailing);
            var trailFirst := trail.Some? && (fixed.None? || Tighter(short, trail.value, fixed.value));
            && (reason == Some(TrailingStop) <==> Hit(short, last, trail) && trailFirst)
            && (reason == Some(StopLoss) <==> Hit(short, last, fixed) && !trailFirst)
            && (reason == Some(TakeProfit) <==>
                  Hit(!short, last, LevelAt(!short, avg, levels.takeProfit))
                  && !Hit(short, last, fixed) && !Hit(short, last, trail))
  {
    hide LevelAt;
    assert EvaluateExit(avg, last, short, highWater, levels) ==
           Decide(short, last, Extreme(short, highWater.GetOr(avg), last), LevelAt(short, avg, levels.stopLoss),
                  LevelAt(short, Extreme(short, highWater.GetOr(avg), last), levels.trailing),
                  LevelAt(!short, avg, levels.takeProfit));
  }

  function Extreme(short: bool, a: real, b: real): real {
    if short then Min(a, b) else Max(a, b)
  }

  /** As prices are seen the trailing level only tightens: up for a long, down for a short. */
  lemma TrailingOnlyTightens(avg: real, last: real, short: bool, highWater: Option<real>, levels: ExitLevels)
    requires IsSet(levels.trailing) && 0.0 < levels.trailing.value <= 1.0
    ensures var before := LossLevel(short, highWater.GetOr(avg), levels.trailing.value);
            var after := LossLevel(short, EvaluateExit(avg, last, short, highWater, levels).highWater,
                                   levels.trailing.value);
            AtOrWorse(!short, after, before)
  {
    var wm := highWater.GetOr(avg);
    var t := levels.trailing.value;
    ExitIffLevelHit(avg, last, short, highWater, levels);
    var next := Extreme(short, wm, last);
    if short {
      LevelMonotone(true, next, wm, t);
    } else {
      LevelMonotone(false, wm, next, t);
    }
  }

  lemma LevelMonotone(short: bool, a: real, b: real, pct: real)
    requires a <= b && 0.0 < pct <= 1.0
    ensures LossLevel(short, a, pct) <= LossLevel(short, b, pct)
  {
    ScaleMonotone(if short then 1.0 + pct else 1.0 - pct, a, b);
  }
}
