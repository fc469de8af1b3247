# Neuromancing trading core: a verified model

This project models the deterministic core of the trading arena and proves what it promises: the
simulated broker's ledger, the multi-timeframe strategy evaluator and the backtest that replays it,
defined-risk option structures and their backtest, the two-tier price store, and the guardrails
between the language model and the broker.

`dafny verify dfyconfig.toml` checks everything.

## What is modelled

| files | what they model |
|---|---|
| `Money`, `Portfolio`, `Matching` | fixed-point rounding, the signed no-flip fill arithmetic, slippage, fees, crossing of resting orders, the exit decision |
| `Ledger`, `LedgerProofs`, `LedgerRuns`, `LedgerSteps` | one account's rows and every broker operation on them as functions; what each operation keeps; laws over all runs; what one step and the totals come to |
| `SimBroker` | the broker as a class that updates its rows in place, each method proved against the function of the same name |
| `Interleaving`, `LockOrder` | any number of concurrent order placements and exit sweeps, split at the unlocked reads and at the account lock; finish order and lock order |
| `Sweeps`, `SerialSweeps`, `StaleSweep`, `LostExit` | what a sweep does with a scan that went stale: when it raises, when it still does what a current scan would, serial runs in which sweeps scan for themselves, and an exit that is lost |
| `Indicators`, `Formulas` | indicators, and what each reads as a law of its values |
| `StrategySpec`, `Composed`, `ComposedProofs`, `EdgeTriggers`, `Conditions`, `Instants`, `Validation` | the strategy grammar and its validator, what that refuses, the as-of evaluator, its no-lookahead and edge-trigger theorems, what conditions, rules and instants mean |
| `Backtest`, `Drawdown`, `StrategyInterface` | the one-position book, its replay, the metrics, and a composed strategy's backtest |
| `OptionRisk`, `OptionStructures`, `OptionTerms`, `OptionSurface`, `OptionsBacktest` | worst-case loss of option legs, opening and marking structures, their terms, and when a mark stays within it, the skewed volatility surface, the daily backtest |
| `BarSeries`, `PriceStore`, `StoreRuns` | last-write-wins bar series, the hot cache and the per-day archive, runs of ingests and flushes |
| `Guardrails`, `Verdicts`, `AgentContext` | acceptance of a batch of proposed actions and the reasons given; merging, filtering and enriching of signals |
| `Prelude`, `Signals` | result types, cent rounding, the actions a strategy can ask for |

Conventions.

- Money is an integer number of 1e-8 units and quantity an integer number of 1e-10 units, as
  `shared/neuromancing_shared/money.py:18-20` fixes them. Rounding half up is to the nearest integer with ties away
  from zero (roundTiesToAway in section 4.3.1 of IEEE 754-2008). Prices that the code has not
  quantized are reals measured in money units. Indicators, options and guardrails are over reals.
- `Option` stands for a value that may be missing, `Result` and `Outcome` for a value or an exception;
  an exception inside a broker operation rolls its transaction back.
- The names of the specification functions follow the code: `Ledger.FillMarket` is what
  `SimBroker.Broker.FillMarket` is proved to do, `Backtest.OnBar` what `Book.Settle` and then
  `Book.Apply` do, `Composed.Evaluate` what `Composed.EvaluateComposed` computes.
- The ledger's `journal` and the book's `log` are history the model keeps to state laws over runs;
  the program has no table for them.

## What the code does that its documentation does not say

- `trade-api/app/brokers/sim.py:1-3` and `docs/05-trading-system.md:35` describe a long-only
  account. The code is signed and opens shorts; the model follows the code.
- `settle_resting` returns the number of orders that crossed, including those it rejected
  (`LedgerRuns.RestingCountIncludesRejections`; `LedgerRuns.RejectedButCounted` is an input).
- A fill whose quantity rounds to zero on a symbol without a position creates a row only to delete
  it, which raises; the transaction is rolled back (`SimBroker.Broker.BookFill`).
- `trade-api/app/brokers/sim.py:125-126` says that the account lock keeps orders and the exit monitor
  from racing. Rows are safe: with the scan as its input every sweep is serializable
  (`Interleaving.EveryInterleavingIsSerial`). The scan itself is read before the lock, so a sweep
  need not act as one run at its turn. A position closed in between makes the refresh raise and
  the whole sweep is lost, also the exits that were due: `StaleSweep.StaleSweepLosesExit` is such
  an interleaving, unlike either serial order, and `LostExit.ExitIsLost` an account where it happens.
  `Sweeps.StaleSweepIff` and `SerialSweeps.SerialWithOwnScansIff` say exactly when it does not matter.
- `max_loss` does not see a negative final slope when 400 times slope times the top strike is within
  its 1e-6 tolerance; `OptionRisk.UnboundedLossExactly` says exactly when it is right,
  `OptionRisk.TinyStrikeEscapes` gives an input where it is not, and
  `OptionRisk.UnboundedLossDetected` that a top strike of a cent is enough.
- A crossed limit order is filled at the slipped price, which can be beyond its limit
  (`Matching.LimitOvershoots`, bounded by `Matching.LimitOvershootBound`); `Matching.LimitKeptIff`
  says from the quote when it is not.
- The daily marker ignores a leg's ratio, which the risk math uses
  (`OptionStructures.MarkIgnoresRatio`, with the exact condition in
  `OptionStructures.MarkAtExpiryIff`); every structure `open_structure` builds has ratio 1
  (`OptionStructures.OpenedStructures`), so the failing input is never built.
- An early mark of an iron condor can be below its defined risk (`OptionSurface.CondorEscapes`), exactly
  when `OptionStructures.CondorMarkIff` says. The default skew of
  `shared/neuromancing_shared/options/vol.py:33-50` makes it so: by its formula and that of
  `shared/neuromancing_shared/options/black_scholes.py:55-65`, a condor with puts at 30 and 35 and calls at
  200 and 205, a year from expiry at spot 500 and realized volatility 1.5, costs 1.02 times its width to
  buy back. The other three archetypes are within their risk at every mark under the default skew
  (`OptionSurface.SkewedSurfaceQualifies`, `OptionStructures.EveryMarkBounded`).
- The validator compares macd periods only when both are given: fast 30 alone is accepted and never
  computes anything (`StrategySpec.AcceptedButNeverReads`).
- A backtested long is capped at cash before fees, so cash can dip below zero by the fee
  (`Backtest.FeeOverdraws`, bounded by `Backtest.LongOverdraft`), although
  `trade-api/app/strategies/backtest.py:89` wants it not to; `Backtest.LongAffordedIff` says
  exactly when cash covers an open.
- The guardrail caps are per action, so a batch can exceed the cash (`Guardrails.CapsArePerAction`);
  `Guardrails.BatchSpendsDemand` gives what a batch takes, and `Guardrails.BatchFits` a size that fits.
- Rounding to cents can exceed a cap (`Guardrails.RoundingExceedsCap`), exactly when
  `Guardrails.OpenExceedsCapIff` says.
- The drawdown is measured from the running peak only. With equity below zero, which a short can
  reach, a drop from a lower value can be larger: `Backtest.SqueezeUnderreported` is a replay where it
  is, and `Drawdown.ReportedBoundsIff` has the exact condition for the first fall below zero.
- A price store read with a limit of 0 answers with one bar (`PriceStore.PriceStore.GetBars`).
- `game-api/app/agents/context.py:31-35` says the actionability filter mirrors what the guardrails accept.
  It hides no signal to open that could be followed (`AgentContext.FollowedIff`), but it tests only
  concentration, so it shows some that cannot: `AgentContext.ShownAcceptedIff` says exactly which,
  `AgentContext.ShownButRefused` and `AgentContext.ShownWithoutSlot` are inputs.

## Model

| member | source | states |
|---|---|---|
| Money.RoundNearest | shared/neuromancing_shared/money.py:33-38 | quantizing moves a number by at most half a unit and an exact half away from zero |
| Money.RoundUnique | shared/neuromancing_shared/money.py:33-38 | those two facts determine the rounded value |
| Portfolio.FillIsRecorded | trade-api/app/engine/portfolio.py:50-87 | in each of the four transitions cash and quantity move by exactly what the recorded fill (capped quantity, prorated fee) says |
| Portfolio.NeverFlips | trade-api/app/engine/portfolio.py:50-87 | a fill keeps the position's sign or leaves it flat with no entry price; closes are capped at the held size, opens execute in full |
| Portfolio.FillRealizes | trade-api/app/engine/portfolio.py:50-87 | an opening fill realizes nothing; a closing one what the executed part gains on the average entry less its part of the fee, prorated by executed over requested quantity, and a remaining position keeps its average |
| Portfolio.CloseInFull | trade-api/app/engine/portfolio.py:51-71 | closing the whole position leaves it flat in one fill and charges the whole fee |
| Portfolio.AverageBetween | trade-api/app/engine/portfolio.py:73-87 | the rounded average entry stays between any bounds that held for the old average and the fill price |
| Portfolio.AverageWithinOpenings | trade-api/app/engine/portfolio.py:32-87 | over any fill sequence the average entry lies between the lowest and highest opening price since the position was last flat |
| Portfolio.FlatBetweenSides | trade-api/app/engine/portfolio.py:51-71 | over any fill sequence a position is flat at some point between being long and being short |
| Matching.SlippageAdverse | trade-api/app/engine/matching.py:32-95 | the fill price is on the taker's losing side of the quote and within 15 basis points plus rounding |
| Matching.FillTerms | trade-api/app/engine/matching.py:52-95 | every priced fill has non-negative quantity, price and fee, and a fee of at most 1/499 of its value |
| Matching.SlippageTiers | trade-api/app/engine/matching.py:32-36 | the tier is 1, 3, 8 or 15 basis points, changes at exactly 1,000, 10,000 and 100,000 dollars, and only grows with the amount |
| Matching.PricedByTier | trade-api/app/engine/matching.py:20-95 | the fill price is the reference (ask, bid, or last when missing) moved against the taker by 1, 3, 8 or 15 basis points, as the estimated value is below 1,000, 10,000, 100,000 dollars or more, to the nearest unit |
| Matching.PricedIff | trade-api/app/engine/matching.py:52-95 | a fill cannot be priced iff the reference is not positive, or a notional would be divided by a price that rounds to zero |
| Matching.FeeIs | trade-api/app/engine/matching.py:27-95 | the fee is ten basis points of the rounded gross to the nearest unit for crypto and zero for equities |
| Matching.FillMatchesRequest | trade-api/app/engine/matching.py:52-95 | the filled quantity is the requested one to half a unit, or is worth the requested notional to half a unit of quantity |
| Matching.CrossesIff | trade-api/app/engine/matching.py:98-116 | a limit buy crosses iff the reference is at or below its limit, a stop buy iff at or above its stop, a stop-limit iff both; sells mirrored |
| Matching.CrossesNeeds | trade-api/app/engine/matching.py:98-116 | other levels play no part, a market order never rests, and a missing level raises exactly when it is reached |
| Matching.LimitOvershootBound | trade-api/app/engine/matching.py:98-116 | a crossed order with a limit fills at most 15 basis points and rounding beyond its limit |
| Matching.LimitOvershoots | trade-api/app/engine/matching.py:98-116 | and it does go beyond: a buy limited to 100 at an ask of 100 fills at 100.01 |
| Matching.LimitKeptIff | trade-api/app/engine/matching.py:52-116 | a fill keeps a limit iff the slipped price, computed from the quote before the call, is less than half a unit above it, for a sell at most half a unit below it |
| Matching.ExitIffLevelHit | trade-api/app/engine/matching.py:125-179 | a position exits exactly when the price is at or beyond its stop, its trailing level from the extreme including this price, or its target; the extreme is the max or min |
| Matching.ExitAtLevels | trade-api/app/engine/matching.py:125-179 | in prices: a long leaves iff the price is at or below entry times one minus the stop or the highest price times one minus the trailing percent, or at or above entry times one plus the target; shorts mirrored; a percent of zero sets no level |
| Matching.ExitReasonIs | trade-api/app/engine/matching.py:125-179 | the reason is the tighter of the two stops, the fixed one on a tie, and the target iff it is hit and neither stop is |
| Matching.TrailingOnlyTightens | trade-api/app/engine/matching.py:144-179 | one decision never lowers a long's trailing level and never raises a short's |
| SimBroker.SumOver | trade-api/app/engine/portfolio.py:90-108 | the loop over the rows sums signed value, short collateral or cost basis, in any row order |
| SimBroker.Broker.constructor | trade-api/app/brokers/sim.py:60-74 | a new account holds its starting cash as buying power and satisfies the ledger invariant |
| SimBroker.Broker.BookFill | trade-api/app/brokers/sim.py:220-283 | the in-place writes produce exactly the booked account: Fill row, position row with exit levels and extreme, deletion when flat, cash, buying power, status; raises exactly for a zero fill on a new row |
| SimBroker.Broker.FillMarket | trade-api/app/brokers/sim.py:185-283 | fills, rejects or raises exactly as the ledger function, with the reduce-only and affordability branches |
| SimBroker.Broker.PlaceOrder | trade-api/app/brokers/sim.py:132-177 | the new rows are the committed ledger step; a taken key changes nothing; an exception leaves every row as it was; the invariant is kept |
| SimBroker.Broker.CancelOrder | trade-api/app/brokers/sim.py:285-292 | only an accepted or pending order becomes canceled, nothing else changes, the invariant is kept |
| SimBroker.Broker.SettleOne | trade-api/app/brokers/sim.py:318-372 | one watched position: ratchet stored, exit order and fill as the ledger function, and the report of exactly that exit |
| SimBroker.Broker.SettleExits | trade-api/app/brokers/sim.py:294-374 | the sweep equals the ledger fold, reports one entry per exit in order, and an exception undoes all of it |
| SimBroker.Broker.SettleResting | trade-api/app/brokers/sim.py:376-399 | the loop equals the ledger fold and returns the number of crossed orders |
| SimBroker.Broker.MarkToMarket | trade-api/app/brokers/sim.py:401-421 | the snapshot is cash, rounded signed value, equity, realized and unrealized of the current rows |
| LedgerRuns.RunKeeps | trade-api/app/brokers/sim.py:132-399 | every run of orders, cancels, exits and resting fills keeps the ledger invariant; orders, fills and history only accumulate, terms never change, filled, rejected and canceled are final, and a position that stays open keeps its side |
| LedgerRuns.LedgerLaws | trade-api/app/brokers/sim.py:185-292 | after any run cash is starting cash plus the rounded fold of the Fill rows, each position is the signed sum of its fills with no row iff zero, an order has one fill iff filled, and buying power is cash minus collateral |
| LedgerRuns.FillMarketIff | trade-api/app/brokers/sim.py:185-283 | what becomes of an order that is filled, in the order of the tests: raised without a price, rejected when reduce-only with nothing on its other side, rejected for lack of buying power or collateral, raised for nothing into no position, filled otherwise |
| LedgerRuns.ReduceOnlyIff | trade-api/app/brokers/sim.py:204-206 | a reduce-only order that can be priced is rejected without a fill iff nothing is held on its other side; otherwise it fills for no more than is held |
| LedgerRuns.ReduceOnlyLaws | trade-api/app/brokers/sim.py:204-228 | over any run every fill of a reduce-only order took from what its symbol held, on the other side and for no more, and the opening entries of the history are exactly the fills that opened, none of them reduce-only |
| LedgerRuns.PlacedOrderIs | trade-api/app/brokers/sim.py:132-177 | a new order's row has the request's terms, and is rejected without a fresh quote, filled or rejected at market, and accepted when it rests; no other order changes |
| LedgerRuns.RowLevels | trade-api/app/brokers/sim.py:246-264 | a new position takes the order's exit levels and the fill price as extreme; an increase takes each level the order sets, keeps the others and ratchets the extreme; a decrease keeps them all |
| LedgerRuns.CancelMeaning | trade-api/app/brokers/sim.py:285-292 | after a cancel no order of the key is open; it is canceled iff it was open, or was before, and nothing else changes |
| LedgerSteps.WatchedMeaning | trade-api/app/brokers/sim.py:318-356 | a watched position is left alone without a fresh quote, only its extreme moves when it is not due or this tick's exit exists, and otherwise a reduce-only market order for the whole of it, on its closing side, is made |
| LedgerSteps.RestingMeaning | trade-api/app/brokers/sim.py:387-398 | a resting order is left alone unless accepted and crossed, then fills or is rejected; one without its level raises |
| LedgerSteps.TotalMeaning | trade-api/app/engine/portfolio.py:90-108 | one more row adds its quantity at its entry price to the basis, at its mark (zero without one) to the value, and the size of a short at its entry price to the collateral |
| LedgerSteps.PowerMeaning | trade-api/app/brokers/sim.py:272-278 | a fill leaves buying power of cash less the collateral multiple of what the shorts were sold for, to the nearest unit |
| LedgerSteps.SnapshotMeaning | trade-api/app/brokers/sim.py:401-421 | equity is cash plus the marked value, unrealized that value less the entry value, and realized plus unrealized is equity less the start |
| LedgerRuns.PositionLaws | trade-api/app/brokers/sim.py:246-270 | after any run the stored extreme of each position is the max or min of the prices that opened it or that the exit evaluator saw, and its average entry lies between two opening prices |
| LedgerRuns.ExtremeOnlyRatchets | trade-api/app/brokers/sim.py:246-270 | between any two states of a run with no close in between that left the symbol flat, the position is still open on its side, and its stored extreme and every trailing level taken from it have moved only in its favour |
| LedgerRuns.RealizedLaws | trade-api/app/brokers/sim.py:401-412 | the snapshot's realized figure is independent of the marks and differs from realized minus opening fees by at most half a unit per open times one plus the new size, one unit per close, and half a unit |
| LedgerProofs.OpenDrift | trade-api/app/engine/portfolio.py:73-87 | an opening fill moves cash plus cost basis by its fee up to half a unit and half a unit per unit held |
| LedgerProofs.CloseDrift | trade-api/app/engine/portfolio.py:51-71 | a closing fill moves cash plus cost basis by what it realized up to one unit |
| LedgerRuns.ResubmitIsNoOp | trade-api/app/brokers/sim.py:132-136 | submitting a client order id again, with any request and after any further run, changes nothing and finds the first order's terms |
| LedgerRuns.StoredPctNear | trade-api/app/brokers/sim.py:36-51 | an exit percent is stored iff positive, at most its cap, and within half of its fourth decimal of the capped request |
| LedgerRuns.LongKeepsPower | trade-api/app/brokers/sim.py:208-213 | an executed long open leaves buying power non-negative, and closing a long never lowers it |
| LedgerRuns.ShortOpenPowerBound | trade-api/app/brokers/sim.py:214-218 | an executed short open leaves buying power above minus 1.5 units minus the multiplier times half a unit per unit of the new short |
| LedgerRuns.TriggeredExit | trade-api/app/brokers/sim.py:326-372 | a triggered exit is never rejected: with a positive price it ends flat in one fill of the whole size and reports exactly what apply_fill realized, without one it raises |
| LedgerRuns.RestingCountIncludesRejections | trade-api/app/brokers/sim.py:387-399 | the count of settle_resting is the fills it made plus the crossed orders it rejected |
| LedgerRuns.RejectedButCounted | trade-api/app/brokers/sim.py:387-399 | a resting limit buy on an account without cash crosses, is rejected, and is counted |
| Interleaving.EveryInterleavingIsSerial | trade-api/app/brokers/sim.py:115-177 | every interleaving of placements and sweeps commits the rows of running the finished transactions alone, each once, in finish order, each sweep on the positions it had scanned before its locks; locks are never shared |
| LockOrder.LockOrderIsFinishOrder | trade-api/app/brokers/sim.py:124-130 | of two steps that lock the same account the first belongs to another transaction, finished by the second, and stands before the later one in finish order |
| Interleaving.InterleavedLedgerLaws | trade-api/app/brokers/sim.py:294-374 | under every interleaving each account only moves along ledger steps: invariant kept, one order and at most one fill per key, committed orders stay |
| Interleaving.GoneRowRaises | trade-api/app/brokers/sim.py:318-322 | a watched row that is gone under the lock makes the whole sweep raise, wherever it is in the sweep |
| Sweeps.SweepRaisesIff | trade-api/app/brokers/sim.py:318-361 | on the account under its lock a sweep raises iff some watched row is gone, or is due to exit, its key free, at a price that is not positive; otherwise each watched row ends exited or untouched as its own quote says |
| Sweeps.SameTablesIff | trade-api/app/brokers/sim.py:294-374 | two sweeps of one account, whatever each watches, commit the same tables iff they change the same rows |
| Sweeps.StaleSweepIff | trade-api/app/brokers/sim.py:299-323 | a stale list gives what a current list would iff: when the current sweep does not raise, no watched row is gone and every row on only one of the lists is quiet (no fresh quote, or extreme unchanged and no exit due or its key taken); when it raises, some row of the stale list raises too |
| SerialSweeps.StalePlanIff | trade-api/app/brokers/sim.py:299-374 | the same over a whole database: a sweep with stale lists commits the tables of one with current lists iff on every account both change the same rows |
| SerialSweeps.SerialWithOwnScansIff | trade-api/app/brokers/sim.py:299-374 | against the serial run in which every sweep scans when its turn comes, an interleaving agrees transaction by transaction iff each sweep changed the rows it would have changed on its own scan, and then commits the same tables |
| StaleSweep.ScanExists | trade-api/app/brokers/sim.py:299-314 | while ids are distinct within each account every sweep has a scan, so serial runs with own scans exist |
| StaleSweep.StaleSweepLosesExit | trade-api/app/brokers/sim.py:299-322 | a sweep scans two positions due to exit, an order closes the first before the sweep has the lock: the second stays open, while each serial order of the two exists and exits it |
| LostExit.ExitIsLost | trade-api/app/brokers/sim.py:299-322 | a concrete account, reached by two purchases, and a sale on which this happens |
| Indicators.ComputeEma | trade-api/app/strategies/indicators.py:22-29 | the loop computes the SMA-seeded exponential average |
| Indicators.ComputeEmaSeries | trade-api/app/strategies/indicators.py:85-96 | entry i of the running series is the exponential average of the first i + 1 values, so the last entry is ema of all |
| Indicators.ComputeRsi | trade-api/app/strategies/indicators.py:32-48 | the loop's gains and losses give the index of the last n changes; a zero period raises |
| Indicators.RsiRange | trade-api/app/strategies/indicators.py:32-48 | for a positive period the index is defined, between 0 and 100, and 100 exactly when nothing fell |
| Indicators.AveragesStayWithin | trade-api/app/strategies/indicators.py:16-29 | simple and exponential averages stay within any bounds of the values |
| Indicators.BandsOrdered | trade-api/app/strategies/indicators.py:114-123 | for a non-negative multiplier and root the bands enclose the mean, and percent locates the last value between them |
| Indicators.MacdDefined | trade-api/app/strategies/indicators.py:99-111 | for positive periods with fast < slow, macd is defined iff there are slow + signal - 1 values, and reads the difference of the two averages, its own average, and the gap |
| Indicators.ComputeAtr | trade-api/app/strategies/indicators.py:131-141 | the loop averages the last true ranges |
| Formulas.SmaIs | trade-api/app/strategies/indicators.py:16-19 | a simple average times its period is the sum of the last values, defined iff there are enough |
| Formulas.EmaReads | trade-api/app/strategies/indicators.py:22-29 | one more bar of price v moves an exponential average from e to (2 v + (n - 1) e) / (n + 1) |
| Formulas.AveragesRead | trade-api/app/strategies/indicators.py:16-29 | an sma, and an ema of its first n values, times n is the sum of the last n values of its source |
| Formulas.RsiReads | trade-api/app/strategies/indicators.py:32-48 | when something fell the index times rises plus falls is 100 times the rises of the last n changes |
| Formulas.MovesAre | trade-api/app/strategies/indicators.py:37-42 | rises less falls is the net change; nothing fell iff the window never goes down, nothing rose iff it never goes up |
| Formulas.RocReads | trade-api/app/strategies/indicators.py:51-55 | the rate of change times the value n bars ago is the change since |
| Formulas.AtrReads | trade-api/app/strategies/indicators.py:131-141 | the average true range times its period is the sum of the last true ranges |
| Formulas.VwapIs | trade-api/app/strategies/indicators.py:144-151 | it exists iff something was traded, lies within the prices of its bars, and times the volume is the turnover |
| Formulas.BollingerIs | trade-api/app/strategies/indicators.py:114-123 | the bands lie the multiple of the root of the variance off the mean, and percent is a half where they meet |
| Formulas.VarianceIs | trade-api/app/strategies/indicators.py:119 | that variance times the number of values squared is the number times the sum of squares less the square of the sum |
| Formulas.Defaults | trade-api/app/strategies/indicators.py:154-174 | an unset period is 14 for rsi and atr and 20 for vwap and bands, the multiple 2, and macd is 12, 26, 9 |
| Indicators.BoundedMemory | trade-api/app/strategies/indicators.py:154-174 | every indicator but ema and macd computes the same on any suffix holding period (or period + 1) bars |
| Indicators.EmaRemembers | trade-api/app/strategies/indicators.py:22-29 | ema does not: a concrete series where dropping the oldest value changes it |
| StrategySpec.RequiredIsEnough | shared/neuromancing_shared/strategy_spec.py:52-64 | every series an indicator is computed on is among the required timeframes, and without an explicit base the cadence is the fastest |
| StrategySpec.AcceptedComputes | shared/neuromancing_shared/strategy_spec.py:79-95 | an accepted indicator never raises and reads a scalar or a dict with exactly its function's fields |
| StrategySpec.AcceptedMacdReads | shared/neuromancing_shared/strategy_spec.py:91-92 | an accepted macd reads something iff its fast period, defaults filled in, is below its slow one and there are enough bars |
| StrategySpec.AcceptedButNeverReads | shared/neuromancing_shared/strategy_spec.py:91-92 | fast 30 alone is accepted and reads nothing on any bars |
| Validation.IndicatorRefusedIff | shared/neuromancing_shared/strategy_spec.py:79-95 | with positive periods and an allowed timeframe, an indicator over prices is refused iff computing it raises on any bars or it is a macd whose given periods are the wrong way round; one over whole bars only for an unknown source |
| Validation.WrongWayReadsNothing | shared/neuromancing_shared/strategy_spec.py:91-92 | that macd would never read anything |
| Validation.ConditionAcceptedIff | shared/neuromancing_shared/strategy_spec.py:127-161 | a condition is accepted iff it has its keys, what they name can be read, and it says nothing the evaluator would ignore or misread |
| Validation.DanglingNeverHolds | shared/neuromancing_shared/strategy_spec.py:131-157 | a condition naming something that cannot be read could never hold |
| Validation.RulesRefused | shared/neuromancing_shared/strategy_spec.py:166-187 | refused rules are those that raise (unknown state, no rule), that do not depend on what is read (an empty all or any), or of which the evaluator would look at one key of several |
| Validation.RulesAccepted | shared/neuromancing_shared/strategy_spec.py:166-187 | a known state, an accepted condition, and a single group of at least one accepted rule are accepted |
| Validation.IndicatorsGrow | shared/neuromancing_shared/strategy_spec.py:116-121 | one more indicator is accepted iff it is valid by itself and its id is new; none at all is refused |
| Validation.SpecAcceptedIff | shared/neuromancing_shared/strategy_spec.py:189-193 | with valid indicators and settings and no states or strengths, a strategy is accepted iff it has a rule and each of its rules is accepted |
| Validation.SettingsRefused | shared/neuromancing_shared/strategy_spec.py:122-203 | an unknown archetype or cadence is refused, and so is a strength without a side, an indicator or two ends |
| Composed.EvaluateComposed | trade-api/app/strategies/composed.py:37-113 | the loops over cutoffs, indicators and rules compute the evaluation function, exceptions included |
| Conditions.OpMeaning | trade-api/app/strategies/composed.py:26-30 | for two numbers each of the six operators holds iff they compare so, and any other raises |
| Conditions.UndefinedIsFalse | trade-api/app/strategies/composed.py:74-89 | a complete condition never raises, and holds only with a number on both sides |
| Conditions.CrossMeaning | trade-api/app/strategies/composed.py:78-87 | at lags 0 and 1 a crossing holds iff the number is beyond its threshold now and was not one lag earlier; further back it never holds |
| Conditions.CrossIsEdge | trade-api/app/strategies/composed.py:78-87 | so it holds iff its comparison holds now and did not one lag earlier, with numbers on both sides at both lags |
| Conditions.NumberIsComputed | trade-api/app/strategies/composed.py:51-67 | a number at a step is what the indicator computes on the bars of its timeframe closed by then |
| Conditions.OpInRun | trade-api/app/strategies/composed.py:88-89 | at every step of a run a comparison holds iff that step's numbers compare so |
| Conditions.CrossInRun | trade-api/app/strategies/composed.py:78-87 | at every step after the first a crossing holds iff its comparison holds there and did not at the step before |
| Instants.RaisesIff | trade-api/app/strategies/composed.py:66-89 | some reading makes a condition raise iff it misses its indicator, what to compare with, or an operator or crossing |
| Instants.FiresMeaning | trade-api/app/strategies/composed.py:102-103 | a missing or empty rule never fires; an accepted one fires iff it holds now and did not at the step before |
| Instants.SignalCarries | trade-api/app/strategies/composed.py:105-113 | a signal carries the strength of its side and, for every indicator, what it reads now; a hold carries neither |
| Instants.InstantsAre | trade-api/app/strategies/composed.py:45-49 | the evaluation instants are the closes of the newest three base bars |
| Instants.SeenAre | trade-api/app/strategies/composed.py:51-62 | at an instant exactly the bars opened one bar length (60, 300, 3600 or 86400 seconds) before it are seen |
| Instants.SeenIsPrefix | trade-api/app/strategies/composed.py:51-62 | of an ascending series these are the oldest, up to the first that had not closed |
| Instants.CadenceIs | shared/neuromancing_shared/strategy_spec.py:52-57 | the cadence is the base timeframe named, else the fastest an indicator names, else a minute |
| Instants.StrengthIs | trade-api/app/strategies/composed.py:116-126 | the strength is how far the number is from the map's first end to its second, kept between 0 and 1, and 0.6 when the ends are equal |
| Instants.DefaultStrength | trade-api/app/strategies/composed.py:116-122 | without a map or a number for it the strength is 0.6 |
| ComposedProofs.AcceptedEvaluates | shared/neuromancing_shared/strategy_spec.py:114-204 | validator soundness: an accepted spec evaluates on any bars without raising, to a signal of strength between 0 and 1 |
| ComposedProofs.NodeNeverRaises | trade-api/app/strategies/composed.py:91-100 | over any nesting of all, any and not an accepted rule never meets a missing state, indicator key, threshold or operator |
| ComposedProofs.OperandsComeFromCompute | trade-api/app/strategies/composed.py:66-90 | an operand of an accepted condition is undefined iff the indicator itself computed nothing at that instant |
| ComposedProofs.GroupMeaning | trade-api/app/strategies/composed.py:91-100 | all holds iff every item does, any iff some item does, not iff its item does not, despite short circuits |
| ComposedProofs.FirstFiredWins | trade-api/app/strategies/composed.py:105-113 | the signal is that of the first fired rule in the order buy, exit, cover, short, and a hold when none fired |
| ComposedProofs.StrengthAtEnds | trade-api/app/strategies/composed.py:116-126 | the strength map sends its first end to 0 and its second to 1, whichever is larger |
| ComposedProofs.AsOfEarlier | trade-api/app/strategies/composed.py:51-62 | what had closed at an earlier instant can be told from what has closed at a later one |
| ComposedProofs.NoLookahead | trade-api/app/strategies/composed.py:45-62 | series that agree on the bars closed by base bar i's close give the same signal at every step up to i, however they differ later in any timeframe |
| ComposedProofs.WholeEqualsClosed | trade-api/app/strategies/interface.py:226-230 | passing the higher series whole equals passing only what had closed at that moment |
| EdgeTriggers.LagIsPreviousStep | trade-api/app/strategies/composed.py:74-103 | a group's value at lag 1 in step i is its value at lag 0 in step i - 1, crosses included |
| EdgeTriggers.ActionsAreEdges | trade-api/app/strategies/composed.py:102-113 | buy is emitted exactly at rising edges of buy_when; each other action exactly at its own group's rising edges not masked by a group of higher precedence |
| EdgeTriggers.FirstStepHolds | trade-api/app/strategies/composed.py:41-42 | the first step of a run, with no previous one, holds |
| EdgeTriggers.NoRepeatedFiring | trade-api/app/strategies/composed.py:102-113 | between two buys there is a step at which the group did not hold: a persistent condition fires once |
| StrategyInterface.BacktestStrategy | trade-api/app/strategies/interface.py:219-232 | the loop over the base bars, evaluating at each, gives the metrics of replaying the strategy's signals, and raises iff some evaluation does or the replay does |
| StrategyInterface.ActionOn | trade-api/app/strategies/interface.py:226-230 | one bar's action is none during the warmup and then the signal the specified run has at that bar, on the base prefix and the other series whole; it raises iff that evaluation does |
| StrategyInterface.AcceptedNeverRaises | trade-api/app/strategies/interface.py:226-230 | for a spec the validator accepts no bar's evaluation raises |
| StrategyInterface.CurveHasNoLookahead | trade-api/app/strategies/interface.py:219-232 | bars closing after base bar i change neither the actions nor the equity curve up to i |
| StrategyInterface.LongsComeFromEdges | trade-api/app/strategies/interface.py:226-230 | in a backtest a buy is acted on exactly at rising edges of buy_when, and nothing before the 35th bar |
| StrategyInterface.EdgesMoveTheBook | trade-api/app/strategies/interface.py:219-232 | after the warmup an unmasked rising edge of exit_when leaves no long and one of cover_when no short; one of buy_when or short_when opens from flat when something can be opened; otherwise the bar only settles exits |
| StrategyInterface.TruncatedHistory | trade-api/app/strategies/composed.py:51-62 | a spec without ema or macd evaluates the same on truncated and full history when each series keeps the bars its indicators need by the earliest cutoff |
| Drawdown.MaxDrawdown | trade-api/app/strategies/backtest.py:146-154 | the one-pass loop computes the largest drop from the running peak |
| Drawdown.EveryDropIsBounded | trade-api/app/strategies/backtest.py:146-154 | it bounds the fractional drop from any earlier positive value, starting cash included, to any later one that is not negative, and from the running peak to any later one |
| Drawdown.ReportedBoundsIff | trade-api/app/strategies/backtest.py:146-154 | when equity falls below zero for the first time, the reported drawdown bounds the drop from every positive value before, the start included, iff none of them was below the peak |
| Backtest.SqueezeUnderreported | trade-api/app/strategies/backtest.py:132-180 | a replay in which one is: a short that reaches minus its starting cash reports a drawdown below the 2.0 the start lost |
| Drawdown.MaxDropIsAttained | trade-api/app/strategies/backtest.py:146-154 | when positive it is the drop between two such values |
| Backtest.WithDefaultStop | trade-api/app/strategies/backtest.py:44-58 | a missing or zero stop becomes 8%, and a caller's own settings are kept |
| Backtest.Book.OpenPosition | trade-api/app/strategies/backtest.py:84-100 | the in-place open equals the specified one: sizing, cash cap for longs, fees, extreme, counter |
| Backtest.Book.ClosePosition | trade-api/app/strategies/backtest.py:102-112 | the in-place close equals the specified one, with the win counted by the realized sign |
| Backtest.Book.Settle | trade-api/app/strategies/backtest.py:114-130 | the exit decision is replayed on the position, ratcheting the extreme |
| Backtest.Book.Apply | trade-api/app/strategies/backtest.py:132-143 | at a positive price sell and exit close a long and cover a short, whole, in one fill at that price with its fee and realized amount; buy and short open from flat iff the notional and the rounded quantity are positive; every other pair of action and position changes nothing |
| Backtest.BarActs | trade-api/app/strategies/backtest.py:132-180 | a bar first settles its exit levels and then does what its action says; without an action it only settles |
| Backtest.SettleMeaning | trade-api/app/strategies/backtest.py:114-130 | settling ratchets the extreme and closes the whole position iff a level is reached, in the prices of the stop, trailing stop and target |
| Backtest.MetricsMeaning | trade-api/app/strategies/backtest.py:146-163 | the return takes the start to the last equity and is positive iff it is above, the win rate takes the trades to the wins |
| Backtest.FeesAre | trade-api/app/strategies/backtest.py:81-82 | a fee is the cost in basis points of what is traded, to half a unit |
| Backtest.Replay | trade-api/app/strategies/backtest.py:166-180 | the loop's metrics are those of the specified run; a zero starting cash raises |
| Backtest.EquityTelescopes | trade-api/app/strategies/backtest.py:77-144 | equity equals starting cash plus held quantity times price change summed over the bars minus all fees, within half a unit per fill, for every price series and action sequence |
| Backtest.WinsClosesTrades | trade-api/app/strategies/backtest.py:96-112 | wins <= closes <= trades <= closes + 1 over any replay, with trades equal to closes iff it ends flat |
| Backtest.ExitComesFirst | trade-api/app/strategies/backtest.py:172-178 | when an exit level is hit the bar's first fill closes the whole position at that price, whatever the bar's action |
| Backtest.WatermarkIsExtreme | trade-api/app/strategies/backtest.py:114-130 | while held, the extreme is that of the prices since entry, entry bar included, and the position is never added to |
| Backtest.CurvePrefix | trade-api/app/strategies/backtest.py:166-180 | the equity curve up to a bar depends on nothing after it |
| Backtest.EntryIsAllocation | trade-api/app/strategies/backtest.py:84-100 | what is opened is worth the allocation, for a long no more than the cash, to half a quantity unit of price |
| Backtest.LongOverdraft | trade-api/app/strategies/backtest.py:84-100 | an opened long overdraws cash by at most its fee, half a quantity unit of price and half a money unit |
| Backtest.LongAffordedIff | trade-api/app/strategies/backtest.py:84-100 | cash stays non-negative after opening a long iff value plus fee, known before the open, are less than half a unit above the cash |
| Backtest.AllocationAfforded | trade-api/app/strategies/backtest.py:84-100 | so it does whenever the allocation, half a quantity unit of price and the cost of both are below the cash |
| Backtest.FeeOverdraws | trade-api/app/strategies/backtest.py:88-98 | it does overdraw: a concrete open after which cash is minus the fee |
| OptionRisk.UnboundedIffNegativeSlope | shared/neuromancing_shared/options/risk.py:35-67 | P&L over prices P >= 0 is unbounded below iff the slope above all breakpoints is negative |
| OptionRisk.UnboundedLossExactly | shared/neuromancing_shared/options/risk.py:50-67 | for a non-negative top strike, infinite max_loss agrees with unbounded P&L iff a negative slope is steep enough for the tolerance |
| OptionRisk.UnboundedLossDetected | shared/neuromancing_shared/options/risk.py:50-77 | with a top strike of a cent or more max_loss is infinite iff P&L is unbounded below, and a structure is defined-risk iff its final slope is not negative |
| OptionRisk.TinyStrikeEscapes | shared/neuromancing_shared/options/risk.py:56-67 | a naked short call at strike 1e-9 has unbounded loss and a finite max_loss |
| OptionRisk.WorstCase | shared/neuromancing_shared/options/risk.py:50-67 | with a finite max_loss and no negative final slope no price P >= 0 loses more than max_loss |
| OptionRisk.WorstCaseExactly | shared/neuromancing_shared/options/risk.py:50-67 | a finite max_loss bounds the loss at every price P >= 0 iff the final slope is not negative |
| OptionRisk.WorstCaseAttained | shared/neuromancing_shared/options/risk.py:50-67 | a positive max_loss is the loss at some price when no strike is negative |
| OptionRisk.SizedWithinBudget | shared/neuromancing_shared/options/risk.py:80-84 | sizing keeps total defined risk within the budget and is the largest count that does, and nothing for a loss that is unbounded or not positive |
| OptionStructures.Mark | shared/neuromancing_shared/options_strategy.py:136-151 | the loop over the legs computes the mark |
| OptionStructures.MarkAtExpiry | shared/neuromancing_shared/options_strategy.py:136-151 | at or after expiry the mark of legs of ratio 1 is the risk payoff |
| OptionStructures.MarkIgnoresRatio | shared/neuromancing_shared/options_strategy.py:145-148 | for a ratio of 2, which open_structure never builds, it is not |
| OptionStructures.MarkAtExpiryIff | shared/neuromancing_shared/options_strategy.py:136-151 | at or after expiry the mark is the risk payoff iff the legs' ratios beyond 1 add up to nothing at that price |
| OptionStructures.OpenedStructures | shared/neuromancing_shared/options_strategy.py:77-133 | what open_structure builds earns a credit, has ratio-1 legs, no falling final slope, a finite positive max_loss, and its archetype's legs with each wing on the far side; it expires dte days later |
| OptionTerms.TermsAre | shared/neuromancing_shared/options_strategy.py:77-133 | shorts are at the strikes found for the delta to half a cent, wings the width beyond, stock at the spot, and the credit is what the shorts sell for less what the longs cost |
| OptionTerms.OpensIff | shared/neuromancing_shared/options_strategy.py:128-133 | once its strikes are found, a structure is opened iff it earns a credit and loses at some price at expiry |
| OptionStructures.MarkTime | shared/neuromancing_shared/options_strategy.py:136-151 | a mark is taken days over 365 before expiry, at zero once it has passed, and counts the stock of a covered call |
| OptionStructures.SettlementBounded | shared/neuromancing_shared/options_strategy.py:136-151 | an expiry settlement of such a structure loses at most its max_loss |
| OptionsBacktest.BacktestStructure | trade-api/app/strategies/options_backtest.py:39-127 | the loop's trades, cash, drawdown and counters are those of the specified run |
| OptionsBacktest.TradesWithinShare | trade-api/app/strategies/options_backtest.py:64-75 | over a run each spread or condor risked at most riskPct, each cash-secured put or covered call at most allocPct, of the cash when it opened, and one contract more would exceed that share |
| OptionsBacktest.OpensIff | trade-api/app/strategies/options_backtest.py:60-75 | on an eligible day a structure is opened iff at least one contract fits the share |
| OptionsBacktest.DayMeaning | trade-api/app/strategies/options_backtest.py:77-104 | a day with an open structure adds its equity mark, and closes it at that mark iff it is expired, at its profit target or within its days to close, in that order; settlements and assignments count expiries |
| OptionsBacktest.LastCloseMeaning | trade-api/app/strategies/options_backtest.py:106-114 | a structure still open at the end is closed at the last bar's mark |
| OptionsBacktest.DaysStart | trade-api/app/strategies/options_backtest.py:44-58 | a run starts flat with the starting cash and looks at no bar before the 22nd |
| OptionsBacktest.RunStaysSolvent | trade-api/app/strategies/options_backtest.py:60-114 | over a whole run each trade risked at most its share of cash (`OptionsBacktest.TradesWithinShare` names the share) and settlements lost at most their risk; with a pricer that meets the archetype's bounds, which the default skew does but for condors, no trade lost more than its risk and flat cash never went negative |
| OptionStructures.EveryMarkBounded | shared/neuromancing_shared/options_strategy.py:136-151 | if puts cost at most their strike, calls at most the spot and put spreads at most their width (for condors: if none is priced below its least expiry value), no mark of a built structure, on any day, price and volatility, is below minus its max_loss |
| OptionStructures.MarkWithinIff | shared/neuromancing_shared/options_strategy.py:136-151 | a mark of any structure is within its defined risk iff it is no worse than some outcome at expiry |
| OptionStructures.CondorMarkIff | shared/neuromancing_shared/options_strategy.py:136-151 | a condor's is iff buying both spreads back costs no more than the wider wing |
| OptionSurface.SurfaceIs | shared/neuromancing_shared/options/vol.py:33-50 | the implied volatility is the realized one times premium, log-moneyness tilt and term slope, or the floor when that is higher; without prices the realized one |
| OptionSurface.SurfaceFalls | shared/neuromancing_shared/options/vol.py:33-50 | the implied volatility never rises with the strike, for a skew that is not negative |
| OptionSurface.SkewedSurfaceQualifies | shared/neuromancing_shared/options/vol.py:33-50 | on such a surface, the default one included, the pricing formula's own bounds give those the cash-secured put, the covered call and the put spread need |
| OptionSurface.CondorEscapes | shared/neuromancing_shared/options_strategy.py:136-151 | they are not enough for a condor: a pricer that meets them marks a built condor below its defined risk |
| OptionStructures.IntrinsicPricerQualifies | shared/neuromancing_shared/options_strategy.py:136-151 | a pricer that meets the bounds of every archetype exists: intrinsic value at all times |
| OptionsBacktest.SettledRunStaysSolvent | trade-api/app/strategies/options_backtest.py:60-114 | with no early closes and no structure open at the end flat cash never goes negative, whatever the pricer says before expiry |
| OptionsBacktest.DaysLookBackOnly | trade-api/app/strategies/options_backtest.py:52-58 | the state after n bars depends on those bars only |
| PriceStore.DedupSort | shared/neuromancing_shared/price_store.py:73-79 | the ascending listing of the last-write-wins map of the list |
| PriceStore.GroupByDay | shared/neuromancing_shared/price_store.py:184-189 | each day gets exactly its bars, in order |
| PriceStore.PriceStore.AppendHot | shared/neuromancing_shared/price_store.py:82-94 | the cache becomes the newest HOT_LEN of the cache with the bars written |
| PriceStore.PriceStore.WriteParquet | shared/neuromancing_shared/price_store.py:176-206 | merging into day files writes the bars into the one map the files form, across day boundaries |
| PriceStore.PriceStore.IngestBars | shared/neuromancing_shared/price_store.py:242-251 | the cache stays the newest HOT_LEN of everything ingested, and coverage survives iff every bar pushed out is archived with its value |
| PriceStore.PriceStore.FlushToParquet | shared/neuromancing_shared/price_store.py:254-259 | every cached bar is archived with its cached value and no archived bar is lost |
| PriceStore.PriceStore.GetBars | shared/neuromancing_shared/price_store.py:210-218 | on a covered store exactly the newest limit bars (one for a limit below 1) of everything ingested, ascending, from the cache alone or merged |
| PriceStore.PriceStore.GetLastBar | shared/neuromancing_shared/price_store.py:221-227 | the latest bar ever ingested |
| PriceStore.PriceStore.GetWindow | shared/neuromancing_shared/price_store.py:230-239 | on a covered store exactly the bars of [start, end), ascending, when the archive read is within its row limit |
| StoreRuns.CacheIsNewest | shared/neuromancing_shared/price_store.py:82-94 | over any run of ingests and flushes the cache is the newest HOT_LEN of the last-write-wins map of all ingested bars |
| StoreRuns.NothingIsLost | shared/neuromancing_shared/price_store.py:242-259 | over any run in which no ingest pushes out an unarchived bar, everything not cached is archived with its last value |
| StoreRuns.LossBreaksCoverage | shared/neuromancing_shared/price_store.py:242-251 | an ingest that pushes out an unarchived bar does lose its value |
| StoreRuns.FlushThenIngest | shared/neuromancing_shared/price_store.py:254-278 | an ingest right after a flush can only lose bars it brought itself |
| StoreRuns.RunEvents | shared/neuromancing_shared/price_store.py:242-259 | running any list of ingests and flushes on a store leaves the tiers of the specified run and stands for the last-write-wins map of all bars, covered while nothing is lost |
| StoreRuns.BarsAfter | shared/neuromancing_shared/price_store.py:210-218 | reading the newest bars after any run that loses nothing gives the newest of everything ingested |
| StoreRuns.WindowAfter | shared/neuromancing_shared/price_store.py:230-239 | reading a window after such a run gives exactly the bars ingested for it, when the archive read is within its row limit |
| Guardrails.Validate | game-api/app/agents/guardrails.py:46-159 | the loop's valid and rejected lists are the specified ones, in order, with the reasons |
| Guardrails.AcceptedIsSafe | game-api/app/agents/guardrails.py:46-159 | every accepted close has a position of the right sign; every accepted open is signal-backed, not against a position, and up to half a cent within the per-order, concentration and cash or collateral caps; a short carries a stop |
| Guardrails.BuyAcceptedIff | game-api/app/agents/guardrails.py:106-126 | a buy is accepted iff tradable, no short held, backed, a slot free, something asked for, and every cap leaves room; with the least of them as notional |
| Guardrails.ShortAcceptedIff | game-api/app/agents/guardrails.py:128-155 | the same for a short, which must carry a stop and fit the collateral |
| Verdicts.BuyMeaning | game-api/app/agents/guardrails.py:106-126 | in the context's numbers: a buy is accepted iff tradable, not short, signalled, with a slot, something asked for and something left below each of the four caps; it is granted the least of them |
| Verdicts.ShortMeaning | game-api/app/agents/guardrails.py:128-155 | a short likewise, not long, with a stop, and with the buying power over the collateral multiple as its fourth cap |
| Verdicts.ReducingMeaning | game-api/app/agents/guardrails.py:76-104 | a close, sell or cover is passed on iff there is a position, a long, a short to reduce |
| Verdicts.RejectionsAreTrue | game-api/app/agents/guardrails.py:62-159 | every rejection of a batch is of a proposed action, for a reason that is true of it |
| Guardrails.ValidComesFrom | game-api/app/agents/guardrails.py:62-159 | each accepted entry comes from one proposal, in the order proposed |
| Guardrails.CapsArePerAction | game-api/app/agents/guardrails.py:120-125 | two accepted buys can together exceed the cash |
| Guardrails.BatchSpendsDemand | game-api/app/agents/guardrails.py:62-126 | what the accepted buys of a batch take is the sum of what each proposal demands by itself, so the batch fits the cash iff that sum does |
| Guardrails.BatchBound | game-api/app/agents/guardrails.py:106-126 | over any batch the accepted buys take at most the least of the per-order cap and the cash, and half a cent, each |
| Guardrails.BatchFits | game-api/app/agents/guardrails.py:106-126 | a batch proposing few enough buys fits the cash whatever they ask for |
| Guardrails.SameBuysFitIff | game-api/app/agents/guardrails.py:106-126 | n copies of an acceptable buy fit the cash iff n times its demand does |
| Guardrails.OpenExceedsCapIff | game-api/app/agents/guardrails.py:114-126 | an accepted open is above the least of its caps iff that cap's fraction of a cent rounds up |
| Guardrails.RoundingExceedsCap | game-api/app/agents/guardrails.py:120-125 | it happens: with 0.6 cents of cash a buy of one cent is accepted |
| AgentContext.MergeSignals | game-api/app/agents/context.py:71-95 | for every symbol the sources are all its non-hold signals in order and the primary is the strongest, the earliest on a tie |
| AgentContext.SourcesGrow | game-api/app/agents/context.py:82-90 | one more signal adds itself at the end of its symbol's sources, unless it is a hold, and changes no other symbol's |
| AgentContext.OneWinner | game-api/app/agents/context.py:91-94 | that winner is unique |
| AgentContext.FilterActionable | game-api/app/agents/context.py:26-53 | the loop keeps exactly the signals that would change something |
| AgentContext.ShownIff | game-api/app/agents/context.py:26-53 | a signal is shown iff its market is open and its holdings leave something to do: value below the concentration cap on its side for an open, a held long to sell or exit, a held short to cover |
| AgentContext.FiltersAreTransparent | game-api/app/agents/context.py:187-195 | for any list of actions the guardrails accept the identical list with and without the market and actionability filters |
| AgentContext.ShownAcceptedIff | game-api/app/agents/context.py:26-53 | on a tradable symbol a shown signal can be followed by some accepted proposal iff, for a buy or short, the other side is not held, a slot is free and the per-order cap and cash (for a short, collateral room) are positive; an exit, sell or cover always can |
| AgentContext.FollowedIff | game-api/app/agents/context.py:26-53 | with all signals in view a buy or short can be followed iff it is shown and that holds |
| AgentContext.ShownButRefused | game-api/app/agents/context.py:41-43 | a shown buy signal on a symbol held short is refused whatever is proposed |
| AgentContext.ShownWithoutSlot | game-api/app/agents/context.py:41-43 | so is one on a symbol not held when every slot is taken |
| AgentContext.ConflictIff | game-api/app/agents/context.py:98-106 | the conflict flag is set iff two strategies disagree on the action |
| AgentContext.EnrichActionable | game-api/app/agents/context.py:98-106 | every shown signal gets its sources and flag |

## Left out

- Services and plumbing: HTTP, authentication, streaming, the web site, migrations, language-model
  calls, Temporal, calendars, seeding, the diary and the leaderboard. Proposed actions are arbitrary
  input to the guardrails.
- Redis, Postgres, DuckDB and Parquet themselves: the cache is a map trimmed to its newest entries,
  a day file a map from time to bar, a table a map or a list with the stated unique constraint.
  The three-day expiry of a hot key is not modelled; it can leave gaps the merge does not fill.
- The price store is one series (one symbol and timeframe); its members other than `PriceStore` are
  the queries it needs. The per-bar JSON coding is left out.
- Decimal's 38-digit context and binary floating point: money is exact integers, the rest exact reals.
  Column overflow is not modelled.
- The ledger is one account; `Interleaving` has any number of them. Timestamps, time in force, source
  and reason fields, ids of orders and the listing queries are left out; the id of a new position row
  comes from the environment.
- `settle_resting` takes no account lock in the code, so it is part of the sequential runs only and
  not of `Interleaving`. Cancels and marks to market are not in `Interleaving` either.
- The scan of the exit sweep is one step that reads all accounts at once; `Interleaving.ScanOf` says
  which scans are possible.
- The pricer, the strike-by-delta search, realized volatility and the logarithm are functions given to
  the model. The only fact used of the pricer everywhere is intrinsic value at or after
  expiry. Bounds on marks before it use `OptionStructures.MarksBounded`; that the default surface meets
  its part for puts, covered calls and put spreads rests on textbook facts of the pricing formula at one
  volatility (`OptionSurface.FlatFormula`), which are not proved here.
- OptionStructures.EveryMarkBounded: for condors it asks that none is priced below its least expiry value, which the
  default skew does not meet; `OptionStructures.CondorMarkIff` has the exact condition for each mark.
- The option report's averages, win rate and rounding to cents; `OptionsBacktest.BacktestStructure`
  returns the trades they are computed from, unrounded.
- The default deltas and widths of an option spec are filled in by the validator before the model starts.
- The square root of the Bollinger bands is a function given to the model; the only fact used of it, in
  `Indicators.BandsOrdered`, is that it is not negative.
- JSON keys present with a null value, non-numeric thresholds, and group values that are not lists.
  A strategy's archetype is checked but used nowhere.
- The `dsl` key of a signal's features, and the trimming of features for the language model.
- The legacy `rule_dsl` and `signal_fn` kinds, whose signals can be any action sequence of
  `Backtest.Replay`.
- Backtest.Replay: starting cash has at most eight decimals, because the code books in exact decimals of that size
  from the first fill on.
- LedgerRuns.ShortOpenPowerBound: the bound is for the fill that opens the short; a cover has no
  affordability check in the code, so no such bound holds after one.
- OptionRisk.WorstCase: asks for a final slope that is not negative, because below the tolerance of the slope test
  max_loss is finite although P&L is unbounded; `OptionRisk.WorstCaseExactly` has both directions.
