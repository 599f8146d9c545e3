# Paper-trading ledger and engine: a Dafny model

The system trades weather markets on paper. Strategies hold a bankroll in cents; every movement of
money is a cash event, every decision a signal, every order a position with a fill, and every change
an audit record. An engine tick reads forecasts and quotes as of one moment, lets each strategy
evaluate each market, sizes what it proposes and books the orders. A resolution tick settles the
positions whose market has resolved. Evaluation reads the history back.

The model has the same parts. `LedgerSpec.dfy` says, on values, what each ledger operation answers
and leaves behind; `LedgerStore.dfy` is the writer as it runs, a class whose methods change the tables
in place and are proved to commit exactly that. `Tick.dfy` and `Resolution.dfy` do the same for the
two batch drivers, `Features.dfy`, `Eval.dfy`, `Calibration.dfy` and `EngineCache.dfy` for the loops
around them; `FeatureTheorems.dfy` says what a feature means and what a market is given of them, and
`Drafts.dfy` when a strategy proposes something on it. `Runs.dfy` closes the system: a run is any
sequence of the service's start, operator commands, ingestions, engine ticks, resolution ticks and
direct executor calls from the empty databases, and the whole-run theorems in `RunTheorems.dfy`,
`SettledAnswers.dfy`, `Lifecycle.dfy`, `Signals.dfy` and `Eval.dfy` hold of all of them.
`ExampleRuns.dfy` follows concrete runs through start, ingestion, trading and settlement: they show
that the theorems are not about empty runs, and each failure below at a state the system reaches.

`dafny verify dfyconfig.toml` checks everything.

## What the proofs found

Some promises of the documentation or of comments are not kept by the code. The model follows the
code, and each case has its exact condition.

- A comment says bootstrap activation skips the kill-switch gate so that seeding can finish while
  paused. The deposit just before it is gated, so under the kill switch seeding succeeds exactly when
  there is nothing left to seed (`RunTheorems.SeedingUnderPause`). A service that starts with the
  switch tripped stays without strategies (`ExampleRuns.SwitchKeepsTheSystemEmpty`).
- The design says a paused system records `rejected_system_paused`. Recording a signal is itself
  refused under the kill switch, so a paused tick raises exactly when some strategy has a signal
  (`TickTheorems.PausedTick`); the resolution tick of that cycle is then not reached
  (`RunTheorems.PausedCycle`). `ExampleRuns.PausedCycleSettlesNothing` is a run in which two due
  positions stay unsettled. No engine-driven run ever stores that outcome, nor
  `rejected_below_threshold` (`Signals.EngineSignalsAreFormed`).
- Sizing rounds a cost down, the writer expects it rounded half up. The writer refuses a sized order
  exactly when its value is under a cent or has half a cent or more over
  (`Sizing.SizedOrderMeetsLedger`), and an active tick is rolled back exactly when its loops reach such
  an order (`TickTheorems.TickFailsIff`): never at whole-cent quotes
  (`TickTheorems.WholeCentTickCommits`), but on the first order at a quote of 21.5 cents
  (`ExampleRuns.HalfCentQuoteRollsBack`).
- The exposure cap is called global and is a share of the total bankroll, but sizing counts only the
  strategy's own positions. After an order everything open is within the cap exactly when what the
  others have open fits into what the strategy leaves of it (`Exposure.ExposureCapIsGlobalIff`), and
  the same goes for a whole tick, which is safe when one strategy alone has anything open
  (`Exposure.TickWithinCapIff`); what always holds is the sum of the caps
  (`Exposure.TotalExposureBound`). In `ExampleRuns.TwoStrategiesExceedTheCap` two strategies have 2650
  cents open under a cap of 2000.
- The state diagram has automatic pauses for low bankroll and drawdown. Nothing enters those states,
  so no deposit ever resumes a strategy (`Lifecycle.OnlyOperatorsChangeStates`). In
  `ExampleRuns.NobodyPausesTheLoser` a strategy with 8250 cents left of a minimum of 10000 stays active.
- The high-water rules say a deposit does not silently raise the mark. It does at the next settlement,
  which raises the mark exactly when the bankroll after it, deposits included, is above it, won or lost
  (`RunTheorems.SettlementRaisesMarkIff`). No loss can do so exactly when the bankroll is at most one
  cent above the mark (`RunTheorems.LossesKeepHighWaterIff`). In `ExampleRuns.LossRaisesTheMark` a
  strategy is topped up, loses 1750 cents, and its mark goes up by 3250.
- Look-ahead is prevented for forecasts and quotes (`Tick.TickDoesNotLookAhead`,
  `FeatureTheorems.NothingIsLater`), but reference rows carry no time. Overwriting a market row reaches
  back exactly when a tick reads something else of it (`LookAhead.RefreshIsInvisibleIff`): closing a
  market later turns the two orders of an earlier tick into none
  (`ExampleRuns.ClosingLaterErasesTheOrders`). A new market reaches back exactly when it is listed
  (`LookAhead.InsertIsInvisibleIff`), seeding locations exactly when one was missing
  (`LookAhead.SeedingIsInvisibleIff`). Two different quotes with the same newest time make the answer
  depend on row order, exactly then (`LookAhead.TiedQuotesDependOnOrder`).
- Orders on inputs older than `max_input_age` are to be rejected. The freshness gate measures age from
  the quote, not from the tick, and takes the newer of the two model runs for both. On the states a
  tick builds it opens exactly when the quote is uncrossed, both models have rows and the newer run is
  at most `max_input_age` older than the quote (`FeatureTheorems.FreshnessIff`), so an old quote never
  stops an order. An open gate means that every feature is within the age at the time of the tick
  exactly when quote and newer run are (`FeatureTheorems.OpenGateIsYoungIff`), and that every row read
  is exactly when the older run is as well (`FeatureTheorems.OpenGateHasYoungInputsIff`). In
  `ExampleRuns.OldInputsAreTraded` both strategies trade on a quote and a run of any age at all.
- The gate looks at all features in scope, not at those the strategy requires. With rows of one model
  only, whatever a strategy drafts is rejected as stale (`FeatureTheorems.OneModelIsRejected`), even by
  the strategy that does not require the disagreement (`ExampleRuns.OneModelDraftIsRejected`).

One oddity turns out to be harmless. A strategy's side compares temperatures and its probability is
clamped, so the two agree for every forecast exactly when the mid price is above 0.05 and at most 0.95
(`Signals.SideMatchesProbabilityIff`); sizing never lets a mismatch become an order
(`Signals.OrdersAgreeWithProbability`).

## Model

| member | source | states |
|---|---|---|
| LedgerStore.Store.DepositCash | core/ledger/writer.py:202-244 | commits exactly the specified deposit with its event and audit record, or reports the first failing check and changes nothing |
| LedgerStore.Store.WithdrawCash | core/ledger/writer.py:247-278 | the same for a withdrawal, bounded by free cash at that moment |
| LedgerStore.Store.SetStarting | core/ledger/writer.py:281-330 | resets deposit, high-water mark and baseline with a balancing event only before any trading activity; otherwise nothing changes |
| LedgerStore.Store.AddSignal | core/ledger/writer.py:365-411 | appends one signal with a fresh id and its audit record, unless the system is paused |
| LedgerStore.Store.OpenPaperPosition | core/ledger/writer.py:414-517 | appends one position, one fill and the fee event, in that order, only when every check passes; the checks fail in the source's order |
| LedgerStore.Store.RealizePnl | core/ledger/writer.py:333-362 | appends the REALIZED_PNL event, moves the bankroll by it and raises the high-water mark when exceeded |
| LedgerStore.Store.Resolve | core/ledger/writer.py:535-584 | settles an open position once; a resolved one is left alone |
| LedgerStore.Store.ApplyKillSwitch | core/ledger/writer.py:587-626 | pauses the system with a reason and audits the old and new switch |
| LedgerStore.Store.LiftKillSwitch | core/ledger/writer.py:629-664 | reactivates the system and clears reason and time |
| LedgerStore.Store.SetKellyFraction | core/ledger/writer.py:667-695 | stores the clamped fraction of a live strategy and audits both values |
| LedgerStore.Store.ChangeState | core/ledger/writer.py:716-752 | commits exactly the specified transition, whose whole row and audit record are `Lifecycle.MoveWrites`, or reports the first failing check |
| LedgerStore.Store.SeedStrategies | core/ledger/seed.py:49-101 | seeds, funds and activates each missing strategy, all of them or none |
| LedgerStore.Store.SeedStrategy | core/ledger/seed.py:57-100 | inserts, funds and activates one missing strategy, or reports the first error |
| LedgerStore.Store.FreeCashCents | core/ledger/queries.py:133-152 | the scan returns bankroll less open cost bases, clipped at zero |
| LedgerStore.Store.CheckBankrollInvariant | core/ledger/reconcile.py:8-22 | answers whether the stored bankroll is the sum of the cash events |
| LedgerStore.SeedAllStops | core/ledger/seed.py:57-101 | the first failing strategy decides what seeding reports |
| Invariants.DepositKeepsSound | core/ledger/writer.py:202-244 | a deposit keeps the ledger invariant: sums, reservations, high-water mark, audit links, one-to-one records |
| Invariants.WithdrawKeepsSound | core/ledger/writer.py:247-278 | so does a withdrawal |
| Invariants.SetStartingBankrollKeepsSound | core/ledger/writer.py:281-330 | so does a baseline reset |
| Invariants.NoActivityMeansNoSettlement | core/ledger/queries.py:96-118 | without signals or positions a strategy has no settlement and no reservation, so a reset cannot follow one |
| Invariants.OpenPositionKeepsSound | core/ledger/writer.py:414-517 | so does opening a position with fees |
| Invariants.LossIsBounded | core/ledger/writer.py:520-554 | a position loses at most its cost basis |
| Invariants.ResolveKeepsSound | core/ledger/writer.py:535-584 | settlement at a price in [0, 1] never fails on a sound ledger and keeps it sound |
| Invariants.SettleKeepsRecords | core/ledger/writer.py:544-568 | the new event is the only one that references the position, and carries its result |
| Invariants.SeedAllKeepsSound | core/ledger/seed.py:49-101 | seeding keeps a sound ledger sound |
| Sizing.SizedOrderIsBounded | core/risk/sizing.py:38-98 | an accepted order is priced at the ask or at what the bid leaves of a dollar, has the largest quantity within the Kelly stake, and fits stake, free cash, the exposure cap and the correlation cap of its date |
| Sizing.WantedIsTakenIff | core/risk/sizing.py:38-98 | the order for as many contracts as bankroll x Kelly fraction x confidence x expected profit pays for is taken exactly when free cash and both caps leave room, and each rejection names what does not |
| Sizing.FreshIff | core/risk/sizing.py:116-133 | the gate opens exactly when every feature in scope of the market is present, dated and at most the allowed age older than the quote |
| Sizing.OnlyWantedIsTaken | core/risk/sizing.py:38-98 | no other order is ever taken |
| Sizing.EdgeIsExpectedProfit | core/risk/sizing.py:109-113 | the edge is what the ledger is expected to pay for a contract, less its price |
| Sizing.MirroredOrder | core/risk/sizing.py:101-113 | buying NO is buying YES of the opposite event: the mirrored question is answered with the same quantity, price and cost |
| Sizing.LargestWithinStake | core/risk/sizing.py:70-81 | a count of contracts fits the stake exactly when it is at most the computed quantity |
| Sizing.SizedOrderMeetsLedger | core/ledger/writer.py:430-452 | the writer accepts a sized zero-fee order exactly when it is worth a cent and its fraction is below one half, and names the error otherwise |
| Sizing.WholeCentOrdersAreAccepted | core/risk/sizing.py:70-98 | at whole-cent prices the writer never refuses a sized order |
| Sizing.UncappedShares | core/domain/strategy.py:13-14 | without caps of its own a strategy may have half of the total, and half of its bankroll on a date, open |
| Exposure.ExposureCapIsGlobalIff | core/risk/sizing.py:136-153 | after a sized order is booked the strategy is within the cap; everything open is exactly when the others' reservations fit the remainder |
| Exposure.TickWithinCapIff | core/engine/tick.py:81-157 | after a whole tick everything open is within the cap of a strategy that ordered exactly when the others' reservations fit the remainder, as when it alone has anything open |
| Exposure.TotalIsSumOfReservations | core/ledger/queries.py:133-140 | everything open is the sum of what the strategies have reserved |
| Exposure.TotalExposureBound | core/engine/tick.py:81-157 | after a tick everything open is within the sum of the caps of those that ordered and the reservations of the rest |
| Sizing.SplitJoin | core/risk/sizing.py:178-182 | splitting a ticker at dashes loses nothing and leaves no dash in a part |
| Sizing.KeyIsTheDate | core/risk/sizing.py:178-182 | the settlement key of a ticker is the date after its series, whatever the strike, and there is none exactly without a dash |
| Tick.RunEngineTick | core/engine/tick.py:52-168 | the loops commit exactly the specified tick, and on an error the ledger is as before |
| Tick.TradeStrategies | core/engine/tick.py:81-157 | the outer loop over registered strategies that may emit |
| Tick.TradeMarkets | core/engine/tick.py:92-157 | the inner loop, sizing each signal against the positions open at that point |
| Tick.Trade | core/engine/tick.py:119-157 | records a rejected signal, or records a placed one and books its order against it |
| Tick.SumBankrolls | core/engine/markets.py:136-142 | the total bankroll does not depend on the order of the rows |
| Tick.SumNamesTake | core/engine/markets.py:136-142 | any strategy may be summed next |
| Tick.TickDoesNotLookAhead | core/engine/tick.py:61-157 | a whole tick, to the last row, is the same on databases that agree up to its time, when tied newest quotes are the same quote |
| TickTheorems.CapsSurviveTheTick | core/engine/tick.py:81-157 | after the nested loops a strategy that placed an order is within its exposure cap, on the markets of a date it grew, all strikes together, within its correlation cap, and all else is unchanged |
| TickTheorems.OwnPositionsSum | core/engine/tick.py:37-45 | the rows handed to sizing carry exactly the strategy's reservation, in total and per settlement key |
| TickTheorems.TickKeepsRecordsMatched | core/engine/tick.py:119-157 | a tick adds one fill and one position per order-placing signal and its counters are right |
| Signals.TickRecordsTheDrafts | core/engine/tick.py:81-145 | the nested loops record exactly one signal for each draft of each strategy that is enabled, active and has a Kelly fraction, in order and with the draft's numbers |
| TickTheorems.PausedTick | core/engine/tick.py:105-133 | under the kill switch a tick raises exactly when some strategy has a signal, and otherwise changes nothing |
| TickTheorems.TickFailsIff | core/engine/tick.py:81-157 | with the system active a tick fails exactly when its loops reach an order the writer refuses, and with that order's error |
| TickTheorems.WholeCentTickCommits | core/engine/tick.py:81-160 | at whole-cent quotes every active tick commits |
| TickTheorems.StrategiesKeepSound | core/engine/tick.py:81-157 | the nested loops keep the ledger invariant |
| ResolutionTick.RunResolutionTick | core/engine/resolution.py:24-71 | the loop commits exactly the specified settlements and counts them, for any order of the rows |
| ResolutionTick.ResolveAllEffect | core/engine/resolution.py:45-58 | closed form: each listed due row settled at its own result, bankroll moved by the sum |
| ResolutionTick.ResolutionIsConfluent | core/engine/resolution.py:32-58 | any two orders give the same positions, bankrolls and free cash |
| ResolutionTick.HighWaterBounds | core/ledger/writer.py:358-361 | only the high-water mark depends on order, between the final bankroll and the old one with all gains |
| ResolutionTick.ExactlyTheDueAreSettled | core/engine/resolution.py:44-58 | a position changes exactly when it is open and its market has a resolution row, and then carries its result |
| ResolutionTick.SecondRunIsANoOp | core/engine/resolution.py:24-71 | running the tick again changes nothing at all |
| Runs.CommandEvolves | core/ledger/writer.py:202-752 | no command rewrites history: logs only grow and a position only goes from open to resolved |
| Runs.RunEvolves | core/ledger/writer.py:281-330 | along every run history only grows, decommissioning is final and trading activity freezes deposit and minimum bankroll |
| RunTheorems.EveryRunIsSound | core/ledger/writer.py:126-190 | every reachable world satisfies the full invariant and agrees with its resolutions |
| RunTheorems.AlwaysSolvent | core/ledger/queries.py:143-152 | on every run the bankroll covers the open cost bases, so the clip in free cash never acts |
| RunTheorems.EveryRunIsOrdered | core/features/queries.py:30-50 | on every run locations and markets are in the order the queries list them, and the locations are seeded ones |
| RunTheorems.SettlementPaysFreeCash | core/ledger/writer.py:535-584 | settlement raises the owner's free cash by exactly the payout and nobody else's |
| RunTheorems.SettlementOrderIsImmaterial | core/engine/resolution.py:32-58 | in every world of every run the order of the open positions does not matter and a second tick changes nothing |
| RunTheorems.RunsSettleExactlyTheDue | core/engine/resolution.py:44-58 | in every world of every run exactly the open positions with a resolution row are settled |
| RunTheorems.AlwaysReconciled | core/ledger/reconcile.py:8-22 | on every run the check never raises and bankroll is deposits less withdrawals less fees plus settled results |
| RunTheorems.BalancesArePrefixSums | core/ledger/writer.py:126-150 | each balance_after is the running sum of the strategy's amounts |
| RunTheorems.HighWaterClosedForm | core/ledger/writer.py:333-362 | on every run the high-water mark is the larger of starting deposit and highest balance after a settlement |
| RunTheorems.SettlementRaisesMarkIff | core/ledger/writer.py:333-362 | settling a position raises the mark exactly when the bankroll plus the position's result is above it |
| RunTheorems.LossesKeepHighWaterIff | docs/PDD.md:456-460 | no loss can raise the mark exactly when the bankroll is at most a cent above it |
| RunTheorems.AuditReplays | core/ledger/writer.py:61-87 | on every run audit records of money, of state and of the switch form chains from zero, from seeded and from active, and replaying them rebuilds the current values |
| RunTheorems.SettlementsAreOneToOne | core/ledger/writer.py:544-568 | a position is resolved exactly when one REALIZED_PNL event references it, with its result; it has one fill and its cost is the rounded price |
| RunTheorems.EngineRunsAreMatched | core/engine/tick.py:134-156 | on engine-driven runs order-placing signals and fills correspond one to one, and each position has one fill of its side, quantity and price, for a signal of its owner |
| RunTheorems.SeedingUnderPause | core/ledger/writer.py:699-706 | seeding under the kill switch succeeds exactly when every strategy is already there |
| RunTheorems.PausedRunOnlySettles | core/ledger/writer.py:90-92 | while nobody lifts the switch, any run adds only REALIZED_PNL events: no signal, position, deposit, withdrawal or fee |
| RunTheorems.PausedCycle | core/scheduler.py:268-285 | a paused cycle settles what is due unless some strategy has a signal, and then settles nothing |
| Lifecycle.EveryRunOperates | core/ledger/seed.py:20-46 | on every run each strategy is active, operator-paused or decommissioned, with a Kelly fraction in [0, 1] and the seeded caps and thresholds |
| Lifecycle.OnlyOperatorsChangeStates | core/domain/state_machine.py:38-49 | no command but an operator's transition changes a state; automatic pauses and auto-resume never occur |
| Lifecycle.TransitionsOfARun | core/domain/state_machine.py:18-47 | on a run pause takes active to operator-paused, resume takes it back, decommission takes any state and disables, and activation none; all other columns stay |
| Lifecycle.MoveWrites | core/ledger/writer.py:716-752 | when a transition is accepted, and the whole row and audit record it writes |
| Lifecycle.BlankIff | core/ledger/writer.py:725-726 | a reason counts exactly when it has a character that is not white space |
| Lifecycle.PauseSilences | core/domain/state_machine.py:52-55 | after a pause, an engine-driven continuation without a resumption adds no signal, position or fill of the strategy |
| Lifecycle.DecommissionedIsForGood | core/ledger/writer.py:716-752 | a decommissioned strategy stays so on every continuation, disabled and without a deposit; an engine-driven continuation adds no signal, position or fill of it |
| Lifecycle.TickKeepsRows | core/engine/tick.py:81-157 | an engine tick writes no strategy row |
| Lifecycle.SeededCapsHold | core/ledger/seed.py:20-46 | on every run a tick leaves a trading strategy with at most a tenth of the total bankroll open, and on a date it grew with at most a twentieth of its own |
| Lifecycle.SeedWrites | core/ledger/seed.py:49-101 | seeding succeeds exactly when each strategy is there or a positive amount is asked for it in an active system; the missing ones start with that amount and the others are untouched |
| Lifecycle.DepositWrites | core/ledger/writer.py:202-244 | when a deposit is accepted; it moves the bankroll and resumes exactly a strategy paused for a low bankroll that resumes by itself and is back at its minimum |
| Lifecycle.WithdrawWrites | core/ledger/writer.py:247-278 | a withdrawal is accepted exactly for a positive amount that is not reserved, and leaves the rest |
| Lifecycle.KellyWrites | core/ledger/writer.py:667-695 | a live strategy's Kelly fraction becomes the nearest number between zero and one |
| Lifecycle.OrderWrites | core/ledger/writer.py:414-517 | when an order is booked, and the position, the fill and the bankroll it then leaves |
| Lifecycle.BaselineWrites | core/ledger/writer.py:281-330 | a new baseline is accepted exactly before any signal or position, and sets bankroll, deposit, mark and minimum alike |
| Lifecycle.LiftUndoesTrip | core/ledger/writer.py:587-664 | lifting the switch leaves everything but the audit log as it was before the trip |
| Signals.SideMatchesProbabilityIff | core/strategies/weather_utils.py:48-53 | side and clamped probability agree for every forecast exactly for a mid above 0.05 and at most 0.95 |
| Signals.OrdersAgreeWithProbability | core/risk/sizing.py:101-113 | whatever sizing accepts buys YES only at a probability above the mid price and NO only below it |
| Signals.EngineSignalsAreFormed | core/engine/tick.py:119-145 | every signal of an engine-driven run is well formed and none is rejected as paused or below threshold |
| Signals.EngineRunsCalibrate | core/eval/metrics.py:137-164 | so the calibration table of every engine-driven run has non-empty, disjoint, ascending bins holding their means |
| Signals.MarketsOfARunSee | core/engine/tick.py:95-101 | in every world of every run a listed market of a seeded location is given its spread, the disagreement and the average of the model means, and nothing else |
| ExampleRuns.EngineTradesAndSettles | core/scheduler.py:129-145 | a run from the start of the service in which two strategies order on one tick and settle at 5250 and 2700 cents |
| ExampleRuns.EmptyAnswerReturnsTheCost | core/sources/kalshi/resolution.py:41-42 | after an empty answer both positions of that run settle at zero |
| ExampleRuns.TwoStrategiesExceedTheCap | docs/design/m4-engine.md:206 | that tick leaves 2650 cents open under a cap of 2000 |
| ExampleRuns.LossRaisesTheMark | docs/PDD.md:456-460 | topped up by 5000 cents, a strategy loses 1750 and its mark rises from 10000 to 13250 |
| ExampleRuns.HalfCentQuoteRollsBack | core/engine/tick.py:146-155 | at a quote of 21.5 cents the tick of an active system fails and leaves everything as it was |
| ExampleTick.HalfCentIsSizedAndRefused | core/risk/sizing.py:70-98 | an input whose order sizing accepts at 1827 cents and the writer expects at 1828 |
| ExampleTick.SecondStrikeIsRejected | core/risk/sizing.py:155-175 | with 400 cents open on another strike of the date, 300 more are rejected under a cap of 500; with the same on the next day they are ordered |
| ExampleRuns.PausedCycleSettlesNothing | core/scheduler.py:268-285 | in a paused system with a signal two due positions stay unsettled |
| ExampleRuns.OldInputsAreTraded | docs/PDD.md:401 | for every age, both strategies order on a quote that old and a run older still, at an allowed age of 900 |
| ExampleRuns.OneModelDraftIsRejected | core/risk/sizing.py:116-133 | with rows of one model a draft is recorded as rejected for stale inputs and nothing is ordered |
| ExampleRuns.NobodyPausesTheLoser | docs/PDD.md:445-452 | after a loss a strategy is below its minimum bankroll and still active |
| ExampleRuns.SwitchKeepsTheSystemEmpty | core/ledger/seed.py:57-100 | seeding after the switch was tripped leaves no strategy |
| ExampleRuns.OperatorsDay | core/api/v1/routes.py:70-250 | a run of withdrawal, tuning, pause, trip, lift, reset and top-up, and the two rows it leaves |
| ExampleRuns.ClosingLaterErasesTheOrders | core/features/queries.py:35-50 | closing a market after the tick's time turns its two orders into none |
| ExampleRuns.MarkDependsOnOrder | core/ledger/writer.py:358-361 | in a reachable world two orders of settlement leave marks of 10100 and 10000 at the same bankroll |
| Shared.SharedDb.PersistFetchResult | core/sources/persistence.py:70-171 | the loops store exactly the batch: rows upserted, resolutions kept when present, raw rows appended |
| Shared.SharedDb.SeedLocationsIfNeeded | core/sources/seed.py:79-95 | the loop inserts exactly the missing locations and leaves the others alone |
| Shared.InsertLocationsMembers | core/sources/seed.py:79-95 | afterwards the locations are the old ones and the seeded ones |
| Shared.InsertLocationsKeepOrder | core/features/queries.py:30-32 | they stay in id order, without duplicates |
| Shared.PrecedesIff | core/features/queries.py:30-50 | that order, and the one of tickers, is the lexicographic one |
| Shared.ResolutionsAreWriteOnce | core/sources/persistence.py:122-133 | a stored resolution never changes, and every ticker of a batch has one afterwards |
| Shared.DecodingIff | core/sources/kalshi/resolution.py:23-43 | a settled or finalized payload decodes to YES at 1, NO at 0 or void exactly for the answers yes, no and the empty one, and nothing else decodes |
| SettledAnswers.RunStores | core/sources/persistence.py:122-133 | on every run the resolution table holds what the ingested payloads decode to, the first of each market |
| SettledAnswers.FirstAnswerIsStored | core/sources/persistence.py:122-133 | a market has a resolution exactly when one of its payloads answered, and it is that of the first that did |
| SettledAnswers.FirstAnswerDecides | core/ledger/writer.py:520-554 | on every run a settled position has realized the dollar per contract less its cost, the loss of its cost, or zero, as the first answer of its market and its side say |
| SettledAnswers.TickSettlesAnswered | core/engine/resolution.py:24-71 | in every world of every run the tick settles exactly the open positions whose market has answered, at what the first answer gives |
| Shared.IngestionKeepsOrder | core/features/queries.py:50 | upserts keep the market table in the ticker order the queries read |
| Shared.LatestIsMaximum | core/features/queries.py:81-90 | the latest time is the maximum over the rows, none when there is none |
| Shared.LatestPermutation | core/features/queries.py:115-118 | and does not depend on their order |
| Features.BuildIndex | core/engine/markets.py:44-49 | the loop builds the specified index |
| Features.IndexKeepsLast | core/engine/markets.py:44-49 | under each key the index holds the feature computed last |
| Features.BuildMarketStates | core/engine/markets.py:23-41 | the loop yields one state per open market that has a quote |
| Features.AggregateParts | core/engine/markets.py:52-82 | the loop computes the mean of the usable parts as of the newest, none when there is none |
| Features.ScopeFeatures | core/engine/markets.py:85-129 | two passes over the index give each provider its first direct match, or else the rollup of its parts |
| FeatureTheorems.EnsembleMeaning | core/features/ensemble_mean_temp/provider.py:30-90 | a model's mean is present exactly when the model has rows, lies within their bounds, and carries the newest run time known |
| FeatureTheorems.DisagreementMeaning | core/features/forecast_disagreement/provider.py:30-93 | the disagreement is present exactly when both means are, is their distance, and carries the later time |
| FeatureTheorems.SpreadMeaning | core/features/kalshi_spread/provider.py:25-79 | the spread is present exactly when the newest quote has an uncrossed bid and ask, is not negative, and carries its time |
| FeatureTheorems.RowsAreCurrent | core/features/queries.py:53-105 | without a target the forecast query returns exactly the rows of the newest run known, in the window that has started last, and some exactly when a row of that run has started |
| FeatureTheorems.RowsAreTargeted | core/features/queries.py:53-105 | with a target it returns exactly the rows of that run in that window |
| FeatureTheorems.ModelRowsAreCurrent | core/features/ensemble_mean_temp/provider.py:30-90 | a model's mean is taken over its current temperatures for the place |
| FeatureTheorems.EnsembleIsTheAverage | core/features/queries.py:108-112 | and it is their average |
| FeatureTheorems.QuoteQuery | core/features/queries.py:121-161 | the quote is the last stored of the ticker's newest ones by then, and there is none exactly when the ticker has none |
| FeatureTheorems.KeysTellOrigins | core/engine/markets.py:44-49 | features of different things have different index keys, as long as location ids hold no colon |
| FeatureTheorems.MarketSees | core/engine/markets.py:85-129 | through providers, index and scoping a market is given its spread, the disagreement and the average of the model means, and nothing else |
| Drafts.RollupMeaning | core/engine/markets.py:52-82 | the mean a strategy works with is the average of the model means there are |
| Drafts.StatesIff | core/engine/markets.py:23-41 | a tick shows exactly the open or active, not yet closed markets that have a quote, with the fields of the newest one |
| Drafts.StaleQuoteDraftsIff | core/strategies/weather_stale_quote/strategy.py:41-81 | from the tables: the strategy drafts exactly on an uncrossed wide quote with a mid price when some model has rows, and what the draft says |
| Drafts.DisagreementDraftsIff | core/strategies/weather_ensemble_disagreement/strategy.py:34-83 | from the tables: it drafts exactly when both models have rows and differ by the threshold and the mid price is off the implied probability by more than the margin on the spread, and what the draft says |
| WeatherUtils.SixPlaces | core/strategies/weather_utils.py:12-30 | a series is at one of six places by its first letters, in any case, and otherwise at none |
| Drafts.PlacesAreSeeded | core/sources/seed.py:20-95 | and those places are exactly the seeded locations |
| FeatureTheorems.FreshnessIff | core/risk/sizing.py:116-133 | for the states a tick builds, the freshness gate opens exactly when the quote is uncrossed, both models have rows and the newer run is at most the allowed age older than the quote |
| FeatureTheorems.OneModelIsRejected | core/risk/sizing.py:116-133 | with rows of one model only, or none, sizing answers every draft of an active system on that market with a stale rejection |
| FeatureTheorems.OpenGateIsYoungIff | core/risk/sizing.py:116-133 | behind an open gate every feature is within the age at the time of the tick exactly when the quote and the newer run are |
| FeatureTheorems.OpenGateHasYoungInputsIff | docs/design/m4-engine.md:150 | behind an open gate every row read is within the age at the time of the tick exactly when the quote and the older run are |
| FeatureTheorems.NothingIsLater | core/features/queries.py:72-161 | no feature given and no market state is dated after the time asked for |
| LookAhead.ForecastsAgree | core/features/queries.py:72-105 | the forecast query sees the same bag of rows in two databases that agree up to its time |
| LookAhead.SnapshotsAgree | core/features/queries.py:121-161 | the quote query gives the same quote, when tied rows are the same quote |
| LookAhead.TiedQuotesDependOnOrder | core/features/queries.py:152-161 | and only then: with different tied quotes, another row order gives another answer |
| LookAhead.FeaturesDoNotLookAhead | core/features/queries.py:72-161 | no feature of any provider sees past its time |
| LookAhead.MarketsDoNotLookAhead | core/engine/markets.py:23-41 | no market state does either |
| LookAhead.LaterIngestionIsInvisible | core/sources/persistence.py:135-168 | ingesting only later raw rows is invisible at an earlier time |
| LookAhead.RefreshIsInvisibleIff | core/sources/persistence.py:95-118 | overwriting a market row is invisible at an earlier time exactly when ticks read the same of both rows |
| LookAhead.InsertIsInvisibleIff | core/sources/persistence.py:93-107 | a new market row is invisible at an earlier time exactly when it is not listed then |
| LookAhead.SeedingIsInvisibleIff | core/sources/seed.py:79-95 | seeding locations is invisible exactly when none was missing |
| Eval.ResolvedTradeRecords | core/eval/queries.py:50-108 | the loop with its seen set yields exactly the deduplicated join, which `Eval.RecordsAreTheTrades` characterises |
| Eval.RecordsAreTheTrades | core/eval/queries.py:50-108 | evaluation yields one record for each settled, signal-linked, non-void position of the strategy and nothing else, in the order of opening, with its result, cost, expected probability and how the market settled |
| Eval.OutcomesAreWins | core/eval/queries.py:92-107 | on every run a record of a YES position says 1, and one of a NO position 0, exactly when the position won a dollar per contract |
| Eval.EvaluationReconciles | core/eval/queries.py:50-108 | evaluated P&L plus unlinked results is the sum of the REALIZED_PNL events |
| Eval.EngineRunsReconcile | core/eval/metrics.py:106-107 | on engine-driven runs evaluated P&L is exactly that sum |
| Eval.OneFillNoDuplicates | core/eval/queries.py:85-91 | with one fill per position, deduplication never drops a row |
| Eval.TradesHavePositiveCost | core/eval/metrics.py:27-31 | the constructor's check never fails on a sound ledger |
| Eval.MaxDrawdownCents | core/eval/metrics.py:125-134 | the single pass returns the largest drop from an earlier balance to a later one, zero when empty |
| Eval.DrawdownIsWorstDrop | core/eval/metrics.py:125-134 | the running peak recurrence is that maximum |
| Eval.DrawdownOfSubsequence | core/eval/metrics.py:125-134 | leaving out any balances at all never deepens the drawdown |
| Eval.FilterIsPick | core/eval/queries.py:144-152 | the balances of a window are a subsequence of all balances |
| Eval.WindowsAreNested | core/eval/queries.py:39-47 | trades, wins and drawdown over 7 days are at most those over 30 days, and those at most the all-time ones |
| Eval.WindowHolds | core/eval/queries.py:28-47 | a window holds exactly the trades closed and the balances recorded in its last 7 or 30 days, or ever |
| Eval.WinsAreGains | core/eval/metrics.py:77-79 | wins are the trades that gained at least a cent |
| Calibration.CalibrationBins | core/eval/metrics.py:137-164 | the bucket array yields the specified bins, none for no trades, refused for a non-positive count |
| Calibration.BinsPartitionTrades | core/eval/metrics.py:151-164 | counts add up to the trades and weighted means to the sums of probabilities and outcomes |
| Calibration.BinsDescribe | core/eval/metrics.py:137-164 | a bin is in the table exactly when it tells, of one of the equal parts of [0, 1], its bounds, its trades, the sum of their probabilities and how many settled YES |
| Calibration.ProbabilityInBin | core/eval/metrics.py:145-150 | a probability lies within the bounds of its bucket, one in the last |
| Calibration.BinsAreAscending | core/eval/metrics.py:151-164 | bins are non-empty, disjoint and ascending within [0, 1], with each predicted mean inside |
| Posterior.PosteriorShrinks | core/eval/posterior.py:31-48 | the mean lies between zero and the sample mean and the variance below the prior's and the sample's |
| Posterior.MeanBalances | core/eval/posterior.py:31 | the deviations of the returns from their mean add up to zero |
| Posterior.PosteriorIsBest | core/eval/posterior.py:37-42 | every other guess at the return costs more, by prior and noise, than the posterior mean: by its squared distance over the posterior variance |
| Posterior.NoiseIsSampleVariance | core/eval/posterior.py:31-36 | of two trades or more the noise is the sample variance, by moments, but never under a billionth |
| Posterior.NoTradesIsThePrior | core/eval/posterior.py:27-29 | without trades the posterior is the prior |
| Posterior.OneTradeHalvesTheMean | core/eval/posterior.py:32-42 | one trade moves the mean exactly halfway |
| Posterior.MoreTradesTighten | core/eval/posterior.py:37-41 | of two lists of returns with equal sample variance the longer has the smaller variance and the narrower interval |
| Posterior.EdgeDemonstratedIff | core/eval/posterior.py:43-48 | the interval lies around the posterior mean, and above zero exactly when the mean is positive and its square exceeds 1.96 squared times the variance |
| Marks.PayoutsOfAPair | core/ledger/writer.py:520-532 | YES and NO payouts add up to 100 cents a pair, one more exactly on a half cent |
| Marks.OppositeMarksCancel | core/ledger/queries.py:276-291 | a YES at p and a NO at 1 - p mark to zero together |
| Marks.MarkPredictsSettlement | core/ledger/queries.py:282-291 | marking at the settlement price predicts the result within a cent, exactly for whole cents |
| Rounding.DownMeetsHalfUp | core/ledger/writer.py:113-115 | the two rounding modes agree exactly below the half cent |
| Rounding.DownDropsFraction | core/risk/sizing.py:66-78 | rounding down drops the fraction of an amount of either sign |
| Rounding.HalfUpIsNearest | core/ledger/writer.py:113-115 | half-up is a nearest cent, halves away from zero |
| Rounding.HalfUpUnique | core/ledger/writer.py:113-115 | and that cent is unique |
| EngineCache.Cache.MakeEngine | core/db/session.py:16-26 | returns a live engine, the cached one when there is one, and keeps the cache the most recently used URLs in order |
| EngineCache.Cache.Evict | core/db/session.py:23-25 | disposes of the oldest engines, each once, until the cache fits, never of the newest |
| EngineCache.Cache.MoveToEnd | core/db/session.py:18-20 | a hit makes its URL the newest and touches no engine |
| EngineCache.RecentIsByLastUse | core/db/session.py:12-26 | the reference order lists every URL used, once, by last use |
| EngineCache.NewestEight | core/db/session.py:12-26 | the cached URLs are eight or all there are, and each was used later than any that is not cached |
| EngineCache.NextRecent | core/db/session.py:16-26 | after one more access the eight newest depend only on the eight newest before |

## Left out

- FastAPI routes, authentication, settings, migrations, scheduler loops, source health counters and the user interface: plumbing without a deep property.
- HTTP fetching, market and weather parsing, request signing: only the rows they deliver are modelled; a market payload is its status and result fields.
- SQLAlchemy: a table is a sequence or map in a field of `Store` or `SharedDb`, and row objects are values in it, so aliasing between a row held by a caller and its table is not captured. Ids are table positions, fresh by construction.
- Concurrent sessions: transactions are serial; a failed command leaves the ledger as it was before it.
- Clocks: times are integers handed to each operation, and nothing assumes that they increase.
- Free text of cash events and audit records, actors, request ids, updated_at columns, feature snapshots of signals, stored feature values and evaluation snapshots: no modelled decision reads them.
- Float, 28-digit decimal and Numeric(12,6) rounding in prices, Kelly stakes, means, bins and the posterior: exact reals; only rounding to whole cents is kept.
- Unicode case mapping and whitespace: upper-casing covers ASCII letters and blank means space, tab, newline and carriage return.
- log_loss, sharpe_proxy, brier and hit_rate: they would need a logarithm and a square root, or are single expressions.
- Staleness of marks in position listings, list pagination and the consecutive-rejection counter: display code, or never written.
- Transfer events and the closed position status: the code never writes them.
- The `tolerate_missing` option of required features: the engine never sets it.
- Posterior.EdgeDemonstratedIff: the square root is a parameter, any non-negative number whose square is the variance.
- ResolutionTick.RunResolutionTick: does not recompute evaluation snapshots of the affected strategies, because they write nothing the ledger reads.
- Invariants.ResolveKeepsSound: asks for a settlement price in [0, 1], which the payload decoder guarantees on every run.
