# SUPER_TRADEMAN: a verified model of its stateful core

SUPER_TRADEMAN trades and simulates crypto assets. This project models the parts of it where state, ordering or
combinatorics carry the risk, and proves what they promise over every input, every run and every interleaving:

- **Order book** (`OrderBook.dfy`, `SyntheticLob.dfy`, `BookWalk.dfy`, `Shadow.dfy`): matching with queue slips,
  residual resting, cancelling, and the shadow walk over quoted levels.
- **Actor OMS and governor** (`ActorOms.dfy`, `ActorInterleaving.dfy`, `Governor.dfy`): the re-sequencing buffer, the
  tiered event queue, the safe-boundary reconciler and the cross-actor halt.
- **Live OMS** (`OrderStateMachine.dfy`, `LiveOms.dfy`, `LiveOmsAccounts.dfy`, `Chase.dfy`): the legal-transition
  table, fills, positions, finalization, and the token bucket in front of the order chaser.
- **Survival tiers** (`Survival.dfy`, `TierState.dfy`): the severity ladder, its hysteresis, and its persistence.
- **Backtests** (`RiskEngine.dfy`, `Backtest.dfy`, `Portfolio.dfy`, `TradeAccounts.dfy`, `PortfolioAccounts.dfy`,
  `PortfolioTrades.dfy`, `ReplayState.dfy`, `PortfolioCausality.dfy`, `SimulatorsAgree.dfy`): the risk gate, the
  single-asset and the portfolio replay, the account of every reported trade, and the exact condition under which
  the two replays agree.
- **Lock protocol** (`HaLock.dfy`, `HaLease.dfy`, `HaRelease.dfy`, `RedisLock.dfy`): each Redis command is one atomic
  step; nodes interleave freely.
- **Numerics and allocation** (`HmmForward.dfy`, `Pbo.dfy`, `PboSamples.dfy`, `Allocator.dfy`): the forward recursion
  against brute force, rank arithmetic with ties, what each split looks at, and greedy allocation.

Code that the repository writes as objects and loops is a class or a method here, proved against a specification
function on values; whole-run theorems are lemmas about those functions. `Common.dfy` holds sums and the stable sort
that stands for Python's `list.sort`. Floating-point numbers are `real`. Strategies, random draws, clocks, venue
replies, model flags and emission densities are parameters. `dafny verify dfyconfig.toml` checks everything.

Where code and documentation differ, the model follows the code:

- The docstring at `src/trading/backtest/engine.py:127-132` says the portfolio replay uses the gap-aware exit; the
  loop at `src/trading/backtest/portfolio.py:110` uses the exit that ignores the open.
  `SimulatorsAgree.AgreeExactlyWithoutGaps` states exactly when this makes a difference.
- `src/trading/risk/survival.py:469-477` treats an unrecognised tier as a special case that
  `src/trading/risk/survival.py:399-408` has already mapped to a known one, so the branch cannot be taken.
- The chaser's comments describe recovering a CANCELED order to FILLED; the transition table makes CANCELED terminal
  (`OrderStateMachine.LifeMovesForward`).
- A FILL for an order the actor does not know moves its position by minus the quantity, and FILLED is not absorbing in
  the actor OMS (`DeliveryProofs.PositionIsSignedFills`, `DeliveryProofs.FilledIsLeftExactlyWhen`).
- The 2% hard cap on risk is checked for the configured share only (`src/trading/risk/models.py:60-62`), while the
  reductions are unbounded and the final clamp applies to signals with a volatility scale only. With a reduction above
  one an order without a scale risks more than the configured share, and possibly more than 2%
  (`RiskEngine.LooseReductionBreaksCap`); `RiskEngine.RiskStaysCapped` has the exact condition for either limit.
- A negative volatility scale is approved with negative risk (`RiskEngine.NegativeScaleIsApproved`); the sign of the
  risk is that of the reductions times the scale (`RiskEngine.RiskSign`). When a trade of negative risk closes, the
  open risk can exceed the heat cap, and does so on some run for every negative scale
  (`PortfolioProofs.NegativeScaleBreaksHeatCap`). The heat cap holds on all runs exactly when no negative scale is
  allowed (`PortfolioProofs.HeatCapHoldsExactly`).
- Two nodes' `is_active` flags can be set at once, and a heartbeat can refresh another node's lease
  (`HaLockProofs.FlagsDoNotExclude`). For every lease time this can happen the moment a
  lease runs out (`HaLeaseProofs.LeaseTimeIsSharp`), and only then: until its last in-time refresh plus
  the lease time, a node owns the key (`HaLeaseProofs.LeaseIsOwnership`), so two running leases exclude each other
  (`HaLeaseProofs.LeasesExclude`) and two active nodes mean that one lease is over
  (`HaLeaseProofs.TwoActiveMeansOneExpired`).
- The chaser's documentation has every venue action win a token first; the cancels that a submission sends against
  opposing orders ask no limiter (`ChaseProofs.SubmissionsAskNoLimiter`).

## Model

| member | source | states |
|---|---|---|
| `BookWalk.TakeFills` | src/trading/execution/shadow.py:87-103 | A walk takes a feasible quantity from each level, in all min(requested, total depth). |
| `BookWalk.WalkIsCheapest` | src/trading/execution/shadow.py:87-103 | Over ascending levels no feasible allocation of the same quantity costs less than the walk. |
| `BookWalk.WalkIsDearest` | src/trading/execution/shadow.py:87-103 | Over descending levels no feasible allocation of the same quantity brings more. |
| `Shadow.ShadowInterceptor.WalkLevels` | src/trading/execution/shadow.py:87-103 | The level loop computes the walk's quantity and cost and leaves the rest of the request. |
| `Shadow.ShadowInterceptor.ExecuteShadowFill` | src/trading/execution/shadow.py:58-139 | Every interception appends one result; an empty book fills nothing, otherwise the result is that of the walk, partial exactly when the request exceeds the depth. |
| `Shadow.ShadowFillIsBest` | src/trading/execution/shadow.py:58-103 | The shadow fill is min(requested, depth) at the best total any allocation of it could have, for buys and sells. |
| `Shadow.VwapWithinPrices` | src/trading/execution/shadow.py:100-102 | The average fill price never leaves the price range of the levels. |
| `Shadow.ShadowFillInFigures` | src/trading/execution/shadow.py:100-139 | The fill price is the average moved against the order by its impact; slippage is the share of the entry it lies away; the fill is short of liquidity exactly when depth or impact capped it. |
| `SyntheticLob.SyntheticLOB.constructor` | src/trading/synthetic/lob.py:83-134 | A new book holds exactly the six seeded orders, and the floor is the given one clamped to [0, 1]. |
| `SyntheticLob.SyntheticLOB.MatchLoop` | src/trading/synthetic/lob.py:230-281 | The mutating loop leaves orders, opposite side, fills, slip flag and last price as the matching specification says, and terminates. |
| `SyntheticLob.SyntheticLOB.TakeBest` | src/trading/synthetic/lob.py:250-279 | One match fills both orders by what they have in common, at the resting price; a completed resting order leaves. |
| `SyntheticLob.SyntheticLOB.Rest` | src/trading/synthetic/lob.py:284-295 | A residual is inserted by the stable sort and taken out again if that crosses the book; where it lands is `OrderBookProofs.RestsInItsPlace`. |
| `SyntheticLob.SyntheticLOB.PlaceOrder` | src/trading/synthetic/lob.py:212-366 | Book, order and outcome after a placement are those of the placement specification, for any book. |
| `SyntheticLob.SyntheticLOB.CancelOrder` | src/trading/synthetic/lob.py:368-408 | Exactly the first order with the id leaves, bids searched first; reports whether there was one. |
| `SyntheticLob.RemoveEqual` | src/trading/synthetic/lob.py:190-196 | Removal drops the first equal order, if any. |
| `OrderBook.FillProbabilityFalls` | src/trading/synthetic/lob.py:141-153 | More stress never raises the fill probability; above the floor a unit of stress costs a quarter, stress is cut to [0, 1], and the floor never lifts the probability above the base. |
| `OrderBookProofs.MatchOrder` | src/trading/synthetic/lob.py:230-281 | Matching only fills the incoming order, never beyond its quantity; it slips only while crossing and otherwise ends full or no longer crossing. |
| `OrderBookProofs.MatchLeavesTail` | src/trading/synthetic/lob.py:230-281 | What is left of the opposite side is a tail of it with at most its head further filled, sorted and live. |
| `OrderBookProofs.MatchConserves` | src/trading/synthetic/lob.py:249-279 | Every unit the incoming order gains leaves some resting order and is reported once, also on a slip. |
| `OrderBookProofs.MatchAmount` | src/trading/synthetic/lob.py:230-289 | Without a slip the order gets min(wanted, all opposite depth priced within its limit). |
| `OrderBookProofs.MatchIsWalk` | src/trading/synthetic/lob.py:230-281 | What was matched is paid for as a walk of that size over the resting levels. |
| `OrderBookProofs.PlacementFillsAll` | src/trading/synthetic/lob.py:212-366 | A placement that does not raise reports fills of min(wanted, eligible depth) in total. |
| `OrderBookProofs.MatchIsOptimal` | src/trading/synthetic/lob.py:230-289 | No allocation of the matched quantity over the resting orders is cheaper for a buyer or better for a seller. |
| `OrderBookProofs.PlacementIsOptimal` | src/trading/synthetic/lob.py:230-289 | The same for a whole placement on a good book, slip or not. |
| `OrderBookProofs.PlaceKeepsInv` | src/trading/synthetic/lob.py:182-366 | A placement keeps both sides sorted, live and uncrossed; a violation is raised exactly on a slip, never by the post-insert check, and a slipped order rests nowhere. |
| `OrderBookProofs.CancelKeepsInv` | src/trading/synthetic/lob.py:368-408 | A cancel keeps the book invariant. |
| `OrderBookProofs.RunKeepsInv` | src/trading/synthetic/lob.py:212-408 | Every run of placements and cancels keeps the book invariant. |
| `OrderBookProofs.SeededRunKeepsInv` | src/trading/synthetic/lob.py:121-134 | The seeded book starts such a run. |
| `OrderBookProofs.RunIsPriceTimeOrdered` | src/trading/synthetic/lob.py:286-353 | In every state of every run, best prices stand first and at equal prices no order stands before one with a smaller priority time. |
| `OrderBookProofs.RestsInItsPlace` | src/trading/synthetic/lob.py:284-298 | A residual rests behind all orders of a better price, or of its price and no later priority time, and before all others. |
| `OrderBookProofs.PlacementIsFifo` | src/trading/synthetic/lob.py:230-281 | The k-th fill is with the k-th resting order, at its price, within the limit and under both ids; nobody is filled while an order of the same price and a smaller priority time is open; each fill passed its draw and a slip is a draw beyond the probability. |
| `OrderBookProofs.StopsAtTheLimit` | src/trading/synthetic/lob.py:231-282 | Without a slip the order is full or nothing priced within its limit is left. |
| `OrderBookProofs.SlipCostsTime` | src/trading/synthetic/lob.py:224-241 | A slip adds 50 to the priority time, or 75 from a stress of 0.70 on; nothing else changes it. |
| `OrderBookProofs.CancelTakesOneOut` | src/trading/synthetic/lob.py:368-408 | A cancel takes out the first order with the id, bids before asks, and nothing else; it fails exactly when there is none. |
| `ActorOms.OMSActorEngine.OnExchangeMessage` | src/trading/synthetic/oms_engine.py:164-172 | A message enters the buffer and every consecutive one is applied and removed. |
| `ActorOms.OMSActorEngine.ApplyExchangeMessage` | src/trading/synthetic/oms_engine.py:174-216 | The new orders and position for each kind of message, known order or not. |
| `ActorOms.OMSActorEngine.CancelRequest` | src/trading/synthetic/oms_engine.py:139-149 | Succeeds exactly for a resting order, which moves to cancel limbo. |
| `ActorOms.OMSActorEngine.EnqueueEvent` | src/trading/synthetic/oms_engine.py:115-127 | Events carry ever larger sequence numbers. |
| `ActorOms.OMSActorEngine.ProcessSingleEvent` | src/trading/synthetic/oms_engine.py:247-270 | Safety events cancel, entries submit unless halted, and exactly an entry without an order id raises. |
| `ActorOms.OMSActorEngine.DrainSafeBoundaryReconciler` | src/trading/synthetic/oms_engine.py:272-295 | A snapshot beyond the discrepancy limit trips and halts, a smaller one is adopted, and the mailbox is emptied. |
| `ActorOms.OMSActorEngine.RunStep` | src/trading/synthetic/oms_engine.py:218-237 | The event first in (tier, number) order is processed, and the mailbox drained also when it raises. |
| `ActorOms.OMSActorEngine.Shutdown` | src/trading/synthetic/oms_engine.py:239-245 | Takes the queue's events in (tier, number) order, each once, and all of them unless one raises; what is left then comes after all that were taken. |
| `ActorOms.WorkedOffInOrder` | src/trading/synthetic/oms_engine.py:218-245 | Any number of event steps takes events in (tier, number) order, losing and repeating none. |
| `DeliveryProofs.StepOutcome` | src/trading/synthetic/oms_engine.py:218-237 | A step takes and notes the event of smallest tier and number, does not note one that raises, and leaves the mailbox empty in any case. |
| `DeliveryProofs.EventOutcome` | src/trading/synthetic/oms_engine.py:247-270 | An alarm moves the ACTIVE or NEW order it names into cancel limbo, an entry submits unless halted, with the defaults for what it leaves out, and nothing else touches an order. |
| `DeliveryProofs.MessageOutcome` | src/trading/synthetic/oms_engine.py:174-216 | What each message kind makes of an order: fills add up and complete it, also against a pending cancel; no cancel undoes a fill; only fills move the position. |
| `DeliveryProofs.ReconcilesExactly` | src/trading/synthetic/oms_engine.py:272-295 | The breaker trips exactly when the positions differ by more than the allowed share of the larger of them and one; short of that more than a millionth is settled in the exchange's favour. |
| `DeliveryProofs.DrainTracks` | src/trading/synthetic/oms_engine.py:164-172 | Draining keeps the applied messages exactly 1..next-1 and leaves the expected number out of the buffer. |
| `DeliveryProofs.DeliveredInOrder` | src/trading/synthetic/oms_engine.py:164-172 | Under any arrivals with repetitions, exactly messages 1..next-1 have been applied, once each and in order. |
| `DeliveryProofs.ExactlyOnce` | src/trading/synthetic/oms_engine.py:164-216 | Once 1..n have arrived in any order, orders and position are those of applying 1..n in order. |
| `DeliveryProofs.ArrivalOrderIsIrrelevant` | src/trading/synthetic/oms_engine.py:164-172 | Two arrival histories of the same numbers end in the same orders, position and expected number. |
| `InterleavedDelivery.DeliveredAmongOperations` | src/trading/synthetic/oms_engine.py:115-295 | With event steps, enqueues, snapshots, submissions and cancels interleaved in any way, an actor ends as if its own operations came in call order and messages 1..next-1 took effect among them, each once and in order. |
| `InterleavedDelivery.ExactlyOnceAmongOperations` | src/trading/synthetic/oms_engine.py:164-216 | Once 1..n have arrived, exactly those n messages have taken effect, in order, whatever else the actor did. |
| `DeliveryProofs.StaleIsNotApplied` | src/trading/synthetic/oms_engine.py:164-172 | A number already applied stays in the buffer and changes nothing else. |
| `DeliveryProofs.PositionIsSignedFills` | src/trading/synthetic/oms_engine.py:174-216 | The position moves by all fills signed by the side of their order; fills of unknown orders count as sells. |
| `DeliveryProofs.FilledIsLeftExactlyWhen` | src/trading/synthetic/oms_engine.py:174-216 | FILLED is left exactly by a rejection or by a fill that does not complete the order. |
| `Governor.PortfolioGovernor.RegisterActor` | src/trading/synthetic/portfolio_governor.py:41-45 | Registration adds the actor with zero risk and touches no halt state. |
| `Governor.PortfolioGovernor.PortfolioRiskExposurePct` | src/trading/synthetic/portfolio_governor.py:77-78 | Exposure is the total of the per-symbol contributions. |
| `Governor.PortfolioGovernor.UpdatePortfolioRisk` | src/trading/synthetic/portfolio_governor.py:80-87 | Reports a breach, halts every actor and marks its symbol DEFENSIVE, exactly when the new total reaches the limit. |
| `Governor.PortfolioGovernor.TriggerGlobalHalt` | src/trading/synthetic/portfolio_governor.py:89-103 | Every registered actor, also one under several symbols, ends halted with its resting orders in cancel limbo, and exactly the registered symbols become DEFENSIVE. |
| `Governor.PortfolioGovernor.Reset` | src/trading/synthetic/portfolio_governor.py:105-122 | Succeeds exactly when not halted or cooled down, then resumes every actor and marks its symbol ACTIVE; otherwise nothing changes. |
| `HaltProofs.EventStaysQuiet` | src/trading/synthetic/oms_engine.py:218-270 | An event step of a halted actor with nothing resting leaves it so. |
| `HaltProofs.ReceiveStaysQuiet` | src/trading/synthetic/oms_engine.py:164-216 | So does any exchange message and everything it releases from the buffer. |
| `HaltProofs.HaltIsSafe` | src/trading/synthetic/portfolio_governor.py:89-122 | After a halt, no interleaving of events, messages, enqueues, snapshots, cancels, registrations, risk updates, halts and failed resets leaves a registered actor with an ACTIVE or NEW order. |
| `HaltProofs.ResetWaitsForCooldown` | src/trading/synthetic/portfolio_governor.py:89-122 | Along such a run a reset succeeds exactly when the cooldown since the latest halt has elapsed. |
| `HaltProofs.HaltedOrdersResolve` | src/trading/synthetic/portfolio_governor.py:89-103 | A halt changes nothing but the status of resting orders, which then end as the exchange decides: a late fill completes, a confirmation cancels, a rejection rejects. |
| `HaltProofs.TradingResumes` | src/trading/synthetic/portfolio_governor.py:105-122 | After a successful reset actors hold what they held and an entry event submits its order again. |
| `OrderStateMachine.LifeMovesForward` | src/trading/execution/state_machine.py:91-212 | Legal transitions only move an order forward except repeated partial fills; terminal states are exactly the six resolved ones and admit no event. |
| `OrderStateMachine.AtMostFourChanges` | src/trading/execution/state_machine.py:91-212 | No legal life of an order changes state more than four times. |
| `OrderStateMachine.LegalByTarget` | src/trading/execution/state_machine.py:91-141 | The table read by target: exactly from which states each state can be reached. |
| `OrderStateMachine.EventsDoWhatTheySay` | src/trading/execution/state_machine.py:144-212 | Each event leads where it says or is illegal, exactly when; a fill is partial exactly when it is known to fall short of a known non-zero quantity. |
| `LiveOms.OrderManagementSystem.DoTransition` | src/trading/execution/oms.py:87-135 | One transition, with the hop through SUBMITTED for unknown orders, as specified. |
| `LiveOms.OrderManagementSystem.SubmitOrder` | src/trading/execution/oms.py:137-259 | A submission quantizes, then cancels the chaser's opposing orders, then rejects, shadow-fills, adopts existing venue orders or goes live; an order below the grid is rejected before any cancel. |
| `LiveOms.OrderManagementSystem.ApplyExchangeFill` | src/trading/execution/oms.py:261-316 | The only operation that moves a position, and only after a legal transition. |
| `LiveOms.OrderManagementSystem.Cancel` | src/trading/execution/oms.py:318-342 | Cancels through the transition table; unknown and resolved orders are left alone. |
| `LiveOms.OrderManagementSystem.FinalizePartialFill` | src/trading/execution/oms.py:348-430 | Finalization resolves the order, raises its fills to the reported quantity and records the risk deviation. |
| `LiveOmsProofs.MoveShape` | src/trading/execution/oms.py:87-135 | A transition commits the table's answer or, for a known order, changes nothing. |
| `LiveOmsProofs.QuantizedSize` | src/trading/execution/oms.py:153-172 | Quantization never raises a size and takes off less than one step. |
| `LiveOmsProofs.QuantizedIsOnGrid` | src/trading/execution/oms.py:153-172 | A quantized size is a whole number of steps, and short sizes mirror long ones. |
| `LiveOmsProofs.RunKeepsInv` | src/trading/execution/oms.py:87-430 | On every run with positive quantities FILLED means fills cover the intended quantity and PARTIALLY_FILLED that they do not. |
| `LiveOmsProofs.TerminalStatesStay` | src/trading/execution/oms.py:87-430 | No continuation of a run moves an order out of a terminal state. |
| `LiveOmsProofs.RejectedFillChangesNothing` | src/trading/execution/oms.py:261-316 | A fill that is refused leaves the whole system as it was. |
| `LiveOmsProofs.PositionIsSumOfFills` | src/trading/execution/oms.py:261-316 | Each position is the signed sum of the successful fills; nothing else moves it. |
| `LiveOmsProofs.PositionIsSumOfOrderFills` | src/trading/execution/oms.py:261-342 | On live-only runs it is also the signed sum of the orders' cumulative fills. |
| `LiveOmsProofs.FirstSubmissionEnds` | src/trading/execution/oms.py:137-259 | A first submission from beginning to end: state, cumulative fill, record and result by grid, staleness and what venue or shadow book says; nothing else changes. |
| `LiveOmsProofs.StaleNeverFills` | src/trading/execution/oms.py:196-204 | On stale data nothing is filled: an order still working ends REJECTED, a resolved one stays. |
| `LiveOmsProofs.CancelsExactlyWorking` | src/trading/execution/oms.py:318-342 | A cancel succeeds exactly on a working order, which is CANCELED with nothing else changed. |
| `LiveOmsProofs.FinalizationEnds` | src/trading/execution/oms.py:348-430 | A finalization from beginning to end: the final state from the state before, the cumulative fill raised to the reported quantity, and the deviation with its risks. |
| `LiveOmsProofs.RefusedEventSubmits` | src/trading/execution/oms.py:87-135 | An event even a submitted order could not take leaves an unheard-of order SUBMITTED behind and is refused. |
| `LiveOmsAccounts.PositionIsFillsLessBooked` | src/trading/execution/oms.py:87-430 | On every run a position is the signed cumulative fills of its orders less what submissions and finalizations booked. |
| `LiveOmsAccounts.LiveSubmissionsBookNothing` | src/trading/execution/oms.py:235-256 | A live submission books nothing unless the venue reports the order as already closed. |
| `Chase.TokenBucketRateLimiter.Take` | src/trading/execution/chase.py:52-65 | A call refills by elapsed time up to capacity and takes a token if there is one. |
| `Chase.OrderChaser.RegisterOrder` | src/trading/execution/chase.py:98-99 | Afterwards the id reads back the new order, every other id what it read before, and the key order gains the id at its end if it was new. |
| `Chase.OrderChaser.OnFillEvent` | src/trading/execution/chase.py:101-115 | Only the order of that id changes, in filled quantity, time and, once complete, status; an unknown id changes nothing. |
| `Chase.OrderChaser.CheckAndChase` | src/trading/execution/chase.py:117-237 | A scan skips closed and fresh orders, asks the limiter for each stale one, and cancels, abandons or keeps it as specified. |
| `Chase.OrderChaser.PreventWashTrading` | src/trading/execution/oms.py:184-194 | Before a submission every opposing working order is cancelled at the venue and marked CANCELED; the others and the limiter are untouched. |
| `ChaseProofs.GrantsAreBounded` | src/trading/execution/chase.py:52-65 | With a non-decreasing clock tokens stay in [0, capacity] and grants over any window are at most capacity + rate x time. |
| `ChaseProofs.DenialsMeanNoToken` | src/trading/execution/chase.py:52-65 | While calls are denied no token is lost: what was there plus the whole refill is less than one. |
| `ChaseProofs.DueTokenIsGranted` | src/trading/execution/chase.py:52-65 | A call that comes when a token is due is granted. |
| `ChaseProofs.ScanTouchesOnlyStale` | src/trading/execution/chase.py:117-237 | A scan leaves fresh open orders as they are, asks and logs once per stale one, abandons exactly too small ones, keeps denied ones, and tracks nothing else. |
| `ChaseProofs.CancelsAreRateLimited` | src/trading/execution/chase.py:136-235 | The chaser's venue cancels over any stretch of any run, submissions in between included, obey the same bound. |
| `ChaseProofs.SubmissionsAskNoLimiter` | src/trading/execution/oms.py:184-194 | A submission cancels each opposing order without touching the limiter, and sends no cancel exactly when nothing opposes it. |
| `ChaseProofs.CancelledAtMostOncePerRegistration` | src/trading/execution/chase.py:136-235 | The chaser cancels an id at most once per registration. |
| `TierStates.MappingRoundTrip` | src/trading/risk/tier_state.py:71-95 | Reading back a written record gives every field of it. |
| `TierStates.StateFile.Save` | src/trading/risk/tier_state.py:269-294 | A save writes a temporary cell and replaces the live one. |
| `TierStates.MergeKeepsDefense` | src/trading/risk/tier_state.py:115-129 | Merging picks one of the two records, the first on a tie, at least as severe as both in any spelling of the names, and is associative. |
| `TierStates.CapitalsRankAlike` | src/trading/risk/tier_state.py:56-69 | The tier names rank alike in capitals. |
| `Survival.SurvivalEngine.constructor` | src/trading/risk/survival.py:180-220 | A starting engine has a proper tier: the loaded record if usable, CAUTION with the loaded anchor if unknown, the default otherwise. |
| `Survival.SurvivalEngine.EvaluateSurvivalStatus` | src/trading/risk/survival.py:452-536 | A cycle advances the automaton once, persists the new state and answers with the held tier's template. |
| `SurvivalProofs.RanksAgree` | src/trading/risk/tier_state.py:56-63 | The record's ranking of tier names is the engine's order of tiers, any other name ranks with survival, and names and severities read back. |
| `SurvivalProofs.WindowIsCovered` | src/trading/risk/survival.py:483-536 | The held tier is at least every raw severity of the last dwell cycles. |
| `SurvivalProofs.HeldIsBounded` | src/trading/risk/survival.py:490-509 | The held severity never exceeds both where it started and every raw severity since. |
| `SurvivalProofs.ShortDwellIsOne` | src/trading/risk/survival.py:490-509 | A dwell below one behaves as one. |
| `SurvivalProofs.NoEntrySoonAfterDanger` | src/trading/risk/survival.py:410-450 | No cycle within dwell-1 cycles of a raw SURVIVAL or COOLDOWN allows new entries or any size. |
| `SurvivalProofs.DropIsBounded` | src/trading/risk/survival.py:490-509 | After k cycles from below-count b the tier has dropped by at most floor((k+b)/d). |
| `SurvivalProofs.ConstantDescent` | src/trading/risk/survival.py:490-509 | Under a constant raw severity the held one is exactly max(r, s - floor((k+b)/d)), with b capped at d-1, as a larger stored count acts. |
| `SurvivalProofs.RunIsMonotone` | src/trading/risk/survival.py:490-509 | Pointwise worse raw severities keep a run at least as defensive, in the order on (tier, -below). |
| `SurvivalProofs.LadderIsMonotone` | src/trading/risk/survival.py:228-394 | A worse account, worse model flags and more flips never lower the raw severity. |
| `SurvivalProofs.LadderThresholds` | src/trading/risk/survival.py:228-394 | Each level is reached exactly on its thresholds, in the account's own figures: fall from the peak, losses in a row, daily and weekly results, model flags and tail risk. |
| `SurvivalProofs.WorseHistoryIsHeldHarder` | src/trading/risk/survival.py:228-536 | A pointwise worse history is held no less defensively. |
| `SurvivalProofs.RestartsAreTransparent` | src/trading/risk/survival.py:198-220 | From any disk, an unusable record included, restarts and crashes between or inside cycles leave the held tier, below-count and anchor of an uninterrupted engine. |
| `SurvivalProofs.CrashRecoversOneOfTwo` | src/trading/risk/tier_state.py:312-350 | From any disk and after any history, a crash at any point of a save recovers the record before or after the cycle, never a mix. |
| `SurvivalProofs.MachineRunsHysteresis` | src/trading/risk/survival.py:483-536 | The persisted engine's held tier is that of the hysteresis run the theorems are about, started from what the disk held. |
| `SurvivalProofs.PersistedEngineStaysShut` | src/trading/risk/survival.py:452-536 | From any disk and whatever restarts and crashes came in between, no status within dwell-1 completed cycles of a raw SURVIVAL or COOLDOWN allows new entries or any size. |
| `RiskEngine.RiskStaysCapped` | src/trading/risk/engine.py:161-185 | Under every accepted configuration, risk stays within the configured share if and only if the signal has a volatility scale or the reductions in force do not multiply above one, and within 2% if and only if it has a scale or they do not lift the share beyond 2%. |
| `RiskEngine.LooseReductionBreaksCap` | src/trading/risk/engine.py:161-185 | An accepted configuration and a signal that is approved at 3% risk. |
| `RiskEngine.RiskIsReducedShare` | src/trading/risk/engine.py:161-185 | The risk is the configured share times the reductions in force, scaled and clamped if the signal has a scale. |
| `RiskEngine.RiskSign` | src/trading/risk/engine.py:161-185 | Risk is positive exactly when the reductions in force times the scale are; with positive reductions, exactly when the scale is. |
| `RiskEngine.ApprovalIsSafe` | src/trading/risk/engine.py:110-308 | Under every configuration an approved order has size x stop distance = equity x risk, fits the heat cap, the correlation cap and the class limit, and meets the reward ratio. |
| `RiskEngine.ApprovalNeedsEquity` | src/trading/risk/engine.py:110-124 | With a positive peak an approval needs more equity than the drawdown limit leaves; with a limit of at most 100%, the size is positive exactly when the risk is. |
| `RiskEngine.ApprovedExactly` | src/trading/risk/engine.py:110-308 | A signal is approved if and only if the account may trade (kill switch, drawdown, daily loss, cooldown), the signal pays enough for its stop, and class limit, heat cap and correlation cap leave room. |
| `RiskEngine.RejectionsAreOrdered` | src/trading/risk/engine.py:110-165 | The kill switch is reported before anything else, the account's state before the signal, the signal before the room. |
| `RiskEngine.NegativeScaleIsApproved` | src/trading/risk/engine.py:176-185 | There are signals, with a negative scale, that are approved with negative risk. |
| `Backtest.RunBacktest` | src/trading/backtest/engine.py:226-341 | The replay loop returns trades, curve and final equity of the bar-by-bar state, settled at the end; what those trades are is `BacktestAccounts.TradesAreAccountedFor`. |
| `BacktestProofs.NoLookAhead` | src/trading/backtest/engine.py:245-341 | The state after n bars is the same on the first n bars alone. |
| `BacktestProofs.PrefixRunAgrees` | src/trading/backtest/engine.py:245-341 | A prefix run reports the same closed trades and at most one more, the end-of-data settlement. |
| `BacktestProofs.RunConserves` | src/trading/backtest/engine.py:245-341 | Final equity is the start plus all net results; the curve has bars+1 points and ends there. |
| `BacktestProofs.TradesAreDisjoint` | src/trading/backtest/engine.py:245-341 | On ascending timestamps trade intervals never overlap. |
| `BacktestProofs.StopOnlyRatchets` | src/trading/backtest/engine.py:262-290 | While a trade stays open only its age changes and its stop, towards profit. |
| `BacktestAccounts.TradesAreAccountedFor` | src/trading/backtest/engine.py:107-315 | Every reported trade was entered flat by an order the gate approved on that bar, left on a later bar for a reason that bar shows and at that reason's price, by its time stop at the latest; fills, net result and R multiple are what order price, exit price, slippage and commission make them. |
| `BacktestAccounts.BarDecidesExactly` | src/trading/backtest/engine.py:250-315 | A bar opens a trade if and only if the gate approves a signal, and closes one if and only if stop, target, a gap or its age says so. |
| `BacktestAccounts.LastTradeIsSettled` | src/trading/backtest/engine.py:323-341 | A trade open at the end of the data is reported last, all others stay. |
| `TradeAccounts.FrictionNeverHelps` | src/trading/backtest/engine.py:107-187 | With non-negative costs a trade nets at most what its two prices give without them, and nothing at equal prices. |
| `BacktestAccounts.RunHasNoFreeLunch` | src/trading/backtest/engine.py:107-315 | So it is for every trade of every run. |
| `ReplayState.CurveIsMarked` | src/trading/backtest/engine.py:169-172 | After every bar the curve ends at settled equity plus what the open trade is worth at the close, and its earlier points stay. |
| `ReplayState.PeakIsHighWater` | src/trading/backtest/engine.py:238-275 | The peak handed to the gate is the largest of the starting peak and the equity after each closed trade. |
| `ReplayState.StopTrailsMeanSpan` | src/trading/indicators.py:11-29 | A trailed stop follows the bar's far end at the multiple of the mean span, close before included, of the last bars, and only once there are enough. |
| `PortfolioProofs.TimelineIsSound` | src/trading/backtest/portfolio.py:48-60 | The merged timeline holds every bar of every asset once, by time, then asset name, then bar, and names only existing bars. |
| `PortfolioProofs.OneBar` | src/trading/backtest/portfolio.py:101-187 | One pass of the loop body computes the specified event step. |
| `PortfolioProofs.SettleOpenTrades` | src/trading/backtest/portfolio.py:189-216 | The settlement loop closes what is open at each asset's last close. |
| `PortfolioProofs.RunPortfolioBacktest` | src/trading/backtest/portfolio.py:29-221 | The portfolio loop returns trades, curve and final equity of the event-by-event state, settled at the end; what those trades are is `PortfolioAccounts.PortfolioTradesAreAccountedFor`. |
| `PortfolioProofs.PortfolioConserves` | src/trading/backtest/portfolio.py:101-216 | Final equity is the start plus all net results; the curve has one point per event plus one and ends there. |
| `PortfolioProofs.HeatCapHolds` | src/trading/backtest/portfolio.py:142-187 | Gated by the risk engine, after every event each class is within its limit; open risk is within the heat cap if no scale or reduction is negative; each trade is within the configured share if no scaling lifts a risk. |
| `PortfolioProofs.NegativeScaleBreaksHeatCap` | src/trading/backtest/portfolio.py:142-187 | For every negative scale, a three-event run under an accepted configuration that ends with open risk above the heat cap. |
| `PortfolioProofs.HeatCapHoldsExactly` | src/trading/backtest/portfolio.py:142-187 | On all runs, under all accepted configurations with positive reductions, whose signals carry scales from a given range or none, open risk stays within the heat cap if and only if the range has no negative scale. |
| `PortfolioTrades.EventIsOwnBar` | src/trading/backtest/portfolio.py:101-187 | An event moves on, closes or opens the trade of its own asset, and leaves every other asset's trades alone. |
| `PortfolioTrades.PortfolioStopOnlyRatchets` | src/trading/backtest/portfolio.py:104-140 | While an asset's trade stays open only its age and its stop change, on its own bars and towards profit. |
| `PortfolioTrades.PortfolioTradesAreDisjoint` | src/trading/backtest/portfolio.py:101-216 | For strictly ascending bars the trades a run reports for an asset never overlap, the settlement included. |
| `PortfolioAccounts.PortfolioTradesAreAccountedFor` | src/trading/backtest/portfolio.py:101-216 | Every reported trade was entered at an event of its asset while that held nothing, by an order the gate approved on the settled equity, peak and open trades of then, and left on a bar of that asset for a reason it shows; fills, net result and R multiple follow from the prices. |
| `PortfolioAccounts.EventDecidesExactly` | src/trading/backtest/portfolio.py:101-187 | An event opens a trade of its asset if and only if the gate approves, closes one if and only if stop, target or age says so, and leaves the others. |
| `PortfolioAccounts.PortfolioHasNoFreeLunch` | src/trading/backtest/portfolio.py:101-216 | The friction law holds for every trade of every portfolio run. |
| `PortfolioAccounts.CorrelationsAreOfPairs` | src/trading/backtest/portfolio.py:158-165 | The gate gets, for each open trade, the correlation of both assets' bars before now, if there is one, and no other. |
| `ReplayState.PortfolioCurveIsMarked` | src/trading/backtest/portfolio.py:77-96 | After every event the curve ends at settled equity plus what all open trades are worth at their assets' last closes. |
| `ReplayState.PortfolioPeakIsHighWater` | src/trading/backtest/portfolio.py:126-132 | The portfolio's peak is its high-water mark in the same sense. |
| `PortfolioCausality.CutTimeline` | src/trading/backtest/portfolio.py:48-56 | For ordered bars the timeline of the bars up to a time is the part of the whole timeline up to it. |
| `PortfolioCausality.PortfolioNoLookAhead` | src/trading/backtest/portfolio.py:101-187 | Replaying only the bars up to any time goes through the same events and states as the full replay does up to then. |
| `SimulatorsAgree.LoopsAgree` | src/trading/backtest/portfolio.py:101-187 | While no bar opens through the live stop, both replays pass through the same states. |
| `SimulatorsAgree.WithoutGapsTheyAgree` | src/trading/backtest/portfolio.py:101-216 | Then trades, curve and final equity agree, for every strategy and gate. |
| `SimulatorsAgree.GapSplitsRuns` | src/trading/backtest/engine.py:144-166 | A bar that opens through the live stop makes the two reports differ. |
| `SimulatorsAgree.AgreeExactlyWithoutGaps` | src/trading/backtest/engine.py:124-166 | On coherent bars the two replays report the same trades if and only if no bar opens through the live stop. |
| `HaLockProofs.AtMostOneOwner` | src/trading/infrastructure/ha_lock.py:207-295 | In every state of every interleaving at most one node's token matches the live key. |
| `HaLockProofs.OnlyExpiryOrOwnerEndsALease` | src/trading/infrastructure/ha_lock.py:207-290 | Only the passing of its expiry time, or a release by its owner through script or transaction, removes or replaces a live key. |
| `HaLockProofs.LostStaysLost` | src/trading/infrastructure/ha_lock.py:207-290 | A key that is gone never comes back under the same token. |
| `HaLockProofs.LoserIsDeactivated` | src/trading/infrastructure/ha_lock.py:236-249 | A node that lost the key gets False and is deactivated at its next delivered heartbeat read. |
| `HaLockProofs.FencingTokensIncrease` | src/trading/infrastructure/ha_lock.py:293-295 | Fencing tokens strictly increase in issue order across nodes. |
| `HaLockProofs.FlagsDoNotExclude` | src/trading/infrastructure/ha_lock.py:207-249 | For every lease time and any two nodes, a run in which both are active at once and the older one's heartbeat extends the other's lease. |
| `HaLeaseProofs.StepKeepsLeaseInv` | src/trading/infrastructure/ha_lock.py:207-295 | Every step of every node keeps: a node with a token, outside a release and before its last in-time refresh plus the lease time, owns the key, which outlives that time. |
| `HaLeaseProofs.LeaseIsOwnership` | src/trading/infrastructure/ha_lock.py:207-295 | In every state of every interleaving a node whose lease has not run out owns the key. |
| `HaLeaseProofs.LeasesExclude` | src/trading/infrastructure/ha_lock.py:207-295 | At most one node is within its lease. |
| `HaLeaseProofs.TwoActiveMeansOneExpired` | src/trading/infrastructure/ha_lock.py:207-295 | Two active nodes outside a release mean that the lease of at least one has run out. |
| `HaLeaseProofs.RefreshInTimeIsOwn` | src/trading/infrastructure/ha_lock.py:229-249 | A PEXPIRE that takes effect within the sender's lease refreshes the sender's own key; one that hits another's key came after the lease ran out. |
| `HaLeaseProofs.LeaseTimeIsSharp` | src/trading/infrastructure/ha_lock.py:207-249 | For every lease time and any two nodes, another node can take the key at the very moment a lease runs out. |
| `HaReleaseProofs.FreedExactly` | src/trading/infrastructure/ha_lock.py:45-52 | A key in place is freed by its owner's release command reaching the server, by script or by an EXEC with no write since WATCH, or by running out of time, and by nothing else. |
| `HaReleaseProofs.ReleaseLeavesKeyExactly` | src/trading/infrastructure/ha_lock.py:251-291 | A release leaves the key exactly when the node does not hold it, no deleting command arrives, or EXEC comes after another write; token and flag are given up. |
| `HaReleaseProofs.TransactionGoesOnExactly` | src/trading/infrastructure/ha_lock.py:276-285 | The watched transaction reaches EXEC exactly while the node still holds the key. |
| `HaReleaseProofs.AskerWinsExactly` | src/trading/infrastructure/ha_lock.py:207-224 | A free key goes to whoever asks, for a whole lease time and with True returned; a key in place stays. |
| `HaReleaseProofs.ReleaseHandsOver` | src/trading/infrastructure/ha_lock.py:207-291 | After a release that deletes, on either path and whatever other steps follow, the next delivered request of any node wins. |
| `RedisLock.RedisLockBackend.Acquire` | src/trading/infrastructure/ha_lock.py:207-234 | A call of acquire is a run of the step machine; it takes a free key or refreshes its own, and returns True in no other case. |
| `RedisLock.RedisLockBackend.Heartbeat` | src/trading/infrastructure/ha_lock.py:236-249 | A heartbeat is such a run; True exactly when the key was still ours and the refresh came back, with a whole lease time from then. |
| `RedisLock.RedisLockBackend.Release` | src/trading/infrastructure/ha_lock.py:251-268 | A release is such a run; our key is gone exactly when the script, or all of WATCH, GET and EXEC, got through, any other key stays, and token and flag are given up. |
| `RedisLock.RedisLockBackend.ReleaseWatchCas` | src/trading/infrastructure/ha_lock.py:270-291 | The fallback continues the run on every path and deletes exactly our own key, when all three commands get through. |
| `RedisLock.RedisLockBackend.NextFencingToken` | src/trading/infrastructure/ha_lock.py:293-295 | The increment is one step of the machine and hands out the value it stored. |
| `RedisLock.StepsAreLocal` | src/trading/infrastructure/ha_lock.py:164-295 | A node's step depends on and changes only its own record and the store, so runs of single calls interleave. |
| `HmmForward.ForwardFilteredPosterior` | src/trading/risk/hmm_regime.py:169-210 | The row-by-row loop computes the unnormalised forward rows and their normalisations. |
| `HmmForwardProofs.PathsAreAllPaths` | src/trading/risk/hmm_regime.py:169-206 | The brute-force reference enumerates exactly the state paths of a length, each once. |
| `HmmForwardProofs.AlphaIsSumOverPaths` | src/trading/risk/hmm_regime.py:169-206 | alpha[t][j] is the sum over all state paths of length t+1 ending in j of the clipped start entry, the clipped transition entries from each state to the next, and the densities. |
| `HmmForwardProofs.PosteriorIsConditional` | src/trading/risk/hmm_regime.py:169-210 | The posterior of a state is the weight of the paths ending in it as a share of the weight of all paths. |
| `HmmForwardProofs.MassIsConserved` | src/trading/risk/hmm_regime.py:190-194 | If the rows of the transition matrix sum to one and an observation is equally likely in every state, the row keeps its total. |
| `HmmForwardProofs.PosteriorIsDistribution` | src/trading/risk/hmm_regime.py:196-206 | Every posterior row is positive and sums to 1. |
| `HmmForwardProofs.PosteriorIsScaleFree` | src/trading/risk/hmm_regime.py:169-206 | Scaling one observation's densities by a positive constant changes no posterior row. |
| `HmmForwardProofs.PosteriorIsCausal` | src/trading/risk/hmm_regime.py:169-206 | Row t is the last row of a run on the first t+1 observations. |
| `Pbo.ArgMax` | src/trading/stats/pbo.py:193-195 | The in-sample winner is the first of the strategies with the largest score. |
| `Pbo.CombinationsAreSelections` | src/trading/stats/pbo.py:167-170 | The enumeration lists exactly the ascending selections of half the blocks. |
| `Pbo.CombinationsAreDifferent` | src/trading/stats/pbo.py:167-170 | No selection is listed twice. |
| `Pbo.CombinationsCount` | src/trading/stats/pbo.py:169-170 | The number of selections of k blocks out of n is n!/(k!(n-k)!). |
| `Pbo.EvaluateSplits` | src/trading/stats/pbo.py:182-207 | The loop records each split's winner and its out-of-sample lambda, and refuses exactly when the metric refuses some sample. |
| `Pbo.Condition` | src/trading/stats/pbo.py:214-220 | One conditional frequency for each strategy that won a split, and the largest of them. |
| `Pbo.ComputePboCscv` | src/trading/stats/pbo.py:121-252 | Inputs are refused for the first objection in order; otherwise lambdas, logits, pooled and conditional estimates are those defined on the splits, none of which is evaluated twice, and the total number of splits is the binomial coefficient. |
| `PboSamples.SplitsAreReported` | src/trading/stats/pbo.py:182-207 | For every split the winner is the first of those with the largest total (or score) over the rows inside its blocks, and lambda its mean rank over the rows outside, scaled by N+1; rows are told by position. |
| `PboSamples.InsideDecidesWinnerOutsideLambda` | src/trading/stats/pbo.py:188-207 | Matrices that agree inside the blocks have the same winner; ones that agree outside, with the same winner, the same lambda. |
| `PboSamples.LeadersAreSeen` | src/trading/stats/pbo.py:193-207 | A strategy best in every chosen row wins the split; a winner best in every other row has lambda 1/(N+1), one worst in all of them N/(N+1). |
| `PboSamples.RefusedExactly` | src/trading/stats/pbo.py:101-118 | A split has no outcome exactly when the Sharpe metric refuses its chosen rows. |
| `PboProofs.RanksAddUp` | src/trading/stats/pbo.py:205 | Average ranks of a row of N entries sum to N(N+1)/2 however the ties fall. |
| `PboProofs.RankIsMeanPlace` | src/trading/stats/pbo.py:197-205 | An entry's rank is the mean of the places its ties occupy in the row sorted best first. |
| `PboProofs.LambdaInRange` | src/trading/stats/pbo.py:205-207 | Every lambda lies in [1/(N+1), N/(N+1)], inside (0, 1). |
| `PboProofs.LambdasAverageHalf` | src/trading/stats/pbo.py:197-207 | The lambdas of all strategies on a sample average one half. |
| `PboProofs.LambdaMirrors` | src/trading/stats/pbo.py:197-207 | Negating every return turns lambda into 1 - lambda. |
| `PboProofs.LogitSign` | src/trading/stats/pbo.py:209-212 | The clipped logit is positive if and only if lambda exceeds one half. |
| `PboProofs.PooledIsWeightedMean` | src/trading/stats/pbo.py:212-219 | The pooled estimate is the mean of the conditional ones, weighted by splits won. |
| `PboProofs.MaxConditionalDominates` | src/trading/stats/pbo.py:212-220 | The largest conditional estimate is at least the pooled one. |
| `PboProofs.PboIsFractionAboveHalf` | src/trading/stats/pbo.py:182-220 | For every accepted input the estimate is the share of splits whose winner's lambda exceeds one half. |
| `PboProofs.SplitCoversAllRows` | src/trading/stats/pbo.py:164-191 | In a split every observation is used exactly once, in or out of sample. |
| `PboProofs.MirrorSplitIsEnumerated` | src/trading/stats/pbo.py:167-191 | In the full enumeration each split has a mirror image that swaps its two samples. |
| `Allocator.CapitalAllocator.AllocateCapital` | src/trading/risk/capital_allocator.py:103-190 | The loop returns the greedy pass over the ranked orders and stamps exactly its accepted assets. |
| `AllocatorProofs.AllocationPartitions` | src/trading/risk/capital_allocator.py:137-190 | Accepted and rejected orders together are the pending ones, each once and at its own size. |
| `AllocatorProofs.LimitsHold` | src/trading/risk/capital_allocator.py:137-190 | If anything is accepted, positions and exposure respect their limits, and each accepted order the single-order limit. |
| `AllocatorProofs.CallRespectsLimits` | src/trading/risk/capital_allocator.py:110-190 | After a call that accepts anything, open positions and accepted orders together are within number and worth, each accepted order within the single-order limit. |
| `AllocatorProofs.VerdictNamesFirstLimit` | src/trading/risk/capital_allocator.py:145-182 | A rejection names the first limit the order breaks at its turn, an acceptance means it breaks none. |
| `AllocatorProofs.AllocationIsMaximal` | src/trading/risk/capital_allocator.py:145-190 | With non-negative notionals behind the first order, no rejected order could be added without breaking a limit. |
| `AllocatorProofs.NegativeNotionalBreaksMaximality` | src/trading/risk/capital_allocator.py:145-190 | A negative notional can make room for an order already rejected. |
| `AllocatorProofs.TwoOrderPassIsMaximalExactly` | src/trading/risk/capital_allocator.py:145-190 | A pass over two orders is maximal under all limits unless the second is negative and smaller than the first. |
| `AllocatorProofs.NoPriorityInversion` | src/trading/risk/capital_allocator.py:145-190 | An order accepted after a higher-ranked one was turned away is smaller than it, unless that one was too large on its own. |
| `AllocatorProofs.RankingIsByScore` | src/trading/risk/capital_allocator.py:125-136 | The pass runs over all pending orders in descending score. |
| `AllocatorProofs.ScoreInFigures` | src/trading/risk/capital_allocator.py:55-100 | The score from an order's own figures: target distance and price per unit of stop distance, mean known correlation, and hours idle as a share of a day. |
| `AllocatorProofs.TradingLowersPriority` | src/trading/risk/capital_allocator.py:80-101 | Being accepted never raises an asset's later score. |
| `AllocatorProofs.StampIsExact` | src/trading/risk/capital_allocator.py:184-188 | After a call exactly the accepted assets carry its time. |

## Left out

- SyntheticLob.SyntheticLOB.PlaceOrder: requires that the order object is not itself resting in the book; placing the same object twice is not modelled. Event log, fill ids, source tags and the micro price are not part of the model.
- Shadow.ShadowInterceptor.ExecuteShadowFill: the square-root market impact is a parameter, so the slippage figure is not pinned down beyond the walk.
- Governor.PortfolioGovernor.TriggerGlobalHalt: message counts, throttling and tier admission are not modelled; halt safety excludes direct calls of an actor's order submission.
- ActorOms.OMSActorEngine.RunStep: the heap is a sequence with the same pop order; its internal layout is not modelled.
- LiveOms.OrderManagementSystem.SubmitOrder: venue replies are an input; retries, timeouts, failing cancels, telemetry and awaiting are not modelled.
- Chase.OrderChaser.CheckAndChase: working orders are values in a list, and the calls to the OMS and the venue appear as a log of actions.
- Survival.SurvivalEngine.EvaluateSurvivalStatus: the near-threshold decimal re-run is a detector passed in, and the multiplier computed by the raw ladder, which the held tier's template replaces, is dropped.
- TierStates.StateFile.Save: the Redis backend, the read cache, unreadable files and failed writes are not modelled.
- RiskEngine.ApprovalIsSafe: the quantized size candidate, the fencing token on decisions and the exit-signal path are not modelled.
- PortfolioProofs.RunPortfolioBacktest: the correlation estimate is a parameter; it is given only bars before the time of the event, as the source filters them.
- Backtest.RunBacktest: the report statistics and the learning-graph record are not modelled.
- RedisLock.RedisLockBackend.Acquire: a method here runs its commands back to back; other nodes' commands in between are covered by the step machine, whose steps are shown to be local. The in-process backend and the active/passive wrapper are not modelled.
- HmmForward.ForwardFilteredPosterior: works on probabilities rather than logarithms; fitting, state alignment and the model cache are not modelled.
- Pbo.ComputePboCscv: the logarithm is a parameter of which only the sign is used, and the Sharpe scores are one too, the standard error is kept squared, and which splits a seeded generator picks is an input.
- Allocator.CapitalAllocator.AllocateCapital: a rejection carries its kind and figures, not the formatted text. The single-asset limit is the code's: it looks at one order at a time.
- Rounding, floating-point overflow, NaN and infinities.
- Chaos injection, which edits the book lists directly and breaks time priority on purpose.
- Model fitting, report statistics, block-level CPCV, reputation weights and the other analytics: results of external libraries or easy members.
- Web application, dashboards, scripts, migrations, alerts, metrics and health probes.
