# Verified model of the trading core

This directory is a Dafny 4.11 project that models the execution, Quick Trade,
reconciliation, broker-access and arithmetic core of the trading platform and
proves what its documentation and tests promise. `dafny verify dfyconfig.toml`
verifies all of it.

Objects whose methods update fields are classes; each method is verified against
a specification function of the old state, and the theorems are proved about those
functions, over all runs. Threads and sessions are steps interleaved at the lock or
commit boundaries of the source. Callbacks, broker answers, clocks and database
failures are parameters. Floating-point numbers are `real`.

| files | what they model |
|---|---|
| `PollEntry`, `Breaker`, `PollerProtocol`, `Poller`, `PollerRefinement` | the fill poller: cumulative reports to increments, circuit breaker, timeouts, the loop among other threads, and the class as a run of it |
| `OrderMachine`, `PositionTracker`, `TerminalEvents`, `PaperBroker`, `PaperCash`, `FillPipeline`, `FillDivergence`, `LivePipeline` | the order state machine, positions and locks, terminal events, the scripted broker and its cash, the whole path end to end, where it diverges, and that path on the live objects |
| `QuickTradeStatus`, `Reservation`, `RecoverySweep` | reserve-before-submit, its status histories, and the recovery sweep |
| `Sellable`, `NoOversell` | the sellable figure and the sell handlers |
| `OrderHistory`, `Reconciler`, `FillRows` | the append-only event log, the position pass with its gate, fill rows |
| `CorporateActions` | split classification, factor chains, the pending registry |
| `RateLimiter`, `Pagination` | access to the broker's API |
| `Backtest` | the backtest's accounting loop |
| `Orders`, `Basics`, `Sums`, `Reals` | shared vocabulary and arithmetic |

## Where the code does less than its text says

The code was modelled as it is. Eight statements a reader might take from its comments
do not hold without a condition; each has a lemma with the failing case.

- A duplicate terminal event never releases a newer order's lock only if the first
  event was applied (`TerminalEvents.UnpersistedEventExposesNewerLock`).
- The tracker ends with the broker's quantities only if it held every sell at the moment
  it was delivered (`FillPipeline.AgreesIff`, `FillDivergence.OversoldTrackerDiverges`).
- An account never owes more than it holds only if every submission that arrives after it
  was given up still fits (`NoOversell.SafeThroughoutIff`, `NoOversell.LateLandingOversells`).
- A stuck order is escalated once only if no other session erases the sweep's mark
  (`RecoverySweep.EscalatedOnce`, `RecoverySweep.ErasedMarkEscalatesAgain`).
- A request checks its transition against the status it loaded, not the row: an answer
  after the grace period can follow FAILED (`Reservation.LateAnswerOverwrites`).
- An action of unknown status is refused for its fields, not for its status
  (`CorporateActions.UnknownStatusLeavesIff`).
- A confirmed jump recorded by a pass whose commit failed keeps the symbol blocked after
  a later pass applies the same jump (`Reconciler.TradeableIff`).
- Equity stays positive only up to a commission of 100%
  (`Backtest.HighCommissionWipesOut`).

## Model

| member | source | states |
|---|---|---|
| `PollEntry.ExactlyOnce` | backend/execution/order_poller.py:461-572 | over any interleaving of polls, resyncs, re-registrations and failing callbacks: every share between the first seed and the watermark is delivered once or seeded once, shares outside never; delivered totals strictly increase; the watermark never falls; the terminal callback runs at most once |
| `PollEntry.RetryDeliversOnce` | backend/execution/order_poller.py:490-525 | a report whose callback raised, seen again, delivers exactly the missed increment; seen a third time it delivers nothing |
| `PollEntry.StepAccounted` | backend/execution/order_poller.py:461-572 | every step only appends to the tiling of the shares and never lowers the watermark |
| `PollEntry.ReportMeans` | backend/execution/order_poller.py:482-572 | one report field by field: what is delivered, settled, dropped and called, and when the next poll is - 10, 30, 60, 120, then 300 seconds on |
| `PollEntry.PollEntry.ApplyUpdate` | backend/execution/order_poller.py:461-572 | the processing core, branch by branch, does to the entry what the increment rule above says |
| `PollEntry.PollEntry.Reregister` | backend/execution/order_poller.py:304-325 | re-registration replaces the order and the callbacks of the live entry and can only raise its watermark |
| `PollEntry.PollEntry.ReportTimeoutDeferred` | backend/execution/order_poller.py:384-391 | a timeout put off for an unreadable order is reported the first time and never again |
| `PollEntry.PollEntry.Advance` | backend/execution/order_poller.py:223-229 | the back-off of the next poll |
| `Breaker.LookupHealthy` | backend/execution/order_poller.py:129-169 | any lookup the loop may make keeps: open exactly from the fifth error in a row, cool-down 60*2^j capped at 300 s, and the next probe on schedule; a probe never restarts the outage |
| `Breaker.LookupMeans` | backend/execution/order_poller.py:129-169 | the breaker in numbers: reset by a success, opened for 60 seconds by the fifth error in a row, the wait doubled up to 300 by each failed probe and counted from its failure |
| `Breaker.StateMeans` | backend/execution/order_poller.py:171-177 | closed, open, or due for a probe, by the time of the next one |
| `Breaker.ProbeNotEarly` | backend/execution/order_poller.py:161-177 | the i-th probe of an outage comes at least the sum of the i waits after the opening |
| `Breaker.ScheduleWrittenOut` | backend/execution/order_poller.py:40-42 | those waits in closed form for every i |
| `Breaker.PollingHealthMonitor.RecordPollSuccess` | backend/execution/order_poller.py:129-141 | a success closes the breaker and says how long it was open |
| `Breaker.PollingHealthMonitor.RecordPollError` | backend/execution/order_poller.py:143-159 | a failure opens it exactly at the threshold, once |
| `Breaker.PollingHealthMonitor.RecordProbeFailure` | backend/execution/order_poller.py:161-169 | a failed probe doubles the wait up to the cap and stays open |
| `PollerProtocol.TimeoutSafety` | backend/execution/order_poller.py:351-382 | over every interleaving of the loop thread with others: an order is timed out only right after its own lookup answered in this tick, non-terminal and over 1800 seconds old at its turn, never in a tick that began open or after the breaker opened, at most once per entry |
| `PollerProtocol.ExpiredAreTimedOut` | backend/execution/order_poller.py:370-382 | the other half: when a lookup answered for an order over 1800 seconds old at its turn, what the loop does next is to time it out, unless it has left the table or ended meanwhile |
| `PollerProtocol.BreakerSafety` | backend/execution/order_poller.py:351-416 | over every interleaving: open exactly while five or more lookups in a row have failed; a lookup is a probe exactly then, first in its tick and no sooner than the schedule; nothing else is looked up while open |
| `PollerProtocol.ExactlyOncePerEntry` | backend/execution/order_poller.py:427-462 | exactly-once holds for every entry object, also for one still driven after it was dropped |
| `Poller.TickEntryByEntry` | backend/execution/order_poller.py:351-382 | a closed tick changes each order by its own visit only: gone exactly if its report filled or closed it, or it was read open over 1800 seconds after registration |
| `Poller.OrderFillPoller.Register` | backend/execution/order_poller.py:277-325 | one entry per id; a tracked one is updated in place, its watermark the greater of its own and the seed, its age counting on |
| `Poller.OrderFillPoller.Unregister` | backend/execution/order_poller.py:331-334 | forgets the order and no other |
| `Poller.OrderFillPoller.Resync` | backend/execution/order_poller.py:427-450 | owned and applied as reported; not applied means the callback raised, the entry is kept and its watermark unmoved |
| `Poller.OrderFillPoller.PollOne` | backend/execution/order_poller.py:393-416 | one lookup: the breaker is told and the answer applied, or the poll postponed |
| `Poller.OrderFillPoller.TickEntry` | backend/execution/order_poller.py:370-382 | a due entry is timed out exactly when its lookup did not fail, the status left is not terminal, and its turn came over 1800 seconds after registration |
| `Poller.OrderFillPoller.EarliestDue` | backend/execution/order_poller.py:367-368 | the probe goes to the entry due first |
| `Poller.OrderFillPoller.PollDue` | backend/execution/order_poller.py:351-382 | a tick by breaker state: open reads nothing, a probe reads one entry and times out none, a closed tick looks due entries up once each, the breaker closed before every lookup, all of them unless one opened it; table, breaker and timeouts are exactly those of its visits; an order looked up is timed out, and gone, exactly when read open over 1800 seconds after registration |
| `Poller.TimedOutIff` | backend/execution/order_poller.py:219-221 | that condition, in seconds and statuses, for whatever a closed tick does |
| `PollerRefinement.PollDueIsARun` | backend/execution/order_poller.py:351-382 | whatever a tick of the class does by its contract, its visits taken in turn, is a run of the interleaved protocol without other threads: same table, same breaker, same timeouts - so what holds over every interleaving holds of the class |
| `PollerRefinement.ClosedTickIsARun` | backend/execution/order_poller.py:370-382 | the same for a tick that began closed: the lookups one after the other until the breaker opens |
| `PollerRefinement.ProbeIsARun` | backend/execution/order_poller.py:367-369 | the same for a probing tick |
| `PollerRefinement.RegisterIsAStep` | backend/execution/order_poller.py:277-325 | a registration or re-registration is one step of the protocol, with the effect the class's contract states |
| `PollerRefinement.UnregisterIsAStep` | backend/execution/order_poller.py:331-334 | so is forgetting an order |
| `PollerRefinement.ResyncIsAStep` | backend/execution/order_poller.py:427-450 | and a resync |
| `PollerRefinement.OneVisit` | backend/execution/order_poller.py:370-382 | one entry's visit: lookup, report, registration check and timeout as the protocol's steps |
| `OrderMachine.Lifecycle` | backend/execution/order_machine.py:12-122 | over every run, an order followed under its changing id never loses filled shares, never overfills, and keeps a terminal status for ever |
| `OrderMachine.StatusFollowsTable` | backend/execution/order_machine.py:62-76 | a status changes only along the table and only by a persisted event or a fill; a transition that fails changes nothing |
| `OrderMachine.ReachedFrom` | backend/execution/order_machine.py:12-23 | the transition table read by target: from where each status can be reached |
| `OrderMachine.FillMeans` | backend/execution/order_machine.py:78-111 | a fill by how it ends: refused with nothing changed, or taken, and then FILLED with the last share and PARTIAL_FILLED before unless the status cannot |
| `OrderMachine.CallMeans` | backend/execution/order_machine.py:46-122 | every call by how it ends: which exception exactly when, what is in the book then, and that a submitted PENDING or UNKNOWN order is SUBMITTED under the broker's id |
| `OrderMachine.AverageIsCost` | backend/execution/order_machine.py:88-93 | avg_fill_price * filled_qty is the sum of price * quantity over any accepted fills |
| `OrderMachine.AverageIgnoresOrder` | backend/execution/order_machine.py:88-93 | the average does not depend on the order of the fills |
| `OrderMachine.SameCostSameAverage` | backend/execution/order_machine.py:88-93 | nor on how they are split: equal quantity and equal cost give equal average |
| `OrderMachine.OrderStateMachine.Register` | backend/execution/order_machine.py:46-59 | registration, undone when it cannot be persisted |
| `OrderMachine.OrderStateMachine.Transition` | backend/execution/order_machine.py:62-76 | transition by the table, rolled back when it cannot be persisted |
| `OrderMachine.OrderStateMachine.ProcessFill` | backend/execution/order_machine.py:78-111 | a fill with its guards, average and status, not rolled back |
| `OrderMachine.OrderStateMachine.Submit` | backend/execution/order_machine.py:113-122 | re-keying under the broker's id, then SUBMITTED |
| `PositionTracker.Book` | backend/execution/position_tracker.py:177-212 | what a fill does to the quantities held, of its symbol and of no other |
| `PositionTracker.AverageWithinBuys` | backend/execution/position_tracker.py:186-212 | from any flat moment the average stays between the lowest and highest price bought at since, over any fills |
| `PositionTracker.SellKeepsAverage` | backend/execution/position_tracker.py:202-212 | a sell that leaves shares leaves their average |
| `PositionTracker.PositionMatchesOrder` | backend/execution/position_tracker.py:186-199 | a position bought by the same fills as an order has its quantity and average |
| `PositionTracker.LockMeans` | backend/execution/position_tracker.py:72-95 | free exactly without a gate and without a lock of the last 1800 seconds; what each call leaves of the locks |
| `PositionTracker.LockExcludes` | backend/execution/position_tracker.py:72-95 | until released or half an hour old, a pending lock stays with its taker, whatever others try |
| `PositionTracker.PositionTracker.OnFill` | backend/execution/position_tracker.py:177-212 | a fill of any quantity releases the lock and books the position, or raises where the average would divide by no shares |
| `PositionTracker.PositionTracker.TryMarkPending` | backend/execution/position_tracker.py:85-95 | takes the lock only when free, expired, and not gated |
| `PositionTracker.PositionTracker.CanPlaceOrder` | backend/execution/position_tracker.py:72-83 | says free exactly when it is, dropping an expired lock |
| `PositionTracker.PositionTracker.UnmarkPending` | backend/execution/position_tracker.py:172-174 | releases the lock |
| `PositionTracker.PositionTracker.ClaimCaExit` | backend/execution/position_tracker.py:102-148 | an exit under a gate is sized by the broker's own figure and takes lock and position together, or neither |
| `TerminalEvents.DuplicatesVanish` | backend/execution/order_events.py:59-93 | once an order is terminal, deleting all its further terminal events from any run changes nothing: no second transition, no newer order's lock released |
| `TerminalEvents.AppliedMakesTerminal` | backend/execution/order_events.py:66-77 | a reported transition made the order terminal along the table; otherwise no order changed |
| `TerminalEvents.WhenApplied` | backend/execution/order_events.py:59-77 | exactly when an event moves a known order, and to which status |
| `TerminalEvents.WhenReleased` | backend/execution/order_events.py:79-90 | exactly when the pending lock is released |
| `TerminalEvents.UnpersistedEventExposesNewerLock` | backend/execution/order_events.py:72-90 | if the first event could not be persisted its duplicate does release a newer order's lock |
| `TerminalEvents.ApplyTerminalEvent` | backend/execution/order_events.py:41-93 | the call on the live machine and tracker |
| `PaperBroker.BookPosition` | backend/brokers/paper_broker.py:299-327 | what a fill increment does to the broker's book, of its symbol and of no other |
| `PaperBroker.MarketMeans` | backend/brokers/paper_broker.py:125-127 | Korean exactly for six digits |
| `PaperBroker.InquiryMeans` | backend/brokers/paper_broker.py:243-268 | what an inquiry shows: nothing of an ended order, else the next step, its shares beyond those revealed, and its price or the order's |
| `PaperBroker.BookingMeans` | backend/brokers/paper_broker.py:299-327 | shares for cash of their own market at the price of the increment, and nothing else |
| `PaperBroker.AskingMeans` | backend/brokers/paper_broker.py:242-268 | an inquiry moves its own order, and book and cash only by what it newly reveals |
| `PaperBroker.CancelMeans` | backend/brokers/paper_broker.py:224-235 | a cancel ends an open order and changes its status only |
| `PaperBroker.PlacingMeans` | backend/brokers/paper_broker.py:201-222 | a new order takes the next number and the first waiting script: rejected, as scripted, or filled whole |
| `PaperBroker.ScriptedPaperBroker.PlaceOrder` | backend/brokers/paper_broker.py:195-222 | a fresh id and the next script, or the injected failure and nothing |
| `PaperBroker.ScriptedPaperBroker.CancelOrder` | backend/brokers/paper_broker.py:224-235 | cancels exactly an unfinished order |
| `PaperCash.CashConserved` | backend/brokers/paper_broker.py:195-327 | over any run of placements, cancels, scripts and inquiries: a market's cash plus the signed cost of what its orders revealed stays what it was |
| `PaperCash.CashIsWhatWasSpent` | backend/brokers/paper_broker.py:299-327 | so from an account without orders, the cash that is gone is the price of each share at the step that first revealed it |
| `PaperCash.InquiryPays` | backend/brokers/paper_broker.py:249-266 | one inquiry costs exactly the newly revealed shares at the price it shows, nothing once the plan has been shown |
| `PaperCash.CancelIsFinal` | backend/brokers/paper_broker.py:224-247 | over any run after a successful cancel the order reveals no further share and costs no more, whatever its plan still held; a failed cancel changes nothing |
| `PaperBroker.ScriptedPaperBroker.ApplyToBook` | backend/brokers/paper_broker.py:299-327 | shares against the cash of their market |
| `PaperBroker.ScriptedPaperBroker.GetOrderStatus` | backend/brokers/paper_broker.py:237-268 | an inquiry reveals the next step and books its increment, or raises and changes nothing |
| `FillPipeline.NewLineMeans` | backend/brokers/paper_broker.py:195-222 | an order enters the path as the broker placed it, watched from its first share, unless it was rejected at once |
| `FillPipeline.TimeoutMeans` | backend/execution/order_poller.py:581-609 | a timeout is a cancel at the broker, if it goes through, the machine's transition to CANCELED, and the end of polling |
| `FillPipeline.InquiredInv` | backend/brokers/paper_broker.py:237-268 | what the broker reports is what it has revealed, and more only on a fill status |
| `FillPipeline.ObserveLineInv` | backend/execution/order_poller.py:482-567 | a settled report brings the machine level with the broker, a raising callback leaves it; the machine never refuses what the callback hands it |
| `FillPipeline.Conservation` | backend/execution/order_poller.py:461-572 | over any run with failing lookups, callbacks and timeouts: broker, watermark and machine agree on an order exactly when its last fill report settled, and on a settled symbol the broker's book and the tracker differ by exactly the shares that only one of them dropped |
| `FillPipeline.NothingLostIff` | backend/execution/position_tracker.py:202-209 | over any run a book drops shares of a symbol exactly when some sell found fewer than it took: the broker's at an inquiry, the tracker's at a delivery |
| `FillPipeline.AgreesIff` | backend/execution/position_tracker.py:177-212 | while the broker sells only what it holds, book and tracker agree on a settled symbol exactly when the tracker held every sell at the moment it was delivered |
| `FillPipeline.AveragesAgree` | backend/execution/position_tracker.py:186-212 | as long as every report goes through its callback at once, the tracker's position is the broker's, average included, over any run |
| `FillDivergence.RetryKeepsAverageIff` | backend/execution/order_poller.py:505-525 | from any state in step, a buy's report whose callback raised and the next one, delivered together at the later price: quantities agree again, averages exactly when the broker's two prices were equal |
| `FillDivergence.OversoldTrackerDiverges` | backend/execution/position_tracker.py:202-205 | the run, from flat books: a buy's callback raises, the sell of its shares is delivered, the buy is retried - all settled, the broker flat and never short, and the tracker holds the shares |
| `LivePipeline.Runtime.Observe` | backend/testing/paper_harness.py:261-284 | one observation on the live broker, entry, machine and tracker is exactly the step the conservation theorem is about; no other symbol's lock is touched |
| `LivePipeline.ConvergedMeans` | backend/execution/order_events.py:59-93 | the converging in the pipeline's step is the terminal event's |
| `LivePipeline.Runtime.CallBack` | backend/testing/paper_harness.py:261-309 | the fill callback drives machine then tracker by the increment; the terminal callback converges the machine; the pending lock is released by a fill, or by the event that ends a still open order |
| `LivePipeline.Runtime.Ask` | backend/brokers/paper_broker.py:237-268 | the broker's order, book and answer move together |
| `RecoverySweep.Candidates` | api/services/quick_trade_recovery.py:152-162 | the listed orders of the same side and quantity with a number, none exactly when no row qualifies |
| `RecoverySweep.ConclusiveOnly` | api/services/quick_trade_recovery.py:127-172 | adopted exactly when one listed row has the side, the quantity and a number, which is taken; failed exactly when none has; otherwise left RESERVED |
| `RecoverySweep.VisitMeans` | api/services/quick_trade_recovery.py:208-286 | one visit by what it leaves: number, error text or stamp with its reason, minutes, time and mark, time of writing, count and escalation |
| `RecoverySweep.SweepTouches` | api/services/quick_trade_recovery.py:183-204 | a sweep changes no row but RESERVED ones of its window, created at least the grace period ago |
| `RecoverySweep.SweepIsAllowed` | api/services/quick_trade_service.py:242-251 | every status a sweep writes, it writes where the protocol of requests and sweeps allows it, and to the same effect |
| `RecoverySweep.SweepRowByRow` | api/services/quick_trade_recovery.py:316-388 | a sweep changes each claimed RESERVED row by its own outcome and no other row |
| `RecoverySweep.QueueShrinks` | api/services/quick_trade_recovery.py:175-240 | a sweep that misses an order claims a full window of rows ahead of it, and those that move leave the queue for good |
| `RecoverySweep.NoStarvation` | api/services/quick_trade_recovery.py:175-204 | an order with r rows ahead is missed by at most r / limit completed sweeps, with other sessions writing in between and however many orders stay inconclusive |
| `RecoverySweep.EscalatedOnce` | api/services/quick_trade_recovery.py:256-286 | over any number of sweeps, with anything other sessions commit in between: at most one escalation more than others erased the order's mark, so at most one if they leave it |
| `RecoverySweep.EscalatesIff` | api/services/quick_trade_recovery.py:256-286 | exactly when a visit commits an escalation, which always leaves the mark |
| `RecoverySweep.ErasedMarkEscalatesAgain` | api/services/quick_trade_service.py:213-220 | the bound is reached: for every k a run with k erased marks and k + 1 escalations, as when a late failed submission overwrites the error of a RESERVED row |
| `RecoverySweep.TallyBalances` | api/services/quick_trade_recovery.py:343-388 | seen = submitted + failed + skipped, and the reasons sum to skipped |
| `RecoverySweep.QuickTradeRecovery.ClaimReservedIds` | api/services/quick_trade_recovery.py:175-204 | the window: RESERVED rows created by the cutoff, full unless it holds all, and none left out is ahead of one in it by time of writing, then id |
| `RecoverySweep.QuickTradeRecovery.RecoverReservedOrders` | api/services/quick_trade_recovery.py:309-388 | the loop, its summary, truncation and shutdown; what it changed was RESERVED for the grace period, and what it left out had a full window ahead |
| `RecoverySweep.QuickTradeRecovery.Take` | api/services/quick_trade_recovery.py:330-343 | a row held elsewhere or resolved by now is passed over |
| `RecoverySweep.QuickTradeRecovery.Handle` | api/services/quick_trade_recovery.py:343-388 | one claimed order: resolved, or stamped and counted once |
| `QuickTradeStatus.LegalHistories` | api/models.py:22-35 | the histories the table allows are RESERVED, then at most one outcome, then CANCELED only after SUBMITTED - both directions |
| `QuickTradeStatus.OutcomeLegalIff` | api/models.py:22-48 | writing an outcome keeps a history legal exactly when the row is still RESERVED |
| `QuickTradeStatus.CancelLegal` | api/models.py:24-30 | cancelling a submitted row is legal |
| `Reservation.Post` | kis_adapter/client.py:231-290 | a new order is sent once whatever comes back; a replayable one again only after no readable answer, 429, 500, 502, 503 or 504, at most three times; the result is the last answer's, a rejection exactly if the broker refused |
| `Reservation.OnePostPerKey` | api/services/quick_trade_service.py:146-225 | over any interleaving of requests, duplicates, crashes, sweeps and cancels: at most one POST per user and key, always after its reservation was committed |
| `Reservation.HistoriesLegal` | api/services/quick_trade_service.py:146-251 | if submissions finish within the grace period, every committed history is legal |
| `Reservation.LateAnswerOverwrites` | api/services/quick_trade_service.py:205-225 | from every world with a submission outstanding: past the grace period a late acknowledgement writes SUBMITTED over FAILED |
| `Reservation.Transition` | api/models.py:38-48 | a transition is accepted exactly when it keeps the history on the table |
| `Reservation.QuickTradeService.ReserveAndSubmit` | api/services/quick_trade_service.py:146-225 | what one request commits and calls, on every path through its one POST: REJECTED exactly on the broker's refusal, still RESERVED exactly on an exception, an HTTP error, no JSON, a closed market or an unreadable id |
| `Reservation.QuickTradeService.ReconcileReserved` | api/services/quick_trade_service.py:242-251 | adopts a RESERVED row under the number found or fails it with a reason, leaves any other alone |
| `Reservation.ReconcileSettles` | api/services/quick_trade_service.py:242-251 | reconciling settles an order for good and keeps its history legal |
| `Reservation.CallIsARun` | api/services/quick_trade_service.py:146-225 | one service call is the undisturbed run of the interleaved request's steps |
| `Sellable.AsCount` | backend/risk/sellable_qty.py:64-82 | a count exactly for whole, finite, non-negative numbers that are not bool |
| `Sellable.ResolveSellable` | backend/risk/sellable_qty.py:85-133 | known exactly when all three figures are readable and reported; then never above held or orderable, and exactly what is left after pending |
| `Sellable.ValidateSell` | backend/risk/sellable_qty.py:136-157 | passes exactly a positive whole request within a known figure |
| `Sellable.PendingSellQty` | backend/risk/sellable_qty.py:207-236 | the sum over our unreleased sells of the symbol, or an error exactly when one of them is unreadable |
| `Sellable.HoldsIff` | backend/risk/sellable_qty.py:190-236 | a row holds its quantity exactly when it is a sell of the symbol in none of the five released statuses, so a status nobody knows holds it |
| `NoOversell.AdmittedFits` | api/routers/quick_trade.py:610-631 | whatever place or close lets through fits beside what rests at the broker and every reservation |
| `NoOversell.PlacedIff` | api/routers/quick_trade.py:610-631 | a request goes out exactly when it is positive and, with what is pending, within both figures the broker reported - and for its own quantity |
| `NoOversell.ClosedIff` | api/routers/quick_trade.py:782-876 | the same for a close, which asks for the wanted quantity, or else for the lesser figure |
| `NoOversell.SubmittedAs` | api/services/quick_trade_service.py:183-225 | the account's row has the status the reservation protocol commits, and rests whole exactly when it got there |
| `NoOversell.StepMeans` | api/routers/quick_trade.py:610-876 | what each event does to the holding and to one sell; a status changes only along its table |
| `NoOversell.NextSafeIff` | api/routers/quick_trade.py:610-876 | one sell, close, unknown outcome, landing, recovery, fill, cancel or replay keeps the account safe exactly when it is not a submission that arrives after it was given up and no longer fits |
| `NoOversell.SafeThroughoutIff` | api/routers/quick_trade.py:610-876 | so a run stays safe throughout exactly when every submission that arrives late fits |
| `NoOversell.NeverOversold` | api/routers/quick_trade.py:610-876 | over any such run from any holding: what rests plus what may still land is within the holding. Arrivals while the row is RESERVED always fit; a later one must |
| `NoOversell.LateLandingOversells` | api/services/quick_trade_service.py:213-220 | from every safe account with a sell that was given up and has not arrived there is a run that leaves more resting at the broker than is held |
| `NoOversell.OversellingRun` | api/services/quick_trade_recovery.py:127-172 | and from every positive holding there is a run that gets there |
| `NoOversell.ReplayChangesNothing` | api/routers/quick_trade.py:326-341 | a replayed key never sells again |
| `NoOversell.PendingOfRows` | api/routers/quick_trade.py:343-380 | the pending figure read back from the stored rows is the total of the reservations |
| `NoOversell.QuickTradeRouter.FindOrder` | api/routers/quick_trade.py:326-341 | finds the key's order exactly when there is one |
| `NoOversell.QuickTradeRouter.OpenSellQty` | api/routers/quick_trade.py:343-380 | the total of the open reservations |
| `NoOversell.QuickTradeRouter.PlaceOrder` | api/routers/quick_trade.py:567-657 | the place handler's sell path: an existing key is replayed, or refused for another request's, else the whole request is sold, exactly when both figures cover it beside what is pending |
| `NoOversell.QuickTradeRouter.ClosePosition` | api/routers/quick_trade.py:716-897 | the close handler: a supplied key's replay first, else the wanted quantity, or the lesser of held and orderable, is sold exactly when priced and covered beside what is pending |
| `OrderHistory.Changed` | backend/database/order_history.py:43-57 | the loop says whether any tracked column differs, and the status as the writer knew it |
| `OrderHistory.Record` | backend/database/order_history.py:60-89 | one event per new order and per changed one, with the row's own values |
| `OrderHistory.Guard` | backend/database/order_history.py:92-99 | refuses exactly a flush that would change or delete an event |
| `OrderHistory.UnchangedWritesNothing` | backend/database/order_history.py:43-57 | no event exactly when the update would write nothing |
| `OrderHistory.HistoryAgrees` | backend/database/order_history.py:60-89 | over any interleaving of flushes from stale views, commits and aborts: the committed event with the highest id holds the committed row's tracked values |
| `OrderHistory.LogGrows` | backend/database/order_history.py:92-99 | a step only appends to the committed log, and a commit that changes a row adds an event |
| `OrderHistory.LogGrowsOverRuns` | backend/database/order_history.py:92-99 | the same over any run |
| `OrderHistory.StaleViewStillAgrees` | backend/database/order_history.py:71-79 | two sessions with the same stale view: the second's event carries the first's fill |
| `OrderHistory.Latest` | backend/database/order_history.py:170-175 | the event of highest id |
| `Reconciler.Examine` | backend/execution/reconciler.py:200-326 | one symbol's verdict: insert, fix, delete, hold back, or leave to another writer |
| `Reconciler.PositionReconciler.ReconcilePositions` | backend/execution/reconciler.py:178-338 | the pass: every symbol by its own verdict, one commit for all or nothing, the gate recorded at once and cleared after the commit |
| `Reconciler.PositionReconciler.MarkApplied` | backend/data/corporate_action_runtime.py:79-99 | clears one copy of an applicable action, keeps any other |
| `Reconciler.PositionReconciler.ClearGate` | backend/execution/reconciler.py:331-338 | after the commit, one copy of each confirmed jump is cleared |
| `Reconciler.JumpIsApplicable` | backend/data/corporate_action_runtime.py:69-77 | a recorded jump is stored as it was classified, and is valid exactly when confirmed |
| `Reconciler.ChangeMeans` | backend/execution/reconciler.py:200-330 | what becomes of a row, by what it becomes: exactly when it is inserted, rewritten or deleted, its new fields, and when an action is recorded |
| `Reconciler.GapMeans` | backend/execution/reconciler.py:200-326 | exactly when each kind of gap is reported |
| `Reconciler.ConvergesIff` | backend/execution/reconciler.py:178-330 | with no other writer, a symbol agrees with the broker after the pass exactly when it did before or nothing held it back |
| `Reconciler.SecondPassIsQuiet` | backend/execution/reconciler.py:178-330 | a second pass then finds no gap, writes nothing and records nothing |
| `Reconciler.OtherWritersWin` | backend/execution/reconciler.py:340-359 | a row moved on since the snapshot is left as its writer left it, and no jump is recorded for it |
| `Reconciler.DryRunChangesNothing` | backend/execution/reconciler.py:208-330 | a dry run changes no position and no gate |
| `Reconciler.BlockedAfterIff` | backend/execution/reconciler.py:247-338 | a pass leaves a symbol blocked exactly when it was, or its jump was not both confirmed and committed |
| `Reconciler.JumpBlocksIff` | backend/execution/reconciler.py:247-338 | a free symbol whose quantity changed stays free exactly when the pass committed, the quantities are in a known ratio, and the book value kept within 1% |
| `Reconciler.TradeableIff` | backend/execution/reconciler.py:331-338 | over any run of passes: tradeable at the end exactly when it was at the start and every jump was confirmed in a pass that committed |
| `FillRows.FillTables.SyncFills` | backend/execution/reconciliation.py:57-87 | a fill sync is the step the run theorems are about: every covered order's rows sum to the greater of before and filled_qty; rows are only added, and only for what is short |
| `FillRows.FillTables.SyncOne` | backend/execution/reconciliation.py:76-87 | one order's increment |
| `FillRows.FillTables.ExistingFilledQty` | backend/execution/reconciliation.py:89-100 | the sum of an order's rows |
| `FillRows.FillTables.SyncOrderStatus` | backend/execution/reconciler.py:482-553 | a status sync is the step the run theorems are about: the direct write happens only for an order no live entry owns, and adds a row only for a first FILLED with none recorded |
| `FillRows.NeverRecordedTwice` | backend/execution/reconciler.py:496-553 | over any run of status and fill syncs, what is recorded never exceeds the largest quantity ever reported |
| `FillRows.SyncMeans` | backend/execution/reconciliation.py:57-87 | a fill sync order by order: the missing shares are added exactly in the four statuses with fills to record |
| `FillRows.StatusMeans` | backend/execution/reconciler.py:482-553 | a status sync in full: exactly when the row is written and a fill row added, with which quantity and price |
| `FillRows.SyncRecordsAll` | backend/execution/reconciliation.py:76-87 | after a sync exactly the filled quantity is recorded |
| `FillRows.FallbackThenSync` | backend/execution/reconciler.py:535-550 | the direct write followed by the sync records the shares once |
| `FillRows.SyncIsIdempotent` | backend/execution/reconciliation.py:17-22 | a second sync adds no row |
| `RateLimiter.RateLimiter.Wait` | kis_adapter/client.py:32-42 | claims the next slot of the recurrence and sleeps until it, not past it |
| `RateLimiter.Limiters.LimiterFor` | kis_adapter/client.py:78-98 | one limiter per credential and environment, at 5 or 15 calls a second, never replaced, never shared by two |
| `RateLimiter.SlotIsBound` | kis_adapter/client.py:36-39 | the n-th slot is at least (n + 1) intervals and every earlier clock plus the intervals since |
| `RateLimiter.SlotIsReached` | kis_adapter/client.py:36-39 | and equals one of them |
| `RateLimiter.SlotsApart` | kis_adapter/client.py:36-39 | slots are an interval apart |
| `RateLimiter.WindowHolds` | kis_adapter/client.py:32-42 | any window of length W holds at most floor(W / interval) + 1 slots |
| `RateLimiter.LeastSchedule` | kis_adapter/client.py:32-42 | no admissible schedule has any caller earlier |
| `Pagination.ChooseKey` | kis_adapter/pagination.py:41-50 | the first candidate the page carries |
| `Pagination.PageIterator.MoveNext` | kis_adapter/pagination.py:32-66 | the generator: one request at most, never past the limit, carrying the previous page's continuation keys; it yields that answer's body, the key and its rows |
| `Pagination.GetAllPages` | kis_adapter/pagination.py:69-86 | the first page's body with all rows under the key, or an exception, in at most max_pages requests |
| `Pagination.FindRow` | kis_adapter/pagination.py:89-101 | the search over the same pages |
| `Pagination.SearchIsFirstMatch` | kis_adapter/pagination.py:89-101 | the first match before the end or the first failure; absent only after every page was read |
| `Pagination.SucceedsIffComplete` | kis_adapter/pagination.py:53-66 | succeeds exactly on a complete inquiry of at most max_pages pages: each but the last says F or M and carries a key that is not blank |
| `Pagination.RowsMeans` | kis_adapter/pagination.py:24-29 | the rows of a list field: none, the one given as a dict, or all in their order |
| `Pagination.ReturnsEveryPage` | kis_adapter/pagination.py:80-86 | and then returns every page's rows in order |
| `Backtest.Backtester.Open` | strategy/backtest.py:121-135 | buying with 95% of the capital |
| `Backtest.Backtester.CloseOut` | strategy/backtest.py:137-160 | selling the whole position |
| `Backtest.Backtester.Mark` | strategy/backtest.py:162-169 | equity, running peak and drawdown of a bar |
| `Backtest.Backtester.Run` | strategy/backtest.py:80-169 | the loop is the fold of its bars |
| `Backtest.BooksBalance` | strategy/backtest.py:91-160 | at every bar: capital + position at entry + buying commissions = initial capital + realised profit; gross profit - gross loss = realised profit; wins + losses = sells |
| `Backtest.TradesWrittenOut` | strategy/backtest.py:119-160 | after any bars: every purchase put in 95% of the capital, commission included, every sale was of the shares just bought with the profit left after commission and cost, and wins, losses and gross sums are what the sales add up to |
| `Backtest.TradesIff` | strategy/backtest.py:119-160 | which bars trade: a buy signal without a position, a sell signal with one, at the close |
| `Backtest.MarkMeans` | strategy/backtest.py:162-169 | the equity of a bar is the capital and the position at its close |
| `Backtest.EquityStaysPositive` | strategy/backtest.py:162-164 | with commissions up to 100% equity is positive at every bar |
| `Backtest.HighCommissionWipesOut` | strategy/backtest.py:121-127 | above 100% some prices make it negative |
| `Backtest.EquityPositiveIff` | strategy/backtest.py:121-164 | equity is positive for all prices and signals exactly when the commission is at most 100% |
| `Backtest.DrawdownIsMaximum` | strategy/backtest.py:162-167 | max_drawdown_pct is the maximum of the quotients (E_i - E_j) / E_i over i <= j, from the initial capital on |
| `CorporateActions.Classified` | backend/data/corporate_actions.py:85-91 | what is valid stays as it is; what is not gets an unknown status and keeps or gets a detail |
| `CorporateActions.InvalidIff` | backend/data/corporate_actions.py:76-83 | exactly what keeps an action from being applied: unknown kind, ratio or amount missing or not positive, ratio one, no new symbol |
| `CorporateActions.MatchUnique` | backend/data/corporate_actions.py:243-304 | a quantity ratio fits at most one known split or reverse split |
| `CorporateActions.FindMatch` | backend/data/corporate_actions.py:294-304 | the loop finds it whatever order the ratios are tried in |
| `CorporateActions.ClassifyQuantityJump` | backend/data/corporate_actions.py:274-320 | the classification of a jump, confirmed exactly under that condition |
| `CorporateActions.ConfirmedIff` | backend/data/corporate_actions.py:305-315 | confirmed exactly when the quantities are within 2% of one of the fifteen ratios or its inverse and the book value moved by at most 1%, or a millionth; it is then a split by that ratio |
| `CorporateActions.ApplicableIffConfirmed` | backend/data/corporate_actions.py:305-320 | what is confirmed is a valid split by the one ratio that fits; what is not cannot be applied |
| `CorporateActions.KindMeans` | backend/data/corporate_actions.py:149-235 | what each kind does to a position and to a bar: a split divides prices and multiplies shares and volumes, a dividend pays on every share and moves nothing, a ticker change renames |
| `CorporateActions.ChainIsCombine` | backend/data/corporate_actions.py:179-189 | a chain is one adjustment by the combined factor |
| `CorporateActions.BarChainIsCombine` | backend/data/corporate_actions.py:163-189 | the same for bars |
| `CorporateActions.ChainedQty` | backend/data/corporate_actions.py:179-235 | the quantity a dividend pays on is the quantity after the splits before it |
| `CorporateActions.ChainKeepsValue` | backend/data/corporate_actions.py:223-235 | splits and reverse splits leave quantity times average as it was |
| `CorporateActions.SplitRoundTrip` | backend/data/corporate_actions.py:223-235 | a split and its inverse undo each other |
| `CorporateActions.CorporateActionService.RegisterAction` | backend/data/corporate_actions.py:492-499 | registers the classified action |
| `CorporateActions.CorporateActionService.AssertTradeable` | backend/data/corporate_actions.py:398-414 | tradeable exactly when nothing is pending, or - if unconfirmed ones do not block - nothing confirmed |
| `CorporateActions.CorporateActionService.Apply` | backend/data/corporate_actions.py:516-539 | applied, taken out and recorded in the history exactly when valid; otherwise nothing changes |
| `CorporateActions.CorporateActionService.ApplyChain` | backend/data/corporate_actions.py:541-555 | the chain up to the first action that cannot be applied: position, bars, total cash, what it took out of the registry and its history |
| `CorporateActions.RecordsLink` | backend/data/corporate_actions.py:599-612 | the history of a chain links up: each record starts where the one before it ended, and their cash is the dividends paid |
| `CorporateActions.CashIsRecorded` | backend/data/corporate_actions.py:541-555 | the total cash of a chain is the sum of its records' |
| `CorporateActions.CorporateActionService.Reset` | backend/data/corporate_actions.py:567-574 | forgets what is pending for a symbol and for no other, or for all; the history stays |
| `CorporateActions.CorporateActionService.HistoryFor` | backend/data/corporate_actions.py:576-583 | the records whose action was for the symbol, or all |
| `CorporateActions.OpCopies` | backend/data/corporate_actions.py:593-597 | an action leaves the registry exactly when applied, valid and pending, one copy at a time |
| `CorporateActions.InvalidNeverLeaves` | backend/data/corporate_actions.py:516-531 | over any run without a reset an invalid action, so every unknown kind, stays pending |
| `CorporateActions.UnknownStatusLeavesIff` | backend/data/corporate_actions.py:76-91 | an action of unknown status can be applied exactly when its fields are valid |

## Left out

- Poller.OrderFillPoller.Register: the table holds entries as values, and the callbacks are not part of them; entry identity is in PollerProtocol and the entry updated in place in PollEntry
- Poller.OrderFillPoller.PollDue: the order of a map is not modelled, so the visits come in any order
- PollEntry.PollEntry.ApplyUpdate: shares first reported together with CANCELED, REJECTED or EXPIRED are not delivered, as in the source
- FillPipeline.Conservation: the callback is all-or-nothing, and the order object that machine and poller share is not aliased
- Reservation.HistoriesLegal: assumes that every submission finishes within the grace period, and LateAnswerOverwrites shows why
- RecoverySweep.NoStarvation: assumes a strictly advancing clock and committed stamps, and one sweeper at a time; a row another worker holds does not count as moved
- RecoverySweep.ConclusiveOnly: matching is by side and quantity, so two reservations may adopt one broker order
- NoOversell.NeverOversold: assumes truthful position inquiries, sells of the account only through these handlers and requests one after the other; whether a key's stored fingerprint is this request's, and price details, are parameters
- OrderHistory.HistoryAgrees: orders are not deleted, and what bypasses the session hooks is not modelled
- Reconciler.ConvergesIff: averages agree within the 0.01 the pass tolerates, not exactly
- FillRows.NeverRecordedTwice: the runtime pipeline's own fill rows are not modelled, only the two writers of the reconciliation
- Sellable.AsCount: integers above 2^53, which a float rounds or refuses
- CorporateActions.CorporateActionService.Apply: audit rows are not kept, nor the time in a history record
- Reconciler.PositionReconciler.MarkApplied: the persisted status and history row of an applied action are not part of the model
- Price-jump detection from bars, which shares the ratio windows proved disjoint here
- The database rows of corporate actions and their restoration after a restart, beyond restoring as an operation of the registry
- The reconciler's stage for lost and mismatched open orders, other than the status write in FillRows
- The retry loop of reads, token handling, HTTP, JSON, hashing, logging and audit rows
- Request fingerprints and server-derived keys: a key is a value here
- Case folding of symbols, sides and markets: rows are compared as already folded
- Win rate, profit factor, Sharpe ratio, rounding and the truncated curves of the backtest
- Simple getters, capability tables, price setters, position seeding and scripted splits of the paper broker
