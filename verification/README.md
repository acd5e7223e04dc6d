# TwinStub in Dafny

TwinStub plays a payment provider for tests: scenarios are state machines, entering a
state schedules webhooks, and the first attempt of a webhook can move the session on.
Every session has its own clock, which a test can push forward; what falls due on the
way is then sent at once, in order, with everything that follows from it.

This project models that machinery and proves what it is meant to guarantee.

| file | what it is |
|---|---|
| `Model.dfy` | the dispatcher's shared state as a value; one function per section under its mutex |
| `Heap.dfy` | the delivery heap with back-pointers, sifted in place |
| `Dispatcher.dfy` | the dispatcher object; every method does to the object what the function of the same name does to its value |
| `Replay.dfy`, `ReplayOrder.dfy`, `Compose.dfy` | the attempt and `Advance`: order, coverage, what is spared, composition |
| `SessionTime.dfy`, `Waiting.dfy`, `WaitingRuns.dfy` | a reference machine in session time; advancing and waiting are both it, and waiting runs exist |
| `OrderedDelivery.dfy` | `DeliverNow` |
| `Effects.dfy` | what each operation of the dispatcher does to every delivery, clock and record |
| `CallReports.dfy`, `CallRounds.dfy` | what the reports of a synchronous call tell, and the call round by round, on any clock |
| `Protocol.dfy` | scheduler, workers, drivers and cancelers as interleaved steps |
| `Ownership.dfy`, `Frames.dfy`, `Footprint.dfy`, `Wakeup.dfy`, `Attempts.dfy`, `SessionClocks.dfy`, `JournalAgrees.dfy`, `Cancellation.dfy`, `DriveOrder.dfy`, `DriveRace.dfy`, `DriveCoverage.dfy` | invariants and laws over all its runs |
| `DriveRuns.dfy` | the synchronous calls of `Replay.dfy` and `OrderedDelivery.dfy` are stretches of such runs |
| `Listings.dfy` | ascending lists of indices |
| `Engine.dfy`, `SessionRuns.dfy` | a scenario session as an object, and its whole lives |
| `Names.dfy`, `Scenarios.dfy`, `Reachability.dfy` | validation, compilation, the search for unreachable states |
| `Simulation.dfy` | the engine driven by the dispatcher; what validation says about runs |
| `Journal.dfy`, `Paging.dfy` | the delivery journal's ring and index; following its cursors |
| `Selectors.dfy`, `Store.dfy`, `StoreRuns.dfy`, `SelectorLeaks.dfy`, `SelectorCounts.dfy` | the session store: one call at a time, and interleaved |
| `Retry.dfy`, `JsonPath.dfy` | retry delays; the JSONPath subset (dot-form child segments and index selectors, sections 2.5.1 and 2.3.3 of RFC 9535, and laxer: `[007]` and `[+3]` are accepted) |

Times are nanoseconds as unbounded integers. Receivers, jitter, new ids, templates, rule
matching and the clock readings are functions a law quantifies over. A law about a
synchronous call is about every such world; a law about runs is about every interleaving.

Where the documentation and the code differ the model follows the code, and says when they
differ: an attempt in flight overwrites the status that a cancellation wrote
(`Cancellation.AnswerOverwritesCancellation`, and `CanceledStatusStays` for exactly when),
`CancelAll` leaves alone the clock of a driven session that has no offset yet
(`Cancellation.CancelAllMissesDrivenClock`, and `CancelAllDropsDrivenClock` for exactly when),
a delivery queued late can be overtaken by one due after it (`DriveRace.QueuingMayBeOvertaken`), a
large backoff can put a retry into the past (`Retry.NoDelayGoesBackIff`), and selector counts can leak
(`StoreRuns.LateReferLeaks`, `SelectorLeaks.CountsAreExactIffNoneMissed`). The heap compares
due times only, so order among equal ones is claimed for `Advance` and not for the scheduler.

## Model

| member | source | states |
|---|---|---|
| `Waiting.AdvancingEqualsWaiting` | internal/webhook/clock.go:70-127 | Advancing one session by a span on a standing wall clock and letting the scheduler run for that span: the same attempts of the same deliveries with the same numbers, answers and session times in the same order, the same scenario afterwards, and the same deliveries left, due at the same session times |
| `Simulation.AdvancingTheScenarioEqualsWaiting` | internal/engine/engine.go:267-329 | The same with the scenario engine as the callback, told wall clock and offset as the code reads them, for every validated and compiled scenario: the session ends in the same state with the same epoch, variables and history, but for the wall-clock stamps of its transitions |
| `WaitingRuns.WaitingRunExists` | internal/webhook/dispatcher.go:340-387 | There is such a run of the scheduler to compare with, whenever the session comes to rest within the attempts Advance allows |
| `Waiting.WaitIsVirtual` | internal/webhook/dispatcher.go:340-387 | Any run of the wall-clock scheduler, from any point on, does what the reference machine over session time does |
| `SessionTime.AdvanceIsVirtual` | internal/webhook/clock.go:83-125 | The loop of Advance does what the same reference machine does |
| `SessionTime.FireSim` | internal/webhook/dispatcher.go:398-529 | One attempt with its callback commutes with forgetting the split of session time into wall time and offset |
| `Simulation.AdvanceSeen` | internal/webhook/clock.go:70-127 | Worlds whose callbacks agree when seen through a map advance alike, seen through it |
| `Simulation.WaitsSeen` | internal/webhook/dispatcher.go:340-387 | And they wait alike |
| `Compose.AdvanceComposes` | internal/webhook/clock.go:83-127 | Advance(a) then Advance(b) fires what Advance(a + b) fires, in the same order, and leaves the same clocks, schedule and journal |
| `Compose.ShiftsAdd` | internal/webhook/clock.go:208-224 | Two clock moves are one move by their sum, for offsets, due times and journal records |
| `Compose.SameFirst` | internal/webhook/clock.go:228-240 | Moving the clock does not change which delivery is due first |
| `ReplayOrder.AdvanceReplays` | internal/webhook/clock.go:34-122 | One Advance: attempts in (session due time, seq) order including cascades and retries, at most 1000; it is cut short exactly if its deadline has come or 1000 attempts were made; a complete call moves the clock by exactly the span and leaves nothing due in it, a partial one moves it by exactly what it used of the span and leaves nothing before its last attempt; the session goes back idle with everything in the heap |
| `ReplayOrder.AdvanceSpares` | internal/webhook/clock.go:70-127 | What one Advance does not attempt keeps its session due time, counters and place; other sessions are not touched |
| `ReplayOrder.LoopEnds` | internal/webhook/clock.go:84-115 | Invariant of the loop: order so far, clock moved by what was spent, when it may be cut short, and a loop that stops by itself has swept its window |
| `ReplayOrder.RoundSweeps` | internal/webhook/clock.go:98-115 | One round attempts the first delivery in due order and leaves everything else behind it, new deliveries and the retry included |
| `ReplayOrder.AcquireDrives` | internal/webhook/clock.go:152-163 | Acquiring an idle session empties the heap of it |
| `ReplayOrder.ReleaseIdles` | internal/webhook/clock.go:189-203 | Releasing is the inverse of acquiring: nothing pending stays outside the heap, and acquiring again gives the state back |
| `Replay.FireRounds` | internal/webhook/dispatcher.go:398-529 | An attempt by a driver changes no other delivery, and leaves only later due times behind |
| `Replay.ShiftKeepsDue` | internal/webhook/clock.go:20-22 | fireAt + offset of every pending delivery of the session survives a clock move |
| `Replay.ShiftKeepsOthers` | internal/webhook/clock.go:208-224 | A clock move touches no other session's clock or deliveries |
| `Replay.AttemptTries` | internal/webhook/dispatcher.go:398-520 | Everything an attempt may change, whatever the answer |
| `Replay.ScheduleAllGrows` | internal/engine/engine.go:267-314 | Scheduling adds deliveries with new numbers, due no earlier than now, and changes none |
| `Model.FirstExists` | internal/webhook/clock.go:228-240 | A non-empty set of numbered deliveries has one first in due order |
| `OrderedDelivery.DeliverNowDelivers` | internal/webhook/deliver.go:40-75 | A not-pending error at item k means exactly the k items before it were sent, and that nothing then pending has that id or event; the call is cut short exactly if items are left when its deadline has come; otherwise all were sent; the clock does not move and what was not sent is exactly as before |
| `OrderedDelivery.SendsWhatItemsName` | internal/webhook/deliver.go:51-73 | The i-th delivery sent is the one the i-th item names in the state after the first i items |
| `OrderedDelivery.FindChooses` | internal/webhook/deliver.go:79-94 | An item names the queued delivery of that id, else the (fireAt, seq)-least of that event, whatever the map order; none only if neither exists |
| `OrderedDelivery.LoopSends` | internal/webhook/deliver.go:51-73 | Invariant of the loop: what it spares, how many it sends, which item it stops at, and the only two reasons to stop before the last |
| `OrderedDelivery.DeliverNowStops` | internal/webhook/deliver.go:51-73 | Of any session, busy with cancellation or not: the call is cut short exactly if items are left when its deadline has come, and errs exactly if it stops early otherwise |
| `CallReports.AdvanceIsOnTime` | internal/webhook/clock.go:83-122 | On any clock that does not run backwards, Advance moves the session's clock before each attempt to just when that delivery is due, not at all for an overdue one, and in the end leaves it there if cut short, else at the end of the span |
| `CallRounds.AdvanceTurns` | internal/webhook/clock.go:83-127 | On any such clock the call is a chain of rounds, each attempting the first delivery in due order on the state and the scenario as the round before left them, from the acquired session to the released one |
| `CallRounds.DeliverNowSends` | internal/webhook/deliver.go:40-75 | The same of DeliverNow: round k sends what item k names, by id, else the (fireAt, seq)-least of that event, on what round k - 1 left |
| `CallReports.AdvanceTells` | internal/webhook/clock.go:83-149 | Every report of an Advance call is an attempt of a delivery of the session, made no earlier than it was due, numbered on from the attempts before the call, with the result that the answer dictates; and every delivery has been attempted as often more as there are reports of it |
| `CallReports.DeliverTells` | internal/webhook/deliver.go:51-73 | The same of DeliverNow, which may send before the due time |
| `Effects.ScheduleAddsOne` | internal/webhook/dispatcher.go:178-222 | Scheduling adds one delivery with the target, event and limit asked for, due exactly the delay from now, under the next number: to the heap unless its session is driven, to its session, to the journal; nothing else changes |
| `Effects.ScheduleAllAddsEach` | internal/engine/engine.go:267-314 | Scheduling a list adds exactly its deliveries, in order, under the next numbers |
| `Effects.AttemptDoes` | internal/webhook/dispatcher.go:398-520 | What one attempt leaves of the delivery, the heap, the session's deliveries and the journal, by the answer and the limit: delivered, failed, or back in the queue after its retry delay |
| `Effects.CallbackDoes` | internal/webhook/dispatcher.go:522-528 | The callback is made after the first attempt only, once; what it asks for is scheduled and nothing else is |
| `Effects.FireTells` | internal/webhook/clock.go:130-149 | What the report of a synchronous attempt says |
| `Effects.ScanTakesDue` | internal/webhook/dispatcher.go:344-366 | A scan hands out exactly the live deliveries that are due and leaves the others in the heap, or drops canceled ones |
| `Effects.CancelSessionDoes` | internal/webhook/dispatcher.go:270-285 | Canceling a session drops the clock if nobody drives it, marks it gone if somebody does, takes exactly its deliveries out, and touches no other session |
| `Effects.ReleaseDoes` | internal/webhook/clock.go:189-203 | Releasing a driven session: no longer driven nor gone, its clock dropped exactly if it was gone, everything of it that is live and not held back in the heap |
| `Effects.CancelAllDoes` | internal/webhook/dispatcher.go:287-320 | CancelAll drops exactly the clocks of sessions that nobody drives, marks the driven ones with a clock gone, and flags exactly the deliveries it took, in the journal too |
| `Ownership.SingleOwnership` | internal/webhook/dispatcher.go:340-394 | In every interleaving: a live delivery is in the heap, in one attempter's hands or parked for its driver, never in two of them; a session delivery is live exactly if pending; only the driver holds a live delivery of a driven session; gone is within exclusive |
| `Ownership.CoreNext` | internal/webhook/clock.go:152-203 | Every step of every agent keeps the ownership invariant |
| `DriveOrder.DriveInOrder` | internal/webhook/clock.go:83-115 | In every interleaving: any two attempts of one advancing driver come in (session due time, seq) order, whatever others schedule, cancel or attempt in between, as long as nobody schedules into the session's past and no delivery that is overdue is still between being made and being queued when a later one is attempted |
| `DriveRace.QueuingMayBeOvertaken` | internal/webhook/dispatcher.go:178-222 | A run in which just that happens and the attempts come out of order: the due time is fixed before the lock is taken |
| `DriveCoverage.WindowCovered` | internal/webhook/clock.go:84-122 | In every interleaving: when a driver that left its loop by itself makes its last move, the clock has gone forward by exactly the span, and whatever was pending when it left the loop, and still is, is due after the window |
| `DriveCoverage.LeftNext` | internal/webhook/clock.go:103-122 | Between leaving the loop and its last move a driver takes nothing, whatever others do, and a cancellation is not forgotten |
| `DriveRuns.AdvanceIsARun` | internal/webhook/clock.go:70-127 | Whenever a session is neither driven nor attempted, the run can go on so that it ends in the very state an Advance call on its own ends in |
| `DriveRuns.DeliverIsARun` | internal/webhook/deliver.go:40-75 | The same for DeliverNow |
| `DriveRuns.RoundGoes` | internal/webhook/clock.go:98-115 | One round of the loop, callback and what it schedules included, is a stretch of steps of the interleaved protocol |
| `DriveOrder.BehindNext` | internal/webhook/clock.go:83-115 | Every step of anyone leaves what is pending behind the driver's last attempt |
| `DriveOrder.RunNumbered` | internal/webhook/dispatcher.go:211-212 | Scheduling numbers identify deliveries at every point of every run |
| `DriveOrder.QuietIsIdle` | internal/webhook/clock.go:152-176 | What the synchronous calls ask of a session that nobody drives or attempts holds at every point of every run |
| `Cancellation.CanceledStatusStays` | internal/webhook/dispatcher.go:281-284 | A delivery canceled while no attempt of it is under way keeps the status of the cancellation as long as it is in the journal; in general it shows it exactly if no attempt was answered since the flag |
| `Cancellation.AnswerOverwritesCancellation` | internal/webhook/dispatcher.go:487-491 | A run in which an attempt that has passed the check is counted and sent after the cancellation, and its answer overwrites that status |
| `Cancellation.CancelAllDropsDrivenClock` | internal/webhook/dispatcher.go:302-308 | CancelAll drops the clock of a driven session, at its release, exactly if the session had an offset entry by then or was gone already |
| `Cancellation.CancelAllMissesDrivenClock` | internal/webhook/dispatcher.go:302-308 | A run in which it had none: after CancelAll and the release the session still has a clock of its own |
| `Cancellation.CancelSessionDropsClock` | internal/webhook/dispatcher.go:275-280 | At any point of any run, canceling a session that nobody drives leaves it no clock and nothing pending, and leaves every other session's clock alone |
| `Cancellation.CanceledDriveDropsClock` | internal/webhook/clock.go:194-197 | Whatever happens meanwhile, a session canceled while it is driven has no clock right after its next release |
| `Cancellation.CancelAllDropsIdleClocks` | internal/webhook/dispatcher.go:302-308 | At any point of any run, after CancelAll only driven sessions still have a clock |
| `Wakeup.NoLostWakeup` | internal/webhook/dispatcher.go:345-385 | Whenever the scheduler is not scanning, its wake slot is full, or a pusher is about to kick, or nothing live in the heap is due before its alarm |
| `Wakeup.QueueSteady` | internal/webhook/clock.go:205-224 | No step changes the key of a delivery that is in the heap |
| `Footprint.NextFits` | internal/webhook/dispatcher.go:230-236 | What any step of anyone may do to the deliveries there are |
| `Attempts.AttemptDiscipline` | internal/webhook/dispatcher.go:398-528 | Attempts are numbered 1 to n, never above the limit, none after a success; the callback is made once if the first attempt is over and never otherwise, and is owed exactly while the job of that attempt has been answered and not ended |
| `Attempts.CanceledIsFinal` | internal/webhook/dispatcher.go:398-407 | Once canceled, at most one more attempt is counted, only if it had passed the check of the flag before; and at most one more is answered, only if it was under way |
| `SessionClocks.DueConserved` | internal/webhook/clock.go:20-22 | Over any stretch of any run a pending delivery that is not attempted is due at the same session time, through any mix of shifts, schedules and cancellations |
| `SessionClocks.ClockOnCourse` | internal/webhook/clock.go:103-125 | At every point of every run an advancing driver has moved its session's clock by exactly what it has used of its span |
| `SessionClocks.OnlyOwnClock` | internal/webhook/clock.go:208-224 | A clock moves only forward by its own driver, or is dropped by a cancellation |
| `JournalAgrees.JournalTellsTheStory` | internal/webhook/dispatcher.go:474-491 | For every uncanceled delivery still in the journal: attempts numbered 1 to n with n its counter unless an attempt is under way; pending before the first answer, delivered after a success, failed after the last failure allowed, else retrying; pending or retrying while it is queued or parked, and the shown time is the due time, also after clock shifts |
| `JournalAgrees.AgreesNext` | internal/webhook/dispatcher.go:195-208 | Every step keeps records and deliveries in agreement |
| `JournalAgrees.ShiftAgrees` | internal/webhook/clock.go:213-222 | A clock shift moves the record's shown time with the delivery's due time |
| `DeliveryQueue.DeliveryHeap.Push` | internal/webhook/dispatcher.go:80-85 | The array stays a min-heap with exact back-pointers, and gains exactly the pushed delivery |
| `DeliveryQueue.DeliveryHeap.Pop` | internal/webhook/dispatcher.go:86-94 | Takes the root; heap order and back-pointers are kept, the removed delivery has index -1, the rest is what was there |
| `DeliveryQueue.DeliveryHeap.Remove` | internal/webhook/clock.go:159-163 | Removal by index takes out exactly the delivery at that index, from anywhere in the heap |
| `DeliveryQueue.DeliveryHeap.Up` | internal/webhook/dispatcher.go:80-94 | Sifting up restores order and permutes the array |
| `DeliveryQueue.DeliveryHeap.Down` | internal/webhook/dispatcher.go:80-94 | Sifting down restores order, or reports that only the parent may be too big |
| `DeliveryQueue.DeliveryHeap.SmallerChild` | internal/webhook/dispatcher.go:83 | The child that sifting down compares with is least among the children |
| `DeliveryQueue.RootFirst` | internal/webhook/dispatcher.go:350-351 | The root of a heap is least |
| `Dispatching.Dispatcher.constructor` | internal/webhook/dispatcher.go:131-173 | A new dispatcher holds nothing |
| `Dispatching.Dispatcher.Enqueue` | internal/webhook/dispatcher.go:210-222 | The locked section of Schedule does to heap, pending map and counter what the model's step does to their value |
| `Dispatching.Dispatcher.Schedule` | internal/webhook/dispatcher.go:178-225 | Draft, journal record and queueing of one delivery, under an id nobody has |
| `Dispatching.Dispatcher.PushLocked` | internal/webhook/dispatcher.go:230-236 | A delivery of an exclusive session stays out of the heap with index -1; any other goes in |
| `Dispatching.Dispatcher.CancelSession` | internal/webhook/dispatcher.go:270-285 | Exactly the session's pending deliveries leave the map and are flagged; if nobody drives it its clock is dropped, else it is marked gone; no other session's clock changes |
| `Dispatching.Dispatcher.CancelAll` | internal/webhook/dispatcher.go:290-319 | Exactly the queued or pending deliveries not yet canceled are flagged, and their number is answered; only driven sessions keep a clock |
| `Dispatching.Dispatcher.DropClocks` | internal/webhook/dispatcher.go:302-308 | Sessions with a clock are marked gone if exclusive and lose it otherwise |
| `Dispatching.Dispatcher.ScanHeap` | internal/webhook/dispatcher.go:345-363 | One scan hands out exactly live due deliveries in fireAt order, drops only canceled ones, and waits until the first live one left |
| `Dispatching.Dispatcher.Drain` | internal/webhook/dispatcher.go:348-362 | The loop over the heap top |
| `Dispatching.Dispatcher.Take` | internal/webhook/clock.go:152-164 | Marks the session exclusive and takes exactly its pending deliveries out of the heap, or answers busy and changes nothing |
| `Dispatching.Dispatcher.IsBusy` | internal/webhook/clock.go:166-176 | Whether an attempt of the session is still running |
| `Dispatching.Dispatcher.Obtain` | internal/webhook/clock.go:152-186 | Acquire: busy if another driver has the session; given back if an attempt goes on until the deadline; else taken and quiet |
| `Dispatching.Dispatcher.Release` | internal/webhook/clock.go:189-201 | Gives back to the heap exactly what is pending, not running and not canceled; drops the clock of a gone session |
| `Dispatching.Dispatcher.ShiftLocked` | internal/webhook/clock.go:208-224 | Offset up, every pending fireAt down, every journal record along, and nothing else |
| `Dispatching.Dispatcher.EarliestLocked` | internal/webhook/clock.go:228-240 | The first eligible delivery in (fireAt, seq) order, or none |
| `Dispatching.Dispatcher.FindLocked` | internal/webhook/deliver.go:79-94 | The delivery an item names |
| `Dispatching.Dispatcher.Attempt` | internal/webhook/dispatcher.go:398-520 | One attempt up to its callback; a canceled delivery is only put down |
| `Dispatching.Dispatcher.Settle` | internal/webhook/dispatcher.go:501-520 | Requeues a retry or retires the delivery, clearing running in the same section |
| `Dispatching.Dispatcher.Follow` | internal/webhook/dispatcher.go:522-527 | The callback of a first attempt, and what it schedules |
| `Dispatching.Dispatcher.Fire` | internal/webhook/clock.go:130-147 | One synchronous attempt and its report |
| `Dispatching.Dispatcher.Advance` | internal/webhook/clock.go:34-127 | Advance on the objects is the replay the laws above are about: cut short exactly by its deadline or the thousandth attempt, answering the session's clock; refused for exactly the stated reasons, and then nothing changes |
| `Dispatching.Dispatcher.DeliverNow` | internal/webhook/deliver.go:40-75 | DeliverNow on the objects is the ordered delivery the laws above are about: cut short exactly if items are left when its deadline has come; refused for exactly the stated reasons, and then nothing changes |
| `Dispatching.BusyChangesNothing` | internal/webhook/clock.go:152-186 | A call that finds the session busy changes nothing in the end |
| `Dispatching.Dispatcher.PendingCountIs` | internal/webhook/dispatcher.go:246-250 | The count is the number of the session's pending deliveries |
| `Engine.Session.constructor` | internal/engine/engine.go:152-173 | A session starts in the given state with one history entry |
| `Engine.Session.Record` | internal/engine/store.go:56-61 | Appending and cutting keeps the most recent hundred of everything recorded |
| `Engine.LatestGrows` | internal/engine/store.go:56-61 | Cutting as transitions come is cutting at the end |
| `Engine.Session.EnterState` | internal/engine/engine.go:254-265 | Records one linked transition with its cause and both times, moves, bumps the epoch and nothing else, and schedules what entering that state asks for; the trace stays linked |
| `Engine.Session.RunEnter` | internal/engine/engine.go:267-314 | Schedules, in order, exactly the actions whose body renders and that find the queue, with those scheduled before them, under its limit; each with its target, event, scaled delay, attempts, and a goto that carries the current epoch |
| `Engine.EntersSchedules` | internal/engine/engine.go:267-314 | The same of the entry as a function |
| `Engine.GotoArrives` | internal/engine/engine.go:316-329 | A callback of the current epoch arrives where its goto says, with one transition caused by a webhook and what that state schedules; any other changes nothing |
| `Engine.AdminArrives` | internal/engine/engine.go:332-345 | An administrator's transition succeeds exactly if the scenario has the state, slides the expiry, and arrives there; otherwise nothing changes |
| `Engine.LostSession` | internal/engine/engine.go:185-190 | A session whose state the scenario lacks answers nothing and only slides its expiry |
| `Engine.Session.Advance` | internal/engine/engine.go:318-329 | A goto with a stale epoch changes nothing and schedules nothing |
| `Engine.Session.AdvanceTo` | internal/engine/engine.go:332-345 | Refuses a state the scenario lacks; otherwise slides the TTL and enters |
| `Engine.Session.Handle` | internal/engine/engine.go:178-243 | First matching rule, reply, variables set one by one and kept on failure, then the goto |
| `Engine.FirstMatch` | internal/engine/engine.go:191-195 | The rule that answers is the first that matches |
| `Engine.RequestMovesAtMostOnce` | internal/engine/engine.go:178-243 | Exactly what a request leaves, case by case: the first matching rule answers; only if its reply and all its variables render does it arrive where its goto says, with one transition and what that state schedules; variables set before a failing template stay set; nothing else changes but the TTL |
| `Engine.SetsUpToTheFirstFailure` | internal/engine/engine.go:209-219 | Variables are set in order, each template seeing the ones before it, up to the first that fails, keeping what was set |
| `Engine.EntryRespectsLimit` | internal/engine/engine.go:291-295 | Entering a state never takes a session's queue over the configured limit |
| `Simulation.CallbackKeepsLimit` | internal/engine/engine.go:291-295 | Nor does the engine as the dispatcher's callback, which counts what is pending and what it has scheduled itself |
| `SessionRuns.HistoryIsRecent` | internal/engine/store.go:56-61 | At any point of any life the history is the last min(100, epoch + 1) entries of everything that happened, linked, ending where the session is |
| `SessionRuns.StaleGotosAreDead` | internal/engine/engine.go:316-329 | A callback takes effect exactly if nothing was entered since the entry that scheduled it; otherwise it changes nothing |
| `SessionRuns.OneGotoPerEntry` | internal/engine/engine.go:267-329 | Of all callbacks that one state entry scheduled, at most one ever moves the session |
| `SessionRuns.NextKeeps` | internal/engine/engine.go:178-345 | Every move keeps trace, history and waiting callbacks in agreement with the scenario |
| `SessionRuns.NeverUnknown` | internal/engine/engine.go:185-191 | If all gotos lead to states of the scenario, no request meets the unknown-state error |
| `Simulation.GotoInSessionTime` | internal/engine/engine.go:254-329 | Apart from a transition's wall stamp, a goto depends on wall clock and offset only through their sum |
| `Simulation.RetriesAreForward` | internal/webhook/dispatcher.go:474-485 | As long as no jitter can take a doubled backoff past 64 bits, the retries the dispatcher makes do not go back in time |
| `Simulation.EngineIsForward` | internal/config/validate.go:205-208 | The bound that validation puts on delays is why callbacks never schedule into the past |
| `Scenarios.ValidateScenario` | internal/config/validate.go:186-230 | Lists exactly the problems a scenario has, in the states part: nothing missed, nothing made up |
| `Scenarios.ValidatedIsSound` | internal/config/validate.go:186-230 | What a scenario without problems is known to be |
| `Scenarios.ValidatedIff` | internal/config/validate.go:178-232 | A scenario has no problems if and only if its time to live is at most 24 hours, it has 1 to 200 states, the initial one among them, and every action and rule is good: a known target, a delay of 0 to 365 days, a body of at most 5 MB, gotos into the scenario, conditions and replies that are well-formed |
| `Scenarios.CompileScenario` | internal/snapshot/snapshot.go:246-322 | Succeeds exactly if every template parses, and then keeps every state, action and rule in order, with sorted set variables and names |
| `Scenarios.CompiledFields` | internal/snapshot/snapshot.go:246-322 | What a compiled scenario holds: the id, the initial state, the configured time to live or 30 minutes; each state the actions with a webhook, in order, with their target, event, delay, body and goto, and all rules, in order, with their variables |
| `Scenarios.CompilationIsDeterministic` | internal/snapshot/snapshot.go:267-317 | Compiling has one result, in whatever order maps are iterated |
| `Scenarios.CompiledGraph` | internal/snapshot/snapshot.go:267-315 | Compilation keeps the states and gotos of a validated scenario, and every goto leads to a state |
| `Reachability.UnreachableStates` | internal/config/validate.go:257-293 | Terminates and lists, in order, exactly the states no goto path leads to from the initial state; none if that is unknown |
| `Reachability.WarningsAreDeterministic` | internal/config/validate.go:285-292 | The listing does not depend on map order |
| `Reachability.Visit` | internal/config/validate.go:261-284 | The search visits exactly the names some goto path leads to |
| `Reachability.ClosedHasPaths` | internal/config/validate.go:257-293 | A set with the initial state and closed under gotos has the end of every path |
| `Simulation.UnreachableIsNeverEntered` | internal/config/validate.go:232-237 | A state that validation warns about is never entered by a session that starts in the initial state and that no administrator moves |
| `Simulation.ValidatedNeverUnknown` | internal/engine/engine.go:332-345 | Administrator or not, a session of a validated scenario is always in one of its states |
| `Names.SortStrings` | internal/config/validate.go:295-301 | Sorts in place: ascending, and a permutation |
| `Names.SortedIsUnique` | internal/snapshot/snapshot.go:332-338 | The sorted form does not depend on the order a map was iterated in |
| `Names.LessIsLexicographic` | internal/config/validate.go:295-301 | The order sorted by: at the first place where two names differ the smaller character decides, and a proper prefix comes first |
| `Names.SortedNames` | internal/config/validate.go:286-291 | Lists the keys of a map ascending, each once |
| `Journal.DeliveryLog.Add` | internal/webhook/log.go:93-105 | The ring then holds the newest min(count, size) records and the index exactly these |
| `Journal.DeliveryLog.HoldsTheNewest` | internal/webhook/log.go:93-105 | Ring and index are the newest part of everything added, each record under its id |
| `Journal.DeliveryLog.Page` | internal/webhook/log.go:133-163 | The loop over the ring gives, of the records of the session, target and status asked for, newest first and from behind the cursor's record, the first up to the limit, and the last of them as cursor if there are more; expired exactly if the cursor's record is gone |
| `Journal.PageIs` | internal/webhook/log.go:128-163 | The page function, which the laws about following cursors use, gives just that |
| `Journal.DeliveryLog.Get` | internal/webhook/log.go:109-117 | The record of an id, if the journal still has it |
| `Journal.DeliveryLog.Update` | internal/webhook/log.go:171-177 | Rewrites one record in place, nothing else |
| `Journal.DeliveryLog.Clear` | internal/webhook/log.go:191-199 | Empties ring and index and answers how many records there were |
| `Journal.SlotIsModular` | internal/webhook/log.go:139-140 | The modular index of the i-th newest record |
| `Paging.PagesAreAPrefix` | internal/webhook/log.go:128-163 | Whatever arrives between pages, what they give together is a beginning of the original listing, and at the end all of it but what had rotated out |
| `Paging.PagesEnd` | internal/webhook/log.go:128-163 | Following cursors ends: done or expired within one page more than there are records |
| `Paging.PagesLoseNothing` | internal/webhook/log.go:128-163 | Without arrivals no cursor expires and the pages together are the unlimited listing |
| `Paging.WalkStep` | internal/webhook/log.go:133-163 | One page continues exactly where the one before it stopped |
| `SessionStore.Store.Create` | internal/engine/store.go:157-188 | Inserts unless the key is taken or the store is full; key map, id index, length and selector counts stay exact |
| `SessionStore.Store.Delete` | internal/engine/store.go:204-236 | Removes exactly that session from all views |
| `SessionStore.Store.Sweep` | internal/engine/store.go:273-288 | Removes and answers exactly the expired sessions |
| `SessionStore.Store.GetByKey` | internal/engine/store.go:190-195 | Finds the session of a key in its shard, or there is none anywhere |
| `SessionStore.Store.GetByID` | internal/engine/store.go:197-201 | A session found by id is found by its key too; an id not found is in no shard |
| `SessionStore.ShardedPut` | internal/engine/store.go:157-170 | Inserting into the shard of its key keeps all shards in agreement with the id index |
| `Selectors.CountedMore` | internal/engine/store.go:179-186 | Counting one session up keeps every selector's count exact |
| `Selectors.CountedLess` | internal/engine/store.go:226-233 | Counting one session down keeps every selector's count exact and drops an unused one |
| `StoreRuns.NeverOverLimit` | internal/engine/store.go:157-172 | In every interleaving of the lock sections the key map never has more entries than length says, and length never passes a positive limit |
| `StoreRuns.QuietViewsAgree` | internal/engine/store.go:157-236 | Whenever no call is under way key map and id index hold the same sessions and length is their number |
| `StoreRuns.NextKeeps` | internal/engine/store.go:157-236 | Every lock section keeps the invariant behind both |
| `StoreRuns.LateReferLeaks` | internal/engine/store.go:175-186 | Under any limit, a run after which a selector is counted for a session that is gone: deletion overtakes the last section of creation |
| `SelectorLeaks.CountsAreExactIffNoneMissed` | internal/engine/store.go:226-233 | Whenever no call is under way, selector counts are exact if and only if no deletion so far found its selector uncounted |
| `SelectorLeaks.LeakIsExact` | internal/engine/store.go:226-233 | The count of a selector is then the number of its sessions plus the number of deletions that missed it |
| `SelectorCounts.PatientNeverMisses` | internal/engine/store.go:226-233 | A deletion whose session's creation has been through its last section finds its selector counted |
| `SelectorCounts.PatientCountsAreExact` | internal/engine/store.go:179-233 | So while no deletion overtakes that section, selector counts are exact whenever no call is under way |
| `Retry.RetryDelay` | internal/webhook/dispatcher.go:532-539 | The doubling loop, wrapping at 64 bits; its product with the jitter loses its fraction, and is what the machine makes of it where it does not fit 64 bits |
| `Retry.DelayIsTheProduct` | internal/webhook/dispatcher.go:532-539 | As long as no jitter takes it past 64 bits, the delay after attempt n + 1 is the base times 2^n times the jitter, less than a nanosecond below |
| `Retry.ChainIsBounded` | internal/webhook/dispatcher.go:532-539 | The delays of a failing chain add up to between 0.8 and 1.2 times base * (2^n - 1), less than a nanosecond each below, as long as no jitter can take a doubled base past 64 bits |
| `Retry.DoublesUnlessItOverflows` | internal/webhook/dispatcher.go:533-536 | Doubling is exact exactly as long as the result fits 64 bits |
| `Retry.DoublingWraps` | internal/webhook/dispatcher.go:533-536 | Wrapping at every doubling is wrapping the product once |
| `Retry.DelayGoesBackIff` | internal/webhook/dispatcher.go:532-539 | With a given jitter some machine can make the delay negative if and only if the 64-bit form of base * 2^n is negative, or the jitter takes it past 64 bits |
| `Retry.OverflowGoesBack` | internal/webhook/dispatcher.go:532-539 | Doubling can do it: a base of 2^62 ns asks for its second retry in the past |
| `Retry.NoDelayGoesBackIff` | internal/webhook/dispatcher.go:532-539 | No jitter on any machine makes the delay negative if and only if the 64-bit form of base * 2^n is from 0 to 5/6 of 2^63 |
| `Retry.JitterGoesBack` | internal/webhook/dispatcher.go:537-538 | The jitter can do it without doubling: a base of 9 * 10^18 ns and a jitter of 1.1, where the conversion of what does not fit is negative |
| `JsonPath.ParseJSONPath` | internal/match/jsonpath.go:20-58 | The parsing loop terminates on every input and is the parser function |
| `JsonPath.ParseIffSpells` | internal/match/jsonpath.go:20-58 | Exactly which strings are paths and what tokens they mean |
| `JsonPath.RoundTrip` | internal/match/jsonpath.go:14-18 | Printing and parsing gives back every non-empty list of nameable tokens |
| `JsonPath.ParsePrintParse` | internal/match/jsonpath.go:20-58 | Every accepted string parses to nameable tokens, and parse, print, parse is parse |
| `JsonPath.RefusesIff` | internal/match/jsonpath.go:20-58 | Exactly which strings are refused and with which error: the first segment that is not well-formed decides |
| `JsonPath.AtoiIsNumeral` | internal/match/jsonpath.go:42-45 | An index is an optional plus or, for zero, minus sign and decimal digits worth at most 2^63 - 1, each digit by its place |
| `JsonPath.ReadInt` | internal/match/jsonpath.go:42-45 | Sign, leading zeros and the 64-bit range of an index |
| `JsonPath.ShowReads` | internal/match/jsonpath.go:42-45 | The decimal form of a number reads back as it |
| `JsonPath.EvalJSONPath` | internal/match/jsonpath.go:62-83 | The walk down a document ends at u if and only if there is a chain of values to u in which each field step takes an object to the value of that key and each index step an array to the element of that index; otherwise nothing is selected |
| `JsonPath.EvalSelects` | internal/match/jsonpath.go:62-83 | The same of evaluation as a function |
| `JsonPath.EvalJoins` | internal/match/jsonpath.go:62-83 | Evaluating concatenated tokens is evaluating the parts in turn |
| `JsonPath.PathsCompose` | internal/match/jsonpath.go:86-93 | Continuing a path with another's segments selects, from what the first selects, what the second does |

## Left out

- HTTP, signing, the dial guard, bodies, headers and logging: an attempt is an answer the world gives.
- YAML decoding, environment substitution, regular expressions, templates: well-formedness, matching and rendering are functions of the world.
- Choosing and finding the session of a request, session conflicts, `StartSession`, the sweeper's timer and `Stop`: plumbing around what is modelled.
- `DeleteSession`: a store deletion followed by a dispatcher cancellation, both modelled.
- `ParseKeySelector` and `KeySelector.Extract`: easy members beside the JSONPath parser.
- The text of errors, and the sorted names of pending deliveries in a not-pending error.
- Dispatching.Dispatcher.Advance: on the objects nobody else acts during the call, so waiting for a running attempt ends with the deadline; what others do meanwhile is in the interleaved model.
- Dispatching.Dispatcher.DeliverNow: as for Advance.
- ReplayOrder.AdvanceReplays: is about the call on its own; what others schedule and cancel meanwhile is in `DriveOrder.DriveInOrder` and `DriveCoverage.WindowCovered`.
- DriveCoverage.WindowCovered: says nothing of a delivery queued after the driver has left its loop, which may be due in the window and then goes to the scheduler.
- DriveRuns.AdvanceIsARun: of a call that finds the session idle, so that acquiring it needs no waiting.
- DriveRuns.DeliverIsARun: as for AdvanceIsARun.
- Dispatching.Dispatcher.Attempt: one clock reading stands for the two that an attempt makes, the later one being part of the delay, and check and count of an attempt follow each other directly (they are two steps in `Protocol.dfy`); the journal is a map here and a ring in `Journal.dfy`.
- Waiting.AdvancingEqualsWaiting: needs distinct due times among deliveries pending together, since the heap breaks ties arbitrarily, and receivers that answer at once, one after another also when several workers would share a batch; timers fire promptly.
- SessionClocks.DueConserved: says nothing of a delivery scheduled into a session already marked gone once the clock of that session is dropped.
- Attempts.CanceledIsFinal: is about attempts; what the journal shows after a cancellation is `Cancellation.CanceledStatusStays`.
- SessionRuns.HistoryIsRecent: creation is one step; in the code the session is visible before its first enter actions have run.
- Simulation.UnreachableIsNeverEntered: the converse does not hold, as a rule can be shadowed by an earlier one.
- Scenarios.ValidateScenario: session key, id duplicates and the parts of request conditions and replies are one predicate each of the world or absent; body lengths are in characters.
- Scenarios.CompileScenario: a rule without a reply is required not to occur, as the code would panic; validation excludes it.
- SessionStore.Store.Create: needs an id nobody has, as the id generator gives; selectors carry no scenario.
- SelectorCounts.PatientCountsAreExact: a rule for callers, and sufficient only; the exact condition is `SelectorLeaks.CountsAreExactIffNoneMissed`.
- Journal.DeliveryLog.Add: needs an id that is not in the journal.
- Retry.RetryDelay: the product with the jitter is exact, not rounded to a 64-bit float, so the edges at 2^63 and at 5/6 of it are exact to within that rounding only.
- Retry.ChainIsBounded: as for RetryDelay.
- 64-bit wrap-around of times and counters elsewhere; the epoch, sequence and attempt counters are unbounded.
- `internal/misslog/misslog.go`: repeats the journal's ring.
