# Phantora, modelled and proved

Phantora simulates the training of a model on many GPUs. Ranks run for real up to the point where they
would use a GPU or the network; kernels, collectives and transfers become events in a simulated schedule,
and flows in a simulated network. The simulation is optimistic: it runs ahead, and when a flow turns up in
its past it rolls itself back. This project models the parts where that is subtle and proves them right.

**The network simulator** (`FairShare`, `NetReference`, `SpeedHistory`, `NetTracking`, `NetState`, `NetSteps`,
`NetFilling`, `NetBatches`, `NetArrivals`, `NetSupport`, `NetSim`, `NetReplay`, `NetOrder`). `NetSim.Simulator`
is the simulator with its state, updated in place. It is proved against two definitions that do not know how it
works: `FairShare.Shares`, progressive filling, which is shown to be max-min fair; and `NetReference.WorldAt`,
an in-order simulation that goes nanosecond by nanosecond and knows every flow from the start. `Valid()` is the
invariant of the state; `Exact()` says that every flow's speed history agrees with the in-order simulation.
Every forward step and every rollback keeps both, and what a run reports is exactly the next batch of
completions of the in-order simulation. The two shortcuts that ignore differences below a microsecond are kept;
`NetArrivals.Dropped` says exactly when one of them drops something, and `FlowArrive` agrees with the in-order
simulation if and only if that is not so. Speeds are positive exactly if every link has one bit per second for
each flow on it; going forward asks for that at every moment of the in-order simulation (`Provided`), and only
for the flows under way together.

**The event queue** (`EventState`, `EventSteps`, `EventQueue`, `EventOrder`, `EventSchedule`,
`EventPropagation`, `EventGraph`). Events wait for dependencies that may be added late, for barriers that are
released later, and for the network. `EventState.Ok` is the invariant: each event is in one place, waits for
exactly what has not ended, is known to whatever it waits for, and its time is exactly the latest of its arrival
and the ends of its dependencies. The network is an oracle: it may end any flow that runs, at any time not
before its start, and its clock says which flows it still holds back. Entries come out by time, and of equal
times the oldest first; the times of successive steps never decrease. From the invariant follow the exact
earliest schedule, critical paths, and that a queue that runs dry with events pending has a held barrier or a
circle of dependencies. `EventPropagation` is about moving an end time after the fact: the recursive shift of
start times ends with the schedule that a computation from scratch gives, and `Blocked` says exactly when it is
stopped.

**The rendezvous protocols** (`StreamOrder`, `KernelSequences`, `Collectives`, `Barriers`, `PointToPoint`,
`Rendezvous`, `Requests`, `CallGraphs`, `ExactDesk`, `ExactCalls`, `ExactTransfers`, `ExactGroups`,
`ExactSteps`, `ExactTimes`, `GpuSimulator`, `Transfers`, `LockStep`, `NcclIds`, `CommSplit`). Calls of ranks
arrive in any order. `GpuSimulator.Simulator` holds the event queue, the streams and the waiting maps;
`Rendezvous.DeskOk` is the invariant between calls. The k-th call of every rank joins the k-th collective, the
i-th send meets the i-th receive, exactly the barriers of those who wait are held, and nothing is added to an
event too late. The invariant also carries true records of all collectives, of all transfers, of all groups and
of all synchronize calls so far, with their times, so that what is promised of them holds in every later state:
the flows of a collective are communications from the time of the last rank's call on, that of a pair from the
later of its two calls on, all other events of theirs are points from the time of the call that asked for them
(`Requests.AskedOk`); and each of these events waits for exactly what it should, and for nothing else
(`ExactDesk.ExactOk`; only the common starts and ends of collectives that wait for ranks and the ends of
endpoints that wait for peers may still get another dependency). Hence `ExactTimes`: the flows of a collective
start exactly when the last rank has called and all that stood before on any rank's stream is over, the flow of
a transfer exactly when both sides have called and all that stood before on both streams is over, and the
streams go on exactly when the flows are over. Flows lie between their ranks' stream events, and every answer is
the latest of the caller's time and the ends of what the call covers, whichever call it is given in.
`LockStep.Run` is deadlock freedom as one statement: ranks that issue the same collectives in the same order,
interleaved in any way with each other, with kernels and with the simulation, end with every event ended.
`Transfers.SendAndReceive`, `CommSplit.InitByAll` and `CommSplit.SplitByAll` are the same kind of statement for
a send and its receive, and for a communicator that is set up, or split: calls in any order, and the outcome in
terms of the arguments that were given.

**Routing** (`Topology`, `Cluster`, `Fabrics`) and **the layout of a mixture of experts** (`MoeLayout`).

Where the program and its own comments disagree, the model follows the program:

- `phantora/netsim/src/simulator.rs:786` says that retired flows are in increasing order. By completion microsecond they
  always are (`NetState.RetiredInOrder`), and that is what the early exit at 818-820 needs. By nanosecond, completions
  keep the order if and only if no flow that is still retired completes later than the clock
  (`NetSupport.OrderAfterCompletions`); arrivals and rollbacks never spoil it (`NetOrder.ArrivalKeepsOrder`), nor does
  anything as long as the shortcuts drop nothing (`NetOrder.NoneAhead`). `NetOrder.UnorderedRun` is a run that does.
- `phantora/phantora/src/event_queue.rs:202` tests for membership in a set from which 196 has just removed the element, so
  the call of `add_end_time_to` at 203 is never reached. `AddEndTimeTo` is proved for itself. What it calls can fail at
  two places: every event that is told a time, is not pending and carries a flow must still be held back by the network
  (506-509, and the assertion at `phantora/netsim/src/simulator.rs:795`), and one that has started earlier than it is told
  must have its end queued (533). The shift is carried out if and only if no chain of events that are moved leads to
  either (`EventPropagation.Blocked`). `EventQueue.PutOffTooLate` runs into the first if the flow is due at once, and into
  the second if it is due later.
- `add_dependency` on a dependency that has ended returns without raising the start time (`event_queue.rs:445-447`).
  `EventSchedule.LateDependencyCounts` says exactly when that matters; `GpuSimulator.Simulator.Link`, through which
  every caller goes, shows that it never happens there, because a barrier is still held.
- A communicator of one rank never completes a collective: only a second rank's call looks whether all have joined
  (`Rendezvous.LoneRankIsNeverReleased`), and a split of it waits in the same way (`CommSplit.SplitCalled`). Hence
  `LockStep.PlanOk` asks for two ranks or more.

Units: network speeds are whole bits per second, network times nanoseconds, event times microseconds. What a flow
has sent is counted in bits per second times nanoseconds (bytes times 8,000,000,000), so that a speed times a
duration is exact.

## Model

| member | source | states |
|---|---|---|
| FairShare.SharesAreMaxMinFair | phantora/netsim/src/simulator.rs:319-375 | the filling overloads no link; every flow with a route has a link on it that is full up to fewer bit/s than it has flows and on which no flow is faster; a flow without one gets the loopback speed |
| FairShare.RaisingOneLowersASlowerOne | phantora/netsim/src/simulator.rs:319-375 | in any allocation, fractional ones included, that overloads no link, raising a flow by its link's flow count lowers some flow that was no faster |
| FairShare.ExactShareIsUnique | phantora/netsim/src/simulator.rs:319-375 | allocations in which every flow has a link that is exactly full, and on which it is a fastest flow, are all the same |
| FairShare.RoundShrinks | phantora/netsim/src/simulator.rs:337-374 | every round of the filling lets at least one flow converge, so the loop ends |
| FairShare.RoundSaturates | phantora/netsim/src/simulator.rs:360-372 | a flow that converges in a round has a link that the round fills up to less than its flow count |
| FairShare.PositiveIffProvisioned | phantora/netsim/src/simulator.rs:1077-1083 | no speed is zero if and only if every link has one bit/s for each of its flows |
| NetReference.AlwaysProvided | phantora/netsim/src/simulator.rs:1077-1083 | links that provide for all flows together provide for those under way at any moment of the in-order simulation |
| NetFilling.ReachesBound | phantora/netsim/src/simulator.rs:281-284 | with the bounds that the visited links have left, reaching the bound is the same as lying on a link that the round saturates |
| NetFilling.HeadroomDoesNotBind | phantora/netsim/src/simulator.rs:258-279 | the headroom of converged flows never limits the increment, the maximal rate being what it is |
| NetReference.WorldShape | phantora/netsim/src/simulator.rs:973-1023 | in the in-order simulation a started flow is under way or done, never both, and with less than its size sent while it is under way |
| NetReference.PastUnchanged | phantora/netsim/src/simulator.rs:501-526 | the in-order simulation up to a moment does not depend on flows that start later |
| NetReference.Stretch | phantora/netsim/src/simulator.rs:410-476 | one step over a stretch in which nothing completes or starts equals as many steps of a nanosecond |
| SpeedHistory.Undo | phantora/netsim/src/simulator.rs:829-863 | popping the history back to a moment leaves the entries before it and their byte integral, so the clamp at 853 has nothing to do; nothing is left of a flow that starts at that moment or later |
| SpeedHistory.SentByMonotone | phantora/netsim/src/simulator.rs:826-850 | the byte integral of a history never decreases |
| NetTracking.TracksForward | phantora/netsim/src/simulator.rs:981-992 | recording the speed of a quiet stretch keeps the integral of a flow's history equal to its progress in the in-order simulation |
| NetTracking.TracksBack | phantora/netsim/src/simulator.rs:834-850 | so does cutting the history back |
| NetTracking.RunningIsSettled | phantora/netsim/src/simulator.rs:377-400 | when no running flow is complete, the running flows are exactly those under way in the in-order simulation, with the same progress |
| NetState.CompletesInTime | phantora/netsim/src/simulator.rs:1077-1086 | the rounded-up completion time is the first whole nanosecond at which everything is sent |
| NetState.CompletedMeansAllSent | phantora/netsim/src/simulator.rs:1088-1092 | a flow counts as completed if and only if everything is sent |
| NetSteps.StepOk | phantora/netsim/src/simulator.rs:308-317 | a forward step keeps the invariant: places, link index, byte integrals, order of the retired |
| NetSteps.StepInStep | phantora/netsim/src/simulator.rs:973-1007 | a forward step keeps every history in agreement with the in-order simulation |
| NetSteps.RetiredAfterStep | phantora/netsim/src/simulator.rs:994-1006 | completions keep the retired list in order of completion microsecond |
| NetSteps.RollbackRetired | phantora/netsim/src/simulator.rs:800-822 | so does a rollback |
| NetSteps.EarlyExitMissesNone | phantora/netsim/src/simulator.rs:802-822 | stopping at the first retired flow that completed early enough misses none that must be revived |
| NetSteps.RollbackInStep | phantora/netsim/src/simulator.rs:799-896 | a rollback that keeps nothing too long gives, with the late flows added, the state an in-order simulation of all flows has at that moment |
| NetSteps.RollbackOk | phantora/netsim/src/simulator.rs:799-896 | a rollback keeps the invariant |
| NetSteps.ArrivalInStep | phantora/netsim/src/simulator.rs:504-514 | flows that arrive before their start, or at it, change nothing of the past |
| NetSteps.ArrivedOk | phantora/netsim/src/simulator.rs:912-959 | adding flows keeps the invariant, buffered or emitted |
| NetSteps.LateEmissionDiffers | phantora/netsim/src/simulator.rs:516-517 | a flow emitted after its start without a rollback makes the state differ from the in-order simulation, as long as the links provide for the flows under way |
| NetSteps.KeptTooLongDiffers | phantora/netsim/src/simulator.rs:811-821 | so does a flow left retired although it completes after the clock |
| NetArrivals.OnTime | phantora/netsim/src/simulator.rs:504-516 | arrivals in time keep all histories in agreement |
| NetArrivals.TooLate | phantora/netsim/src/simulator.rs:516-517 | arrivals earlier within the clock's own microsecond break the agreement, as long as the links provide for the flows under way |
| NetArrivals.RolledBack | phantora/netsim/src/simulator.rs:517-526 | arrivals with a rollback that drops nothing keep it |
| NetArrivals.LateEqualsEarly | phantora/netsim/src/simulator.rs:501-526 | two simulators with the same flows at the same clock, however the flows were delivered, have the same account of the network |
| NetBatches.StepReports | phantora/netsim/src/simulator.rs:475-484 | a step reports nothing if nothing completed, and otherwise exactly the next batch of the in-order simulation |
| NetBatches.NextBatchUnique | phantora/netsim/src/simulator.rs:377-486 | the next batch and its time are determined by the flows and what was reported before |
| NetBatches.SplittingIsInvisible | phantora/netsim/src/simulator.rs:377-486 | however two runs of one network are stopped and resumed, they report the same batches at the same times, as far as both go; and what one has not reported yet is not before its clock |
| NetBatches.BatchesAgree | phantora/netsim/src/simulator.rs:377-486 | sequences of batches of the in-order simulation from one moment on agree, batch by batch |
| NetSupport.RollbackVerdict | phantora/netsim/src/simulator.rs:516-526 | after a rollback the state agrees with the in-order simulation if and only if no flow that stays retired completes after the new clock |
| NetSupport.ArrivalVerdict | phantora/netsim/src/simulator.rs:516-517 | without a rollback it agrees if and only if no flow was late, as long as the links provide for the flows under way |
| NetSupport.OrderAfterCompletions | phantora/netsim/src/simulator.rs:994-1006 | completions keep the retired list in order of nanosecond if and only if it was, and no flow retired before completes later |
| NetSim.Simulator.EmitFlow | phantora/netsim/src/simulator.rs:898-910 | the flow runs, and the link index is again the inverse of the running flows' routes |
| NetSim.Simulator.PushFlow | phantora/netsim/src/simulator.rs:949-959 | a flow that starts later is buffered, any other runs |
| NetSim.Simulator.EmitReadyFlows | phantora/netsim/src/simulator.rs:961-971 | exactly the buffered flows that start now begin to run; none is overdue, so the assertion holds |
| NetSim.Simulator.PeekBuffer | phantora/netsim/src/simulator.rs:962-962 | the buffered flow that starts first |
| NetSim.Simulator.AdvanceOne | phantora/netsim/src/simulator.rs:981-1007 | one flow sends for the step and records its speed; it counts as completed exactly when it has sent everything |
| NetSim.Simulator.CompleteFlows | phantora/netsim/src/simulator.rs:973-1023 | exactly the flows that have sent everything leave the running flows and the link index and join the retired, in their order, with their durations reported |
| NetSim.Simulator.Proceed | phantora/netsim/src/simulator.rs:308-317 | a step of a fitting length keeps invariant and agreement and reports the in-order batch |
| NetSim.Simulator.LinkShare | phantora/netsim/src/simulator.rs:258-279 | the fold over a link's flows computes what the link can still give to each that has not converged |
| NetSim.Simulator.CalcDeltaPerFlow | phantora/netsim/src/simulator.rs:257-286 | moreover the bounds of exactly the flows on the link come down to their speed plus that share |
| NetSim.Simulator.FindIncrement | phantora/netsim/src/simulator.rs:338-356 | whatever the order of the links, the result is the least increment; there is always a link, so the panic is unreachable |
| NetSim.Simulator.RaiseSpeeds | phantora/netsim/src/simulator.rs:358-373 | all flows that have not converged rise together, and the count of converged ones stays right |
| NetSim.Simulator.Converge | phantora/netsim/src/simulator.rs:319-375 | the loop ends, and every running flow's speed is its max-min fair share |
| NetSim.Simulator.FirstCompleteTime | phantora/netsim/src/simulator.rs:402-408 | the earliest completion time of the running flows |
| NetSim.Simulator.NextStep | phantora/netsim/src/simulator.rs:410-421 | the step passes no completion, no start and not `until`, and reaches one of them; the subtraction does not underflow |
| NetSim.Simulator.StepOnce | phantora/netsim/src/simulator.rs:393-476 | one round makes progress: a completion, a start, or `until` |
| NetSim.Simulator.MaxMinFairness | phantora/netsim/src/simulator.rs:377-486 | if the links provide for the flows under way together, the assertion at 1078 holds and the loop ends; it keeps invariant and agreement and reports exactly the next batch of the in-order simulation, or nothing and then `until` is reached or no flow is left; the retired flows stay as they are, and their order by nanosecond is kept exactly on the condition above |
| NetSim.Simulator.ReviveRetired | phantora/netsim/src/simulator.rs:800-822 | the retired flows split at the first, from the end, that completed early enough |
| NetSim.Simulator.RetainLinks | phantora/netsim/src/simulator.rs:880-886 | dropping flows from the link index, and then empty entries, leaves the inverse of the remaining routes |
| NetSim.Simulator.UndoRunning | phantora/netsim/src/simulator.rs:826-878 | every running flow is cut back, and the ones that have not started become embryos |
| NetSim.Simulator.RollbackTo | phantora/netsim/src/simulator.rs:799-896 | the whole state after a rollback: exactly the flows that completed in a later microsecond are revived, all are cut back, started ones run and the others are buffered again |
| NetSim.Simulator.AddFlow | phantora/netsim/src/simulator.rs:912-946 | a new flow runs if its start has come and is buffered otherwise; the invariant stays |
| NetSim.Simulator.FlowArrive | phantora/netsim/src/simulator.rs:504-526 | the invariant stays, the clock goes back only for a start in an earlier microsecond, and the state agrees with the in-order simulation of all flows if and only if the shortcuts drop nothing (where nothing is rolled back, as long as the links provide for the flows under way) |
| NetReplay.LateVersusEarly | phantora/netsim/src/simulator.rs:501-526 | a simulator that hears of flows late and one that has known them report next the same completions at the same time, or neither reports any before the end of time |
| NetReplay.RunInSteps | phantora/netsim/src/simulator.rs:377-486 | calls with any limits in any order report exactly the batches of the in-order simulation up to the clock, each once, in order |
| NetReplay.LateVersusEarlyOnwards | phantora/netsim/src/simulator.rs:501-526 | the two go on alike for good, each stopped and resumed in its own way |
| NetOrder.ArrivalKeepsOrder | phantora/netsim/src/simulator.rs:800-822 | an arrival or rollback keeps the order by nanosecond |
| NetOrder.NoneAhead | phantora/netsim/src/simulator.rs:786-822 | in agreement with the in-order simulation no retired flow completes after the clock, so the order by nanosecond is kept |
| NetOrder.UnorderedRun | phantora/netsim/src/simulator.rs:786-822 | a run from the empty simulator, with one rollback, that leaves the list out of order by nanosecond |
| EventSteps.AddedOk | phantora/phantora/src/event_queue.rs:382-436 | adding an event keeps the queue's invariant |
| EventSteps.AddedDependencyOk | phantora/phantora/src/event_queue.rs:449-452 | so does a further dependency of a pending event |
| EventSteps.BarrierReleasedOk | phantora/phantora/src/event_queue.rs:455-474 | so does releasing a barrier |
| EventSteps.EndRecordedOk | phantora/phantora/src/event_queue.rs:266-281 | recording an end and telling the dependents keeps it, up to those that have become ready |
| EventSteps.AllReleasedOk | phantora/phantora/src/event_queue.rs:282-291 | queueing these, in any order, restores it |
| EventSteps.StartPoppedOk | phantora/phantora/src/event_queue.rs:344-372 | starting an event keeps it; the event has an action, so the unwrap at 345 does not fail |
| EventSteps.ReportedOk | phantora/phantora/src/event_queue.rs:303-314 | reports of the network keep it |
| EventQueue.EventQueue.AddActionOrPoint | phantora/phantora/src/event_queue.rs:382-436 | a fresh id; the event arrives at the latest of the caller's time and the ends of its ended dependencies, waits for exactly the others, and is listed under all |
| EventQueue.EventQueue.CollectDependencies | phantora/phantora/src/event_queue.rs:395-411 | the loop over the dependencies: what is outstanding, the latest end, and the reverse index |
| EventQueue.EventQueue.AddDependency | phantora/phantora/src/event_queue.rs:438-453 | both branches: a pending event waits for one more, or, if that one has ended, only the reverse index changes |
| EventQueue.EventQueue.RemoveNoneDependency | phantora/phantora/src/event_queue.rs:455-474 | the barrier is released, and the event is queued if it waits for nothing else; nothing happens to an event that is not pending |
| EventQueue.EventQueue.NotifyDependents | phantora/phantora/src/event_queue.rs:269-281 | exactly the pending events that waited for the ended one learn of its end; those left with nothing to wait for are listed once each |
| EventQueue.EventQueue.EndEvent | phantora/phantora/src/event_queue.rs:265-292 | the end is recorded, and all events it was the last to keep waiting are queued; the unwrap at 283 does not fail |
| EventQueue.EventQueue.TryProceedNetsim | phantora/phantora/src/event_queue.rs:294-317 | every reported end is queued, at the microsecond of the network's clock |
| EventQueue.EventQueue.PeekNextTime | phantora/phantora/src/event_queue.rs:242-253 | a time that some entry of the queue has and none undercuts; none only if the network has nothing to report either |
| EventQueue.EventQueue.Execute | phantora/phantora/src/event_queue.rs:319-376 | the entry that takes its effect has a time no greater than any other entry's, and among those of that time the least push count; nothing is done only if the queue is empty and the network has nothing to report; the unwraps at 334 and 345 do not fail |
| EventOrder.StepLeavesLater | phantora/phantora/src/event_queue.rs:319-376 | after a step nothing in the queue is due before the time of the step, neither what was there nor what the step has queued |
| EventOrder.TimesNeverDecrease | phantora/phantora/src/event_queue.rs:319-376 | the times of successive steps that do not ask the network, with nothing added in between, never decrease |
| EventQueue.EventQueue.ChangeStartTimeNotless | phantora/phantora/src/event_queue.rs:502-559 | the recursion ends; either starts only rise, every other duration stays, no emitted flow is touched and no dependency is violated that was not before, or a chain of dependencies leads to a flow at which the network's assertion or the one at 533 fails |
| EventQueue.EventQueue.AddEndTimeTo | phantora/phantora/src/event_queue.rs:476-500 | both assertions hold if and only if no chain of dependencies carries the new end to a flow that has been emitted, or to one that is held back and has started earlier; then, with a later end of an ended event, every other event is again exactly as the invariant has it; in the other branches, the whole new state; otherwise the assertion that fails |
| EventSchedule.NoLostWakeup | phantora/phantora/src/event_queue.rs:265-292 | a pending event waits for something, and everything it waits for has not ended and has it listed |
| EventSchedule.OnePlace | phantora/phantora/src/event_queue.rs:319-376 | every id is in exactly one of pending, queued, started, ended |
| EventSchedule.StartsExactly | phantora/phantora/src/event_queue.rs:265-292 | an event that is ready starts exactly at the latest of its arrival and the ends of all its dependencies, which have all ended, and ends as its action says |
| EventSchedule.NoChainIsLonger | phantora/phantora/src/event_queue.rs:382-436 | no chain of dependencies is over later than the event it leads to |
| EventSchedule.SomeChainIsCritical | phantora/phantora/src/event_queue.rs:382-436 | some chain is over exactly then: ends are lengths of critical paths |
| EventSchedule.EndsAreDetermined | phantora/phantora/src/event_queue.rs:319-474 | for points and computations the schedule depends on the graph only, not on how calls and execution were interleaved |
| EventSchedule.StuckMeansHeldOrCircle | phantora/phantora/src/event_queue.rs:319-326 | a dry queue with nothing running and events pending has a held barrier or a circle of pending events |
| EventSchedule.DryIsFinished | phantora/phantora/src/event_queue.rs:319-326 | without held barriers and with dependencies that go down in layers, a dry queue with nothing running has ended every event |
| EventSchedule.LateDependencyCounts | phantora/phantora/src/event_queue.rs:445-447 | a dependency added after its end leaves the schedule exact if and only if it ended no later than the event is due anyway |
| EventPropagation.EndMovedOk | phantora/phantora/src/event_queue.rs:476-500 | setting a later end and telling all dependents leaves every other event exact, and the invariant whole if the event is a communication |
| EventPropagation.MovedIsRecomputed | phantora/phantora/src/event_queue.rs:476-559 | any state of the same events with that end, and all others exact, has the same starts and ends: incremental equals from scratch |
| EventPropagation.EndedRaised | phantora/phantora/src/event_queue.rs:536-551 | moving an ended event as a whole and telling its dependents has the effect promised for one change of a start |
| EventPropagation.SpreadNext | phantora/phantora/src/event_queue.rs:545-549 | telling one more dependent settles that one for good |
| EventPropagation.SetBackMovesNothing | phantora/phantora/src/event_queue.rs:476-500 | an end set back moves no other event |
| EventPropagation.MovedIsNotBlocked | phantora/phantora/src/event_queue.rs:502-559 | a shift that was carried out had no flow in its way, emitted or held back |
| EventPropagation.StoppedIsBlocked | phantora/phantora/src/event_queue.rs:502-559 | a shift that was stopped had one, of the kind it was stopped at |
| EventPropagation.LateStaysInOrder | phantora/phantora/src/event_queue.rs:438-453 | a dependency that comes too late for a pending event had ended before anything that ignores it ends |
| EventPropagation.EndsStayInOrder | phantora/phantora/src/event_queue.rs:265-268 | and recording further ends keeps that order |
| EventPropagation.ReportedIsInTheWay | phantora/netsim/src/simulator.rs:791-796 | a communication whose end has been reported stops every shift that reaches it, whatever time it is told |
| EventPropagation.RespectsTwice | phantora/netsim/src/simulator.rs:791-796 | changes that leave emitted flows alone do so together: what is emitted stays so, and is told nothing new |
| EventQueue.PutOffTooLate | phantora/phantora/src/event_queue.rs:502-533 | runs of a point, a flow that waits for it and starts, and the point's end put off: with the point at 0 the flow has been emitted and the network's assertion fails, with any later point it is held back and the one at 533 fails |
| EventGraph.BehindIsPending | phantora/phantora/src/event_queue.rs:438-453 | everything behind a held barrier, at any distance, is pending |
| EventGraph.GraphStepped | phantora/phantora/src/event_queue.rs:319-376 | running the queue changes neither dependencies nor barriers nor what was asked for |
| StreamOrder.StreamKeepsOrder | phantora/phantora/src/simulator.rs:333-356 | along a stream every event is over before a later one starts |
| StreamOrder.AppendedInOrder | phantora/phantora/src/simulator.rs:333-404 | a new event comes after all buffered kernels and depends on the last of them |
| StreamOrder.ReachedAtLatest | phantora/phantora/src/simulator.rs:629-656 | a point is reached at the latest of its arrival and the ends of all it waits for |
| KernelSequences.SplitSequences | phantora/phantora/src/simulator.rs:301-330 | the sequences are the calls in order; each is back to back, and each is cut where the next call comes after its end |
| KernelSequences.OnlyOneCut | phantora/phantora/src/simulator.rs:311-327 | there is only one such way to cut |
| KernelSequences.OneKernelMore | phantora/phantora/src/simulator.rs:313-325 | one more kernel joins the last sequence if it is launched no later than that one is over, and starts a sequence of its own otherwise |
| KernelSequences.CutOfTwo | phantora/phantora/src/simulator.rs:313-325 | two kernels are one sequence if and only if the second is launched at most the first one's duration after it |
| Collectives.CallJoinsItsOwn | phantora/phantora/src/simulator.rs:1493-1501 | a rank's call number k joins or opens collective number k |
| Collectives.JoinedAreNested | phantora/phantora/src/simulator.rs:1438-1447 | joined sets shrink along the deque, and joined and awaited ranks partition all ranks |
| Collectives.OpensOne | phantora/phantora/src/simulator.rs:1486-1500 | a call that finds no open collective opens the next one |
| Collectives.StaysOpen | phantora/phantora/src/simulator.rs:1501-1503 | a call that joins and leaves others awaited keeps the deque in order |
| Collectives.OnlyTheFrontCompletes | phantora/phantora/src/simulator.rs:1525-1526 | a collective that is complete is at index 0 |
| Collectives.OpenedIs | phantora/phantora/src/simulator.rs:1449-1484 | the events of the first rank: the common start waits for its stream behind a barrier, the common end for the common start, and its stream for the common end |
| Collectives.FrontLeaves | phantora/phantora/src/simulator.rs:1525-1526 | and the deque is in order without it |
| Collectives.JoinedIs | phantora/phantora/src/simulator.rs:1505-1523 | the common start waits for the joining rank's stream, and its stream waits for the common end |
| Collectives.CompletedIs | phantora/phantora/src/simulator.rs:1525-1542 | every flow lies between common start and common end, and only this barrier is released |
| PointToPoint.NeverBothWait | phantora/phantora/src/simulator.rs:1316-1349 | sends and receives of one key never wait at the same time |
| PointToPoint.WaitsAtTheBack | phantora/phantora/src/simulator.rs:1351-1362 | an endpoint without a peer goes to the back of its queue |
| PointToPoint.PairsWithTheFirst | phantora/phantora/src/simulator.rs:1329-1349 | with one, it is paired so that the i-th send has the i-th receive |
| Rendezvous.HeldExactly | phantora/phantora/src/simulator.rs:1207-1541 | between calls the held barriers are exactly those of waiting collectives and unmatched endpoints |
| Rendezvous.CalledOk | phantora/phantora/src/simulator.rs:1425-1548 | a collective call keeps the invariant of all three waiting maps, the streams and the barriers |
| Rendezvous.CallIsItsPart | phantora/phantora/src/simulator.rs:1493-1523 | a rank's call number k becomes its part in collective number k, of which it had no part before: the last two events of its stream, at the time of the call, which is also when the collective is opened if the rank is the first, and closed if it is the last |
| Rendezvous.FlowsRunInBetween | phantora/phantora/src/simulator.rs:1449-1542 | in every completed collective every rank has two neighbouring events on its stream, and there are as many flows as asked for; no flow starts before every rank's stream has come to the collective, and no rank's stream goes on before all flows are over |
| Rendezvous.NobodyGoesAhead | phantora/phantora/src/simulator.rs:1486-1541 | while a collective waits for a rank, the streams of all that have joined it stand still there |
| Rendezvous.ProcessedOk | phantora/phantora/src/simulator.rs:1316-1423 | so does an endpoint, matched or enqueued |
| Rendezvous.FlowsStayInTheirGroups | phantora/phantora/src/simulator.rs:1206-1266 | for every group so far and every pair one of its endpoints is in: the flow does not start before the group's start on its stream, on either side, and the group's end there is no earlier than the flow's |
| Rendezvous.LoneRankIsNeverReleased | phantora/phantora/src/simulator.rs:1486-1500 | in a communicator of one rank every call opens another collective, and all their barriers stay held |
| GpuSimulator.Simulator.ClearComputeBuffer | phantora/phantora/src/simulator.rs:358-404 | the buffered kernels are cut into sequences, or into single ones, and become a chain of events on top of the stream, each from the time of its call on; a single kernel takes as long as it was said to |
| CallGraphs.FlushedExactly | phantora/phantora/src/simulator.rs:381-402 | buffered kernels become events in a row, each waiting for just the one before on the stream |
| GpuSimulator.Simulator.AddSequence | phantora/phantora/src/simulator.rs:381-402 | the same for one sequence, whatever durations the estimator gives |
| GpuSimulator.Simulator.AddEvent | phantora/phantora/src/simulator.rs:333-356 | then the new event, after the last one |
| GpuSimulator.Simulator.Launch | phantora/phantora/src/simulator.rs:1582-1592 | a kernel is buffered; nothing else changes |
| GpuSimulator.Simulator.Enqueue | phantora/phantora/src/simulator.rs:603-627 | an operation that is one event on a stream |
| GpuSimulator.Simulator.Link | phantora/phantora/src/event_queue.rs:438-453 | a dependency added behind a held barrier: the event is pending and the dependency has not ended |
| GpuSimulator.Simulator.Step | phantora/phantora/src/simulator.rs:408-418 | one step of the queue ends at most one event, once, and answers whoever waits for it |
| GpuSimulator.Simulator.ExecuteToEvent | phantora/phantora/src/simulator.rs:406-421 | the loop ends; it is true exactly if the event has ended, and then whoever waited for it has been told when |
| GpuSimulator.Simulator.StreamSynchronize | phantora/phantora/src/simulator.rs:644-656 | a point on the stream that waits for exactly the event before it, if there is one; it is answered in this call if it is reached, and goes on waiting otherwise |
| GpuSimulator.Simulator.DeviceSynchronize | phantora/phantora/src/simulator.rs:629-642 | the same for exactly the last events of all streams of that host and device, whose buffered kernels have become events before |
| GpuSimulator.AnsweredAtLatest | phantora/phantora/src/simulator.rs:406-421 | every answer so far, in whichever call it was given, is the latest of the caller's time and the ends of the last events of all streams the call covers, all of which are over, and goes to the caller |
| GpuSimulator.WaitsForSomething | phantora/phantora/src/simulator.rs:406-421 | whoever still waits when the queue is dry covers an event that has not ended |
| GpuSimulator.Simulator.NcclCall | phantora/phantora/src/simulator.rs:1425-1548 | the whole desk after a collective call, and the invariant, which holds the records of all events against what the event queue was asked for |
| CallGraphs.OpenedExactly | phantora/phantora/src/simulator.rs:1449-1484 | every dependency that the first rank's call adds, and no other: held barrier, kernels, start, common start, common end, end |
| CallGraphs.JoinedExactly | phantora/phantora/src/simulator.rs:1501-1523 | the same for a further rank's call: its start and end, and its start as one more dependency of the common start |
| CallGraphs.CompletedExactly | phantora/phantora/src/simulator.rs:1525-1542 | the same for the last rank's: flows that wait for the common start only, for all of which the common end now waits |
| ExactCalls.CalledExact | phantora/phantora/src/simulator.rs:1425-1548 | a collective call leaves every event of all collectives, transfers and groups waiting for exactly what it should |
| ExactTimes.FlowsStartExactly | phantora/phantora/src/simulator.rs:1449-1542 | in every state, a flow of a completed collective starts exactly at the latest of the times of all ranks' calls, the opening and the completing one included, and the ends of what stood last on their streams, which are all over |
| ExactTimes.RanksGoOnExactly | phantora/phantora/src/simulator.rs:1463-1542 | and the end of every rank's part is at exactly the end of the last flow, or, without flows, when all ranks had come |
| Requests.CompletedFlowsCommunicate | phantora/phantora/src/simulator.rs:1525-1542 | in every later state a completed collective has as many flows as were asked for, all of them communications that arrive at the time of the completing call, and its ranks' events are points |
| GpuSimulator.Simulator.Open | phantora/phantora/src/simulator.rs:1439-1484 | the events of the first rank's call |
| GpuSimulator.Simulator.Join | phantora/phantora/src/simulator.rs:1501-1523 | the events of a further rank's call; the common start is still pending |
| GpuSimulator.Simulator.Complete | phantora/phantora/src/simulator.rs:1525-1542 | the flows, which are communications from the time of the call on, and the release of the barrier |
| GpuSimulator.Simulator.PopMatchingPeer | phantora/phantora/src/simulator.rs:1329-1349 | the first endpoint waiting on the other side, and no empty queue left behind |
| GpuSimulator.Simulator.ScheduleFlow | phantora/phantora/src/simulator.rs:1382-1423 | the flow is a communication from the later of the two calls on and waits for both starts, both ends wait for it, and both barriers are released |
| CallGraphs.TransferExactly | phantora/phantora/src/simulator.rs:1382-1423 | the dependencies of a pair's flow and of both ends, and that nothing else changes |
| ExactTransfers.ProcessedExact | phantora/phantora/src/simulator.rs:1316-1423 | an endpoint, matched or enqueued, leaves every event waiting for exactly what it should |
| ExactTimes.TransferStartsExactly | phantora/phantora/src/simulator.rs:1382-1423 | in every state, the flow of a pair, single or in groups, starts exactly at the latest of both sides' calls and the ends of what stood before them on both streams, which are over |
| ExactTimes.PairStands | phantora/phantora/src/simulator.rs:1107-1267 | both endpoints of every pair stand on a stream, alone or in a group, so that this covers all pairs |
| ExactTimes.SidesGoOnExactly | phantora/phantora/src/simulator.rs:1382-1423 | and both sides are over exactly when the flow is |
| Requests.PairedFlowsCommunicate | phantora/phantora/src/simulator.rs:1382-1423 | in every later state the flow of a pair is a communication that arrives at the later of the two calls |
| GpuSimulator.Simulator.MatchOrEnqueue | phantora/phantora/src/simulator.rs:1316-1327 | the whole state after an endpoint, matched or not |
| GpuSimulator.Simulator.UngroupedP2P | phantora/phantora/src/simulator.rs:1107-1133 | a single send or receive keeps the invariant and takes its turn among the sends, or receives, from the sender to the receiver in its communicator |
| CallGraphs.EndpointExactly | phantora/phantora/src/simulator.rs:1107-1133 | every dependency such a call adds before it is matched, and no other |
| ExactSteps.EnteredExact | phantora/phantora/src/simulator.rs:1107-1133 | and leaves every event waiting for exactly what it should, the endpoint's own ones included |
| PointToPoint.KeysAgree | phantora/phantora/src/simulator.rs:1269-1274 | a send and a receive have the same key if and only if they are of one communicator and each names the other's rank as its peer |
| Transfers.SendAndReceive | phantora/phantora/src/simulator.rs:1107-1133 | from empty queues, a send of a to b and a receive of b from a, in either order, leave nobody waiting and make exactly one pair of the two, each on its stream and at its time; no other transfer is touched |
| GpuSimulator.Simulator.ByStream | phantora/phantora/src/simulator.rs:1136-1176 | the calls of a group by stream, in their order |
| GpuSimulator.CallsOnBoth | phantora/phantora/src/simulator.rs:1136-1176 | the calls on a stream of one list after another are those of the first and then those of the second |
| GpuSimulator.ChosenBoth | phantora/phantora/src/simulator.rs:1251-1263 | and so are the endpoints of one side of a transfer |
| GpuSimulator.Simulator.GroupOnStream | phantora/phantora/src/simulator.rs:1206-1266 | the stream gets its buffered kernels, the group's start and the group's end, and no other stream gets anything; all endpoints lie between the two and are processed in the order of the calls |
| CallGraphs.GroupExactly | phantora/phantora/src/simulator.rs:1206-1248 | every dependency that a group adds before its endpoints are processed, and no other: held barrier, kernels, start, the events of the endpoints, end |
| ExactGroups.GroupEnters | phantora/phantora/src/simulator.rs:1206-1248 | with these events all others go on waiting for exactly what they should, and each of the group's own waits for what it should, too |
| ExactTimes.GroupGoesOnExactly | phantora/phantora/src/simulator.rs:1206-1266 | a group's end is at exactly the latest of its start and the ends of all its endpoints |
| GpuSimulator.Simulator.GroupedP2P | phantora/phantora/src/simulator.rs:1135-1267 | one group per stream that the calls mention, in any order, and nothing else on any stream; each call has its endpoint entered once for its side, communicator, sender and receiver, on each stream in the order of the calls and at their time, and nothing else is entered |
| LockStep.CallInStep | phantora/phantora/src/simulator.rs:1425-1548 | a rank's next call keeps dependencies acyclic and all ranks at the same collectives |
| LockStep.NobodyWaits | phantora/phantora/src/simulator.rs:1486-1547 | when all ranks have issued everything, no collective waits |
| LockStep.NoDeadlock | phantora/phantora/src/simulator.rs:1425-1548 | then a dry queue with no flow running has ended every event |
| LockStep.ProgressIs | phantora/phantora/src/simulator.rs:1425-1548 | how far a rank gets is the number of its calls among the moves, up to the end of its operations |
| LockStep.AllCompleted | phantora/phantora/src/simulator.rs:1425-1548 | when all ranks have issued everything, every operation has been completed as often as it occurs |
| LockStep.Run | phantora/phantora/src/simulator.rs:1425-1548 | any moves from an empty simulator on lead to exactly the desk and the progress they are to lead to; if every rank, of two or more, has issued all operations, all collectives are complete, and once the network has ended every flow, every event has ended |
| NcclIds.IncrNcclId | phantora/phantora/src/simulator.rs:240-256 | little-endian plus one, modulo 256 to the 128; the old value is returned |
| NcclIds.SameValue | phantora/phantora/src/simulator.rs:240-256 | different values are different identifiers |
| CommSplit.Comms.NextId | phantora/phantora/src/simulator.rs:852-856 | the identifier is of no communicator so far, up to 256 to the 128 of them |
| CommSplit.Comms.CommSplit | phantora/phantora/src/simulator.rs:921-1061 | all branches: no such communicator, first call, further calls, last call; while it waits, the caller's host, color, key and the device of the first member on that host are recorded under its rank |
| CommSplit.SplitByAll | phantora/phantora/src/simulator.rs:921-1061 | all ranks of a communicator call, in any order: the last call alone answers, and ranks that gave the same color, other than -1, share one new communicator in the order of the keys they gave, under one identifier no other color has |
| CommSplit.Comms.InitRank | phantora/phantora/src/simulator.rs:858-918 | first call, further calls, last call: then the communicator is recorded with every rank in its place, and all are told |
| CommSplit.InitByAll | phantora/phantora/src/simulator.rs:858-918 | all ranks of a new communicator call, in any order: nothing is recorded before the last call, and then exactly what each rank said, rank by rank |
| CommSplit.Comms.MakeGroups | phantora/phantora/src/simulator.rs:993-1039 | every color gets one new communicator under an identifier of its own, and old ones stay |
| CommSplit.Comms.Sorted | phantora/phantora/src/simulator.rs:1002-1002 | exactly the ranks of a color, each once, by key |
| CommSplit.SplitPartitions | phantora/phantora/src/simulator.rs:993-1039 | the new communicators partition exactly the ranks with a color, and what a rank is told agrees with what is recorded |
| CommSplit.NewRanksFollowKeys | phantora/phantora/src/simulator.rs:1002-1031 | new ranks are 0 to n-1, each once, and follow the keys |
| Topology.ReverseSwapsEnds | phantora/netsim/src/cluster.rs:361-363 | reversing a link swaps its ends, and reversing twice is the link |
| Topology.ReverseFlipsLowestBit | phantora/netsim/src/cluster.rs:361-363 | the reverse link is the exclusive or with 1, whatever the width of the index |
| Topology.LinkedPaired | phantora/netsim/src/cluster.rs:168-184 | adding a link keeps all links in pairs, listed at both ends |
| Topology.HungUnder | phantora/netsim/src/architecture.rs:205-224 | a node with one link up to a node of a tree makes a larger tree |
| Topology.WalksAreNotShorter | phantora/netsim/src/cluster.rs:409-422 | in a tree every walk between nodes whose ancestors differ goes up past the layer where they differ, and down again |
| Topology.NoRouteIsNoMeeting | phantora/netsim/src/cluster.rs:409-431 | where links up are one layer long the depth never cuts a climb short: there is no route by first links if and only if the climbs never meet |
| Cluster.Cluster.AddNode | phantora/netsim/src/cluster.rs:153-165 | a new node under a new name |
| Cluster.Cluster.AddLinkByName | phantora/netsim/src/cluster.rs:168-184 | a pair of links, down and up, listed at their ends |
| Cluster.Cluster.ResolveRoute | phantora/netsim/src/cluster.rs:378-436 | in any cluster, with k the first number of first links up after which the climbs from source and destination meet: those k links and back down the other k, or none if there is no such k within the depth; in a tree no walk is shorter; between two machines on one host up the access link and back |
| Cluster.Cluster.ResolveRouteMultipath | phantora/netsim/src/cluster.rs:218-330 | in any cluster and for every choice of the load balancer the route leads from source to destination, up to the first level where both climbs meet and then only down, by no more links, and by as many where links up are one layer long; it fails only if some climb meets nothing; without load balancing it is the route by first links |
| Cluster.Cluster.ClimbToMeet | phantora/netsim/src/cluster.rs:248-289 | the first pass stops at the first such level and has listed all levels on the way |
| Cluster.Cluster.Descend | phantora/netsim/src/cluster.rs:298-313 | the second pass leads down to the destination; its panic is unreachable |
| Fabrics.BuildTwoLayerMultipath | phantora/netsim/src/architecture.rs:229-267 | every leaf has a link to each spine, every host one to its rack's leaf, links lead from layer to layer, and each has the bandwidth given for its layer |
| Fabrics.BuildArbitrary | phantora/netsim/src/architecture.rs:199-227 | a tree of depth three with all racks under the root and every host under its rack, with their bandwidths |
| Fabrics.BuildFatTreeFake | phantora/netsim/src/architecture.rs:175-197 | the same with the racks of a fat tree, and the rack bandwidth that the oversubscription leaves |
| Fabrics.Oversubscribed | phantora/netsim/src/architecture.rs:189-196 | the bandwidth of the hosts of a rack divided by the ratio, in whole bits per second |
| Fabrics.TwoLayerRoutes | phantora/netsim/src/cluster.rs:218-330 | on two layers every route has two links within a rack and four between racks |
| Fabrics.TwoLayerRoutesExist | phantora/netsim/src/cluster.rs:259-295 | and there is one, unless the hosts are in different racks and there is no spine |
| Fabrics.TwoLayerFirstLinkRoutes | phantora/netsim/src/cluster.rs:378-436 | on two layers the route by first links exists exactly if the hosts share a rack or there is a spine; it has no link to the host itself, two within a rack, and four between racks, over the first spine |
| MoeLayout.RoundUp | tests/phantora_utils.py:276-277 | the next multiple |
| MoeLayout.SegmentsFit | tests/phantora_utils.py:295-299 | all segments fit into the padded length |
| MoeLayout.AnalyticPermute | tests/phantora_utils.py:279-318 | the loops fill in exactly the layout |
| MoeLayout.WriteRank | tests/phantora_utils.py:307-315 | one rank's rows are written in full: the minimum at 309 never truncates |
| MoeLayout.LayoutAt | tests/phantora_utils.py:304-315 | local expert e's rows stand in segment e, by source rank and then in their order |
| MoeLayout.ElsewherePadding | tests/phantora_utils.py:303-303 | everything else is padding |
| MoeLayout.SegmentsAreDisjoint | tests/phantora_utils.py:304-315 | no row lies in another expert's segment |
| MoeLayout.EachAtMostOnce | tests/phantora_utils.py:303-316 | an entry that is not padding is an input row, and no row occurs twice |
| MoeLayout.EachIsThere | tests/phantora_utils.py:303-316 | every input row occurs |

## Left out

- Rounding of floating-point speeds and byte counts, with the tolerances at `simulator.rs:366`, 855 and 865: amounts are exact integers, and the share of a link is the integer quotient that conversion to whole bits per second yields.
- 64-bit overflow of clocks and counters, and the conversion of a microsecond into nanoseconds (`event_queue.rs:161-162`).
- Flow records behind shared references are records in a map, and lists of flows are lists of keys; priority queues are maps from which the least element is taken, ties as the push counter says or in any order.
- The list of loopback flows (`simulator.rs:783`): it is kept in step with the running flows and never read.
- NetSim.Simulator.AddFlow: takes the route as given instead of resolving it; the host mapping is not modelled.
- NetSim.Simulator.MaxMinFairness: timers are not modelled, nor the application layer (`run_with_application`, replayed traces, `Sequence`, `AppGroup`).
- NetSim.Simulator.NextStep: the same; alerts of timers do not enter the minimum.
- NetSim.Simulator.StepOnce: the same; no round ends with the notification of a timer.
- Fairness per pair of machines or per tenant: the flow sets for it are never built.
- The branch of `push_event` that reacts to a rollback of the network (`event_queue.rs:180-230`), and the network inside the event queue: the oracle stands for it.
- EventQueue.EventQueue.TryProceedNetsim: what the network reports is any list of ends that fit, each of a running flow, none before its start and all in the microsecond of its clock; the clock is an oracle too.
- EventQueue.EventQueue.PushReady: a flow due before the microsecond of the network's clock takes the branch that reacts to a rollback; of it only remains that the clock may then show any time.
- EventQueue.EventQueue.ChangeStartTimeNotless: which flows the network holds back (`simulator.rs:791-796`) is told by its clock and the starts of the events, which the network moves alike; its buffer is not a second time part of the event queue.
- EventQueue.EventQueue.AddEndTimeTo: asks that dependencies which came too late were given to pending events only (`LateInOrder`), so that the order of ends bounds the recursion; and with such dependencies it says what was told and moved, but not that the schedule is tight, because they are listed in the reverse index although the schedule never counted them. `GpuSimulator.Simulator` never has any.
- GpuSimulator.Simulator.ClearComputeBuffer: the durations of a sequence are any the estimator may give; its cache is not modelled.
- GpuSimulator.Simulator.AddGroup: only the end of `nccl_comm_init_rank`, when the last rank has joined.
- GpuSimulator.Simulator.NcclCall: the flows of a collective are counted but not sized; the ring algorithm is not modelled.
- GpuSimulator.Simulator.DeviceSynchronize: the graph after the flushes is described by the event's dependencies and the invariant, not as one expression, because the streams are visited in the order of a hash map.
- Answers to polls (`cuda_event_query`, `cuda_stream_query`, `cuda_event_synchronize`), `execute_to_time`, the times kept per host, and exits of hosts.
- Liveness of arbitrary point-to-point programs: user programs can deadlock. Deadlock freedom is for consistently ordered collectives.
- CommSplit.Comms.InitRank: for identifiers that have been handed out, and ranks that all give the same size.
- Node and link names are values (`Host(3)` for `host_3`), so that the formatting of numbers is not part of this model; bandwidths of links play no role in routing.
- The load balancer's hash is any number; its implementations are not modelled.
- MoeLayout.AnalyticPermute: the indices only; gathering the rows is not modelled.
- Sockets, serialization, command-line arguments, timelines, the C stubs, the estimators and GPU memory.
