# Verified model of the simulation core

This project models, in Dafny, the state machines at the centre of a discrete-event
simulator for microservices, and proves what they keep over every input and every run:

- the synchronous fan-out join: a request that completes with synchronous downstream
  calls waits until each logical call is resolved, while attempts, failures, timeouts and
  retries of the calls race (`SyncJoin*.dfy`);
- the event kernel: the heap of events, scheduling under limits, and the loop that takes
  events and moves the clock (`EventQueue.dfy`, `Kernel.dfy`, `Engine.dfy`);
- the broker shard: a bounded FIFO with drop policies, redelivery, retention and a
  contiguous commit frontier (`Broker.dfy`, `BrokerRuns.dfy`);
- the resource manager: placement of instances on hosts, scaling, draining, resizing and
  routing (`Cluster.dfy`, `ClusterOps.dfy`, `ClusterPolicies.dfy`, `Routing.dfy`,
  `Manager.dfy`, `ManagerRuns.dfy`, `ManagerMixed.dfy`), and the CPU and database
  reservations of one instance (`Reservations.dfy`);
- the batch beam search with its tolerant, non-transitive ranking, its moves and its
  checks (`BeamScore.dfy`, `BeamSearch.dfy`, `BeamMoves.dfy`, `BeamCandidates.dfy`), and
  its capacity check against the manager (`BatchPlacement.dfy`, `BatchStart.dfy`);
- the search for synchronous cycles in the service graph (`SyncGraph.dfy`), the token
  bucket (`RateLimit.dfy`) and the value reservoir (`Reservoir.dfy`).

`Wrappers.dfy` and `Orders.dfy` hold what several parts use.

`dafny verify dfyconfig.toml` checks everything.

## How to read it

Code that updates state in place is modelled by classes and loops (`Simulation`, `Queue`,
`Engine`, `BrokerQueueShard`, `Manager`, `ServiceInstance`, `Search`, `RateLimiter`,
`MetricSeries`).  Their methods are proved against functions on values, and what the
program promises is proved about those functions over whole runs.

Times are integers (nanoseconds), float quantities are reals, and counters do not
overflow.  What comes from outside (latencies, failure rolls, handlers, clocks) is an
argument of the step that uses it, so a statement about all arguments covers every choice.

Some things the code is meant to do it does only under a condition.  They are stated with
the exact condition, and with a concrete run or state where the condition fails:

- The join is exact in every sound continuation of a step if and only if the step is sound:
  no start failure replaces an attempt that a timeout had already replaced, and no caller
  overhead of a synchronous call fails to start (`SyncJoinPaths.StepKeepsExactlyIf`,
  `SecondReplacementRun`, `FailedOverheadRun`).  After a sound step every open call can
  still be resolved and every request finalised if and only if the step drops nothing
  (`StepKeepsFinishableIf`, `DroppedForever`).
- A normal return of the event loop means that everything before the end was taken if and
  only if no Stop emptied the queue in its last iteration, or nothing was left by then
  (`NormalReturn`, `LateStopLosesEvents`).
- The clock stays monotone if and only if nothing queued lies in the past (`ClockStep`,
  `ClockGoesBack`).
- The backlog plus the in-flight messages of a shard stay within capacity plus concurrency
  if and only if the concurrency is limited (`BoundedExactlyIf`).
- Retention removes all aged messages if and only if none waits behind a younger one
  (`RetentionExact`, `RetentionMisses`).
- A rolled-back CPU reservation is invisible to all later ones if and only if the first of
  them arrives, or the server is free, no earlier than the job arrived (`RollbackExactly`,
  `RollbackSeen`).
- Adding a replica keeps the host tables inverse to the placements if and only if its ID is
  new (`PlaceExactly`), and the number of replicas grows by what was placed if and only if
  no ID belonged to an active instance (`CountExactly`).  After a failed start of the
  manager IDs are not new, because the instance counter is stored only on success
  (`FailedStartRun`).
- No host is ever overcommitted, also after a failed start, if no reservation is negative
  and no service is listed with different reservations in a scenario whose start failed
  (`PlaceKeeps` and its siblings).  Both conditions are exact.  Removing instances with a
  given reservation never overcommits a host if and only if the reservation is not negative
  (`RemovalExactly`); nothing checks that of a scenario, and `NegativeReservationRun` leaves a
  host of one core with six cores reserved.  Handing out an ID that is taken, as happens
  after a failed start, never overcommits a host if and only if the new instance reserves no
  more than the one it replaces (`ReplacementExactly`), and `MixedStartRun` leaves a host of
  one core with two reserved.
- Scores are sound whatever is measured if and only if no objective that can be missed has a
  negative weight (`SoundExactly`).
- From a scenario within the bounds every step of a search stays within them, by its own
  clamps, if and only if no allowed action raises consumers or memory from a default too far
  below the bounds (`StaysInBoundsExactly`).
- Scaling out keeps the names of the hosts of a batch candidate different if and only if
  the name it gives is new (`HostOutExactly`, `SameNameTwice`).  Scaling up the memory of a
  host leaves it with no less if and only if its memory is set or the step is at least the
  default (`MemoryUpExactly`, `MemoryUpLowers`).
- The capacity check of the batch search refuses no scenario that the manager can start and
  in which nothing is negative (`PlaceableFits`).  For the amounts of a service it refuses
  none with them if and only if they are not negative (`AmountsExactly`, `RefusedThough`).
  It accepts some that the manager cannot start (`FitsNotPlaceable`).  On one host without
  placement policies the manager can start a scenario if and only if the needs are within
  the capacity of the host and the tolerances of the manager (`OneHostExactly`), and on
  several hosts whenever they have slots as large as the largest reservation for all
  replicas (`SlotsStart`).
- The reservoir holds the last values if and only if its size is coprime with the
  multiplier (`LastValuesExactlyIf`); the source calls it Vitter's Algorithm R, but its
  slot choice is deterministic.

The deadline rule of a synchronous call spans the kernel and the handlers.  `SyncJoinTimed.dfy`
runs the loop of the kernel with the handlers of the join: a kernel event carries a join
event, the handler takes what the event carries, and its orders carry what the join
schedules.  Other handlers are iterations that leave the join alone and order whatever they
like.  Such a run is a run of the kernel and a run of the join (`TimedRunIsKernelRun`,
`TimedRunIsRun`).  `DeadlineRule` says that an attempt resolved by a priority-0 event queued
for no later than its deadline is never marked as timed out and its timeout does nothing,
and `TimedOutLate` that an attempt is marked only when no priority-0 event is left at or
before that time.

## Model

| member | source | states |
|---|---|---|
| `SyncJoinRuns.JoinIsExact` | internal/simd/handlers_finalization.go:141-192 | in every sound run, in every interleaving, a stored counter equals the number of the parent's open calls, a parent with calls is finalised exactly when none is open, as failed exactly when one broke, and at most one attempt is awaited per call |
| `SyncJoinRuns.FinalisedWithLastCall` | internal/simd/handlers_finalization.go:176-192 | the parent is finalised at exactly the step that resolves its last open call |
| `SyncJoinReports.ReportsMatch` | internal/simd/handlers_finalization.go:39-192 | in every sound run an attempt that reported made its call broken if and only if it failed or its caller stopped waiting, and every closed call was closed by such a report |
| `SyncJoinReports.ParentFollowsChildren` | internal/simd/handlers_finalization.go:160-192 | a finalised parent with calls failed if and only if an attempt that reported to it failed or was given up |
| `SyncJoinReports.StepTold` | internal/simd/handlers_finalization.go:226-265 | in every step of every run, sound or not, whoever reports tells how it ended |
| `SyncJoinReports.ClosedWithoutReport` | internal/simd/handlers_downstream_caller.go:253-269 | in every run a call closed without a report of an attempt was closed, as broken, by the failed start of its caller overhead |
| `SyncJoinOutcomes.EndsAs` | internal/simd/handlers_finalization.go:39-139 | in every run a request finalised by its start failed, one finalised by its completion failed if and only if its work timed out locally, one finalised on creation failed, and one finalised with its calls failed if and only if the flag of broken calls is set |
| `SyncJoinOutcomes.BeginsAs` | internal/simd/handlers.go:584-871 | a request that begins is marked with how its work will go and its completion is queued |
| `SyncJoinOutcomes.CallsAs` | internal/simd/handlers.go:894-1097 | a completion queues exactly one first attempt for each call of either mode and opens exactly the synchronous calls |
| `SyncJoinOutcomes.SpawnedAs` | internal/simd/handlers_retry.go:136-258 | a spawned attempt is pending for its call with its start queued, and its deadline if and only if the call has one |
| `SyncJoinRuns.QuiescentMeansDone` | internal/simd/handlers.go:1070-1085 | in every sound run that drops nothing, an empty event queue means no counter, no open call and no unfinished request is left |
| `SyncJoinPaths.StepKeepsExactlyIf` | internal/simd/handlers_retry.go:462-501 | the join is exact in every sound continuation of a step if and only if the step is sound |
| `SyncJoinPaths.SecondReplacementShows` | internal/simd/handlers_retry.go:462-501 | after the start failure of an attempt that was already given up, some sound continuation waits for two attempts of a call, or for one of a closed call |
| `SyncJoinPaths.FailedOverheadShows` | internal/simd/handlers_downstream_caller.go:253-269 | after a failed caller-overhead start of a synchronous call, some sound continuation makes the call once more |
| `SyncJoinRuns.RunGood` | internal/simd/handlers_finalization.go:39-192 | the invariant behind the join holds at every point of every sound run |
| `SyncJoinStuck.DroppedForever` | internal/simd/handlers_retry.go:232-238 | after a step that returns an error and drops its event, what waits for the event waits in every sound continuation |
| `SyncJoinLive.CanResolve` | internal/simd/handlers_finalization.go:141-192 | from every state that keeps the invariant with nothing lost, every open call can be resolved by sound and lossless steps |
| `SyncJoinLive.CanFinalise` | internal/simd/handlers_finalization.go:39-101 | and every unfinished request that did not fail can be finalised |
| `SyncJoinLive.RunIsFinishable` | internal/simd/handlers_finalization.go:39-192 | so nothing is ever stuck in a sound and lossless run |
| `SyncJoinLive.StepKeepsFinishableIf` | internal/simd/handlers_retry.go:232-238 | after a sound step everything can still be finished if and only if the step is lossless |
| `SyncJoinLive.NextStepExactly` | internal/simd/handlers_finalization.go:39-192 | both conditions are exact for the next step of every sound and lossless run |
| `SyncJoinExamples.SecondReplacementRun` | internal/simd/handlers.go:735-744 | a run of nine steps in which a deferred start fails after its timeout and the parent is finalised while a call is open |
| `SyncJoinExamples.FailedOverheadRun` | internal/simd/handlers_downstream_caller.go:235-274 | a run of six steps in which a failed overhead start makes one call count twice |
| `SyncJoinTheorems.StepKeeps` | internal/simd/handlers_finalization.go:39-192 | every sound step of every kind keeps the invariant |
| `SyncJoinTheorems.StartKeeps` | internal/simd/handlers.go:584-871 | so does a start that fails, is deferred or begins |
| `SyncJoinTheorems.CompleteKeeps` | internal/simd/handlers.go:894-1097 | so does a completion that fans out, with one counter unit per synchronous call |
| `SyncJoinTheorems.SpawnKeeps` | internal/simd/handlers_retry.go:136-258 | so does spawning an attempt, also one that fails its dependency at once |
| `SyncJoinTheorems.TimeOutSyncKeeps` | internal/simd/handlers_timeout.go:51-72 | so does the timeout of a synchronous attempt, replaced or failed |
| `SyncJoinTheorems.TimeOutAsyncKeeps` | internal/simd/handlers_timeout.go:28-49 | so does the timeout of an asynchronous attempt |
| `SyncJoinTheorems.ForgetKeeps` | internal/engine/run.go:325-346 | so does evicting a finished request from the run manager |
| `SyncJoinAlways.AtMostOnce` | internal/simd/handlers_finalization.go:148-174 | in every run, without any condition, an attempt reports at most once, a request is finalised at most once, stored counters are positive, attempt numbers stay within max_retries, and resolutions and final statuses never change |
| `SyncJoinAttempts.AttemptsBounded` | internal/simd/handlers_retry.go:329-501 | in every sound run a logical call is given at most max_retries + 1 attempts in all, each with a number of its own, and the one waited for has the highest |
| `SyncJoinRetries.NoRetryWasLeft` | internal/simd/handlers_retry.go:329-366 | in every sound run a timeout breaks a call only with the attempt of number max_retries |
| `SyncJoinRetries.FailedStartRetried` | internal/simd/handlers_retry.go:462-501 | a failed start is replaced, untold, if and only if a retry is left and the parent is retained |
| `SyncJoinRetries.TimedOutSyncRetried` | internal/simd/handlers_retry.go:329-366 | so is a synchronous attempt that timed out |
| `SyncJoinRetries.TimedOutAsyncRetried` | internal/simd/handlers_retry.go:368-407 | so is an asynchronous one, which is abandoned then and only marked otherwise |
| `SyncJoinRetries.FailedOverheadRetried` | internal/simd/handlers_retry.go:412-460 | so is a caller overhead that failed to start, and otherwise the call breaks |
| `SyncJoinAlways.LateCompletion` | internal/simd/handlers_timeout.go:51-72 | completing a timed-out attempt changes no counter, no call and no other request |
| `SyncJoinAlways.ResolvedIsInert` | internal/simd/handlers_finalization.go:148-160 | completing an attempt whose caller no longer waits touches that attempt only |
| `SyncJoinAlways.ResolvedInTime` | internal/simd/handlers_timeout.go:24-26 | an attempt resolved before its timeout fires is never marked as timed out later, in runs without times |
| `SyncJoinTimed.DeadlineRule` | internal/simd/handlers_retry.go:249-256 | in every run of the event loop with the handlers of the join, an attempt resolved by a priority-0 event queued for no later than its deadline is never marked as timed out, and its timeout changes nothing |
| `SyncJoinTimed.TimedOutLate` | internal/simd/handlers_timeout.go:9-74 | an attempt is marked only by its own timeout, while it is unresolved and no priority-0 event is left at or before that time |
| `SyncJoinTimed.TimedRunIsRun` | internal/simd/handlers.go:485-1119 | what the handlers of the join do in a run of the event loop is a run of the join, so everything above holds of the loop |
| `SyncJoinTimed.TimedRunIsKernelRun` | internal/engine/engine.go:206-446 | and its iterations are a run of the kernel, so everything below holds of it |
| `SyncJoinHandlers.Simulation.NotifyParentSyncChildResolved` | internal/simd/handlers_finalization.go:141-192 | the object does what `Notify` says: nothing for a resolved child, else the join |
| `SyncJoinHandlers.Simulation.DecrementPendingSync` | internal/simd/handlers_finalization.go:160-192 | counts one call down and finalises the parent with the last one |
| `SyncJoinHandlers.Simulation.FinalizeRequestFailure` | internal/simd/handlers_finalization.go:104-139 | finalises as failed once and climbs to the parent |
| `SyncJoinHandlers.Simulation.FinalizeRequestCompletion` | internal/simd/handlers_finalization.go:39-101 | finalises as completed once, dropping abandoned attempts |
| `SyncJoinHandlers.Simulation.IsolateAndRetry` | internal/simd/handlers_retry.go:60-65 | resolves the attempt without a report and schedules its replacement |
| `SyncJoinHandlers.Simulation.MaybeRetrySyncStartFailure` | internal/simd/handlers_retry.go:462-501 | replaces a failed start when a retry is left |
| `SyncJoinHandlers.Simulation.FailRequestStart` | internal/simd/handlers_finalization.go:226-265 | a failed start retries, finalises or reports |
| `SyncJoinHandlers.Simulation.HandleRequestStart` | internal/simd/handlers.go:584-871 | the start handler refines its state transformer, also where a database reservation fails after the request began |
| `SyncJoinHandlers.Simulation.ScheduleDownstreamCalls` | internal/simd/handlers_downstream_caller.go:67-207 | the fan-out loop schedules exactly the events of the calls |
| `SyncJoinHandlers.Simulation.HandleRequestComplete` | internal/simd/handlers.go:894-1097 | the completion handler refines its state transformer |
| `SyncJoinHandlers.Simulation.ExecDownstreamSpawn` | internal/simd/handlers_retry.go:136-258 | spawning refines its state transformer |
| `SyncJoinHandlers.Simulation.HandleDownstreamTimeout` | internal/simd/handlers_timeout.go:9-74 | the timeout handler refines its state transformer |
| `SyncJoinHandlers.Simulation.TimeOutAsyncCall` | internal/simd/handlers_retry.go:368-407 | the asynchronous branch refines its state transformer |
| `SyncJoinHandlers.Simulation.HandleDownstreamCallerOverheadStart` | internal/simd/handlers_downstream_caller.go:235-274 | the overhead handler refines its state transformer |
| `SyncJoinHandlers.Simulation.HandleDownstreamCallerOverheadEnd` | internal/simd/handlers_downstream_caller.go:276-337 | the overhead end refines its state transformer |
| `SyncJoinHandlers.Simulation.HandleDownstreamRetry` | internal/simd/handlers_retry.go:301-327 | the retry handler refines its state transformer |
| `SyncJoinHandlers.Simulation.HandleRequestArrival` | internal/simd/handlers.go:485-582 | an arrival makes a request and queues its start |
| `SyncJoinHandlers.Simulation.EvictRequest` | internal/engine/run.go:325-346 | forgets a finished request |
| `SyncJoinHandlers.Simulation.Dispatch` | internal/simd/handlers.go:485-1119 | taking any event refines one step of a run |
| `SyncJoinHandlers.Simulation.Run` | internal/simd/handlers.go:485-1119 | any sequence of events the object handles is a run of the join, so the theorems about runs hold of it |
| `EventQueue.Queue.Schedule` | internal/engine/event.go:138-142 | adds the event to the multiset and keeps the heap |
| `EventQueue.Queue.Next` | internal/engine/event.go:145-152 | removes an event that none of the queue comes before: it is earliest, then has the lowest priority number, then the lowest sequence number; or reports an empty queue |
| `EventQueue.Queue.Peek` | internal/engine/event.go:155-162 | shows a first event and changes nothing |
| `EventQueue.Queue.Up` | internal/engine/event.go:123-142 | restores the heap from a leaf and keeps the contents |
| `EventQueue.Queue.Down` | internal/engine/event.go:128-152 | restores the heap from the root and keeps the contents |
| `EventQueue.FirstOf` | internal/engine/event.go:103-115 | the root of a heap is earliest, among those has the lowest priority number, and among those the lowest sequence number |
| `Kernel.TakenInOrder` | internal/engine/engine.go:229-231 | when an event is taken, everything scheduled so far that comes before it was taken already |
| `Kernel.FirstComeFirstServed` | internal/engine/event.go:103-115 | of the events for one time with one priority, whatever was scheduled before the one taken was taken already |
| `Kernel.TakenWasScheduled` | internal/engine/event.go:145-152 | what is taken was scheduled and was not taken before |
| `Kernel.DeadlineTie` | internal/simd/handlers_retry.go:249-256 | all priority-0 events up to an instant are taken before a priority-1 event of that instant |
| `Kernel.NeverEmpty` | internal/engine/engine.go:240-279 | while the loop goes on the end event is queued when an iteration starts, and the queue is found empty if and only if a Stop empties it after the iteration's check |
| `Kernel.NormalReturn` | internal/engine/engine.go:387-401 | a return without error dropped nothing to a limit and took no event after the end, and took every event before it if and only if no Stop emptied the queue in the last iteration or none was left |
| `Kernel.LateStopLosesEvents` | internal/engine/engine.go:240-279 | a Stop shortly before the end makes the loop return as if it had ended, with an event never taken |
| `Kernel.ExactlyBeforeEnd` | internal/engine/engine.go:387-401 | if handlers order no end event, exactly the events before the end event were taken |
| `Kernel.HandlersBounded` | internal/engine/engine.go:285-293 | at most MaxEventsProcessed handlers run, and the loop makes at most two further iterations |
| `Kernel.DroppedExactly` | internal/engine/engine.go:103-130 | an order is dropped, with an error, if and only if as many as allowed were made before or the queue is full, and is queued as it was given otherwise |
| `Kernel.LimitsKept` | internal/engine/engine.go:103-130 | in every run the queue and the events scheduled stay within their limits, and every order was queued or dropped |
| `Kernel.FirstErrorReturned` | internal/engine/engine.go:498-511 | in every run the error that is returned is the first that occurred |
| `Kernel.NothingTakenAfterStop` | internal/engine/engine.go:206-239 | an iteration that finds an error, the wall clock exceeded or a cancellation takes nothing and ends the run, with the error first |
| `Kernel.IdleEnds` | internal/engine/engine.go:240-279 | an emptied queue ends the run if and only if less than 200 milliseconds are left, with the clock at the end |
| `Kernel.RunOk` | internal/engine/engine.go:103-130 | in every run what was scheduled is queued or taken, numbers are unique, and a dropped event leaves an error |
| `Kernel.ClockStep` | internal/engine/engine.go:318-321 | a dispatch sets the clock to the event's time, and it does not go back if and only if nothing queued is past |
| `Kernel.ClockMonotone` | internal/engine/engine.go:318-321 | if everything is ordered for the present or the future the clock never goes back nor past the end |
| `Kernel.ClockGoesBack` | internal/engine/engine.go:150-172 | a run of two iterations in which the clock goes back |
| `Engine.Engine.TriggerGuardFailure` | internal/engine/engine.go:498-511 | latches the first error and cancels |
| `Engine.Engine.ScheduleEvent` | internal/engine/engine.go:103-130 | numbers, checks the limits and queues |
| `Engine.Engine.TakeNext` | internal/engine/engine.go:229-279 | takes the first event, or idles on a queue that a Stop emptied |
| `Engine.Engine.Iteration` | internal/engine/engine.go:206-446 | one iteration of the loop is the kernel step with what the heap hands out |
| `Engine.Engine.Run` | internal/engine/engine.go:174-454 | the loop produces a run of the kernel |
| `Broker.LeastUnrecorded` | internal/resource/broker_queue.go:205-222 | after any records, in any order and repeated, the frontier is the least offset never recorded and the rest is pending |
| `Broker.OrderIndependent` | internal/resource/broker_queue.go:205-222 | the same set of records gives the same state |
| `Broker.FrontierMonotone` | internal/resource/broker_queue.go:205-222 | more records never move the frontier back |
| `Broker.LagZero` | internal/resource/broker_queue.go:266-272 | lag is zero if and only if every assigned offset was recorded, and recording assigned ones never passes the high watermark |
| `Broker.LagCounts` | internal/resource/broker_queue.go:266-272 | lag is the number of assigned offsets at or past the frontier |
| `Broker.BrokerQueues.NextTopicPartitionOffset` | internal/resource/broker_queue.go:376-383 | assigns the offsets of one log in order |
| `Broker.BrokerQueueShard.EnqueueMessage` | internal/resource/broker_queue.go:87-127 | admits, evicts the head or refuses by capacity and policy |
| `Broker.BrokerQueueShard.TryPopForDispatch` | internal/resource/broker_queue.go:144-157 | hands out the head while a consumer is free |
| `Broker.BrokerQueueShard.ConsumerFinished` | internal/resource/broker_queue.go:160-166 | frees a consumer |
| `Broker.BrokerQueueShard.RequeueFront` | internal/resource/broker_queue.go:169-176 | frees a consumer and puts the message back first |
| `Broker.BrokerQueueShard.ExpireQueuedByRetention` | internal/resource/broker_queue.go:181-202 | the loop removes the longest aged prefix and reports its offsets |
| `Broker.BrokerQueueShard.RecordTopicOffsetProcessed` | internal/resource/broker_queue.go:205-222 | the loop advances the frontier over everything pending |
| `BrokerRuns.Conservation` | internal/resource/broker_queue.go:87-202 | over every run accepted = queued + in flight + finished + evicted + expired as multisets, the drop count is rejected + evicted + expired, and the limits bound what is held |
| `BrokerRuns.PublishCases` | internal/resource/broker_queue.go:87-127 | a publish is admitted while there is capacity, and a full shard refuses it or, under drop-oldest, admits it in place of the head |
| `BrokerRuns.EvictedIsReported` | internal/resource/broker_queue.go:110-119 | the offset reported as evicted is that of the message that left the head of the queue |
| `BrokerRuns.DispatchExactly` | internal/resource/broker_queue.go:144-157 | in every run a dispatch hands out the head if and only if there is one and fewer messages are in flight than consumers |
| `BrokerRuns.BoundedExactlyIf` | internal/resource/broker_queue.go:129-157 | with a capacity, backlog plus in-flight stays within capacity plus concurrency in every run if and only if concurrency is limited |
| `BrokerRuns.RedeliveryOverfills` | internal/resource/broker_queue.go:169-176 | a run in which redelivery takes the backlog above the capacity |
| `BrokerRuns.OrderKept` | internal/resource/broker_queue.go:144-202 | with one consumer and ordered publishes, the in-flight message and the backlog stay strictly increasing, and deliveries are in offset order with repetitions only of the same message |
| `BrokerRuns.RetentionExact` | internal/resource/broker_queue.go:181-202 | expiry removes only aged messages, and all of them if and only if none waits behind a younger one |
| `BrokerRuns.ExpiredByAge` | internal/resource/broker_queue.go:181-202 | what expires is at least as old as the retention in milliseconds, and the message left at the head is younger |
| `BrokerRuns.RetentionMisses` | internal/resource/broker_queue.go:169-202 | a run with two consumers in which redelivery hides an aged message from expiry |
| `BrokerRuns.RetentionInOrder` | internal/resource/broker_queue.go:181-202 | in an ordered shard none does |
| `Reservations.Lindley` | internal/resource/service_instance.go:333-352 | the end of the last reservation is the maximum over j of arrival j plus the durations from j on |
| `Reservations.LindleyAt` | internal/resource/service_instance.go:333-352 | the same for every reservation of a sequence |
| `Reservations.DurationExactly` | internal/resource/service_instance.go:333-345 | cores times the duration is the demand up to half a nanosecond of rounding, and a demand that is not positive takes no time |
| `Reservations.NeverOverlap` | internal/resource/service_instance.go:333-352 | over any reservations and rollbacks the live positive intervals are disjoint |
| `Reservations.RollbackInvisible` | internal/resource/service_instance.go:418-425 | reserving and rolling back changes no later reservation if the first of them arrives, or the server is free, no earlier |
| `Reservations.RollbackExactly` | internal/resource/service_instance.go:418-425 | and only then |
| `Reservations.RollbackSeen` | internal/resource/service_instance.go:418-425 | a run in which a job at a free server waits for one that was rolled back |
| `Reservations.StartsEarliest` | internal/resource/service_instance.go:356-398 | a database job starts on arrival if a slot is free and else at the earliest release |
| `Reservations.LastsItsJob` | internal/resource/service_instance.go:356-398 | pooled or not, a database reservation lasts exactly as long as its job |
| `Reservations.LindleyOneSlot` | internal/resource/service_instance.go:356-398 | in a pool of one slot the i-th query ends at the maximum over j of its arrival plus the durations from j to i |
| `Reservations.SlotDisjoint` | internal/resource/service_instance.go:356-398 | intervals on one slot are disjoint |
| `Reservations.PoolLimit` | internal/resource/service_instance.go:356-398 | at no instant are more pooled intervals in progress than the widest pool asked for, at most 64 |
| `Reservations.PoolLimitAsked` | internal/resource/service_instance.go:356-398 | if no job asks for more than n slots, no more than n are in progress |
| `Reservations.BestSlot` | internal/resource/service_instance.go:376-388 | the first slot among those where the job starts first |
| `Reservations.ServiceInstance.ReserveCPUWork` | internal/resource/service_instance.go:333-352 | reserves what `Reserved` says for the rounded duration |
| `Reservations.ServiceInstance.RollbackCPUTailReservation` | internal/resource/service_instance.go:418-425 | undoes the reservation if it is still the tail |
| `Reservations.ServiceInstance.ReserveDBWork` | internal/resource/service_instance.go:356-398 | the slot search loop finds the best slot and books it for the duration of the job, and reports the wait |
| `Cluster.PlaceKeeps` | internal/resource/manager.go:216-226 | placing an instance where there is room keeps placements, active instances and cache, the tables unless a start failed, and the capacity of every host unless a reservation was negative or a failed start had listed a service with different reservations |
| `Cluster.RemoveKeeps` | internal/resource/manager.go:510-546 | so does removing a draining instance |
| `Cluster.DrainKeeps` | internal/resource/manager.go:440-447 | so does draining while an active instance is left |
| `Cluster.ResizeKeeps` | internal/resource/manager.go:885-893 | so does resizing a service to what fits |
| `Cluster.HostsKeep` | internal/resource/manager.go:629-804 | so does adding, resizing or removing hosts within what is reserved |
| `ClusterOps.ResizeExactly` | internal/resource/manager.go:838-883 | a resize is allowed if and only if the instances with the new amounts have lost no CPU while busy and no memory in use or kept as headroom, and every host carries them |
| `Cluster.RebuildKeeps` | internal/resource/manager.go:343-362 | a rebuilt cache lists something for every service that ever had an instance and keeps cursors in range |
| `ClusterOps.PlaceExactly` | internal/resource/manager.go:426-438 | a new replica keeps the tables if and only if its ID is not taken |
| `ClusterOps.AddsMeans` | internal/resource/manager.go:412-439 | adding instances until one finds no room adds exactly the IDs the counter passed, and touches nothing else |
| `ClusterPolicies.StartRespects` | internal/resource/manager.go:174-235 | whatever a start placed is in a required zone, has the configured amounts or the defaults, and is on a host where nothing it keeps away from was before |
| `ClusterPolicies.KeptApart` | internal/resource/manager.go:174-235 | services that keep away from each other share no host after a start |
| `ClusterPolicies.ReplicasSpread` | internal/resource/manager.go:174-235 | while every host accepts it, replica r goes to host r, round all hosts by name |
| `ClusterPolicies.InstancesSpread` | internal/resource/manager.go:80-114 | while every host has room, a further instance goes to the host after those counted by the instances of its service |
| `ClusterOps.CountExactly` | internal/resource/manager.go:412-439 | the number of active instances grows by the number placed if and only if no ID belonged to one of them |
| `ClusterOps.ReplacementExactly` | internal/resource/manager.go:426-438 | handing out an ID that is taken leaves every host within capacity, whatever else is placed, if and only if the new instance reserves no more than the one it replaces |
| `ManagerRuns.FailedStartRun` | internal/resource/manager.go:227-243 | a start that fails at its second service, after which scaling reports two replicas where there is one instance that two hosts list |
| `ManagerMixed.MixedStartRun` | internal/resource/manager.go:227-243 | a service listed twice with different reservations, a start that fails, and a scale-up that leaves a host of one core with two cores reserved |
| `ClusterOps.RemovalExactly` | internal/resource/manager.go:510-546 | removing a draining instance leaves every host within capacity, whatever else is placed, if and only if its reservation is not negative |
| `ManagerRuns.NegativeReservationRun` | internal/resource/manager.go:165-172 | a run of start, scale-down and removal that leaves a host of one core with six cores reserved |
| `ManagerRuns.PlainRound` | internal/resource/manager.go:319-339 | as many consecutive selections as a service has cached instances return each exactly once, from any cursor |
| `ManagerRuns.RoundRobinRound` | internal/resource/routing.go:201-209 | the same among the instances eligible for a request |
| `ManagerRuns.WeightedRound` | internal/resource/routing.go:138-163 | as many consecutive weighted selections as the wheel has slots choose each eligible instance exactly as often as it has slots, from any wheel position |
| `Routing.SlotsFollowWeights` | internal/resource/routing.go:189-199 | the slots are a thousand times the weight to the nearest whole number, at least one for a positive weight, none otherwise, and never fewer for a larger weight |
| `Routing.UnlistedWeight` | internal/resource/routing.go:138-150 | an instance without a weight counts like one of weight 1 |
| `Routing.TurnWheel` | internal/resource/routing.go:156-163 | finds the instance whose stretch contains the turn |
| `Routing.LeastLoaded` | internal/resource/routing.go:105-115 | the first instance with the least load |
| `Manager.Manager.InitializeFromScenario` | internal/resource/manager.go:117-243 | places the replicas service by service on the hosts the source would choose; success gives every service its replicas, failure leaves what was placed with a zero counter |
| `Manager.Manager.PlaceReplica` | internal/resource/manager.go:174-235 | places on the first host by name, from the replica's number on, that the zones and anti-affinity allow and that has room, or there is none |
| `Manager.Manager.PickHostForNewInstance` | internal/resource/manager.go:80-114 | the first host by name, from the number of instances on, that has room, or there is none |
| `Manager.Manager.ScaleServiceWithOptions` | internal/resource/manager.go:382-450 | adds instances like the first by name or drains the last by name; unless a start failed, success leaves exactly the asked number and failure has at most added some; other services are untouched |
| `Manager.Manager.ScaleUp` | internal/resource/manager.go:412-439 | adds replicas until one cannot be placed |
| `Manager.Manager.ScaleDown` | internal/resource/manager.go:440-447 | drains all but the first by name, with the deadline |
| `Manager.Manager.ProcessDrainingInstances` | internal/resource/manager.go:456-492 | removes exactly the draining instances without work or past their deadline, keeps the others as they are, and reports exactly the requests queued at those with work |
| `Manager.Manager.RemoveInstance` | internal/resource/manager.go:510-546 | takes the instance off its host's table |
| `Manager.Manager.RebuildSortedInstanceCache` | internal/resource/manager.go:343-362 | the cache lists exactly the active instances, by name, and only cursors out of range go back to zero |
| `Orders.SortByName` | internal/resource/manager.go:351-353 | every element once, in the byte order of the names |
| `Manager.Manager.ScaleOutHosts` | internal/resource/manager.go:629-663 | reaches the target with hosts as large as an existing one and keeps existing hosts |
| `Manager.Manager.ScaleInHosts` | internal/resource/manager.go:692-748 | removes only empty hosts, added and later ones first, down to the target, or nothing |
| `Manager.Manager.IncreaseHostCapacity` | internal/resource/manager.go:667-685 | enlarges every host by the positive changes |
| `Manager.Manager.DecreaseHostCapacity` | internal/resource/manager.go:754-804 | shrinks every host by the negative changes, down to one core and one gigabyte, if and only if what is reserved fits; a refusal names a host that would be too small |
| `Manager.Manager.UpdateServiceResourcesWithHeadroom` | internal/resource/manager.go:814-898 | gives all instances of a service the amounts, with no CPU lost while busy, no memory below use plus headroom lost and every host within capacity; a refusal changes nothing and names what would be violated |
| `Manager.Manager.SelectInstanceForService` | internal/resource/manager.go:319-339 | the cursor is always an index, and the instance chosen is active |
| `Manager.Manager.SelectInstanceForRequest` | internal/resource/routing.go:85-187 | every strategy chooses, by its own rule, an active instance of the service, in the preferred zone if there is one, and keeps the cursors valid |
| `Manager.Manager.SelectRoundRobin` | internal/resource/routing.go:201-209 | takes the instance the cursor stands at in a list that may be shorter than the cached one, moves on, and keeps the cursor an index of the cached list |
| `Manager.Manager.SelectWeighted` | internal/resource/routing.go:138-163 | takes the instance whose stretch of the wheel holds the wheel cursor and turns it by one slot, or falls back to round robin |
| `Manager.Manager.ApplyLocalityPreference` | internal/resource/routing.go:49-82 | the cached instances in the zone, or all if there is none |
| `BeamScore.Decides` | internal/improvement/batch_score.go:321-332 | candidates are never ranked both ways, and with different hashes they are ranked |
| `BeamScore.NotTransitive` | internal/improvement/batch_score.go:321-332 | the ranking has cycles |
| `BeamScore.FeasibleFirst` | internal/improvement/batch_search.go:91-93 | the kept candidate is feasible if any is |
| `BeamScore.Regret` | internal/improvement/batch_search.go:91-93 | the violation, and among feasible candidates the efficiency, of the kept one is within n - 1 tolerances of the least |
| `BeamScore.RegretAttained` | internal/improvement/batch_search.go:91-93 | for every n some order of evaluation attains that bound |
| `BeamScore.ComputeBatchScore` | internal/improvement/batch_score.go:215-316 | the violation is the weighted sum of what each objective is missed by, and feasible means within the tolerance |
| `BeamScore.MissedExactly` | internal/improvement/batch_score.go:215-316 | the penalty of an upper bound is the excess as a part of the bound, that of a lower bound the shortfall as a part of the value, and an unset bound has none |
| `BeamScore.NoViolationExactly` | internal/improvement/batch_score.go:266-316 | with positive weights the violation is zero if and only if every objective that is set is met |
| `BeamScore.ViolationSum` | internal/improvement/batch_score.go:266-316 | the violations of two lists of objectives add up |
| `BeamScore.ScoredSound` | internal/improvement/batch_score.go:266-316 | if no objective that can be missed has a negative weight the violation is not negative, so scores are sound |
| `BeamScore.SoundExactly` | internal/improvement/batch_score.go:266-316 | scores are sound whatever is measured if and only if no objective that can be missed has a negative weight |
| `BeamSearch.ResultQuality` | internal/improvement/batch_search.go:195-199 | with scores of such weights, the result of a search is feasible if anything evaluated is, with that regret |
| `BeamSearch.AllKeep` | internal/improvement/batch_search.go:115-133 | what the single moves keep, every candidate of a search keeps |
| `BeamMoves.StaticCapacityOK` | internal/improvement/batch_neighbors.go:14-55 | the loops decide whether what all services need fits all hosts, up to the slack |
| `BeamMoves.WithinBatchBounds` | internal/improvement/batch_neighbors.go:568-618 | the loops decide whether hosts, replicas, amounts and consumers are within the bounds |
| `BeamCandidates.MoveCases` | internal/improvement/batch_neighbors.go:238-553 | a step changes one service by an allowed action, the hosts by an allowed action, one rate or the policy, and the last two only if they are not frozen |
| `BeamCandidates.MovesItsWay` | internal/improvement/batch_neighbors.go:239-473 | an action on a service within the bounds moves its amount, and only that, the way its name says, by the size of the step or to the nearer end of the bounds; of the subscribers of a topic exactly one moves |
| `BeamCandidates.HostsMoveTheirWay` | internal/improvement/batch_neighbors.go:360-418 | an action on hosts adds one like the first, drops the last, or changes one size of one host by the step or to the end of the bounds |
| `BeamCandidates.RatesMove` | internal/improvement/batch_neighbors.go:537-548 | a step of the workload changes one rate by a tenth, not below a hundredth |
| `BeamCandidates.HalfSteps` | internal/batchspec/spec.go:482-505 | the polish takes half steps of at least one replica and one percent |
| `BeamCandidates.StaysInBoundsExactly` | internal/improvement/batch_neighbors.go:238-533 | from a scenario within the bounds every step stays within them if and only if no allowed action raises consumers or memory from a default too far below the bounds |
| `BeamCandidates.SearchStep` | internal/improvement/batch_neighbors.go:215-566 | a step of a search, or of its refinement with smaller sizes, stays within the bounds under that condition and changes at most one service, the way the action's name says |
| `BeamCandidates.MemoryUpExactly` | internal/improvement/batch_neighbors.go:401-409 | scaling up the memory of a host leaves it with no less if and only if its memory is set or the step is at least the default |
| `BeamCandidates.MemoryUpLowers` | internal/improvement/batch_neighbors.go:401-409 | an admissible step that scales the memory of a host up from the default to one gigabyte |
| `BeamCandidates.EveryCandidate` | internal/improvement/batch_neighbors.go:215-566 | every scenario a search evaluates has the baseline's services, policies and consumer ranges; an amount differs only if an allowed action and the service allow it, so a database without a policy keeps its replicas, CPU and memory; the hosts are first hosts of the baseline and added ones; frozen rates and policies are the baseline's |
| `BeamCandidates.EveryCandidateFits` | internal/improvement/batch_neighbors.go:220-228 | every scenario evaluated but the baseline is within the bounds and fits |
| `BeamCandidates.EveryCandidateWithin` | internal/improvement/batch_neighbors.go:568-618 | in terms of the amounts: hosts, replicas, CPU, memory and consumers of every scenario evaluated but the baseline are between their ends |
| `BeamCandidates.BoundsExactly` | internal/improvement/batch_neighbors.go:568-618 | nothing between those ends is refused by the bounds |
| `BeamCandidates.OnlyBaseline` | internal/improvement/batch_neighbors.go:568-590 | if two services of the baseline are out of bounds, as with amounts left unset, a search evaluates nothing but the baseline |
| `BeamCandidates.HostOutExactly` | internal/improvement/batch_neighbors.go:360-375 | scaling out keeps host names different if and only if the name it gives is new |
| `BeamCandidates.SameNameTwice` | internal/improvement/batch_neighbors.go:360-375 | an admissible step that gives two hosts one name |
| `BeamCandidates.EveryCandidateNamed` | internal/improvement/batch_neighbors.go:360-382 | if no host of the baseline has a name that a later one could get, the hosts of every candidate have different names |
| `BeamCandidates.GenerateBatchNeighbors` | internal/improvement/batch_neighbors.go:215-566 | the loops produce the admissible moves, arranged and capped |
| `BeamCandidates.RunBatchBeamSearch` | internal/improvement/batch_search.go:43-218 | the result of a search is the baseline or is within the bounds and fits, and keeps what every candidate keeps |
| `BatchPlacement.StartLoads` | internal/resource/manager.go:174-235 | a successful start puts on the hosts exactly what the replicas reserve, without overcommitting one |
| `BatchPlacement.PlaceableFits` | internal/improvement/batch_neighbors.go:14-55 | a scenario the loader accepts, in which nothing is negative and which the manager can start, passes the capacity check, also when two hosts share a name |
| `BatchStart.AcceptedExactly` | internal/improvement/batch_neighbors.go:14-55 | the check passes a scenario if and only if all the replicas together, as the manager reserves them, need at most 0.1 percent more than all the hosts together have |
| `BatchStart.OneReplicaAtLeast` | internal/improvement/batch_neighbors.go:22-25 | less than one replica counts as one |
| `BatchStart.AmountsExactly` | internal/improvement/batch_neighbors.go:14-55 | every scenario that the manager can start, in which one service reserves given amounts and no other a negative one, passes the check if and only if the amounts are not negative |
| `BatchStart.RefusedThough` | internal/improvement/batch_neighbors.go:14-55 | for any negative amount a scenario that the manager starts and the check refuses |
| `BatchStart.OneHostInTurn` | internal/resource/manager.go:174-235 | on one host without placement policies the manager can start services if and only if each replica in turn fits with those before it, whatever the amounts |
| `BatchStart.OneHostExactly` | internal/resource/manager.go:174-235 | if nothing is negative it can start a scenario if and only if the needs the check computes are within the capacity of the host and the tolerances of the manager |
| `BatchStart.SlotsStart` | internal/resource/manager.go:174-235 | on any hosts, without placement policies, it can start whatever has no more replicas than the hosts have slots as large as the largest reservation |
| `BatchStart.FitsNotPlaceable` | internal/improvement/batch_neighbors.go:14-55 | a scenario that passes the check and that the manager cannot start |
| `BeamSearch.BudgetKept` | internal/improvement/batch_search.go:79-86 | evaluations of the usual cost never exceed a positive budget |
| `BeamSearch.EvaluationBound` | internal/improvement/batch_search.go:113-192 | at most 1 + N (1 + (D - 1) (b + ib)) + max(8, N / 2) candidates are evaluated |
| `BeamSearch.RefinementCap` | internal/batchspec/spec.go:506-511 | the refinement pass looks at max(8, N / 2) neighbours at most |
| `BeamSearch.Search.TryEval` | internal/improvement/batch_search.go:68-95 | evaluates an unseen scenario within the budget and keeps the best |
| `BeamSearch.Search.ExpandOne` | internal/improvement/batch_search.go:115-132 | evaluates the neighbours of one candidate |
| `BeamSearch.Search.Trim` | internal/improvement/batch_search.go:138-172 | the next frontier is the first ranked feasible and the first ranked infeasible candidates of the layer, within the beam widths |
| `BeamSearch.Search.Beam` | internal/improvement/batch_search.go:113-173 | the layers stay within the bound, and the baseline is fully expanded unless the budget ends |
| `BeamSearch.Search.Run` | internal/improvement/batch_search.go:43-218 | no hash is evaluated twice, the result is the kept candidate of all evaluated, and exhaustion means the budget was reached |
| `SyncGraph.Search.Dfs` | internal/interaction/graph.go:112-133 | terminates; an error means a cycle, otherwise the key is finished and the stack is as before |
| `SyncGraph.Search.ValidateSyncAcyclic` | internal/interaction/graph.go:95-109 | reports a cycle if and only if there is one |
| `SyncGraph.NewGraph` | internal/interaction/graph.go:28-71 | succeeds if and only if every target names an existing service and the scenario declares no synchronous cycle, and then has exactly the declared calls |
| `SyncGraph.CallDepth` | internal/interaction/graph.go:9-11 | on an accepted graph no synchronous call path is longer than the number of keys |
| `RateLimit.TokensInRange` | internal/policy/rate_limiting.go:72-81 | tokens stay between zero and the capacity |
| `RateLimit.RefillExactly` | internal/policy/rate_limiting.go:60-81 | a refill adds the whole tokens accrued, loses less than one below the capacity, and does nothing before a token is due or when the clock goes back |
| `RateLimit.AnyWindow` | internal/policy/rate_limiting.go:44-121 | any stretch of calls in time order, quota looks included, is granted fewer than rate + rate T + 1 tokens |
| `RateLimit.WindowReached` | internal/policy/rate_limiting.go:44-121 | for every rate below one token a nanosecond and every k some stretch of k seconds and a nanosecond is granted rate + k rate + 1 tokens, the most that the bound allows |
| `RateLimit.NothingGranted` | internal/policy/rate_limiting.go:83-89 | a rate that is not positive grants nothing |
| `RateLimit.RateLimiter.AllowRequest` | internal/policy/rate_limiting.go:44-90 | refills, takes a token if there is one, and touches no other key |
| `RateLimit.RateLimiter.GetRemainingQuota` | internal/policy/rate_limiting.go:92-121 | refills and reports, without creating a bucket |
| `Reservoir.LastValues` | internal/metrics/collector.go:81-96 | for a coprime size, after twice the size the reservoir is the last values as a multiset |
| `Reservoir.LastValuesExactlyIf` | internal/engine/run.go:100-108 | that always happens if and only if the size is coprime with the multiplier |
| `Reservoir.PowersOfTwo` | internal/engine/run.go:100-108 | every power of two is |
| `Reservoir.MetricSeries.AddValue` | internal/metrics/collector.go:64-98 | keeps count, sum, mean, extremes and reservoir of everything added |

## Left out

- Queue and topic event handlers, acknowledgement deadlines and the deferred parent finalisation they drive: calls to broker services are not part of the join model, and the broker shard is modelled with its callers as arbitrary steps.
- Metrics, labels, logging, circuit breakers and request limits of the run manager: they do not feed back into the join.
- Instance request queues: nothing enqueues into them, so they are empty in the join model; the manager model treats them as an input.
- The order of events in the join, except in `SyncJoinTimed.dfy`: any queued event may come next, except that an overhead end follows its start; the order of the loop is one of these.
- Integer overflow of counters, offsets, durations and of the reservoir's multiplication, and floating-point rounding.
- Real-time throttling and sleeps of the engine, progress logging, and events scheduled with an explicit sequence number, which no code of the repository does.
- Engine.Engine.ScheduleEvent: takes events without a sequence number of their own.
- Engine.Engine.Run: takes one input per iteration it makes, because the loop of the source need not end.
- Host names that start with "host-auto-" but carry no number, and the folding of case and blanks in zone names.
- Manager.Manager.InitializeFromScenario: asks for hosts with at least one core, which the loader checks, and for a new manager, which every caller makes just before (internal/simd/scenario_preflight.go:80, internal/simd/executor.go:691 and 950, internal/simd/scenario_run.go:48).
- Host utilisation, EvictResourceState beyond the queued requests it returns, and the memory and CPU usage windows of an instance.
- Random and sticky routing are modelled by an arbitrary draw and hash.
- ConfigHash, the efficiency score, the list of services that consume from brokers and the order of neighbours by capacity: they are parameters of the search, and the order may be any.
- BeamSearch.Search.Trim: the ranking inside a layer is any permutation, because sorting by a non-transitive comparison guarantees no more.
- Cancellation of a search through its context: it ends the search like a failed evaluation.
- Parsing of downstream target strings, and the mode names of asynchronous edges: both are given in the scenario of the graph model.
- Percentiles, point downsampling and retention in the metrics collector; HTTP, gRPC, configuration loading, calibration, the online controller and the command line: plumbing or straight-line arithmetic.
