/**
  The event loop: scheduling under guardrails, and the iterations of Run.

  `scheduled`, `popped`, `dropped` and `discarded` are history that the engine does not read.
  A handler may schedule anything; what it schedules is part of the input of the
  iteration that runs it, so a statement about all inputs is one about all handlers.
*/
module Kernel {
  import opened Wrappers
  import opened EventQueue

  /** Non-positive values disable a limit. */
  datatype Limits = Limits(maxScheduled: int, maxProcessed: int, maxQueue: int)

  datatype Guard = NoGuard | ScheduledLimit | ProcessedLimit | QueueLimit | WallClock | Handlers

  datatype Result = Running | Ended | GuardError(guard: Guard) | Cancelled

  datatype Kernel = Kernel(
    queue: multiset<Event>,
    now: int,
    counter: nat,
    processed: nat,
    guard: Guard,
    cancelled: bool,
    result: Result,
    handlersRun: nat,
    scheduled: seq<Event>,
    popped: seq<Event>,
    dropped: nat,
    discarded: multiset<Event>)

  function NewKernel(start: int): Kernel {
    Kernel(multiset{}, start, 0, 0, NoGuard, false, Running, 0, [], [], 0, multiset{})
  }

  /** triggerGuardFailure: the first error is latched and cancels the run. */
  function Trip(k: Kernel, g: Guard): Kernel {
    if k.guard.NoGuard? then k.(guard := g, cancelled := true) else k
  }

  datatype Order = Order(kind: Kind, time: int, priority: int)

  /** ScheduleEvent, for an event without an explicit sequence. */
  function ScheduleOrder(lim: Limits, k: Kernel, o: Order): Kernel {
    var n := k.counter + 1;
    var k1 := k.(counter := n);
    if lim.maxScheduled > 0 && n > lim.maxScheduled then Trip(k1, ScheduledLimit).(dropped := k.dropped + 1)
    else if lim.maxQueue > 0 && |k.queue| + 1 > lim.maxQueue then Trip(k1, QueueLimit).(dropped := k.dropped + 1)
    else
      var e := Event(o.kind, o.time, o.priority, n);
      k1.(queue := k.queue + multiset{e}, scheduled := k.scheduled + [e])
  }

  function ScheduleAll(lim: Limits, k: Kernel, orders: seq<Order>): Kernel {
    if orders == [] then k
    else ScheduleOrder(lim, ScheduleAll(lim, k, orders[..|orders| - 1]), orders[|orders| - 1])
  }

  function EndOrder(endTime: int): Order { Order(SimulationEnd, endTime, 0) }

  /** What the outside contributes to one iteration: the wall clock, a cancellation seen by
      the loop's check (with the queue cleared when it came from Stop), a Stop that comes
      between the check and the look at the queue, the orders of the handler and whether it
      reports an exceeded limit of its own. */
  datatype Input = Input(overtime: bool, cancel: bool, clear: bool, lateStop: bool, orders: seq<Order>, exceeded: bool)

  /** Stop empties the queue. */
  function Emptied(k: Kernel): Kernel {
    k.(cancelled := true, queue := multiset{}, discarded := k.discarded + k.queue)
  }

  /** The queue as the iteration finds it. */
  function Seen(queue: multiset<Event>, i: Input): multiset<Event> {
    if i.lateStop then multiset{} else queue
  }

  const END_SLACK := 200_000_000  // 200 ms in nanoseconds

  /** One iteration of Run, `next` being what the queue hands out. */
  function Iterate(lim: Limits, endTime: int, k0: Kernel, i: Input, next: Option<Event>): Kernel {
    var k := if i.overtime then Trip(k0, WallClock) else k0;
    if !k.guard.NoGuard? then k.(result := GuardError(k.guard))
    else if k.cancelled || i.cancel then
      (if i.clear then Emptied(k) else k.(cancelled := true)).(result := Cancelled)
    else Ask(lim, endTime, k, i, next)
  }

  /** The part of the iteration after the check for a cancellation. */
  function Ask(lim: Limits, endTime: int, k: Kernel, i: Input, next: Option<Event>): Kernel {
    if next.None? then NothingQueued(endTime, if i.lateStop then Emptied(k) else k)
    else Process(lim, endTime, k, i, next.value)
  }

  /** An empty queue ends the run at or close to the end time, and is waited on otherwise. */
  function NothingQueued(endTime: int, k: Kernel): Kernel {
    if k.now >= endTime then k.(result := Ended)
    else if endTime - k.now < END_SLACK then k.(now := endTime, result := Ended)
    else k
  }

  /** The first event leaves the queue. */
  function Take(k: Kernel, e: Event): Kernel {
    k.(queue := k.queue - multiset{e}, popped := k.popped + [e], processed := k.processed + 1)
  }

  /** The part of the iteration after the event `e` was taken. */
  function Process(lim: Limits, endTime: int, k: Kernel, i: Input, e: Event): Kernel {
    Dispatched(lim, endTime, k.(queue := k.queue - multiset{e}, popped := k.popped + [e]), i, e)
  }

  function Dispatched(lim: Limits, endTime: int, k: Kernel, i: Input, e: Event): Kernel {
    var k1 := k.(processed := k.processed + 1);
    if lim.maxProcessed > 0 && k1.processed > lim.maxProcessed then
      Trip(k1, ProcessedLimit).(result := GuardError(Trip(k1, ProcessedLimit).guard))
    else if e.kind.SimulationEnd? && e.time < endTime then ScheduleOrder(lim, k1, EndOrder(endTime))
    else
      var k2 := k1.(now := e.time);
      match e.kind
      case SimulationEnd => k2.(result := Ended)
      case Unhandled => k2
      case Handled(_) =>
        var k3 := ScheduleAll(lim, k2.(handlersRun := k2.handlersRun + 1), i.orders);
        if i.exceeded then Trip(k3, Handlers) else k3
  }

  /** The queue hands out a first event, or nothing when it is empty. */
  ghost predicate HandsOut(queue: multiset<Event>, next: Option<Event>) {
    if next.None? then queue == multiset{} else IsFirst(queue, next.value)
  }

  /** The state in which Run enters its loop. */
  function Enter(lim: Limits, start: int, before: seq<Order>, endTime: int): Kernel {
    ScheduleOrder(lim, ScheduleAll(lim, NewKernel(start), before), EndOrder(endTime))
  }

  datatype Turn = Turn(input: Input, next: Option<Event>)

  /** A run: scheduling before Run, then iterations while the loop goes on. */
  ghost predicate IsRun(lim: Limits, start: int, before: seq<Order>, endTime: int, states: seq<Kernel>, turns: seq<Turn>): (run: bool)
    ensures run ==> |states| == |turns| + 1
  {
    && |states| == |turns| + 1
    && states[0] == Enter(lim, start, before, endTime)
    && forall j :: 0 <= j < |turns| ==>
         && states[j].result.Running?
         && HandsOut(Seen(states[j].queue, turns[j].input), turns[j].next)
         && states[j + 1] == Iterate(lim, endTime, states[j], turns[j].input, turns[j].next)
  }

  // --- The bookkeeping invariant --------------------------------------------------

  /** Sequence numbers increase in the order of scheduling. */
  ghost predicate Numbered(scheduled: seq<Event>, counter: nat) {
    && (forall j :: 0 <= j < |scheduled| ==> 0 < scheduled[j].sequence <= counter)
    && (forall i, j :: 0 <= i < j < |scheduled| ==> scheduled[i].sequence < scheduled[j].sequence)
  }

  /** What is scheduled is either queued, taken or discarded by a Stop, and only one of them. */
  ghost predicate Accounted(scheduled: seq<Event>, queue: multiset<Event>, popped: seq<Event>, discarded: multiset<Event>) {
    multiset(scheduled) == queue + multiset(popped) + discarded
  }

  /** Every scheduled event is accounted for, sequence numbers are unique, a dropped event has
      left an error behind, the processing limit bounds the handlers run, and a loop that goes
      on after a Stop finds nothing. */
  ghost predicate KernelOk(lim: Limits, k: Kernel): (ok: bool)
    ensures ok ==> Accounted(k.scheduled, k.queue, k.popped, k.discarded) && k.processed == |k.popped|
    ensures ok && k.result.Running? && k.discarded != multiset{} ==> k.queue == multiset{}
    ensures ok ==> (k.dropped > 0 ==> !k.guard.NoGuard?)
    ensures ok && lim.maxProcessed > 0 ==> k.handlersRun <= lim.maxProcessed && (k.result.Running? ==> k.processed <= lim.maxProcessed)
  {
    && Accounted(k.scheduled, k.queue, k.popped, k.discarded)
    && (k.discarded != multiset{} ==> k.cancelled && (k.result.Running? ==> k.queue == multiset{}))
    && Numbered(k.scheduled, k.counter)
    && (k.dropped > 0 ==> !k.guard.NoGuard?)
    && (!k.guard.NoGuard? ==> k.cancelled)
    && k.processed == |k.popped|
    && k.handlersRun <= k.processed
    && (lim.maxProcessed > 0 ==> k.handlersRun <= lim.maxProcessed)
    && (lim.maxProcessed > 0 && k.result.Running? ==> k.processed <= lim.maxProcessed)
  }

  lemma OrderKeeps(lim: Limits, k: Kernel, o: Order)
    requires KernelOk(lim, k) && k.discarded == multiset{}
    ensures KernelOk(lim, ScheduleOrder(lim, k, o)) && Extends(k, ScheduleOrder(lim, k, o))
  {
    hide Numbered, Accounted;
    NumberedNext(k.scheduled, k.counter, o);
    AccountedNext(k.scheduled, k.queue, k.popped, k.discarded, Event(o.kind, o.time, o.priority, k.counter + 1));
  }

  lemma NumberedNext(scheduled: seq<Event>, counter: nat, o: Order)
    requires Numbered(scheduled, counter)
    ensures Numbered(scheduled, counter + 1)
    ensures Numbered(scheduled + [Event(o.kind, o.time, o.priority, counter + 1)], counter + 1)
  {
  }

  lemma AccountedNext(scheduled: seq<Event>, queue: multiset<Event>, popped: seq<Event>, discarded: multiset<Event>, e: Event)
    requires Accounted(scheduled, queue, popped, discarded)
    ensures Accounted(scheduled + [e], queue + multiset{e}, popped, discarded)
  {
  }

  ghost predicate Extends(k: Kernel, t: Kernel) {
    && k.scheduled <= t.scheduled && t.popped == k.popped && t.result == k.result && t.now == k.now && k.queue <= t.queue
    && t.handlersRun == k.handlersRun && t.processed == k.processed
    && (k.guard.NoGuard? || t.guard == k.guard) && t.discarded == k.discarded
  }

  lemma {:induction false} OrdersKeep(lim: Limits, k: Kernel, orders: seq<Order>)
    requires KernelOk(lim, k) && k.discarded == multiset{}
    ensures KernelOk(lim, ScheduleAll(lim, k, orders))
    ensures Extends(k, ScheduleAll(lim, k, orders))
  {
    hide KernelOk;
    if orders != [] {
      var init, last := orders[..|orders| - 1], orders[|orders| - 1];
      OrdersKeep(lim, k, init);
      var t := ScheduleAll(lim, k, init);
      OrderKeeps(lim, t, last);
    }
  }

  lemma TakeKeeps(lim: Limits, k: Kernel, e: Event)
    requires KernelOk(lim, k) && e in k.queue
    ensures KernelOk(lim, Take(k, e).(result := Ended))
  {
  }

  // --- One iteration --------------------------------------------------------------

  /** The end event that Run schedules after `n` earlier orders. */
  function EndEvent(endTime: int, n: nat): Event { Event(SimulationEnd, endTime, 0, n + 1) }

  /** While the loop goes on without an error or a Stop the end event is queued, and nothing
      that comes after it has been taken. */
  ghost predicate EndWaits(k: Kernel, end: Event) {
    && (k.result.Running? && !k.cancelled ==> end in k.queue)
    && (forall x :: x in k.popped ==> !Less(end, x))
  }

  /** What one iteration did besides keeping the invariants. */
  ghost predicate Advanced(endTime: int, k: Kernel, t: Kernel, e: Event) {
    && t.popped == k.popped + [e]
    && k.scheduled <= t.scheduled
    && (t.result.Ended? ==> e.kind.SimulationEnd? && e.time == endTime && t.guard.NoGuard? && t.queue <= k.queue)
    && !t.result.Cancelled? && t.discarded == k.discarded
  }

  lemma TakenOk(lim: Limits, k: Kernel, e: Event)
    requires KernelOk(lim, k) && e in k.queue && k.result.Running? && k.discarded == multiset{}
    ensures KernelOk(lim, Trip(Take(k, e), ProcessedLimit).(result := GuardError(Trip(Take(k, e), ProcessedLimit).guard)))
    ensures (lim.maxProcessed <= 0 || k.processed + 1 <= lim.maxProcessed) ==>
      && KernelOk(lim, Take(k, e))
      && KernelOk(lim, Take(k, e).(now := e.time))
      && KernelOk(lim, Take(k, e).(now := e.time, result := Ended))
      && KernelOk(lim, Take(k, e).(now := e.time, handlersRun := k.handlersRun + 1))
  {
    hide Numbered, Accounted;
    TakeKeeps(lim, k, e);
  }

  lemma TripKeeps(lim: Limits, k: Kernel, g: Guard)
    requires KernelOk(lim, k)
    ensures KernelOk(lim, Trip(k, g))
  {
    hide Numbered, Accounted;
  }

  lemma ProcessOk(lim: Limits, endTime: int, k: Kernel, i: Input, e: Event)
    requires KernelOk(lim, k) && k.result.Running? && !k.cancelled && e in k.queue
    ensures var t := Process(lim, endTime, k, i, e);
      KernelOk(lim, t) && k.scheduled <= t.scheduled && t.popped == k.popped + [e] && k.queue - multiset{e} <= t.queue
  {
    hide ScheduleAll, ScheduleOrder, KernelOk, Accounted;
    TakenOk(lim, k, e);
    if lim.maxProcessed <= 0 || k.processed + 1 <= lim.maxProcessed {
      OrderKeeps(lim, Take(k, e), EndOrder(endTime));
      var k2 := Take(k, e).(now := e.time, handlersRun := k.handlersRun + 1);
      OrdersKeep(lim, k2, i.orders);
      TripKeeps(lim, ScheduleAll(lim, k2, i.orders), Handlers);
    }
  }

  lemma ProcessResult(lim: Limits, endTime: int, k: Kernel, i: Input, e: Event)
    requires KernelOk(lim, k) && k.result.Running? && !k.cancelled && e in k.queue
    ensures var t := Process(lim, endTime, k, i, e);
      && (t.result.Running? || t.result.Ended? || t.result.GuardError?)
      && (t.result.Running? ==> !(e.kind.SimulationEnd? && e.time >= endTime))
      && (t.result.Ended? ==> e.kind.SimulationEnd? && e.time >= endTime && t.guard.NoGuard? && t.queue <= k.queue)
      && t.discarded == k.discarded
  {
    hide ScheduleAll, ScheduleOrder, KernelOk, Accounted;
    GuardCancels(lim, k);
    TakenOk(lim, k, e);
    if lim.maxProcessed <= 0 || k.processed + 1 <= lim.maxProcessed {
      OrderKeeps(lim, Take(k, e), EndOrder(endTime));
      OrdersKeep(lim, Take(k, e).(now := e.time, handlersRun := k.handlersRun + 1), i.orders);
    }
  }

  lemma ProcessKeeps(lim: Limits, endTime: int, k: Kernel, i: Input, e: Event, end: Event)
    requires KernelOk(lim, k) && EndWaits(k, end) && k.result.Running? && !k.cancelled && IsFirst(k.queue, e)
    requires end.kind.SimulationEnd? && end.time == endTime
    ensures var t := Process(lim, endTime, k, i, e);
      KernelOk(lim, t) && EndWaits(t, end) && Advanced(endTime, k, t, e)
  {
    hide Process, KernelOk;
    ProcessOk(lim, endTime, k, i, e);
    ProcessResult(lim, endTime, k, i, e);
    assert e != end ==> end in k.queue - multiset{e};
  }

  lemma EmptiedOk(lim: Limits, endTime: int, k: Kernel)
    requires KernelOk(lim, k) && k.result.Running?
    ensures KernelOk(lim, Emptied(k).(result := Cancelled)) && KernelOk(lim, k.(cancelled := true, result := Cancelled))
    ensures KernelOk(lim, NothingQueued(endTime, Emptied(k)))
  {
    hide Numbered;
  }

  /** The iteration found the queue emptied by a Stop after its check. */
  ghost predicate Stopped(k: Kernel, t: Kernel) {
    && t.popped == k.popped && t.scheduled == k.scheduled && t.handlersRun == k.handlersRun
    && t.discarded == k.discarded + k.queue && t.cancelled && t.guard == k.guard
  }

  lemma IterateKeeps(lim: Limits, endTime: int, k: Kernel, turn: Turn, end: Event)
    requires KernelOk(lim, k) && EndWaits(k, end) && k.result.Running? && HandsOut(Seen(k.queue, turn.input), turn.next)
    requires end.kind.SimulationEnd? && end.time == endTime
    ensures var t := Iterate(lim, endTime, k, turn.input, turn.next);
      && EndWaits(t, end) && KernelOk(lim, t)
      && (t.result.Running? || t.result.Ended? ==>
            && !k.cancelled && k.guard.NoGuard?
            && if turn.input.lateStop then Stopped(k, t) else turn.next.Some? && Advanced(endTime, k, t, turn.next.value))
  {
    hide Process, KernelOk, EndWaits, Stopped, IsFirst;
    var i, t := turn.input, Iterate(lim, endTime, k, turn.input, turn.next);
    var k1 := if i.overtime then Trip(k, WallClock) else k;
    TripKeeps(lim, k, WallClock);
    GuardCancels(lim, k1);
    EmptiedOk(lim, endTime, k1);
    if k1.guard.NoGuard? && !(k1.cancelled || i.cancel) {
      assert k1 == k;
      EndIsQueued(k, end);
      if i.lateStop {
        NoneFromEmpty(turn.next);
        StoppedIs(endTime, k);
        StillWaits(k, t, end);
      } else {
        ProcessKeeps(lim, endTime, k, i, turn.next.value, end);
      }
    } else {
      StillWaits(k, t, end);
    }
  }

  lemma NoneFromEmpty(next: Option<Event>)
    requires HandsOut(multiset{}, next)
    ensures next.None?
  {
  }

  lemma EndIsQueued(k: Kernel, end: Event)
    requires EndWaits(k, end) && k.result.Running? && !k.cancelled
    ensures end in k.queue
  {
  }

  lemma StillWaits(k: Kernel, t: Kernel, end: Event)
    requires EndWaits(k, end) && t.popped == k.popped && (t.cancelled || !t.result.Running?)
    ensures EndWaits(t, end)
  {
  }

  lemma StoppedIs(endTime: int, k: Kernel)
    ensures Stopped(k, NothingQueued(endTime, Emptied(k)))
    ensures NothingQueued(endTime, Emptied(k)).popped == k.popped && NothingQueued(endTime, Emptied(k)).cancelled
  {
  }

  lemma GuardCancels(lim: Limits, k: Kernel)
    requires KernelOk(lim, k) && k.result.Running?
    ensures !k.guard.NoGuard? ==> k.cancelled && KernelOk(lim, k.(result := GuardError(k.guard)))
    ensures k.discarded != multiset{} ==> k.cancelled
  {
    hide Numbered, Accounted;
  }

  // --- Whole runs -----------------------------------------------------------------

  lemma {:induction false} Counts(lim: Limits, k: Kernel, orders: seq<Order>)
    ensures ScheduleAll(lim, k, orders).counter == k.counter + |orders|
  {
    if orders != [] {
      Counts(lim, k, orders[..|orders| - 1]);
    }
  }

  lemma EnterOk(lim: Limits, start: int, before: seq<Order>, endTime: int)
    ensures var k := Enter(lim, start, before, endTime);
      KernelOk(lim, k) && EndWaits(k, EndEvent(endTime, |before|)) && k.result.Running? && k.popped == []
  {
    var k0 := NewKernel(start);
    OrdersKeep(lim, k0, before);
    Counts(lim, k0, before);
    OrderKeeps(lim, ScheduleAll(lim, k0, before), EndOrder(endTime));
  }

  lemma {:induction false} RunOk(lim: Limits, start: int, before: seq<Order>, endTime: int, states: seq<Kernel>, turns: seq<Turn>, j: nat)
    requires IsRun(lim, start, before, endTime, states, turns) && j < |states|
    ensures EndWaits(states[j], EndEvent(endTime, |before|)) && KernelOk(lim, states[j])
  {
    hide KernelOk, EndWaits, Iterate;
    if j == 0 {
      EnterOk(lim, start, before, endTime);
    } else {
      RunOk(lim, start, before, endTime, states, turns, j - 1);
      IterateKeeps(lim, endTime, states[j - 1], turns[j - 1], EndEvent(endTime, |before|));
    }
  }

  /** The empty-queue branch of the loop is taken only if a Stop empties the queue after the
      loop's check: otherwise, whenever an iteration gets as far as asking for the next event,
      the end event is still there. */
  lemma NeverEmpty(lim: Limits, start: int, before: seq<Order>, endTime: int, states: seq<Kernel>, turns: seq<Turn>, j: nat)
    requires IsRun(lim, start, before, endTime, states, turns) && j < |turns| && !states[j].cancelled
    ensures turns[j].next.None? <==> turns[j].input.lateStop
    ensures EndEvent(endTime, |before|) in states[j].queue
  {
    RunOk(lim, start, before, endTime, states, turns, j);
  }

  /** When an event is taken, every event scheduled so far that comes before it has been
      taken already.  In particular priority-0 events at an instant, those scheduled at that
      instant included, all run before a priority-1 event (a downstream timeout) of that instant. */
  lemma TakenInOrder(lim: Limits, start: int, before: seq<Order>, endTime: int, states: seq<Kernel>, turns: seq<Turn>, j: nat, x: Event)
    requires IsRun(lim, start, before, endTime, states, turns) && j < |turns| && turns[j].next.Some?
    requires x in states[j].scheduled && Less(x, turns[j].next.value)
    ensures x in states[j].popped
  {
    RunOk(lim, start, before, endTime, states, turns, j);
    assert x in multiset(states[j].scheduled);
  }

  lemma DeadlineTie(lim: Limits, start: int, before: seq<Order>, endTime: int, states: seq<Kernel>, turns: seq<Turn>, j: nat, x: Event)
    requires IsRun(lim, start, before, endTime, states, turns) && j < |turns| && turns[j].next.Some?
    requires turns[j].next.value.priority == 1 && x in states[j].scheduled
    requires x.priority <= 0 && x.time <= turns[j].next.value.time
    ensures x in states[j].popped
  {
    TakenInOrder(lim, start, before, endTime, states, turns, j, x);
  }

  /** Events for one time with one priority are taken first come, first served: whatever was
      scheduled before the event taken has been taken already. */
  lemma FirstComeFirstServed(lim: Limits, start: int, before: seq<Order>, endTime: int, states: seq<Kernel>, turns: seq<Turn>, j: nat, a: nat, b: nat)
    requires IsRun(lim, start, before, endTime, states, turns) && j < |turns|
    requires a < b < |states[j].scheduled| && turns[j].next == Some(states[j].scheduled[b])
    requires states[j].scheduled[a].time == states[j].scheduled[b].time && states[j].scheduled[a].priority == states[j].scheduled[b].priority
    ensures states[j].scheduled[a] in states[j].popped
  {
    RunOk(lim, start, before, endTime, states, turns, j);
    TakenInOrder(lim, start, before, endTime, states, turns, j, states[j].scheduled[a]);
  }

  /** What is taken was scheduled, so the order of scheduling decides every tie. */
  lemma TakenWasScheduled(lim: Limits, start: int, before: seq<Order>, endTime: int, states: seq<Kernel>, turns: seq<Turn>, j: nat) returns (b: nat)
    requires IsRun(lim, start, before, endTime, states, turns) && j < |turns| && turns[j].next.Some?
    ensures b < |states[j].scheduled| && turns[j].next == Some(states[j].scheduled[b]) && states[j].scheduled[b] !in states[j].popped
  {
    RunOk(lim, start, before, endTime, states, turns, j);
    var e, k := turns[j].next.value, states[j];
    assert e in k.queue && e in multiset(k.scheduled);
    b :| 0 <= b < |k.scheduled| && k.scheduled[b] == e;
    NumberedOnce(lim, k, e);
  }

  /** When Run returns without an error nothing was dropped by a limit and no event after the
      end time was taken.  Every event scheduled strictly before the end time was taken if and
      only if no Stop emptied the queue in the last iteration, or none of them was left in it;
      without such a Stop the run ended with an end event at the end time. */
  lemma NormalReturn(lim: Limits, start: int, before: seq<Order>, endTime: int, states: seq<Kernel>, turns: seq<Turn>, j: nat)
    requires IsRun(lim, start, before, endTime, states, turns) && j < |turns| && states[j + 1].result.Ended?
    ensures states[j + 1].dropped == 0 && states[j + 1].guard.NoGuard?
    ensures AllTakenBefore(states[j + 1], endTime) <==> !turns[j].input.lateStop || NoneLeftBefore(states[j], endTime)
    ensures forall x :: x in states[j + 1].scheduled && x.time > endTime ==> x !in states[j + 1].popped
    ensures !turns[j].input.lateStop ==>
      turns[j].next.Some? && turns[j].next.value.kind.SimulationEnd? && turns[j].next.value.time == endTime
  {
    hide Iterate, KernelOk, Numbered;
    var end, k := EndEvent(endTime, |before|), states[j + 1];
    RunOk(lim, start, before, endTime, states, turns, j);
    RunOk(lim, start, before, endTime, states, turns, j + 1);
    IterateKeeps(lim, endTime, states[j], turns[j], end);
    if turns[j].input.lateStop {
      LeftBehind(lim, states[j], k, endTime);
    } else {
      TakenFirst(lim, states[j], k, turns[j].next.value, endTime);
    }
  }

  ghost predicate AllTakenBefore(k: Kernel, endTime: int) {
    forall x :: x in k.scheduled && x.time < endTime ==> x in k.popped
  }

  ghost predicate NoneLeftBefore(k: Kernel, endTime: int) {
    forall x :: x in k.queue ==> x.time >= endTime
  }

  lemma TakenFirst(lim: Limits, k: Kernel, t: Kernel, e: Event, endTime: int)
    requires KernelOk(lim, t) && IsFirst(k.queue, e) && Advanced(endTime, k, t, e) && t.result.Ended? && t.discarded == multiset{}
    ensures AllTakenBefore(t, endTime)
  {
    hide Numbered;
    forall x | x in t.scheduled && x.time < endTime ensures x in t.popped {
      assert x in multiset(t.scheduled);
    }
  }

  lemma LeftBehind(lim: Limits, k: Kernel, t: Kernel, endTime: int)
    requires KernelOk(lim, k) && KernelOk(lim, t) && Stopped(k, t) && k.discarded == multiset{} && k.result.Running?
    ensures AllTakenBefore(t, endTime) <==> NoneLeftBefore(k, endTime)
  {
    hide Numbered;
    forall x | x in k.scheduled ensures x in k.popped <==> x !in k.queue {
      assert x in multiset(k.scheduled);
      NumberedOnce(lim, k, x);
    }
    forall x | x in k.queue ensures x in k.scheduled {
      assert x in multiset(k.scheduled);
    }
  }

  lemma NumberedOnce(lim: Limits, k: Kernel, x: Event)
    requires KernelOk(lim, k)
    ensures multiset(k.scheduled)[x] <= 1
  {
    OnceIn(k.scheduled, k.counter, x);
  }

  lemma {:induction false} OnceIn(scheduled: seq<Event>, counter: nat, x: Event)
    requires Numbered(scheduled, counter)
    ensures multiset(scheduled)[x] <= 1
  {
    if scheduled != [] {
      var n := |scheduled| - 1;
      OnceIn(scheduled[..n], counter, x);
      assert scheduled == scheduled[..n] + [scheduled[n]];
      assert scheduled[n] !in scheduled[..n];
    }
  }

  /** A Stop in the last 200 milliseconds can make Run return as if it had ended normally,
      with an event before the end time never taken. */
  lemma LateStopLosesEvents()
    ensures exists lim, start, before, endTime, states: seq<Kernel>, turns ::
      && IsRun(lim, start, before, endTime, states, turns)
      && |turns| == 1 && states[1].result.Ended? && !AllTakenBefore(states[1], endTime)
  {
    hide ScheduleAll, ScheduleOrder, Less;
    var lim, a := Limits(0, 0, 0), Order(Handled("a"), 10, 0);
    var s0 := Enter(lim, 0, [a], 20);
    EnterWithOne(lim, a);
    var turn := Turn(Input(false, false, false, true, [], false), None);
    var s1 := Iterate(lim, 20, s0, turn.input, turn.next);
    assert IsRun(lim, 0, [a], 20, [s0, s1], [turn]);
    var ea := Event(a.kind, 10, 0, 1);
    assert ea in s1.scheduled && ea !in s1.popped;
    assert !AllTakenBefore([s0, s1][1], 20);
  }

  /** A queue that a Stop emptied ends the run if and only if less than 200 milliseconds are
      left, and then the clock stands at the end, or past it where it was past it already. */
  lemma IdleEnds(endTime: int, k: Kernel)
    requires k.result.Running?
    ensures var t := NothingQueued(endTime, k);
      && (t.result.Ended? <==> k.now > endTime - 200_000_000)
      && (t.result.Ended? ==> t.now == if k.now > endTime then k.now else endTime)
      && (!t.result.Ended? ==> t == k)
  {
  }

  /** At most MaxEventsProcessed handlers are run and the loop ends after at most two
      further iterations, whatever the handlers schedule. */
  lemma {:induction false} HandlersBounded(lim: Limits, start: int, before: seq<Order>, endTime: int, states: seq<Kernel>, turns: seq<Turn>, j: nat)
    requires IsRun(lim, start, before, endTime, states, turns) && j < |states| && lim.maxProcessed > 0
    ensures states[j].handlersRun <= lim.maxProcessed
    ensures states[j].result.Running? && !states[j].cancelled ==> j == |states[j].popped|
    ensures states[j].result.Running? ==> |states[j].popped| <= lim.maxProcessed && j <= |states[j].popped| + 1
    ensures j <= lim.maxProcessed + 2
  {
    hide Iterate, KernelOk, EndWaits, Enter;
    RunOk(lim, start, before, endTime, states, turns, j);
    if j == 0 {
      EnterOk(lim, start, before, endTime);
    } else {
      HandlersBounded(lim, start, before, endTime, states, turns, j - 1);
      RunOk(lim, start, before, endTime, states, turns, j - 1);
      IterateKeeps(lim, endTime, states[j - 1], turns[j - 1], EndEvent(endTime, |before|));
    }
  }

  // --- Errors and stops -----------------------------------------------------------

  lemma {:induction false} OrdersLatch(lim: Limits, k: Kernel, orders: seq<Order>)
    ensures var t := ScheduleAll(lim, k, orders); t.result == k.result && (k.guard.NoGuard? || t.guard == k.guard)
  {
    if orders != [] {
      OrdersLatch(lim, k, orders[..|orders| - 1]);
    }
  }

  /** The first error stays, and it is the one that is returned. */
  lemma IterateLatch(lim: Limits, endTime: int, k: Kernel, turn: Turn)
    ensures var t := Iterate(lim, endTime, k, turn.input, turn.next);
      && (k.guard.NoGuard? || t.guard == k.guard)
      && (k.result.Running? && t.result.GuardError? ==> t.result.guard == t.guard && !t.guard.NoGuard?)
  {
    hide ScheduleAll;
    if turn.next.Some? {
      var e := turn.next.value;
      OrdersLatch(lim, Take(k, e).(now := e.time, handlersRun := k.handlersRun + 1), turn.input.orders);
    }
  }

  /** In every run the error that is returned is the first that occurred. */
  lemma {:induction false} FirstErrorReturned(lim: Limits, start: int, before: seq<Order>, endTime: int, states: seq<Kernel>, turns: seq<Turn>, i: nat, j: nat)
    requires IsRun(lim, start, before, endTime, states, turns) && i <= j < |states| && !states[i].guard.NoGuard?
    ensures states[j].guard == states[i].guard
    ensures i < j && states[j].result.GuardError? ==> states[j].result.guard == states[i].guard
    decreases j
  {
    hide Iterate, HandsOut, Enter;
    if i < j {
      FirstErrorReturned(lim, start, before, endTime, states, turns, i, j - 1);
      IterateLatch(lim, endTime, states[j - 1], turns[j - 1]);
    }
  }

  /** An iteration that finds an error, the wall clock exceeded or a cancellation takes nothing
      and ends the run, with the error first. */
  lemma NothingTakenAfterStop(lim: Limits, start: int, before: seq<Order>, endTime: int, states: seq<Kernel>, turns: seq<Turn>, j: nat)
    requires IsRun(lim, start, before, endTime, states, turns) && j < |turns|
    requires turns[j].input.overtime || !states[j].guard.NoGuard? || states[j].cancelled || turns[j].input.cancel
    ensures var k, i, t := states[j], turns[j].input, states[j + 1];
      && t.popped == k.popped && t.handlersRun == k.handlersRun && j + 1 == |turns|
      && t.result == (if !k.guard.NoGuard? then GuardError(k.guard) else if i.overtime then GuardError(WallClock) else Cancelled)
  {
    hide Ask, HandsOut, Enter;
    assert !states[j + 1].result.Running?;
  }

  // --- Limits ---------------------------------------------------------------------

  /** Neither limit is ever exceeded, and every order was either queued or dropped. */
  ghost predicate WithinLimits(lim: Limits, k: Kernel) {
    && (lim.maxScheduled > 0 ==> |k.scheduled| <= lim.maxScheduled)
    && (lim.maxQueue > 0 ==> |k.queue| <= lim.maxQueue)
    && k.counter == |k.scheduled| + k.dropped
  }

  /** An order is dropped if and only if as many orders as allowed were made before, or the
      queue is full; a drop leaves an error, and any other order is queued as it was given. */
  lemma DroppedExactly(lim: Limits, k: Kernel, o: Order)
    requires WithinLimits(lim, k)
    ensures var t := ScheduleOrder(lim, k, o);
      && WithinLimits(lim, t)
      && if (lim.maxScheduled > 0 && |k.scheduled| + k.dropped >= lim.maxScheduled) || (lim.maxQueue > 0 && |k.queue| == lim.maxQueue) then
           t.dropped == k.dropped + 1 && t.queue == k.queue && t.scheduled == k.scheduled && !t.guard.NoGuard?
         else
           exists e :: t.queue == k.queue + multiset{e} && t.scheduled == k.scheduled + [e] && t.guard == k.guard
                       && e.kind == o.kind && e.time == o.time && e.priority == o.priority
  {
    var t, e := ScheduleOrder(lim, k, o), Event(o.kind, o.time, o.priority, k.counter + 1);
    if t.dropped == k.dropped {
      assert t.queue == k.queue + multiset{e} && t.scheduled == k.scheduled + [e];
    }
  }

  lemma {:induction false} OrdersWithin(lim: Limits, k: Kernel, orders: seq<Order>)
    requires WithinLimits(lim, k)
    ensures WithinLimits(lim, ScheduleAll(lim, k, orders))
  {
    hide WithinLimits;
    if orders != [] {
      var n := |orders| - 1;
      OrdersWithin(lim, k, orders[..n]);
      DroppedExactly(lim, ScheduleAll(lim, k, orders[..n]), orders[n]);
    }
  }

  lemma SameWithin(lim: Limits, k: Kernel, t: Kernel)
    requires WithinLimits(lim, k) && t.queue <= k.queue && t.scheduled == k.scheduled && t.counter == k.counter && t.dropped == k.dropped
    ensures WithinLimits(lim, t)
  {
    assert k.queue == t.queue + (k.queue - t.queue);
  }

  lemma ProcessWithin(lim: Limits, endTime: int, k: Kernel, i: Input, e: Event)
    requires WithinLimits(lim, k) && e in k.queue
    ensures WithinLimits(lim, Process(lim, endTime, k, i, e))
  {
    hide ScheduleAll, ScheduleOrder, WithinLimits;
    var t, k1 := Process(lim, endTime, k, i, e), Take(k, e);
    var k3 := k1.(now := e.time, handlersRun := k.handlersRun + 1);
    SameWithin(lim, k, k1);
    if lim.maxProcessed > 0 && k1.processed > lim.maxProcessed {
      SameWithin(lim, k1, t);
    } else if e.kind.SimulationEnd? && e.time < endTime {
      DroppedExactly(lim, k1, EndOrder(endTime));
    } else if e.kind.Handled? {
      SameWithin(lim, k1, k3);
      OrdersWithin(lim, k3, i.orders);
      SameWithin(lim, ScheduleAll(lim, k3, i.orders), t);
    } else {
      SameWithin(lim, k1, t);
    }
  }

  lemma IterateWithin(lim: Limits, endTime: int, k: Kernel, turn: Turn)
    requires WithinLimits(lim, k) && HandsOut(Seen(k.queue, turn.input), turn.next)
    ensures WithinLimits(lim, Iterate(lim, endTime, k, turn.input, turn.next))
  {
    hide Process, WithinLimits;
    var i, t := turn.input, Iterate(lim, endTime, k, turn.input, turn.next);
    var k1 := if i.overtime then Trip(k, WallClock) else k;
    if turn.next.Some? && k1.guard.NoGuard? && !k1.cancelled && !i.cancel {
      ProcessWithin(lim, endTime, k, i, turn.next.value);
    } else {
      SameWithin(lim, k, t);
    }
  }

  /** In every run the queue and the number of events scheduled stay within their limits. */
  lemma {:induction false} LimitsKept(lim: Limits, start: int, before: seq<Order>, endTime: int, states: seq<Kernel>, turns: seq<Turn>, j: nat)
    requires IsRun(lim, start, before, endTime, states, turns) && j < |states|
    ensures WithinLimits(lim, states[j])
  {
    hide ScheduleAll, ScheduleOrder, Iterate, HandsOut;
    if j == 0 {
      OrdersWithin(lim, NewKernel(start), before);
      DroppedExactly(lim, ScheduleAll(lim, NewKernel(start), before), EndOrder(endTime));
    } else {
      LimitsKept(lim, start, before, endTime, states, turns, j - 1);
      IterateWithin(lim, endTime, states[j - 1], turns[j - 1]);
    }
  }

  /** When the handlers never order an end event themselves, a normal return has taken
      exactly the events that come before the end event, and the end event. */
  lemma ExactlyBeforeEnd(lim: Limits, start: int, before: seq<Order>, endTime: int, states: seq<Kernel>, turns: seq<Turn>, j: nat, x: Event)
    requires IsRun(lim, start, before, endTime, states, turns) && j < |turns| && states[j + 1].result.Ended? && !turns[j].input.lateStop
    requires NoEnds(before) && forall i :: 0 <= i < |turns| ==> NoEnds(turns[i].input.orders)
    requires x in states[j + 1].scheduled
    ensures x in states[j + 1].popped <==> x == EndEvent(endTime, |before|) || Less(x, EndEvent(endTime, |before|))
  {
    hide Iterate, KernelOk;
    var end, k, e := EndEvent(endTime, |before|), states[j + 1], turns[j].next;
    RunOk(lim, start, before, endTime, states, turns, j);
    RunOk(lim, start, before, endTime, states, turns, j + 1);
    OnlyEnd(lim, start, before, endTime, states, turns, j);
    IterateKeeps(lim, endTime, states[j], turns[j], end);
    assert e.Some? && e.value in multiset(states[j].scheduled);
    assert e.value == end;
    TakenExactly(lim, k, x, end);
  }

  lemma TakenExactly(lim: Limits, k: Kernel, x: Event, end: Event)
    requires KernelOk(lim, k) && x in k.scheduled && end in k.scheduled && end in k.popped && k.discarded == multiset{}
    requires forall y :: y in k.popped ==> !Less(end, y)
    requires forall y :: y in k.queue ==> !Less(y, end)
    ensures x in k.popped <==> x == end || Less(x, end)
  {
    hide Numbered;
    assert x in multiset(k.scheduled);
    if x.sequence == end.sequence {
      SameNumber(lim, k, x, end);
    }
  }

  ghost predicate NoEnds(orders: seq<Order>) {
    forall o :: o in orders ==> !o.kind.SimulationEnd?
  }

  lemma SameNumber(lim: Limits, k: Kernel, x: Event, y: Event)
    requires KernelOk(lim, k) && x in k.scheduled && y in k.scheduled && x.sequence == y.sequence
    ensures x == y
  {
  }

  /** The only end event around is the one that Run scheduled. */
  lemma {:induction false} OnlyEnd(lim: Limits, start: int, before: seq<Order>, endTime: int, states: seq<Kernel>, turns: seq<Turn>, j: nat)
    requires IsRun(lim, start, before, endTime, states, turns) && j < |states|
    requires NoEnds(before) && forall i :: 0 <= i < |turns| ==> NoEnds(turns[i].input.orders)
    ensures forall x :: x in states[j].scheduled && x.kind.SimulationEnd? ==> x == EndEvent(endTime, |before|)
  {
    var end := EndEvent(endTime, |before|);
    if j == 0 {
      NoNewEnds(lim, NewKernel(start), before);
      Counts(lim, NewKernel(start), before);
    } else {
      OnlyEnd(lim, start, before, endTime, states, turns, j - 1);
      RunOk(lim, start, before, endTime, states, turns, j - 1);
      IterateNoEnds(lim, endTime, states[j - 1], turns[j - 1], end);
    }
  }

  lemma {:induction false} NoNewEnds(lim: Limits, k: Kernel, orders: seq<Order>)
    requires NoEnds(orders)
    ensures forall x :: x in ScheduleAll(lim, k, orders).scheduled && x.kind.SimulationEnd? ==> x in k.scheduled
  {
    if orders != [] {
      NoNewEnds(lim, k, orders[..|orders| - 1]);
    }
  }

  lemma IterateNoEnds(lim: Limits, endTime: int, k: Kernel, turn: Turn, end: Event)
    requires KernelOk(lim, k) && HandsOut(Seen(k.queue, turn.input), turn.next) && NoEnds(turn.input.orders)
    requires end.time == endTime
    requires forall x :: x in k.scheduled && x.kind.SimulationEnd? ==> x == end
    ensures forall x :: x in Iterate(lim, endTime, k, turn.input, turn.next).scheduled && x.kind.SimulationEnd? ==> x == end
  {
    hide ScheduleAll, KernelOk, Numbered;
    if turn.next.Some? {
      var e := turn.next.value;
      assert e in multiset(k.scheduled);
      var k1 := if turn.input.overtime then Trip(k, WallClock) else k;
      NoNewEnds(lim, Take(k1, e).(now := e.time, handlersRun := k.handlersRun + 1), turn.input.orders);
    }
  }

  // --- The clock ------------------------------------------------------------------

  /** No queued event lies in the past. */
  ghost predicate NothingPast(k: Kernel) {
    forall x :: x in k.queue ==> x.time >= k.now
  }

  /** An iteration that dispatches an event moves the clock to that event's time, whatever
      the clock showed; it does not go back if and only if nothing queued lies in the past. */
  lemma ClockStep(lim: Limits, endTime: int, k: Kernel, i: Input, e: Event)
    requires k.guard.NoGuard? && !k.cancelled && !i.overtime && !i.cancel && IsFirst(k.queue, e)
    requires !(lim.maxProcessed > 0 && k.processed + 1 > lim.maxProcessed) && !(e.kind.SimulationEnd? && e.time < endTime)
    ensures Iterate(lim, endTime, k, i, Some(e)).now == e.time
    ensures k.now <= Iterate(lim, endTime, k, i, Some(e)).now <==> NothingPast(k)
  {
    KeepsNow(lim, Take(k, e).(now := e.time, handlersRun := k.handlersRun + 1), i.orders);
  }

  lemma {:induction false} KeepsNow(lim: Limits, k: Kernel, orders: seq<Order>)
    ensures ScheduleAll(lim, k, orders).now == k.now
  {
    if orders != [] {
      KeepsNow(lim, k, orders[..|orders| - 1]);
    }
  }

  /** Everything is ordered for the time of ordering or later. */
  ghost predicate Causal(start: int, before: seq<Order>, endTime: int, turns: seq<Turn>) {
    && start <= endTime
    && (forall o :: o in before ==> o.time >= start)
    && (forall j, o :: 0 <= j < |turns| && turns[j].next.Some? && o in turns[j].input.orders ==> o.time >= turns[j].next.value.time)
  }

  lemma {:induction false} ClockMonotone(lim: Limits, start: int, before: seq<Order>, endTime: int, states: seq<Kernel>, turns: seq<Turn>, j: nat)
    requires IsRun(lim, start, before, endTime, states, turns) && Causal(start, before, endTime, turns) && j < |states|
    ensures NothingPast(states[j])
    ensures j > 0 ==> states[j - 1].now <= states[j].now
    ensures states[j].now <= endTime
  {
    hide Iterate, KernelOk, Enter, NothingPast;
    if j == 0 {
      EnterFuture(lim, start, before, endTime);
    } else {
      ClockMonotone(lim, start, before, endTime, states, turns, j - 1);
      RunOk(lim, start, before, endTime, states, turns, j - 1);
      IterateFuture(lim, endTime, states[j - 1], turns[j - 1], EndEvent(endTime, |before|));
    }
  }

  lemma EnterFuture(lim: Limits, start: int, before: seq<Order>, endTime: int)
    requires start <= endTime && forall o :: o in before ==> o.time >= start
    ensures NothingPast(Enter(lim, start, before, endTime)) && Enter(lim, start, before, endTime).now == start
  {
    hide ScheduleAll;
    OrdersFuture(lim, NewKernel(start), before, start);
  }

  lemma {:induction false} OrdersFuture(lim: Limits, k: Kernel, orders: seq<Order>, t: int)
    requires forall o :: o in orders ==> o.time >= t
    requires forall x :: x in k.queue ==> x.time >= t
    ensures forall x :: x in ScheduleAll(lim, k, orders).queue ==> x.time >= t
    ensures ScheduleAll(lim, k, orders).now == k.now
  {
    if orders != [] {
      OrdersFuture(lim, k, orders[..|orders| - 1], t);
    }
  }

  lemma ProcessFuture(lim: Limits, endTime: int, k: Kernel, i: Input, e: Event)
    requires IsFirst(k.queue, e) && NothingPast(k) && k.now <= e.time <= endTime
    requires forall o :: o in i.orders ==> o.time >= e.time
    ensures var t := Process(lim, endTime, k, i, e);
      NothingPast(t) && k.now <= t.now <= endTime
  {
    hide ScheduleAll;
    OrdersFuture(lim, Take(k, e).(now := e.time, handlersRun := k.handlersRun + 1), i.orders, e.time);
  }

  lemma IterateFuture(lim: Limits, endTime: int, k: Kernel, turn: Turn, end: Event)
    requires HandsOut(Seen(k.queue, turn.input), turn.next) && NothingPast(k) && EndWaits(k, end) && end.time == endTime && k.result.Running?
    requires k.now <= endTime
    requires turn.next.Some? ==> forall o :: o in turn.input.orders ==> o.time >= turn.next.value.time
    ensures var t := Iterate(lim, endTime, k, turn.input, turn.next);
      NothingPast(t) && k.now <= t.now <= endTime
  {
    hide Process;
    if !k.cancelled && turn.next.Some? {
      ProcessFuture(lim, endTime, k, turn.input, turn.next.value);
    }
  }

  /** Nothing stops a handler from ordering an event for the past; the clock then goes back. */
  lemma ClockGoesBack()
    ensures exists lim, start, before, endTime, states: seq<Kernel>, turns ::
      && IsRun(lim, start, before, endTime, states, turns)
      && |turns| == 2 && states[2].now < states[1].now
  {
    var lim, a, b := Limits(0, 0, 0), Order(Handled("a"), 10, 0), Order(Handled("b"), 5, 0);
    hide ScheduleAll, ScheduleOrder, Iterate;
    var quiet := Input(false, false, false, false, [], false);
    var s0 := Enter(lim, 0, [a], 20);
    var ea, end, eb := Event(a.kind, 10, 0, 1), EndEvent(20, 1), Event(b.kind, 5, 0, 3);
    EnterWithOne(lim, a);
    var t0, t1 := Turn(quiet.(orders := [b]), Some(ea)), Turn(quiet, Some(eb));
    var s1 := Iterate(lim, 20, s0, t0.input, t0.next);
    OneOrder(lim, s0, b, ea);
    var s2 := Iterate(lim, 20, s1, t1.input, t1.next);
    assert s1.queue == multiset{end, eb};
    ClockStep(lim, 20, s1, quiet, eb);
    assert eb in s1.queue;
    assert IsRun(lim, 0, [a], 20, [s0, s1, s2], [t0, t1]);
    assert [s0, s1, s2][2].now < [s0, s1, s2][1].now;
  }

  lemma EnterWithOne(lim: Limits, o: Order)
    requires lim == Limits(0, 0, 0)
    ensures var t := Enter(lim, 0, [o], 20);
      && t.queue == multiset{Event(o.kind, o.time, o.priority, 1), EndEvent(20, 1)}
      && t.now == 0 && t.counter == 2 && t.guard.NoGuard? && !t.cancelled && t.result.Running? && t.popped == []
      && t.scheduled == [Event(o.kind, o.time, o.priority, 1), EndEvent(20, 1)]
  {
    hide ScheduleAll;
    SingleOrder(lim, NewKernel(0), o);
  }

  lemma OneOrder(lim: Limits, k: Kernel, o: Order, e: Event)
    requires lim == Limits(0, 0, 0) && e.kind.Handled? && k.guard.NoGuard? && !k.cancelled
    ensures var t := Iterate(lim, 20, k, Input(false, false, false, false, [o], false), Some(e));
      && t.queue == k.queue - multiset{e} + multiset{Event(o.kind, o.time, o.priority, k.counter + 1)}
      && t.now == e.time && t.guard.NoGuard? && !t.cancelled && t.result == k.result
  {
    hide ScheduleAll;
    SingleOrder(lim, Take(k, e).(now := e.time, handlersRun := k.handlersRun + 1), o);
  }

  lemma SingleOrder(lim: Limits, k: Kernel, o: Order)
    ensures ScheduleAll(lim, k, [o]) == ScheduleOrder(lim, k, o)
  {
    hide ScheduleOrder;
    assert [o][..0] == [];
    assert ScheduleAll(lim, k, []) == k;
  }
}
