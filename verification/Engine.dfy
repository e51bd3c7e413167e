/** The engine object of the event loop, proved to do what module Kernel says. */
module Engine {
  import opened Wrappers
  import opened EventQueue
  import opened Kernel

  class Engine {
    const limits: Limits
    const queue: Queue
    var now: int
    var counter: nat
    var processed: nat
    var guard: Guard
    var cancelled: bool
    ghost var handlersRun: nat
    ghost var scheduled: seq<Event>
    ghost var popped: seq<Event>
    ghost var dropped: nat
    ghost var discarded: multiset<Event>

    ghost predicate Valid()
      reads this, queue
    {
      queue.Valid()
    }

    /** The state of the loop while it goes on. */
    ghost function View(): Kernel
      reads this, queue
    {
      Kernel(queue.Contents(), now, counter, processed, guard, cancelled, Running, handlersRun, scheduled, popped, dropped, discarded)
    }

    constructor (limits: Limits, start: int)
      ensures Valid() && fresh(queue) && this.limits == limits && View() == NewKernel(start)
    {
      this.limits := limits;
      queue := new Queue();
      now, counter, processed, guard, cancelled := start, 0, 0, NoGuard, false;
      handlersRun, scheduled, popped, dropped, discarded := 0, [], [], 0, multiset{};
    }

    method TriggerGuardFailure(g: Guard)
      requires Valid()
      modifies this
      ensures Valid() && View() == Trip(old(View()), g)
    {
      if guard.NoGuard? {
        guard, cancelled := g, true;
      }
    }

    /** A limit refuses an event. */
    method Refuse(g: Guard)
      requires Valid()
      modifies this
      ensures Valid() && View() == Trip(old(View()), g).(dropped := old(dropped) + 1)
    {
      hide IsHeap;
      TriggerGuardFailure(g);
      dropped := dropped + 1;
    }

    method Enqueue(e: Event)
      requires Valid()
      modifies this`scheduled, queue
      ensures Valid() && View() == old(View()).(queue := old(queue.Contents()) + multiset{e}, scheduled := old(scheduled) + [e])
    {
      hide IsHeap;
      queue.Schedule(e);
      scheduled := scheduled + [e];
    }

    method ScheduleEvent(o: Order)
      requires Valid()
      modifies this, queue
      ensures Valid() && View() == ScheduleOrder(limits, old(View()), o)
    {
      hide IsHeap, Trip;
      counter := counter + 1;
      if limits.maxScheduled > 0 && counter > limits.maxScheduled {
        Refuse(ScheduledLimit);
        return;
      }
      if limits.maxQueue > 0 {
        var size := queue.Size();
        if size + 1 > limits.maxQueue {
          Refuse(QueueLimit);
          return;
        }
      }
      Enqueue(Event(o.kind, o.time, o.priority, counter));
    }

    /** What a handler does to the engine: it orders events one after the other. */
    method Handle(orders: seq<Order>)
      requires Valid()
      modifies this, queue
      ensures Valid() && View() == ScheduleAll(limits, old(View()), orders)
    {
      var n := 0;
      while n < |orders|
        invariant n <= |orders| && Valid()
        invariant View() == ScheduleAll(limits, old(View()), orders[..n])
      {
        ScheduleEvent(orders[n]);
        assert orders[..n + 1][..n] == orders[..n];
        n := n + 1;
      }
      assert orders[..n] == orders;
    }

    method Dispatch(endTime: int, i: Input, e: Event) returns (r: Result)
      requires Valid()
      modifies this, queue
      ensures Valid()
      ensures View().(result := r) == Dispatched(limits, endTime, old(View()), i, e)
    {
      hide IsHeap, ScheduleAll, ScheduleOrder;
      processed := processed + 1;
      if limits.maxProcessed > 0 && processed > limits.maxProcessed {
        TriggerGuardFailure(ProcessedLimit);
        return GuardError(guard);
      }
      if e.kind.SimulationEnd? && e.time < endTime {
        ScheduleEvent(EndOrder(endTime));
        return Running;
      }
      now := e.time;
      match e.kind {
        case SimulationEnd => return Ended;
        case Unhandled => return Running;
        case Handled(_) =>
          handlersRun := handlersRun + 1;
          Handle(i.orders);
          if i.exceeded { TriggerGuardFailure(Handlers); }
          return Running;
      }
    }

    /** The queue is emptied by a Stop. */
    method Empty()
      requires Valid()
      modifies queue, this`discarded
      ensures Valid() && View() == old(View()).(queue := multiset{}, discarded := old(discarded) + old(queue.Contents()))
    {
      hide IsHeap;
      discarded := discarded + queue.Contents();
      queue.Clear();
    }

    /** The iteration after its check for a cancellation. */
    method TakeNext(endTime: int, i: Input) returns (r: Result, ghost next: Option<Event>)
      requires Valid()
      modifies this, queue
      ensures Valid()
      ensures HandsOut(Seen(old(queue.Contents()), i), next)
      ensures View().(result := r) == Ask(limits, endTime, old(View()), i, next)
    {
      hide Dispatched, IsHeap, NothingQueued;
      if i.lateStop {
        cancelled := true;
        Empty();
        assert View() == Emptied(old(View()));
      }
      var event := Pop();
      next := event;
      if event.None? {
        r := Idle(endTime);
        return;
      }
      r := Dispatch(endTime, i, event.value);
    }

    /** The queue hands out its first event, which is then taken. */
    method Pop() returns (event: Option<Event>)
      requires Valid()
      modifies queue, this`popped
      ensures Valid() && HandsOut(old(queue.Contents()), event)
      ensures View() == if event.None? then old(View())
        else old(View()).(queue := old(queue.Contents()) - multiset{event.value}, popped := old(popped) + [event.value])
    {
      hide IsHeap, IsFirst;
      event := queue.Next();
      if event.Some? { popped := popped + [event.value]; }
    }

    method Idle(endTime: int) returns (r: Result)
      requires Valid()
      modifies this`now
      ensures Valid() && View().(result := r) == NothingQueued(endTime, old(View()))
    {
      if now >= endTime { return Ended; }
      if endTime - now < END_SLACK {
        now := endTime;
        return Ended;
      }
      return Running;
    }

    /** One iteration of the loop of Run. */
    method Iteration(endTime: int, i: Input) returns (r: Result, ghost next: Option<Event>)
      requires Valid()
      modifies this, queue
      ensures Valid()
      ensures HandsOut(Seen(old(queue.Contents()), i), next)
      ensures View().(result := r) == Iterate(limits, endTime, old(View()), i, next)
    {
      hide Ask, IsHeap, IsFirst;
      next := if |queue.events| == 0 || i.lateStop then None else Some(queue.events[0]);
      if |queue.events| > 0 { FirstOf(queue.events); }
      if i.overtime { TriggerGuardFailure(WallClock); }
      if !guard.NoGuard? { return GuardError(guard), next; }
      if cancelled || i.cancel {
        cancelled := true;
        if i.clear { Empty(); }
        return Cancelled, next;
      }
      r, next := TakeNext(endTime, i);
    }

    /** Run, with one input for each iteration it makes. */
    method Run(endTime: int, inputs: seq<Input>, ghost before: seq<Order>, ghost start: int)
      returns (r: Result, ghost states: seq<Kernel>, ghost turns: seq<Turn>)
      requires Valid() && View() == ScheduleAll(limits, NewKernel(start), before)
      modifies this, queue
      ensures Valid() && IsRun(limits, start, before, endTime, states, turns)
      ensures states[|turns|] == View().(result := r)
      ensures |turns| <= |inputs| && (r.Running? ==> |turns| == |inputs|)
      ensures forall j :: 0 <= j < |turns| ==> turns[j].input == inputs[j]
    {
      hide IsHeap, IsRun, Iterate, HandsOut, Seen, ScheduleAll, ScheduleOrder;
      ScheduleEvent(EndOrder(endTime));
      Started(limits, start, before, endTime);
      r, states, turns := Running, [View()], [];
      var n := 0;
      while r.Running? && n < |inputs|
        invariant n <= |inputs| && Valid() && |turns| == n
        invariant IsRun(limits, start, before, endTime, states, turns) && states[n] == View().(result := r)
        invariant forall j :: 0 <= j < n ==> turns[j].input == inputs[j]
      {
        ghost var next;
        r, next := Iteration(endTime, inputs[n]);
        Continue(limits, start, before, endTime, states, turns, Turn(inputs[n], next));
        states, turns := states + [View().(result := r)], turns + [Turn(inputs[n], next)];
        n := n + 1;
      }
    }
  }

  lemma Started(lim: Limits, start: int, before: seq<Order>, endTime: int)
    ensures IsRun(lim, start, before, endTime, [Enter(lim, start, before, endTime)], [])
  {
  }

  lemma Continue(lim: Limits, start: int, before: seq<Order>, endTime: int, states: seq<Kernel>, turns: seq<Turn>, turn: Turn)
    requires IsRun(lim, start, before, endTime, states, turns) && states[|turns|].result.Running?
    requires HandsOut(Seen(states[|turns|].queue, turn.input), turn.next)
    ensures |states| == |turns| + 1
    ensures IsRun(lim, start, before, endTime, states + [Iterate(lim, endTime, states[|turns|], turn.input, turn.next)], turns + [turn])
  {
    hide Iterate, HandsOut, Seen, Enter;
  }
}
