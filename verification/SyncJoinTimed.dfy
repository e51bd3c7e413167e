/**
  The join under the event loop: a run of the kernel whose handlers are those of the join.

  A kernel event may carry a join event, known by the sequence number of the former.  The
  handler that the loop runs for it takes exactly the carried event, and the orders it
  gives the kernel carry exactly the events that the join schedules.  A downstream timeout
  is ordered with priority 1, everything else with priority 0.
*/
module SyncJoinTimed {
  import opened Wrappers
  import opened SyncJoin
  import opened SyncJoinSteps
  import opened SyncJoinStuck
  import SyncJoinAlways
  import Loop = Kernel
  import Queue = EventQueue

  datatype Timed = Timed(join: State, kernel: Loop.Kernel, carried: map<int, Event>)

  /** One iteration of the loop, with the step of the join that its handler makes and what
      its orders carry; or the run manager lets go of a finalised request. */
  datatype Move =
    | Iteration(turn: Loop.Turn, step: Option<Step>, payloads: seq<Option<Event>>)
    | Evict(req: ReqId)

  function EventsOf(payloads: seq<Option<Event>>): multiset<Event> {
    if payloads == [] then multiset{}
    else
      var n := |payloads| - 1;
      EventsOf(payloads[..n]) + if payloads[n].Some? then multiset{payloads[n].value} else multiset{}
  }

  function PriorityOf(e: Event): int { if e.Timeout? then 1 else 0 }

  predicate OrdersCarry(orders: seq<Loop.Order>, payloads: seq<Option<Event>>) {
    && |payloads| == |orders|
    && forall i :: 0 <= i < |orders| && payloads[i].Some? ==>
         orders[i].kind.Handled? && orders[i].priority == PriorityOf(payloads[i].value)
  }

  /** The orders after number `counter` are numbered one by one. */
  function Payload(counter: nat, payloads: seq<Option<Event>>, n: int): Option<Event> {
    if counter < n <= counter + |payloads| then payloads[n - counter - 1] else None
  }

  function Carrying(carried: map<int, Event>, counter: nat, payloads: seq<Option<Event>>): map<int, Event> {
    carried + map n | counter < n <= counter + |payloads| && Payload(counter, payloads, n).Some? :: Payload(counter, payloads, n).value
  }

  /** What the event that the loop takes carries. */
  function Carries(t: Timed, e: Queue.Event): multiset<Event> {
    if e.sequence in t.carried then multiset{t.carried[e.sequence]} else multiset{}
  }

  /** What is fixed for a run: the retry policy, the guardrails, the span of simulated time
      and what is scheduled before the loop starts. */
  datatype Setting = Setting(cfg: Config, lim: Loop.Limits, start: int, before: seq<Loop.Order>, endTime: int)

  ghost predicate Iterates(g: Setting, k: Loop.Kernel, turn: Loop.Turn, k': Loop.Kernel) {
    && k.result.Running? && Loop.HandsOut(Loop.Seen(k.queue, turn.input), turn.next)
    && k' == Loop.Iterate(g.lim, g.endTime, k, turn.input, turn.next)
  }

  predicate RunsHandler(k: Loop.Kernel, k': Loop.Kernel) { k'.handlersRun > k.handlersRun }

  /** An iteration that makes no step of the join runs no handler, or one for an event that
      carries nothing. */
  ghost predicate LeavesJoin(t: Timed, m: Move, u: Timed)
    requires m.Iteration?
  {
    && u.join == t.join && u.carried == t.carried
    && (RunsHandler(t.kernel, u.kernel) ==> m.turn.next.Some? && Carries(t, m.turn.next.value) == multiset{})
  }

  ghost predicate MovesJoin(cfg: Config, t: Timed, m: Move, u: Timed)
    requires m.Iteration? && m.step.Some?
  {
    && RunsHandler(t.kernel, u.kernel) && m.turn.next.Some?
    && Wf(t.join) && Enabled(t.join, m.step.value) && Taken(m.step.value) == Carries(t, m.turn.next.value)
    && u.join == Apply(cfg, t.join, m.step.value)
    && OrdersCarry(m.turn.input.orders, m.payloads)
    && u.join.events == t.join.events - Taken(m.step.value) + EventsOf(m.payloads)
    && u.carried == Carrying(t.carried, t.kernel.counter, m.payloads)
  }

  ghost predicate TimedStep(g: Setting, t: Timed, m: Move, u: Timed) {
    match m
    case Evict(r) => Wf(t.join) && Enabled(t.join, Forget(r)) && u == t.(join := Apply(g.cfg, t.join, Forget(r)))
    case Iteration(turn, step, _) =>
      Iterates(g, t.kernel, turn, u.kernel) && if step.None? then LeavesJoin(t, m, u) else MovesJoin(g.cfg, t, m, u)
  }

  /** What is scheduled before the loop starts carries nothing: arrivals create the requests. */
  function Opening(g: Setting): Timed {
    Timed(EMPTY, Loop.Enter(g.lim, g.start, g.before, g.endTime), map[])
  }

  ghost predicate IsTimedRun(g: Setting, states: seq<Timed>, moves: seq<Move>) {
    && |states| == |moves| + 1
    && states[0] == Opening(g)
    && forall i :: 0 <= i < |moves| ==> TimedStep(g, states[i], moves[i], states[i + 1])
  }

  // --- A timed run is a run of the kernel and a run of the join -------------------

  function Turns(moves: seq<Move>): seq<Loop.Turn> {
    if moves == [] then []
    else
      var n := |moves| - 1;
      Turns(moves[..n]) + if moves[n].Evict? then [] else [moves[n].turn]
  }

  function Kernels(states: seq<Timed>, moves: seq<Move>): seq<Loop.Kernel>
    requires |states| == |moves| + 1
  {
    if moves == [] then [states[0].kernel]
    else
      var n := |moves| - 1;
      Kernels(states[..n + 1], moves[..n]) + if moves[n].Evict? then [] else [states[n + 1].kernel]
  }

  function StepOf(m: Move): Option<Step> {
    if m.Evict? then Some(Forget(m.req)) else m.step
  }

  function Steps(moves: seq<Move>): seq<Step> {
    if moves == [] then []
    else
      var n := |moves| - 1;
      Steps(moves[..n]) + if StepOf(moves[n]).Some? then [StepOf(moves[n]).value] else []
  }

  function Joins(states: seq<Timed>, moves: seq<Move>): seq<State>
    requires |states| == |moves| + 1
  {
    if moves == [] then [states[0].join]
    else
      var n := |moves| - 1;
      Joins(states[..n + 1], moves[..n]) + if StepOf(moves[n]).Some? then [states[n + 1].join] else []
  }

  lemma PrefixRun(g: Setting, states: seq<Timed>, moves: seq<Move>, n: nat)
    requires IsTimedRun(g, states, moves) && n <= |moves|
    ensures IsTimedRun(g, states[..n + 1], moves[..n])
  {
    hide TimedStep;
  }

  /** What a move does to the kernel. */
  lemma StepKernel(g: Setting, t: Timed, m: Move, u: Timed)
    requires TimedStep(g, t, m, u)
    ensures if m.Evict? then u.kernel == t.kernel else Iterates(g, t.kernel, m.turn, u.kernel)
  {
    hide Iterates, LeavesJoin, MovesJoin, Wf, Enabled, Apply;
  }

  /** What a move does to the join. */
  lemma StepJoin(g: Setting, t: Timed, m: Move, u: Timed)
    requires TimedStep(g, t, m, u)
    ensures if StepOf(m).None? then u.join == t.join
      else Wf(t.join) && Enabled(t.join, StepOf(m).value) && u.join == Apply(g.cfg, t.join, StepOf(m).value)
  {
    hide Iterates, Wf, Enabled, Apply, EventsOf, Carrying, OrdersCarry;
  }

  lemma KernelGoesOn(g: Setting, ks: seq<Loop.Kernel>, turns: seq<Loop.Turn>, turn: Loop.Turn, k': Loop.Kernel)
    requires Loop.IsRun(g.lim, g.start, g.before, g.endTime, ks, turns) && Iterates(g, ks[|turns|], turn, k')
    ensures Loop.IsRun(g.lim, g.start, g.before, g.endTime, ks + [k'], turns + [turn])
  {
    hide Loop.Iterate, Loop.HandsOut, Loop.Enter;
  }

  lemma {:induction false} TimedRunIsKernelRun(g: Setting, states: seq<Timed>, moves: seq<Move>)
    requires IsTimedRun(g, states, moves)
    ensures var ks := Kernels(states, moves);
      && Loop.IsRun(g.lim, g.start, g.before, g.endTime, ks, Turns(moves))
      && ks[|ks| - 1] == states[|moves|].kernel
    decreases |moves|
  {
    hide Loop.IsRun, Loop.Enter, Iterates, TimedStep;
    if moves == [] {
      KernelStarts(g);
    } else {
      var n := |moves| - 1;
      PrefixRun(g, states, moves, n);
      TimedRunIsKernelRun(g, states[..n + 1], moves[..n]);
      StepKernel(g, states[n], moves[n], states[n + 1]);
      if moves[n].Iteration? {
        KernelGoesOn(g, Kernels(states[..n + 1], moves[..n]), Turns(moves[..n]), moves[n].turn, states[n + 1].kernel);
      } else {
        assert Kernels(states, moves) == Kernels(states[..n + 1], moves[..n]) && Turns(moves) == Turns(moves[..n]);
      }
    }
  }

  lemma KernelStarts(g: Setting)
    ensures Loop.IsRun(g.lim, g.start, g.before, g.endTime, [Opening(g).kernel], [])
  {
    hide Loop.Enter;
  }

  lemma JoinGoesOn(cfg: Config, js: seq<State>, steps: seq<Step>, step: Step, s: State)
    requires IsRun(cfg, js, steps) && Wf(js[|steps|]) && Enabled(js[|steps|], step) && s == Apply(cfg, js[|steps|], step)
    ensures IsRun(cfg, js + [s], steps + [step])
  {
    hide Wf, Enabled, Apply;
  }

  /** The iterations that run a handler of the join, and the evictions, are a run of the
      join, so that everything proved of its runs holds of the loop. */
  lemma {:induction false} TimedRunIsRun(g: Setting, states: seq<Timed>, moves: seq<Move>)
    requires IsTimedRun(g, states, moves)
    ensures var js := Joins(states, moves);
      && IsRun(g.cfg, js, Steps(moves)) && |js| == |Steps(moves)| + 1
      && js[|js| - 1] == states[|moves|].join
    decreases |moves|
  {
    hide IsRun, Loop.Enter, TimedStep, Wf, Enabled, Apply;
    if moves == [] {
      JoinStarts(g.cfg);
    } else {
      var n := |moves| - 1;
      PrefixRun(g, states, moves, n);
      TimedRunIsRun(g, states[..n + 1], moves[..n]);
      StepJoin(g, states[n], moves[n], states[n + 1]);
      if StepOf(moves[n]).Some? {
        JoinGoesOn(g.cfg, Joins(states[..n + 1], moves[..n]), Steps(moves[..n]), StepOf(moves[n]).value, states[n + 1].join);
      } else {
        assert Joins(states, moves) == Joins(states[..n + 1], moves[..n]) && Steps(moves) == Steps(moves[..n]);
      }
    }
  }

  lemma JoinStarts(cfg: Config)
    ensures IsRun(cfg, [EMPTY], [])
  {
  }

  lemma TimedAlways(g: Setting, states: seq<Timed>, moves: seq<Move>, n: nat)
    requires IsTimedRun(g, states, moves) && n < |states|
    ensures SyncJoinAlways.Always(g.cfg, states[n].join)
  {
    hide TimedStep, IsRun, SyncJoinAlways.Always, Joins, Steps;
    PrefixRun(g, states, moves, n);
    TimedRunIsRun(g, states[..n + 1], moves[..n]);
    SyncJoinAlways.RunAlways(g.cfg, Joins(states[..n + 1], moves[..n]), Steps(moves[..n]), |Steps(moves[..n])|);
  }

  lemma {:induction false} TimedKept(g: Setting, states: seq<Timed>, moves: seq<Move>, i: nat, k: nat)
    requires IsTimedRun(g, states, moves) && i <= k < |states|
    ensures SyncJoinAlways.AllKept(states[i].join, states[k].join)
    decreases k
  {
    hide SyncJoinAlways.Always, SyncJoinAlways.AllKept, Apply, Enabled, Wf, TimedStep;
    SyncJoinAlways.SelfKept(states[k].join);
    if i < k {
      TimedKept(g, states, moves, i, k - 1);
      TimedAlways(g, states, moves, k - 1);
      StepJoin(g, states[k - 1], moves[k - 1], states[k]);
      if StepOf(moves[k - 1]).Some? {
        SyncJoinAlways.StepAlways(g.cfg, states[k - 1].join, StepOf(moves[k - 1]).value);
      }
      SyncJoinAlways.KeptTransitive(states[i].join, states[k - 1].join, states[k].join);
    }
  }

  // --- What only a timeout does ---------------------------------------------------

  /** The resolution chain changes no marks. */
  ghost predicate SameMarks(s: State, t: State) {
    forall r :: r in s.reqs ==> r in t.reqs && t.reqs[r].marks.waitTimedOut == s.reqs[r].marks.waitTimedOut
  }

  lemma MarksOn(s: State, t: State, u: State)
    requires SameMarks(s, t) && SameMarks(t, u)
    ensures SameMarks(s, u)
  {
  }

  lemma MarksPut(s: State, r: ReqId, q: Request)
    requires Wf(s) && r in s.reqs && q.parent == s.reqs[r].parent && q.marks.waitTimedOut == s.reqs[r].marks.waitTimedOut
    ensures SameMarks(s, Put(s, r, q)) && SameMarks(s, s)
  {
  }

  lemma NotifyMarks(s: State, c: ReqId, failed: bool)
    requires Wf(s) && c in s.reqs
    ensures SameMarks(s, Notify(s, c, failed))
    decreases c, 0
  {
    hide Join, SameMarks;
    var q := s.reqs[c];
    MarksPut(s, c, q.(resolved := true));
    MarksPut(s, c, Reported(q));
    if q.parent.Some? && !q.async && !q.resolved && q.parent.value in s.pending && s.pending[q.parent.value] > 0 {
      JoinMarks(Put(s, c, Reported(q)), KeyOf(q), failed, false);
      MarksOn(s, Put(s, c, Reported(q)), Notify(s, c, failed));
    }
  }

  lemma JoinMarks(s: State, key: CallKey, failed: bool, held: bool)
    requires Wf(s) && key.parent in s.reqs && key.parent in s.pending && s.pending[key.parent] > 0
    ensures SameMarks(s, Join(s, key, failed, held))
    decreases key.parent, 3
  {
    hide FinalizeFailure, FinalizeCompletion;
    var p := key.parent;
    var found := held || Lookup(s, p);
    var s0 := if failed && found then Put(s, p, s.reqs[p].(subtreeFailed := true)) else s;
    var s2 := s0.(calls := s0.calls[key := if failed then Broken else Succeeded], pending := s0.pending - {p});
    assert SameMarks(s, s2);
    if s.pending[p] <= 1 && found {
      FinalizeMarks(s2, p);
      MarksOn(s, s2, Join(s, key, failed, held));
    }
  }

  lemma FinalizeMarks(s: State, r: ReqId)
    requires Wf(s) && r in s.reqs
    ensures SameMarks(s, FinalizeFailure(s, r)) && SameMarks(s, FinalizeCompletion(s, r))
    decreases r, 2
  {
    hide Notify, SameMarks, FinalizeCompletion;
    CompletionIs(s, r);
    MarksPut(s, r, s.reqs[r]);
    FinishedMarks(s, r, Failed, true);
    FinishedMarks(s, r, EndStatus(s.reqs[r]), false);
  }

  lemma FinishedMarks(s: State, r: ReqId, status: Status, failed: bool)
    requires Wf(s) && r in s.reqs
    ensures var s1 := Put(s, r, Finished(s.reqs[r], status));
      r in s1.reqs && SameMarks(s, s1) && SameMarks(s, Notify(s1, r, failed))
    decreases r, 1
  {
    hide Notify, SameMarks;
    var s1 := Put(s, r, Finished(s.reqs[r], status));
    MarksPut(s, r, Finished(s.reqs[r], status));
    NotifyMarks(s1, r, failed);
    MarksOn(s, s1, Notify(s1, r, failed));
  }

  /** The request is marked as before and has no new timeout. */
  ghost predicate Spares(s: State, t: State, c: ReqId)
    requires c in s.reqs
  {
    c in t.reqs && t.reqs[c].marks.waitTimedOut == s.reqs[c].marks.waitTimedOut && t.events[Timeout(c)] <= s.events[Timeout(c)]
  }

  lemma ChainSpares(s: State, t: State, c: ReqId)
    requires SameMarks(s, t) && t.events == s.events && c in s.reqs
    ensures Spares(s, t, c)
  {
  }

  lemma IsolateSpares(s: State, r: ReqId, c: ReqId)
    requires Wf(s) && r in s.reqs && s.reqs[r].parent.Some? && c in s.reqs
    ensures Spares(s, Isolate(s, r), c)
  {
  }

  lemma FailStartSpares(cfg: Config, s: State, r: ReqId, finalize: bool, c: ReqId)
    requires Wf(s) && r in s.reqs && c in s.reqs
    ensures Spares(s, FailStart(cfg, s, r, finalize), c)
  {
    hide Notify, FinalizeFailure, Isolate, SameMarks;
    var s1 := Put(s, r, s.reqs[r].(status := Failed));
    if RetryApplies(cfg, s1, r) {
      IsolateSpares(s1, r, c);
    } else if finalize {
      FinalizeMarks(s1, r);
      ChainSpares(s1, FinalizeFailure(s1, r), c);
    } else {
      NotifyMarks(s1, r, true);
      ChainSpares(s1, Notify(s1, r, true), c);
    }
  }

  lemma StartSpares(cfg: Config, s: State, r: ReqId, o: StartOutcome, c: ReqId)
    requires Wf(s) && r in s.reqs && c in s.reqs
    ensures Spares(s, HandleStart(cfg, s, r, o), c)
  {
    hide FailStart;
    FailStartSpares(cfg, s, r, o.LocalFailure?, c);
  }

  lemma {:induction false} FanOutHasNoTimeout(p: ReqId, async: bool, overheads: seq<bool>, c: ReqId)
    ensures Timeout(c) !in FanOut(p, async, overheads)
  {
    if overheads != [] {
      FanOutHasNoTimeout(p, async, overheads[..|overheads| - 1], c);
    }
  }

  lemma FinalizeSpares(s: State, r: ReqId, c: ReqId)
    requires Wf(s) && r in s.reqs && c in s.reqs
    ensures Spares(s, FinalizeFailure(s, r), c) && Spares(s, FinalizeCompletion(s, r), c)
  {
    hide FinalizeFailure, FinalizeCompletion, Wf;
    FinalizeMarks(s, r);
    ChainSpares(s, FinalizeFailure(s, r), c);
    ChainSpares(s, FinalizeCompletion(s, r), c);
  }

  lemma FanOutSpares(s: State, r: ReqId, o: CompleteOutcome, c: ReqId)
    requires Wf(s) && r in s.reqs && c in s.reqs && !s.reqs[r].marks.localTimeout && !s.reqs[r].marks.cacheHit && o.Calls?
    ensures Spares(s, HandleComplete(s, r, o), c)
  {
    hide FinalizeFailure, FinalizeCompletion, FanOut, OpenedCalls;
    var s1 := s.(events := s.events + FanOut(r, true, o.asyncOverheads));
    FanOutHasNoTimeout(r, true, o.asyncOverheads, c);
    FanOutHasNoTimeout(r, false, o.syncOverheads, c);
    if o.syncOverheads == [] {
      FinalizeSpares(s1, r, c);
    }
  }

  lemma CompleteSpares(s: State, r: ReqId, o: CompleteOutcome, c: ReqId)
    requires Wf(s) && r in s.reqs && c in s.reqs
    ensures Spares(s, HandleComplete(s, r, o), c)
  {
    hide FinalizeFailure, FinalizeCompletion, FanOut, OpenedCalls;
    if s.reqs[r].marks.localTimeout || s.reqs[r].marks.cacheHit || o.NoCallList? {
      FinalizeSpares(s, r, c);
    } else {
      FanOutSpares(s, r, o, c);
    }
  }

  lemma SpawnSpares(cfg: Config, s: State, p: ReqId, k: nat, async: bool, attempt: nat, o: SpawnOutcome, c: ReqId)
    requires Wf(s) && p in s.reqs && c in s.reqs
    ensures Spares(s, Spawn(cfg, s, p, k, async, attempt, o), c)
  {
    hide FinalizeFailure, Isolate, SameMarks;
    if o.DependencyFailure? {
      var s1 := Entered(s, NewRequest(Some(p), k, async, attempt, Failed));
      IsolateSpares(s1, s.nextId, c);
      FinalizeMarks(s1, s.nextId);
      ChainSpares(s1, FinalizeFailure(s1, s.nextId), c);
    }
  }

  lemma TimeoutSpares(cfg: Config, s: State, r: ReqId, c: ReqId)
    requires Wf(s) && r in s.reqs && s.reqs[r].parent.Some? && c in s.reqs && c != r
    ensures Spares(s, HandleTimeout(cfg, s, r), c)
  {
    hide Notify, Isolate, SameMarks;
    var s1 := Put(s, r, s.reqs[r].(marks := s.reqs[r].marks.(waitTimedOut := true)));
    IsolateSpares(s1, r, c);
    NotifyMarks(s1, r, true);
    ChainSpares(s1, Notify(s1, r, true), c);
  }

  lemma OverheadStartSpares(cfg: Config, s: State, e: Event, ok: bool, c: ReqId)
    requires Wf(s) && e.OverheadStart? && e.parent in s.reqs && c in s.reqs
    ensures Spares(s, HandleOverheadStart(cfg, s, e, ok), c)
  {
    hide Join, SameMarks;
    if e.parent in s.pending && s.pending[e.parent] > 0 {
      JoinMarks(s, CallKey(e.parent, e.call), true, true);
      ChainSpares(s, Join(s, CallKey(e.parent, e.call), true, true), c);
    }
  }

  lemma CallSpares(cfg: Config, s: State, step: Step, c: ReqId)
    requires Wf(s) && Enabled(s, step) && c in s.reqs && (step.OnCall? || step.OnOverheadEnd?)
    ensures Spares(s.(events := s.events - Taken(step)), Apply(cfg, s, step), c)
  {
    hide Spawn, Taken, Wf;
    var s0 := s.(events := s.events - Taken(step));
    SameWf(s, s0);
    if step.OnCall? {
      SpawnSpares(cfg, s0, step.event.parent, step.event.call, step.event.async, 0, step.spawn, c);
    } else {
      SpawnSpares(cfg, s0, step.event.parent, step.event.call, step.event.async, step.event.attempt, step.spawn, c);
    }
  }

  lemma RetrySpares(cfg: Config, s: State, step: Step, c: ReqId)
    requires Wf(s) && Enabled(s, step) && c in s.reqs && step.OnRetry?
    ensures Spares(s.(events := s.events - Taken(step)), Apply(cfg, s, step), c)
  {
    hide Spawn, Taken, Wf;
    var s0 := s.(events := s.events - Taken(step));
    SameWf(s, s0);
    SpawnSpares(cfg, s0, step.event.parent, step.event.call, step.event.async, step.event.attempt, step.spawn, c);
  }

  lemma SameWf(s: State, t: State)
    requires Wf(s) && t == s.(events := t.events)
    ensures Wf(t)
  {
  }

  /** Only its own timeout marks a request as timed out, and no step adds a timeout for a
      request that exists already. */
  lemma StepSpares(cfg: Config, s: State, step: Step, c: ReqId)
    requires Wf(s) && Enabled(s, step) && c in s.reqs && step != OnTimeout(c)
    ensures Spares(s.(events := s.events - Taken(step)), Apply(cfg, s, step), c)
  {
    hide HandleStart, HandleComplete, HandleTimeout, Spawn, HandleOverheadStart, Taken;
    var s0 := s.(events := s.events - Taken(step));
    match step {
      case OnStart(r, o) => StartSpares(cfg, s0, r, o, c);
      case OnComplete(r, o) => CompleteSpares(s0, r, o, c);
      case OnCall(e, o) => CallSpares(cfg, s, step, c);
      case OnRetry(e, overhead, o) => RetrySpares(cfg, s, step, c);
      case OnOverheadStart(e, ok) => OverheadStartSpares(cfg, s0, e, ok, c);
      case OnOverheadEnd(e, o) => CallSpares(cfg, s, step, c);
      case OnTimeout(r) => TimeoutSpares(cfg, s0, r, c);
      case _ =>
    }
  }

  // --- The queue of the loop ------------------------------------------------------

  function OrderedEvent(o: Loop.Order, n: int): Queue.Event {
    Queue.Event(o.kind, o.time, o.priority, n)
  }

  /** The event is new and is what the order with its number asked for. */
  predicate IsOrdered(orders: seq<Loop.Order>, counter: nat, x: Queue.Event) {
    counter < x.sequence <= counter + |orders| && x == OrderedEvent(orders[x.sequence - counter - 1], x.sequence)
  }

  /** After the orders the queue holds nothing else that is new, and the rest of the kernel
      is as before. */
  ghost predicate Ordered(k: Loop.Kernel, orders: seq<Loop.Order>, t: Loop.Kernel) {
    && (forall x :: x in t.queue ==> x in k.queue || IsOrdered(orders, k.counter, x))
    && t.counter == k.counter + |orders| && t.handlersRun == k.handlersRun && t.now == k.now
  }

  lemma OrderOrders(lim: Loop.Limits, k: Loop.Kernel, o: Loop.Order)
    ensures Ordered(k, [o], Loop.ScheduleOrder(lim, k, o))
  {
  }

  lemma {:induction false} OrdersOrder(lim: Loop.Limits, k: Loop.Kernel, orders: seq<Loop.Order>)
    ensures Ordered(k, orders, Loop.ScheduleAll(lim, k, orders))
  {
    hide Loop.ScheduleOrder;
    if orders != [] {
      var n := |orders| - 1;
      OrdersOrder(lim, k, orders[..n]);
      OrderOrders(lim, Loop.ScheduleAll(lim, k, orders[..n]), orders[n]);
    }
  }

  /** What one iteration queues: the orders of the handler, or the end event again. */
  ghost predicate Queues(k: Loop.Kernel, turn: Loop.Turn, k': Loop.Kernel) {
    && k.counter <= k'.counter
    && (forall x :: x in k'.queue ==> x in k.queue || k.counter < x.sequence <= k'.counter)
    && (RunsHandler(k, k') ==>
          && turn.next.Some? && k'.counter == k.counter + |turn.input.orders| && k'.now == turn.next.value.time
          && forall x :: x in k'.queue ==> x in k.queue || IsOrdered(turn.input.orders, k.counter, x))
    && (turn.next.Some? ==> Queue.IsFirst(k.queue, turn.next.value))
  }

  /** An iteration that takes its event, `k1` being the kernel without it, and gives orders. */
  lemma OrderedQueues(k: Loop.Kernel, turn: Loop.Turn, k1: Loop.Kernel, orders: seq<Loop.Order>, t: Loop.Kernel)
    requires turn.next.Some? && Queue.IsFirst(k.queue, turn.next.value) && k1.queue <= k.queue && k1.counter == k.counter
    requires Ordered(k1, orders, t)
    requires RunsHandler(k, k1) ==> orders == turn.input.orders && k1.now == turn.next.value.time
    ensures Queues(k, turn, t)
  {
    hide Queue.IsFirst;
  }

  /** Queueing does not depend on the guard or the result. */
  lemma SameQueues(k: Loop.Kernel, turn: Loop.Turn, t: Loop.Kernel, t': Loop.Kernel)
    requires Queues(k, turn, t) && t'.queue == t.queue && t'.counter == t.counter && t'.handlersRun == t.handlersRun && t'.now == t.now
    ensures Queues(k, turn, t')
  {
    hide Queue.IsFirst;
  }

  lemma DispatchQueues(g: Setting, k: Loop.Kernel, turn: Loop.Turn)
    requires turn.next.Some? && Queue.IsFirst(k.queue, turn.next.value)
    ensures Queues(k, turn, Loop.Process(g.lim, g.endTime, k, turn.input, turn.next.value))
  {
    hide Loop.ScheduleAll, Loop.ScheduleOrder, Queue.IsFirst, Queues, Ordered;
    var e, t := turn.next.value, Loop.Process(g.lim, g.endTime, k, turn.input, turn.next.value);
    var k1 := Loop.Take(k, e);
    var k2 := k1.(now := e.time);
    if g.lim.maxProcessed > 0 && k1.processed > g.lim.maxProcessed {
      NoOrders(k1);
      OrderedQueues(k, turn, k1, [], k1);
      SameQueues(k, turn, k1, t);
    } else if e.kind.SimulationEnd? && e.time < g.endTime {
      OrderOrders(g.lim, k1, Loop.EndOrder(g.endTime));
      OrderedQueues(k, turn, k1, [Loop.EndOrder(g.endTime)], t);
    } else if e.kind.Handled? {
      var k3 := k2.(handlersRun := k.handlersRun + 1);
      OrdersOrder(g.lim, k3, turn.input.orders);
      OrderedQueues(k, turn, k3, turn.input.orders, Loop.ScheduleAll(g.lim, k3, turn.input.orders));
      SameQueues(k, turn, Loop.ScheduleAll(g.lim, k3, turn.input.orders), t);
    } else {
      NoOrders(k2);
      OrderedQueues(k, turn, k2, [], k2);
      SameQueues(k, turn, k2, t);
    }
  }

  lemma NoOrders(k: Loop.Kernel)
    ensures Ordered(k, [], k)
  {
  }

  lemma IterationQueues(g: Setting, k: Loop.Kernel, turn: Loop.Turn, k': Loop.Kernel)
    requires Iterates(g, k, turn, k')
    ensures Queues(k, turn, k')
  {
    hide Loop.Process;
    if turn.next.Some? {
      DispatchQueues(g, k, turn);
    }
  }

  // --- What is carried ------------------------------------------------------------

  ghost predicate CarriedOk(t: Timed) {
    && (forall x :: x in t.kernel.queue ==> x.sequence <= t.kernel.counter)
    && (forall n :: n in t.carried ==> n <= t.kernel.counter)
    && (forall x :: x in t.kernel.queue && x.sequence in t.carried ==> x.priority == PriorityOf(t.carried[x.sequence]))
  }

  /** The event was queued before, and what it carries is what it carried. */
  ghost predicate Older(t: Timed, u: Timed) {
    && (forall x :: x in u.kernel.queue && x.sequence <= t.kernel.counter ==> x in t.kernel.queue)
    && (forall n :: n <= t.kernel.counter && n in u.carried ==> n in t.carried && t.carried[n] == u.carried[n])
  }

  lemma OpeningOk(g: Setting)
    ensures CarriedOk(Opening(g))
  {
    hide Loop.ScheduleAll;
    var k0 := Loop.NewKernel(g.start);
    var k := Loop.ScheduleAll(g.lim, k0, g.before);
    OrdersOrder(g.lim, k0, g.before);
  }

  lemma StepCarriedOk(g: Setting, t: Timed, m: Move, u: Timed)
    requires TimedStep(g, t, m, u) && CarriedOk(t)
    ensures CarriedOk(u)
    ensures t.kernel.counter <= u.kernel.counter
    ensures Older(t, u)
  {
    hide Iterates, Wf, Enabled, Apply, Taken, EventsOf;
    if m.Iteration? {
      IterationQueues(g, t.kernel, m.turn, u.kernel);
    }
  }

  lemma {:induction false} RunCarriedOk(g: Setting, states: seq<Timed>, moves: seq<Move>, i: nat)
    requires IsTimedRun(g, states, moves) && i < |states|
    ensures CarriedOk(states[i])
  {
    hide TimedStep, CarriedOk;
    if i == 0 {
      OpeningOk(g);
    } else {
      RunCarriedOk(g, states, moves, i - 1);
      StepCarriedOk(g, states[i - 1], moves[i - 1], states[i]);
    }
  }

  /** What is queued later and is no newer was queued before, and carries the same. */
  lemma {:induction false} Traced(g: Setting, states: seq<Timed>, moves: seq<Move>, i: nat, k: nat)
    requires IsTimedRun(g, states, moves) && i <= k < |states|
    ensures states[i].kernel.counter <= states[k].kernel.counter
    ensures forall x :: x in states[k].kernel.queue && x.sequence <= states[i].kernel.counter ==> x in states[i].kernel.queue
    decreases k - i
  {
    hide CarriedOk, TimedStep;
    if i < k {
      RunCarriedOk(g, states, moves, k - 1);
      StepCarriedOk(g, states[k - 1], moves[k - 1], states[k]);
      Traced(g, states, moves, i, k - 1);
    }
  }

  // --- The deadline rule ----------------------------------------------------------

  lemma {:induction false} EventsOfMember(payloads: seq<Option<Event>>, i: nat)
    requires i < |payloads| && payloads[i].Some?
    ensures payloads[i].value in EventsOf(payloads)
  {
    if i < |payloads| - 1 {
      EventsOfMember(payloads[..|payloads| - 1], i);
    }
  }

  /** A step that is not the timeout of an existing request orders no timeout for it. */
  lemma OrdersNoTimeout(cfg: Config, t: Timed, m: Move, u: Timed, c: ReqId)
    requires m.Iteration? && m.step.Some? && MovesJoin(cfg, t, m, u) && c in t.join.reqs && m.step.value != OnTimeout(c)
    ensures Spares(t.join, u.join, c) && Timeout(c) !in EventsOf(m.payloads)
  {
    hide Wf, Enabled, Apply, Taken, EventsOf, Carrying, OrdersCarry, Carries;
    StepSpares(cfg, t.join, m.step.value, c);
  }

  /** The queued event is a timeout of the request. */
  predicate IsTimeoutOf(t: Timed, x: Queue.Event, c: ReqId) {
    x in t.kernel.queue && x.sequence in t.carried && t.carried[x.sequence] == Timeout(c)
  }

  lemma NewlyCarried(carried: map<int, Event>, counter: nat, payloads: seq<Option<Event>>, n: int)
    requires n in Carrying(carried, counter, payloads) && n > counter && n !in carried
    ensures n <= counter + |payloads| && payloads[n - counter - 1] == Some(Carrying(carried, counter, payloads)[n])
  {
  }

  lemma MoveOrdersNone(cfg: Config, t: Timed, m: Move, u: Timed, c: ReqId, x: Queue.Event)
    requires m.Iteration? && m.step.Some? && MovesJoin(cfg, t, m, u) && c in t.join.reqs && m.step.value != OnTimeout(c)
    requires (forall n :: n in t.carried ==> n <= t.kernel.counter) && Older(t, u) && IsTimeoutOf(u, x, c)
    ensures IsTimeoutOf(t, x, c)
  {
    hide Wf, Enabled, Apply, Taken, EventsOf, OrdersCarry, Carries, Carrying;
    OrdersNoTimeout(cfg, t, m, u, c);
    if x.sequence > t.kernel.counter {
      NewlyCarried(t.carried, t.kernel.counter, m.payloads, x.sequence);
      EventsOfMember(m.payloads, x.sequence - t.kernel.counter - 1);
    }
  }

  lemma NoNewTimeout(g: Setting, t: Timed, m: Move, u: Timed, c: ReqId)
    requires TimedStep(g, t, m, u) && CarriedOk(t) && c in t.join.reqs && StepOf(m) != Some(OnTimeout(c))
    ensures c in u.join.reqs && u.join.reqs[c].marks.waitTimedOut == t.join.reqs[c].marks.waitTimedOut
    ensures forall x :: IsTimeoutOf(u, x, c) ==> IsTimeoutOf(t, x, c)
  {
    StepCarriedOk(g, t, m, u);
    StepJoin(g, t, m, u);
    hide Iterates, Wf, Enabled, Apply, Taken, MovesJoin, IsTimeoutOf, Older;
    if StepOf(m).Some? {
      StepSpares(g.cfg, t.join, StepOf(m).value, c);
    }
    forall x | IsTimeoutOf(u, x, c) ensures IsTimeoutOf(t, x, c) {
      if m.Iteration? && m.step.Some? {
        MoveOrdersNone(g.cfg, t, m, u, c, x);
      } else {
        SameCarried(t, u, x, c);
      }
    }
  }

  lemma SameCarried(t: Timed, u: Timed, x: Queue.Event, c: ReqId)
    requires Older(t, u) && u.carried == t.carried && (forall n :: n in t.carried ==> n <= t.kernel.counter) && IsTimeoutOf(u, x, c)
    ensures IsTimeoutOf(t, x, c)
  {
  }

  /** The move takes the event `e` from the queue of the loop. */
  ghost predicate TakesEvent(m: Move, e: Queue.Event) {
    m.Iteration? && m.turn.next == Some(e)
  }

  lemma TakesFirst(g: Setting, t: Timed, m: Move, u: Timed, e: Queue.Event)
    requires TimedStep(g, t, m, u) && TakesEvent(m, e)
    ensures Queue.IsFirst(t.kernel.queue, e)
  {
    hide LeavesJoin, MovesJoin, Loop.Iterate;
  }

  /** A timeout step takes a timeout of the request that is first in the queue. */
  lemma TimeoutTaken(g: Setting, t: Timed, m: Move, u: Timed, c: ReqId)
    requires TimedStep(g, t, m, u) && CarriedOk(t) && StepOf(m) == Some(OnTimeout(c))
    ensures m.Iteration? && m.turn.next.Some?
    ensures var x := m.turn.next.value;
      IsTimeoutOf(t, x, c) && x.priority == 1 && Queue.IsFirst(t.kernel.queue, x) && u.kernel.now == x.time
  {
    hide Iterates, MovesJoin, CarriedOk;
    StepKernel(g, t, m, u);
    TakesCarried(g.cfg, t, m, u, c);
    IterationQueues(g, t.kernel, m.turn, u.kernel);
    PriorityKnown(t, m.turn.next.value);
  }

  lemma TakesCarried(cfg: Config, t: Timed, m: Move, u: Timed, c: ReqId)
    requires m.Iteration? && m.step == Some(OnTimeout(c)) && MovesJoin(cfg, t, m, u)
    ensures RunsHandler(t.kernel, u.kernel) && m.turn.next.Some?
    ensures var n := m.turn.next.value.sequence; n in t.carried && t.carried[n] == Timeout(c)
  {
    hide Wf, Enabled, Apply, EventsOf, Carrying, OrdersCarry;
    assert Timeout(c) in Taken(m.step.value);
  }

  lemma PriorityKnown(t: Timed, x: Queue.Event)
    requires CarriedOk(t) && x in t.kernel.queue && x.sequence in t.carried
    ensures x.priority == PriorityOf(t.carried[x.sequence])
  {
  }

  /** While an event of priority 0 for no later than the deadline is queued, the timeout is
      not taken. */
  lemma TimeoutWaits(g: Setting, t: Timed, m: Move, u: Timed, e: Queue.Event, c: ReqId)
    requires TimedStep(g, t, m, u) && CarriedOk(t) && e in t.kernel.queue && e.priority <= 0
    requires forall x :: IsTimeoutOf(t, x, c) ==> e.time <= x.time
    ensures StepOf(m) != Some(OnTimeout(c))
  {
    hide TimedStep, CarriedOk;
    if StepOf(m) == Some(OnTimeout(c)) {
      TimeoutTaken(g, t, m, u, c);
      assert false;
    }
  }

  /** Until the event is taken the timeout is not, the mark is not set, and the timeout stays
      where it was. */
  lemma {:induction false} UntilTaken(g: Setting, states: seq<Timed>, moves: seq<Move>, i: nat, j: nat, k: nat, e: Queue.Event, c: ReqId)
    requires IsTimedRun(g, states, moves) && i <= k <= j < |moves| && c in states[i].join.reqs
    requires e in states[i].kernel.queue && e.priority <= 0 && TakesEvent(moves[j], e)
    requires forall x :: IsTimeoutOf(states[i], x, c) ==> e.time <= x.time
    ensures c in states[k].join.reqs && states[k].join.reqs[c].marks.waitTimedOut == states[i].join.reqs[c].marks.waitTimedOut
    ensures StepOf(moves[k]) != Some(OnTimeout(c))
    ensures forall x :: IsTimeoutOf(states[k], x, c) ==> IsTimeoutOf(states[i], x, c)
    decreases k - i
  {
    hide CarriedOk, TimedStep, IsTimeoutOf, TakesEvent;
    RunCarriedOk(g, states, moves, i);
    RunCarriedOk(g, states, moves, k);
    NumberKnown(states[i], e);
    TakesFirst(g, states[j], moves[j], states[j + 1], e);
    Traced(g, states, moves, i, k);
    Traced(g, states, moves, k, j);
    if i < k {
      UntilTaken(g, states, moves, i, j, k - 1, e, c);
      RunCarriedOk(g, states, moves, k - 1);
      NoNewTimeout(g, states[k - 1], moves[k - 1], states[k], c);
    }
    TimeoutWaits(g, states[k], moves[k], states[k + 1], e, c);
  }

  lemma NumberKnown(t: Timed, x: Queue.Event)
    requires CarriedOk(t) && x in t.kernel.queue
    ensures x.sequence <= t.kernel.counter
  {
  }

  /** The deadline rule.  Let an event of priority 0 be queued for no later than the deadline
      of an attempt that has not timed out, and let the handler that the loop runs for it
      resolve the attempt.  Then the attempt is never marked as timed out, whatever else
      happens before or after, and its timeout, when it is taken, changes nothing. */
  lemma DeadlineRule(g: Setting, states: seq<Timed>, moves: seq<Move>, i: nat, j: nat, e: Queue.Event, c: ReqId, k: nat)
    requires IsTimedRun(g, states, moves) && i <= j < |moves| && i <= k < |states|
    requires c in states[i].join.reqs && !states[i].join.reqs[c].marks.waitTimedOut
    requires e in states[i].kernel.queue && e.priority <= 0
    requires forall x :: IsTimeoutOf(states[i], x, c) ==> e.time <= x.time
    requires TakesEvent(moves[j], e) && c in states[j + 1].join.reqs && states[j + 1].join.reqs[c].resolved
    ensures c in states[k].join.reqs && !states[k].join.reqs[c].marks.waitTimedOut
    ensures k < |moves| && StepOf(moves[k]) == Some(OnTimeout(c)) ==> states[k + 1].join == Without(states[k].join, Timeout(c))
  {
    hide TimedStep, CarriedOk, IsTimeoutOf, TakesEvent;
    UntilTaken(g, states, moves, i, j, j, e, c);
    if k <= j {
      UntilTaken(g, states, moves, i, j, k, e, c);
    } else {
      RunCarriedOk(g, states, moves, j);
      NoNewTimeout(g, states[j], moves[j], states[j + 1], c);
      ResolvedStays(g, states, moves, j + 1, k, c);
      if k < |moves| && StepOf(moves[k]) == Some(OnTimeout(c)) {
        StepJoin(g, states[k], moves[k], states[k + 1]);
        TimeoutIsNoOp(g.cfg, states[k].join, c);
      }
    }
  }

  lemma ResolvedStays(g: Setting, states: seq<Timed>, moves: seq<Move>, j: nat, k: nat, c: ReqId)
    requires IsTimedRun(g, states, moves) && j <= k < |states| && c in states[j].join.reqs && states[j].join.reqs[c].resolved
    ensures c in states[k].join.reqs && states[k].join.reqs[c].resolved
    ensures states[k].join.reqs[c].marks.waitTimedOut == states[j].join.reqs[c].marks.waitTimedOut
  {
    hide IsTimedRun;
    TimedKept(g, states, moves, j, k);
  }

  lemma TimeoutIsNoOp(cfg: Config, s: State, c: ReqId)
    requires Wf(s) && Enabled(s, OnTimeout(c)) && s.reqs[c].resolved
    ensures Apply(cfg, s, OnTimeout(c)) == Without(s, Timeout(c))
  {
  }

  /** Conversely an attempt is marked only by its own timeout, while it is unresolved, and
      then no event of priority 0 is left to do at or before that time. */
  lemma TimedOutLate(g: Setting, states: seq<Timed>, moves: seq<Move>, k: nat, c: ReqId)
    requires IsTimedRun(g, states, moves) && k < |moves| && c in states[k].join.reqs && c in states[k + 1].join.reqs
    requires !states[k].join.reqs[c].marks.waitTimedOut && states[k + 1].join.reqs[c].marks.waitTimedOut
    ensures StepOf(moves[k]) == Some(OnTimeout(c)) && !states[k].join.reqs[c].resolved
    ensures forall x :: x in states[k].kernel.queue && x.priority <= 0 ==> x.time > states[k + 1].kernel.now
  {
    hide TimedStep, CarriedOk, Wf, Enabled;
    RunCarriedOk(g, states, moves, k);
    if StepOf(moves[k]) != Some(OnTimeout(c)) {
      NoNewTimeout(g, states[k], moves[k], states[k + 1], c);
    } else {
      StepJoin(g, states[k], moves[k], states[k + 1]);
      if states[k].join.reqs[c].resolved { TimeoutIsNoOp(g.cfg, states[k].join, c); }
      TimeoutTaken(g, states[k], moves[k], states[k + 1], c);
    }
  }
}
