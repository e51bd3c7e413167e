/**
  What a step that drops an event leaves behind: no handler looks at the queue, so a run
  without the event is a run with it in which it is never taken.
*/
module SyncJoinStuck {
  import opened Wrappers
  import opened SyncJoin
  import opened SyncJoinInvariant
  import opened SyncJoinSteps
  import opened SyncJoinTheorems
  import opened SyncJoinRuns
  import opened SyncJoinPaths

  // --- Handlers do not look at the queue ------------------------------------------

  lemma NotifyCommutes(s: State, m: multiset<Event>, c: ReqId, failed: bool)
    requires Wf(s) && c in s.reqs
    ensures Notify(With(s, m), c, failed) == With(Notify(s, c, failed), m)
    decreases c, 0
  {
    hide Join;
    var q := s.reqs[c];
    if IsAwaited(q) && q.parent.value in s.pending && s.pending[q.parent.value] > 0 {
      JoinCommutes(Put(s, c, Reported(q)), m, KeyOf(q), failed, false);
    }
  }

  lemma JoinCommutes(s: State, m: multiset<Event>, key: CallKey, failed: bool, held: bool)
    requires Wf(s) && key.parent in s.reqs && key.parent in s.pending && s.pending[key.parent] > 0
    ensures Join(With(s, m), key, failed, held) == With(Join(s, key, failed, held), m)
    decreases key.parent, 2
  {
    hide FinalizeFailure, FinalizeCompletion;
    var p := key.parent;
    var found := held || Lookup(s, p);
    if s.pending[p] == 1 && found {
      var s0 := if failed then Put(s, p, s.reqs[p].(subtreeFailed := true)) else s;
      var s2 := s0.(calls := s0.calls[key := if failed then Broken else Succeeded], pending := s0.pending - {p});
      FailureCommutes(s2, m, p);
      CompletionCommutes(s2, m, p);
    }
  }

  lemma FailureCommutes(s: State, m: multiset<Event>, r: ReqId)
    requires Wf(s) && r in s.reqs
    ensures FinalizeFailure(With(s, m), r) == With(FinalizeFailure(s, r), m)
    decreases r, 1
  {
    hide Notify;
    NotifyCommutes(Put(s, r, Finished(s.reqs[r], Failed)), m, r, true);
  }

  lemma PutCommutes(s: State, m: multiset<Event>, r: ReqId, q: Request)
    requires Wf(s) && r in s.reqs && q.parent == s.reqs[r].parent
    ensures Put(With(s, m), r, q) == With(Put(s, r, q), m)
  {
  }

  lemma CompletionCommutes(s: State, m: multiset<Event>, r: ReqId)
    requires Wf(s) && r in s.reqs
    ensures FinalizeCompletion(With(s, m), r) == With(FinalizeCompletion(s, r), m)
    decreases r, 1
  {
    hide Notify, Put, With, FinalizeCompletion;
    var q := s.reqs[r];
    WithOnlyQueues(s, m);
    CompletionIs(s, r);
    CompletionIs(With(s, m), r);
    PutCommutes(s, m, r, Finished(q, EndStatus(q)));
    PutFound(s, r, Finished(q, EndStatus(q)));
    NotifyCommutes(Put(s, r, Finished(q, EndStatus(q))), m, r, false);
  }

  /** The status in which a completion leaves a request. */
  function EndStatus(q: Request): Status {
    if !q.marks.abandoned && q.status.Failed? then q.status else Completed
  }

  /** Does completing the request not concern its parent? */
  predicate EndsQuietly(q: Request) {
    q.marks.abandoned || q.status.Failed? || (q.marks.asyncTimedOut && q.async)
  }

  lemma CompletionIs(s: State, r: ReqId)
    requires Wf(s) && r in s.reqs
    ensures r in Put(s, r, Finished(s.reqs[r], EndStatus(s.reqs[r]))).reqs
    ensures var q := s.reqs[r];
      var s1 := Put(s, r, Finished(q, EndStatus(q)));
      FinalizeCompletion(s, r) == if q.finalized then s else if EndsQuietly(q) then s1 else Notify(s1, r, false)
  {
    hide Notify;
  }

  lemma WithOnlyQueues(s: State, m: multiset<Event>)
    ensures With(s, m).reqs == s.reqs && (Wf(s) ==> Wf(With(s, m)))
  {
  }

  lemma PutFound(s: State, r: ReqId, q: Request)
    requires Wf(s) && r in s.reqs && q.parent == s.reqs[r].parent
    ensures r in Put(s, r, q).reqs
  {
  }

  /** Two states with the same queue but for `m`. */
  lemma EventsCommute(s: State, m: multiset<Event>, more: multiset<Event>)
    ensures With(With(s, m), more) == With(With(s, more), m)
  {
    assert s.events + m + more == s.events + more + m;
  }

  lemma IsolateCommutes(s: State, m: multiset<Event>, c: ReqId)
    requires Wf(s) && c in s.reqs && s.reqs[c].parent.Some?
    ensures Isolate(With(s, m), c) == With(Isolate(s, c), m)
  {
    var q := s.reqs[c];
    EventsCommute(Put(s, c, q.(resolved := true)), m, multiset{Retry(q.parent.value, q.call, false, q.attempt + 1)});
  }

  lemma StartCommutes(cfg: Config, s: State, m: multiset<Event>, r: ReqId, o: StartOutcome)
    requires Wf(s) && r in s.reqs
    ensures HandleStart(cfg, With(s, m), r, o) == With(HandleStart(cfg, s, r, o), m)
  {
    hide Notify, FinalizeFailure, Isolate;
    var q := s.reqs[r];
    match o {
      case HandlerError =>
      case BeginError(hit) =>
      case Defer => EventsCommute(Put(s, r, q.(marks := q.marks.(deferred := true))), m, multiset{Start(r)});
      case Begin(lt, hit) =>
        EventsCommute(Put(s, r, Begun(q, lt, hit)), m, multiset{Complete(r)});
      case _ =>
        var s1 := Put(s, r, q.(status := Failed));
        if RetryApplies(cfg, s1, r) {
          IsolateCommutes(s1, m, r);
        }
        FailureCommutes(s1, m, r);
        NotifyCommutes(s1, m, r, true);
    }
  }

  lemma CompleteCommutes(s: State, m: multiset<Event>, r: ReqId, o: CompleteOutcome)
    requires Wf(s) && r in s.reqs
    ensures HandleComplete(With(s, m), r, o) == With(HandleComplete(s, r, o), m)
  {
    hide FinalizeFailure, FinalizeCompletion, FanOut, OpenedCalls;
    FailureCommutes(s, m, r);
    CompletionCommutes(s, m, r);
    if o.Calls? {
      var f, g := FanOut(r, true, o.asyncOverheads), FanOut(r, false, o.syncOverheads);
      EventsCommute(s, m, f);
      CompletionCommutes(With(s, f), m, r);
      assert s.events + m + f + g == s.events + f + g + m;
    }
  }

  lemma SpawnCommutes(cfg: Config, s: State, m: multiset<Event>, p: ReqId, k: nat, async: bool, attempt: nat, o: SpawnOutcome)
    requires Wf(s) && p in s.reqs
    ensures Spawn(cfg, With(s, m), p, k, async, attempt, o) == With(Spawn(cfg, s, p, k, async, attempt, o), m)
  {
    hide FinalizeFailure, Isolate;
    match o {
      case SpawnError =>
      case DependencyFailure(_) =>
        var s1 := Entered(s, NewRequest(Some(p), k, async, attempt, Failed));
        IsolateCommutes(s1, m, s.nextId);
        FailureCommutes(s1, m, s.nextId);
      case Spawned(timeout) => SpawnedCommutes(cfg, s, m, p, k, async, attempt, timeout);
    }
  }

  lemma SpawnedIs(cfg: Config, s: State, p: ReqId, k: nat, async: bool, attempt: nat, timeout: bool)
    requires Wf(s) && p in s.reqs
    ensures var c := s.nextId;
      Spawn(cfg, s, p, k, async, attempt, Spawned(timeout)) ==
        With(Entered(s, NewRequest(Some(p), k, async, attempt, Pending)), if timeout then multiset{Start(c), Timeout(c)} else multiset{Start(c)})
  {
    var c := s.nextId;
    assert timeout ==> s.events + multiset{Start(c)} + multiset{Timeout(c)} == s.events + multiset{Start(c), Timeout(c)};
    assert s.events + multiset{Start(c)} + multiset{} == s.events + multiset{Start(c)};
  }

  lemma SpawnedCommutes(cfg: Config, s: State, m: multiset<Event>, p: ReqId, k: nat, async: bool, attempt: nat, timeout: bool)
    requires Wf(s) && p in s.reqs
    ensures Spawn(cfg, With(s, m), p, k, async, attempt, Spawned(timeout)) == With(Spawn(cfg, s, p, k, async, attempt, Spawned(timeout)), m)
  {
    hide Spawn;
    SpawnedIs(cfg, s, p, k, async, attempt, timeout);
    SpawnedIs(cfg, With(s, m), p, k, async, attempt, timeout);
    EventsCommute(Entered(s, NewRequest(Some(p), k, async, attempt, Pending)), m, if timeout then multiset{Start(s.nextId), Timeout(s.nextId)} else multiset{Start(s.nextId)});
  }

  lemma TimeOutAsyncCommutes(cfg: Config, s: State, m: multiset<Event>, c: ReqId)
    requires Wf(s) && c in s.reqs && s.reqs[c].parent.Some?
    ensures TimeOutAsync(cfg, With(s, m), c) == With(TimeOutAsync(cfg, s, c), m)
  {
    hide Put;
    var q := s.reqs[c];
    PutCommutes(s, m, c, q.(marks := q.marks.(abandoned := true)));
    PutCommutes(s, m, c, q.(marks := q.marks.(asyncTimedOut := true)));
    EventsCommute(Put(s, c, q.(marks := q.marks.(abandoned := true))), m, multiset{Retry(q.parent.value, q.call, true, q.attempt + 1)});
  }

  lemma TimeOutSyncCommutes(cfg: Config, s: State, m: multiset<Event>, c: ReqId)
    requires Wf(s) && c in s.reqs && s.reqs[c].parent.Some?
    ensures TimeOutSync(cfg, With(s, m), c) == With(TimeOutSync(cfg, s, c), m)
  {
    hide Notify, Isolate;
    var q := s.reqs[c];
    var s1 := Put(s, c, q.(marks := q.marks.(waitTimedOut := true)));
    IsolateCommutes(s1, m, c);
    NotifyCommutes(s1, m, c, true);
  }

  lemma TimeoutCommutes(cfg: Config, s: State, m: multiset<Event>, c: ReqId)
    requires Wf(s) && c in s.reqs && s.reqs[c].parent.Some?
    ensures HandleTimeout(cfg, With(s, m), c) == With(HandleTimeout(cfg, s, c), m)
  {
    hide TimeOutSync, TimeOutAsync;
    TimeOutSyncCommutes(cfg, s, m, c);
    TimeOutAsyncCommutes(cfg, s, m, c);
  }

  lemma OverheadStartCommutes(cfg: Config, s: State, m: multiset<Event>, e: Event, ok: bool)
    requires Wf(s) && e.OverheadStart? && e.parent in s.reqs
    ensures HandleOverheadStart(cfg, With(s, m), e, ok) == With(HandleOverheadStart(cfg, s, e, ok), m)
  {
    hide Join;
    EventsCommute(s, m, multiset{Retry(e.parent, e.call, false, e.attempt + 1)});
    if e.parent in s.pending && s.pending[e.parent] > 0 {
      JoinCommutes(s, m, CallKey(e.parent, e.call), true, true);
    }
  }

  lemma OverheadEndCommutes(cfg: Config, s: State, m: multiset<Event>, e: Event, o: SpawnOutcome)
    requires Wf(s) && e.OverheadEnd? && e.parent in s.reqs
    ensures HandleOverheadEnd(cfg, With(s, m), e, o) == With(HandleOverheadEnd(cfg, s, e, o), m)
  {
    hide Spawn;
    EventsCommute(s, m, multiset{Call(e.parent, e.call, e.async)});
    SpawnCommutes(cfg, s, m, e.parent, e.call, e.async, e.attempt, o);
  }

  lemma RetryCommutes(cfg: Config, s: State, m: multiset<Event>, e: Event, overhead: bool, o: SpawnOutcome)
    requires Wf(s) && e.Retry? && e.parent in s.reqs
    ensures HandleRetry(cfg, With(s, m), e, overhead, o) == With(HandleRetry(cfg, s, e, overhead, o), m)
  {
    hide Spawn, EdgeEvents;
    EventsCommute(s, m, EdgeEvents(e.parent, e.call, e.async, e.attempt, true, true));
    SpawnCommutes(cfg, s, m, e.parent, e.call, e.async, e.attempt, o);
  }

  lemma ArriveCommutes(cfg: Config, s: State, m: multiset<Event>, accepted: bool)
    requires Wf(s)
    ensures Apply(cfg, With(s, m), Arrive(accepted)) == With(Apply(cfg, s, Arrive(accepted)), m)
  {
    var start := if accepted then multiset{Start(s.nextId)} else multiset{};
    assert s.events + m - multiset{} + start == s.events - multiset{} + start + m;
  }

  /** A step does the same with further events in the queue. */
  lemma ApplyCommutes(cfg: Config, s: State, m: multiset<Event>, step: Step)
    requires Wf(s) && Enabled(s, step) && Enabled(With(s, m), step)
    ensures Apply(cfg, With(s, m), step) == With(Apply(cfg, s, step), m)
  {
    hide HandleStart, HandleComplete, HandleTimeout, Spawn, HandleRetry, HandleOverheadStart, HandleOverheadEnd;
    if step.Arrive? {
      ArriveCommutes(cfg, s, m, step.accepted);
    } else {
      assert With(s, m).(events := With(s, m).events - Taken(step)) == With(s.(events := s.events - Taken(step)), m) by {
        assert s.events + m - Taken(step) == s.events - Taken(step) + m;
      }
      HandlersCommute(cfg, s.(events := s.events - Taken(step)), m, s, step);
    }
  }

  lemma HandlersCommute(cfg: Config, s0: State, m: multiset<Event>, s: State, step: Step)
    requires Wf(s) && Enabled(s, step) && s0 == s.(events := s.events - Taken(step)) && !step.Arrive?
    requires Enabled(With(s, m), step) && With(s, m).(events := With(s, m).events - Taken(step)) == With(s0, m)
    ensures Apply(cfg, With(s, m), step) == With(Apply(cfg, s, step), m)
  {
    hide HandleStart, HandleComplete, HandleTimeout, Spawn, HandleRetry, HandleOverheadStart, HandleOverheadEnd, Taken;
    match step {
      case OnStart(r, o) => StartCommutes(cfg, s0, m, r, o);
      case OnComplete(r, o) => CompleteCommutes(s0, m, r, o);
      case OnCall(e, o) => SpawnCommutes(cfg, s0, m, e.parent, e.call, e.async, 0, o);
      case OnRetry(e, overhead, o) => RetryCommutes(cfg, s0, m, e, overhead, o);
      case OnOverheadStart(e, ok) => OverheadStartCommutes(cfg, s0, m, e, ok);
      case OnOverheadEnd(e, o) => OverheadEndCommutes(cfg, s0, m, e, o);
      case OnTimeout(r) => TimeoutCommutes(cfg, s0, m, r);
      case Forget(r) =>
    }
  }

  // --- A dropped event is missed for ever -----------------------------------------

  /** Sound steps of a state keep the invariant of the state with one more event. */
  lemma {:induction false} DroppedStays(cfg: Config, s: State, e: Event, steps: seq<Step>, t: State)
    requires Wf(s) && Good(With(s, multiset{e}), false, {}, {}) && !e.OverheadStart? && Leads(cfg, s, false, steps, t)
    ensures Wf(t) && Good(With(t, multiset{e}), false, {}, {})
    decreases |steps|
  {
    hide Good, Wf, Apply, Sound;
    if steps != [] {
      StillEnabled(cfg, s, e, steps[0]);
      ApplyCommutes(cfg, s, multiset{e}, steps[0]);
      StepKeeps(cfg, With(s, multiset{e}), false, steps[0]);
      DroppedStays(cfg, Apply(cfg, s, steps[0]), e, steps[1..], t);
    }
  }

  lemma StillEnabled(cfg: Config, s: State, e: Event, step: Step)
    requires Enabled(s, step) && !e.OverheadStart?
    ensures Enabled(With(s, multiset{e}), step)
    ensures Sound(cfg, s, step) ==> Sound(cfg, With(s, multiset{e}), step)
  {
    assert s.events <= s.events + multiset{e};
  }

  /** What waits for the event: a request to move on, or a call to be attempted again. */
  ghost predicate Waits(t: State, e: Event) {
    if e.Start? || e.Complete? then e.req in t.reqs && !t.reqs[e.req].finalized && !t.reqs[e.req].status.Failed?
    else SpawnKey(e).Some? && SpawnKey(e).value in t.calls && t.calls[SpawnKey(e).value] == Open
  }

  lemma StillWaits(t: State, e: Event)
    requires Good(With(t, multiset{e}), false, {}, {}) && (e.Start? || e.Complete? || SpawnKey(e).Some?)
    ensures Waits(t, e)
  {
    hide CountersOk, RequestsOk;
    var u := With(t, multiset{e});
    assert e in u.events && EventOk(u, e);
    if SpawnKey(e).Some? {
      assert Live(u, Queued(e), SpawnKey(e).value);
    }
  }

  /** The event that a step which is not lossless drops: the one it takes or, after a start that
      fails once it has begun, the completion it does not schedule. */
  function DroppedBy(step: Step): Event
    requires step.OnStart? || step.OnComplete? || step.OnCall? || step.OnRetry? || step.OnOverheadEnd?
  {
    match step
    case OnStart(r, o) => if o.BeginError? then Complete(r) else Start(r)
    case OnComplete(r, _) => Complete(r)
    case OnCall(e, _) => e
    case OnRetry(e, _, _) => e
    case OnOverheadEnd(e, _) => e
  }

  /** The step that does the same and schedules the completion. */
  function Repaired(step: Step): Step
    requires step.OnStart? && step.start.BeginError?
  {
    OnStart(step.req, Begin(false, step.start.cacheHit))
  }

  lemma LossyDrops(cfg: Config, s: State, step: Step)
    requires Good(s, true, {}, {}) && Enabled(s, step) && !Lossless(s, step)
    ensures step.OnStart? || step.OnComplete? || step.OnCall? || step.OnRetry? || step.OnOverheadEnd?
    ensures var e := DroppedBy(step);
      && (e.Start? || e.Complete? || SpawnKey(e).Some?)
      && if step.OnStart? && step.start.BeginError?
         then With(Apply(cfg, s, step), multiset{e}) == Apply(cfg, s, Repaired(step))
         else Apply(cfg, s, step) == Without(s, e) && With(Apply(cfg, s, step), multiset{e}) == s
  {
    hide Good, FinalizeFailure, FinalizeCompletion;
    if step.OnStart? && step.start.BeginError? {
    } else {
      assert DroppedBy(step) in Taken(step);
    }
  }

  /** With the dropped event, nothing would be lost. */
  lemma DroppedOnly(cfg: Config, s: State, step: Step)
    requires Good(s, true, {}, {}) && Enabled(s, step) && !Lossless(s, step)
    ensures step.OnStart? || step.OnComplete? || step.OnCall? || step.OnRetry? || step.OnOverheadEnd?
    ensures Good(With(Apply(cfg, s, step), multiset{DroppedBy(step)}), false, {}, {}) && !DroppedBy(step).OverheadStart?
  {
    hide Good, Apply, Lossless;
    LossyDrops(cfg, s, step);
    Weaken(s);
    if step.OnStart? && step.start.BeginError? {
      StepKeeps(cfg, s, false, Repaired(step));
    }
  }

  /** After a step that drops an event, what waits for it waits in every sound continuation:
      the request is never finalised, or the call never resolved. */
  lemma DroppedForever(cfg: Config, s: State, step: Step, steps: seq<Step>, t: State)
    requires Good(s, true, {}, {}) && Enabled(s, step) && !Lossless(s, step)
    requires Leads(cfg, Apply(cfg, s, step), false, steps, t)
    ensures step.OnStart? || step.OnComplete? || step.OnCall? || step.OnRetry? || step.OnOverheadEnd?
    ensures Waits(Apply(cfg, s, step), DroppedBy(step)) && Waits(t, DroppedBy(step))
  {
    hide Good, Apply, Lossless, Leads, DroppedBy;
    LossyDrops(cfg, s, step);
    DroppedOnly(cfg, s, step);
    var s1, e := Apply(cfg, s, step), DroppedBy(step);
    StillWaits(s1, e);
    DroppedStays(cfg, s1, e, steps, t);
    StillWaits(t, e);
  }

  // --- Calls are only ever closed -------------------------------------------------

  function OpenSet(calls: map<CallKey, Outcome>): set<CallKey> {
    set key | key in calls && calls[key] == Open
  }

  /** Finalised requests stay so, known calls stay known, and no call is opened. */
  ghost predicate Advances(s: State, t: State) {
    && s.calls.Keys <= t.calls.Keys && OpenSet(t.calls) <= OpenSet(s.calls)
    && (forall r :: r in s.reqs ==> r in t.reqs && (s.reqs[r].finalized ==> t.reqs[r].finalized))
  }

  lemma AdvancesOn(s: State, t: State, u: State)
    requires Advances(s, t) && Advances(t, u)
    ensures Advances(s, u)
  {
  }

  lemma AdvancesPut(s: State, r: ReqId, q: Request)
    requires Wf(s) && r in s.reqs && q.parent == s.reqs[r].parent && (s.reqs[r].finalized ==> q.finalized)
    ensures Advances(s, Put(s, r, q)) && Advances(s, s)
  {
  }

  lemma NotifyAdvances(s: State, c: ReqId, failed: bool)
    requires Wf(s) && c in s.reqs
    ensures Advances(s, Notify(s, c, failed))
    decreases c, 0
  {
    hide Join, Advances;
    var q := s.reqs[c];
    AdvancesPut(s, c, q.(resolved := true));
    AdvancesPut(s, c, Reported(q));
    if IsAwaited(q) && q.parent.value in s.pending && s.pending[q.parent.value] > 0 {
      JoinAdvances(Put(s, c, Reported(q)), KeyOf(q), failed, false);
      AdvancesOn(s, Put(s, c, Reported(q)), Notify(s, c, failed));
    }
  }

  lemma JoinAdvances(s: State, key: CallKey, failed: bool, held: bool)
    requires Wf(s) && key.parent in s.reqs && key.parent in s.pending && s.pending[key.parent] > 0
    ensures Advances(s, Join(s, key, failed, held))
    decreases key.parent, 3
  {
    hide FinalizeFailure, FinalizeCompletion;
    var p := key.parent;
    var found := held || Lookup(s, p);
    var s0 := if failed && found then Put(s, p, s.reqs[p].(subtreeFailed := true)) else s;
    var s2 := s0.(calls := s0.calls[key := if failed then Broken else Succeeded], pending := s0.pending - {p});
    assert Advances(s, s2);
    if s.pending[p] <= 1 && found {
      FailureAdvances(s2, p);
      CompletionAdvances(s2, p);
      AdvancesOn(s, s2, Join(s, key, failed, held));
    }
  }

  lemma AdvancesFinal(s: State, t: State, r: ReqId)
    requires Advances(s, t) && r in s.reqs && s.reqs[r].finalized
    ensures r in t.reqs && t.reqs[r].finalized
  {
  }

  /** A request that is finalised and then reported stays finalised. */
  lemma FinishedAdvances(s: State, r: ReqId, status: Status, failed: bool)
    requires Wf(s) && r in s.reqs
    ensures var s1 := Put(s, r, Finished(s.reqs[r], status));
      && r in s1.reqs && Advances(s, s1) && s1.reqs[r].finalized
      && Advances(s, Notify(s1, r, failed)) && Notify(s1, r, failed).reqs[r].finalized
    decreases r, 1
  {
    hide Notify, Advances;
    var s1 := Put(s, r, Finished(s.reqs[r], status));
    AdvancesPut(s, r, Finished(s.reqs[r], status));
    NotifyAdvances(s1, r, failed);
    AdvancesOn(s, s1, Notify(s1, r, failed));
    AdvancesFinal(s1, Notify(s1, r, failed), r);
  }

  lemma FailureAdvances(s: State, r: ReqId)
    requires Wf(s) && r in s.reqs
    ensures Advances(s, FinalizeFailure(s, r)) && FinalizeFailure(s, r).reqs[r].finalized
    decreases r, 2
  {
    hide Notify, Advances;
    AdvancesPut(s, r, s.reqs[r]);
    FinishedAdvances(s, r, Failed, true);
  }

  lemma CompletionAdvances(s: State, r: ReqId)
    requires Wf(s) && r in s.reqs
    ensures Advances(s, FinalizeCompletion(s, r)) && FinalizeCompletion(s, r).reqs[r].finalized
    decreases r, 2
  {
    hide Notify, FinalizeCompletion, Advances;
    CompletionIs(s, r);
    AdvancesPut(s, r, s.reqs[r]);
    FinishedAdvances(s, r, EndStatus(s.reqs[r]), false);
  }
}
