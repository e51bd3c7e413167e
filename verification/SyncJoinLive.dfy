/**
  As long as nothing was dropped, every open call can be resolved and every unfinished
  request finalised; and a sound step keeps it so if and only if it drops nothing.
*/
module SyncJoinLive {
  import opened Wrappers
  import opened SyncJoin
  import opened SyncJoinInvariant
  import opened SyncJoinSteps
  import opened SyncJoinTheorems
  import opened SyncJoinRuns
  import opened SyncJoinPaths
  import opened SyncJoinStuck

  /** The steps lead to a state in which the call is closed, and open no call. */
  ghost predicate Resolves(cfg: Config, s: State, key: CallKey, steps: seq<Step>, t: State) {
    Leads(cfg, s, true, steps, t) && Advances(s, t) && key in t.calls && t.calls[key] != Open
  }

  lemma ResolvesAfter(cfg: Config, s: State, p: seq<Step>, s1: State, key: CallKey, q: seq<Step>, t: State)
    requires Leads(cfg, s, true, p, s1) && Advances(s, s1) && Resolves(cfg, s1, key, q, t)
    ensures Resolves(cfg, s, key, p + q, t)
  {
    hide Leads, Advances;
    LeadsOn(cfg, s, true, p, s1, q, t);
    AdvancesOn(s, s1, t);
  }

  lemma Shrinks(s: State, t: State, key: CallKey)
    requires Advances(s, t) && key in s.calls && s.calls[key] == Open && key in t.calls && t.calls[key] != Open
    ensures |OpenSet(t.calls)| < |OpenSet(s.calls)|
  {
    assert key in OpenSet(s.calls) && key !in OpenSet(t.calls);
    SmallerSet(OpenSet(t.calls), OpenSet(s.calls));
  }

  // --- A queued attempt fails at once ---------------------------------------------

  function Failing(e: Event): Step {
    if e.Call? then OnCall(e, DependencyFailure(false))
    else if e.Retry? then OnRetry(e, false, DependencyFailure(false))
    else OnOverheadEnd(e, DependencyFailure(false))
  }

  /** The parent of the call waits and is known. */
  ghost predicate Joinable(s: State, key: CallKey) {
    && key in s.calls && s.calls[key] == Open
    && key.parent in s.reqs && key.parent in s.pending && s.pending[key.parent] > 0 && key.parent !in s.gone
  }

  lemma SpawnFails(cfg: Config, s: State, key: CallKey, attempt: nat)
    requires Wf(s) && Joinable(s, key)
    ensures var t := Spawn(cfg, s, key.parent, key.index, false, attempt, DependencyFailure(false));
      key in t.calls && t.calls[key] != Open && Advances(s, t)
  {
    hide Join, Isolate, Advances;
    var q := NewRequest(Some(key.parent), key.index, false, attempt, Failed);
    var s1 := Entered(s, q);
    var s2 := Put(s1, s.nextId, Reported(Finished(q, Failed)));
    NotifyUnfolds(s1, s.nextId, Finished(q, Failed), true);
    JoinClosesCall(s2, key, true, false);
    JoinAdvances(s2, key, true, false);
    EnteredAdvances(s, q);
    AdvancesPut(s1, s.nextId, Reported(Finished(q, Failed)));
    AdvancesOn(s, s1, s2);
    AdvancesOn(s, s2, Join(s2, key, true, false));
  }

  lemma EnteredAdvances(s: State, q: Request)
    requires Wf(s) && (q.parent.Some? ==> q.parent.value in s.reqs)
    ensures Advances(s, Entered(s, q))
  {
  }

  lemma QueueAdvances(s: State, t: State)
    requires t == s.(events := t.events)
    ensures Advances(s, t)
  {
  }

  lemma FailsDirectly(cfg: Config, s: State, e: Event, key: CallKey)
    requires Ready(s, e, key) && Joinable(s, key) && (e.OverheadEnd? ==> e.fromRetry && s.events[StartOf(e)] == 0)
    ensures Resolves(cfg, s, key, [Failing(e)], Apply(cfg, s, Failing(e)))
  {
    hide Spawn, Leads, Advances;
    LeadsOne(cfg, s, true, Failing(e));
    var s0 := s.(events := s.events - Taken(Failing(e)));
    SpawnFails(cfg, s0, key, if e.Call? then 0 else e.attempt);
    QueueAdvances(s, s0);
    AdvancesOn(s, s0, Apply(cfg, s, Failing(e)));
  }

  lemma FailsAfterEnd(cfg: Config, s: State, e: Event, key: CallKey) returns (steps: seq<Step>, t: State)
    requires Ready(s, e, key) && Joinable(s, key) && (e.OverheadEnd? ==> s.events[StartOf(e)] == 0)
    ensures Resolves(cfg, s, key, steps, t)
  {
    hide Resolves, Apply, Leads;
    if e.OverheadEnd? && !e.fromRetry {
      var call := Call(e.parent, e.call, false);
      var s1 := EndsInCall(cfg, s, e, key);
      FailsDirectly(cfg, s1, call, key);
      t := Apply(cfg, s1, Failing(call));
      QueueAdvances(s, s1);
      ResolvesAfter(cfg, s, [OnOverheadEnd(e, SpawnError)], s1, key, [Failing(call)], t);
      steps := [OnOverheadEnd(e, SpawnError)] + [Failing(call)];
    } else {
      FailsDirectly(cfg, s, e, key);
      steps, t := [Failing(e)], Apply(cfg, s, Failing(e));
    }
  }

  lemma QueuedResolves(cfg: Config, s: State, e: Event, key: CallKey) returns (steps: seq<Step>, t: State)
    requires Ready(s, e, key) && Joinable(s, key)
    ensures Resolves(cfg, s, key, steps, t)
  {
    hide Resolves, Leads, Apply;
    if e.OverheadEnd? && s.events[StartOf(e)] == 1 {
      var s1 := PassesOverhead(cfg, s, e, key);
      var rest;
      rest, t := FailsAfterEnd(cfg, s1, e, key);
      QueueAdvances(s, s1);
      ResolvesAfter(cfg, s, [OnOverheadStart(StartOf(e), true)], s1, key, rest, t);
      steps := [OnOverheadStart(StartOf(e), true)] + rest;
    } else {
      steps, t := FailsAfterEnd(cfg, s, e, key);
    }
  }

  // --- A request runs to its end --------------------------------------------------

  const NO_CALLS := Calls([], [])

  lemma FinishingCompletion(s: State, r: ReqId)
    requires Wf(s) && r in s.reqs
    ensures HandleComplete(s, r, NO_CALLS) == if s.reqs[r].marks.localTimeout then FinalizeFailure(s, r) else FinalizeCompletion(s, r)
  {
    hide FinalizeFailure, FinalizeCompletion;
    assert FanOut(r, true, []) == multiset{};
    assert s.(events := s.events + multiset{}) == s;
  }

  lemma Finishes(cfg: Config, s: State, r: ReqId)
    requires Wf(s) && r in s.reqs && Complete(r) in s.events
    ensures var t := Apply(cfg, s, OnComplete(r, NO_CALLS));
      Leads(cfg, s, true, [OnComplete(r, NO_CALLS)], t) && Advances(s, t) && t.reqs[r].finalized
  {
    hide Leads, HandleComplete, FinalizeFailure, FinalizeCompletion;
    assert Complete(r) in Taken(OnComplete(r, NO_CALLS));
    LeadsOne(cfg, s, true, OnComplete(r, NO_CALLS));
    var s0 := s.(events := s.events - multiset{Complete(r)});
    FinishingCompletion(s0, r);
    FailureAdvances(s0, r);
    CompletionAdvances(s0, r);
  }

  /** A pending request begins, with a local timeout or not. */
  lemma BeginsWork(cfg: Config, s: State, r: ReqId, timeout: bool) returns (t: State)
    requires Wf(s) && r in s.reqs && Start(r) in s.events
    ensures Leads(cfg, s, true, [OnStart(r, Begin(timeout, false))], t)
    ensures Wf(t) && Complete(r) in t.events && r in t.reqs && t.calls == s.calls
    ensures t.reqs[r].parent == s.reqs[r].parent && t.reqs[r].call == s.reqs[r].call && t.reqs[r].async == s.reqs[r].async && t.reqs[r].resolved == s.reqs[r].resolved
    ensures Advances(s, t)
  {
    hide Leads;
    var step := OnStart(r, Begin(timeout, false));
    assert Start(r) in Taken(step);
    LeadsOne(cfg, s, true, step);
    t := Apply(cfg, s, step);
  }

  /** Finalising an attempt that is waited for closes its call. */
  lemma FinalizeCloses(s: State, c: ReqId, failed: bool)
    requires Wf(s) && c in s.reqs && IsAwaited(s.reqs[c]) && Joinable(s, KeyOf(s.reqs[c]))
    requires !s.reqs[c].finalized && !EndsQuietly(s.reqs[c])
    ensures var t := if failed then FinalizeFailure(s, c) else FinalizeCompletion(s, c);
      KeyOf(s.reqs[c]) in t.calls && t.calls[KeyOf(s.reqs[c])] != Open
  {
    hide Join, FinalizeCompletion, Notify;
    var q, key := s.reqs[c], KeyOf(s.reqs[c]);
    var q1 := Finished(q, if failed then Failed else Completed);
    CompletionIs(s, c);
    NotifyUnfolds(s, c, q1, failed);
    JoinClosesCall(Put(s, c, Reported(q1)), key, failed, false);
  }

  /** What a good state knows of an attempt that is waited for. */
  lemma AwaitedFacts(s: State, c: ReqId)
    requires Good(s, true, {}, {}) && c in s.reqs && IsAwaited(s.reqs[c])
    ensures Joinable(s, KeyOf(s.reqs[c])) && !s.reqs[c].finalized && !EndsQuietly(s.reqs[c]) && Driven(s, c)
    ensures KeyOf(s.reqs[c]).parent < c < s.nextId
  {
    hide EventsOk, Carried;
    assert RequestOk(s, c, {});
    assert Live(s, Child(c), KeyOf(s.reqs[c]));
    AtOpenCall(s, true, {}, {}, KeyOf(s.reqs[c]));
  }

  lemma CompletingResolves(cfg: Config, s: State, c: ReqId)
    requires Good(s, true, {}, {}) && c in s.reqs && IsAwaited(s.reqs[c]) && Complete(c) in s.events
    ensures Resolves(cfg, s, KeyOf(s.reqs[c]), [OnComplete(c, NO_CALLS)], Apply(cfg, s, OnComplete(c, NO_CALLS)))
  {
    hide Good, Leads, HandleComplete, FinalizeFailure, FinalizeCompletion;
    AwaitedFacts(s, c);
    Finishes(cfg, s, c);
    var s0 := s.(events := s.events - multiset{Complete(c)});
    FinishingCompletion(s0, c);
    FinalizeCloses(s0, c, s.reqs[c].marks.localTimeout);
  }

  lemma StartingResolves(cfg: Config, s: State, c: ReqId) returns (steps: seq<Step>, t: State)
    requires Good(s, true, {}, {}) && c in s.reqs && IsAwaited(s.reqs[c]) && Start(c) in s.events
    ensures Resolves(cfg, s, KeyOf(s.reqs[c]), steps, t)
  {
    hide Good, Leads, Resolves, Apply;
    var s1 := BeginsWork(cfg, s, c, true);
    LeadsKeeps(cfg, s, true, [OnStart(c, Begin(true, false))], s1);
    CompletingResolves(cfg, s1, c);
    t := Apply(cfg, s1, OnComplete(c, NO_CALLS));
    ResolvesAfter(cfg, s, [OnStart(c, Begin(true, false))], s1, KeyOf(s.reqs[c]), [OnComplete(c, NO_CALLS)], t);
    steps := [OnStart(c, Begin(true, false))] + [OnComplete(c, NO_CALLS)];
  }

  // --- Every open call can be resolved --------------------------------------------

  lemma {:induction false} CanResolve(cfg: Config, s: State, key: CallKey) returns (steps: seq<Step>, t: State)
    requires Good(s, true, {}, {}) && key in s.calls && s.calls[key] == Open
    ensures Resolves(cfg, s, key, steps, t)
    decreases |OpenSet(s.calls)|, if key.parent < s.nextId then s.nextId - key.parent else 0
  {
    hide Good, Leads, Resolves, Apply;
    var token := CarrierOf(s, key);
    AtOpenCall(s, true, {}, {}, key);
    match token {
      case Queued(e) =>
        QueuedIsReady(s, true, e, key);
        steps, t := QueuedResolves(cfg, s, e, key);
      case Child(c) =>
        AwaitedFacts(s, c);
        if Start(c) in s.events {
          steps, t := StartingResolves(cfg, s, c);
        } else if Complete(c) in s.events {
          CompletingResolves(cfg, s, c);
          steps, t := [OnComplete(c, NO_CALLS)], Apply(cfg, s, OnComplete(c, NO_CALLS));
        } else {
          var inner := OpenCallOf(s, c);
          steps, t := CanResolve(cfg, s, inner);
          ResolvesMeans(cfg, s, inner, steps, t);
          if t.calls[key] == Open {
            var rest, u := CanResolve(cfg, t, key);
            ResolvesAfter(cfg, s, steps, t, key, rest, u);
            steps, t := steps + rest, u;
          } else {
            ResolvesToo(cfg, s, inner, key, steps, t);
          }
        }
    }
  }

  lemma OpenCallOf(s: State, p: ReqId) returns (key: CallKey)
    requires Good(s, true, {}, {}) && p in s.pending
    ensures key in s.calls && s.calls[key] == Open && key.parent == p
  {
    assert PendingOk(s, p);
    key :| key in CallsAt(s.calls, p, Open);
  }

  lemma ResolvesMeans(cfg: Config, s: State, key: CallKey, steps: seq<Step>, t: State)
    requires Good(s, true, {}, {}) && Resolves(cfg, s, key, steps, t) && key in s.calls && s.calls[key] == Open
    ensures Leads(cfg, s, true, steps, t) && Good(t, true, {}, {}) && |OpenSet(t.calls)| < |OpenSet(s.calls)|
    ensures Advances(s, t) && s.calls.Keys <= t.calls.Keys && key in t.calls && t.calls[key] != Open
  {
    hide Good, Leads;
    LeadsKeeps(cfg, s, true, steps, t);
    Shrinks(s, t, key);
  }

  lemma {:induction false} SmallerSet<T>(a: set<T>, b: set<T>)
    requires a < b
    ensures |a| < |b|
  {
    var x :| x in b && x !in a;
    if a == {} {
      assert |b| == |b - {x}| + 1;
    } else {
      var y :| y in a;
      SmallerSet(a - {y}, b - {y});
    }
  }

  lemma ResolvesToo(cfg: Config, s: State, inner: CallKey, key: CallKey, steps: seq<Step>, t: State)
    requires Resolves(cfg, s, inner, steps, t) && key in t.calls && t.calls[key] != Open
    ensures Resolves(cfg, s, key, steps, t)
  {
  }

  // --- Every unfinished request can be finalised ----------------------------------

  ghost predicate FinalizedBy(cfg: Config, s: State, r: ReqId, steps: seq<Step>, t: State) {
    Leads(cfg, s, true, steps, t) && r in t.reqs && t.reqs[r].finalized
  }

  lemma {:induction false} CanFinalise(cfg: Config, s: State, r: ReqId) returns (steps: seq<Step>, t: State)
    requires Good(s, true, {}, {}) && r in s.reqs && !s.reqs[r].finalized && !s.reqs[r].status.Failed?
    ensures FinalizedBy(cfg, s, r, steps, t)
    decreases |OpenSet(s.calls)|
  {
    hide Good, Leads, Resolves, Apply;
    Moves(s, r);
    if Start(r) in s.events {
      var s1 := BeginsWork(cfg, s, r, true);
      Finishes(cfg, s1, r);
      t := Apply(cfg, s1, OnComplete(r, NO_CALLS));
      LeadsOn(cfg, s, true, [OnStart(r, Begin(true, false))], s1, [OnComplete(r, NO_CALLS)], t);
      steps := [OnStart(r, Begin(true, false))] + [OnComplete(r, NO_CALLS)];
    } else if Complete(r) in s.events {
      Finishes(cfg, s, r);
      steps, t := [OnComplete(r, NO_CALLS)], Apply(cfg, s, OnComplete(r, NO_CALLS));
    } else {
      var key := OpenCallOf(s, r);
      steps, t := CanResolve(cfg, s, key);
      ResolvesMeans(cfg, s, key, steps, t);
      WaitsOrDone(t, key);
      if !t.reqs[r].finalized {
        var rest, u := CanFinalise(cfg, t, r);
        LeadsOn(cfg, s, true, steps, t, rest, u);
        steps, t := steps + rest, u;
      }
    }
  }

  lemma Moves(s: State, r: ReqId)
    requires Good(s, true, {}, {}) && r in s.reqs && !s.reqs[r].finalized && !s.reqs[r].status.Failed?
    ensures Driven(s, r)
  {
  }

  lemma WaitsOrDone(s: State, key: CallKey)
    requires Good(s, true, {}, {}) && key in s.calls
    ensures key.parent in s.reqs && (s.reqs[key.parent].finalized || s.reqs[key.parent].status.Processing?)
  {
    assert CallOk(s, key, {});
    if key.parent in s.pending {
      assert PendingOk(s, key.parent);
    }
  }

  // --- Exactly the lossless steps keep it so --------------------------------------

  ghost predicate CallResolvable(cfg: Config, s: State, key: CallKey) {
    exists steps, t :: Leads(cfg, s, false, steps, t) && key in t.calls && t.calls[key] != Open
  }

  ghost predicate RequestFinalizable(cfg: Config, s: State, r: ReqId) {
    exists steps, t :: Leads(cfg, s, false, steps, t) && r in t.reqs && t.reqs[r].finalized
  }

  /** Every open call can be resolved and every request that has not failed finalised. */
  ghost predicate Finishable(cfg: Config, s: State) {
    && (forall key :: key in s.calls && s.calls[key] == Open ==> CallResolvable(cfg, s, key))
    && (forall r :: r in s.reqs && !s.reqs[r].finalized && !s.reqs[r].status.Failed? ==> RequestFinalizable(cfg, s, r))
  }

  lemma GoodIsFinishable(cfg: Config, s: State)
    requires Good(s, true, {}, {})
    ensures Finishable(cfg, s)
  {
    hide Good, Leads;
    forall key | key in s.calls && s.calls[key] == Open ensures CallResolvable(cfg, s, key) {
      var steps, t := CanResolve(cfg, s, key);
      LeadsLoosely(cfg, s, steps, t);
    }
    forall r | r in s.reqs && !s.reqs[r].finalized && !s.reqs[r].status.Failed? ensures RequestFinalizable(cfg, s, r) {
      var steps, t := CanFinalise(cfg, s, r);
      LeadsLoosely(cfg, s, steps, t);
    }
  }

  /** In every state of every sound and lossless run every open call can still be resolved and
      every unfinished request finalised. */
  lemma RunIsFinishable(cfg: Config, states: seq<State>, steps: seq<Step>, i: nat)
    requires LosslessRun(cfg, states, steps) && i < |states|
    ensures Finishable(cfg, states[i])
  {
    hide Good, Finishable, Apply, Enabled, Sound, Lossless;
    RunGood(cfg, states, steps, true, i);
    GoodIsFinishable(cfg, states[i]);
  }

  lemma LossyIsNotFinishable(cfg: Config, s: State, step: Step)
    requires Good(s, true, {}, {}) && Enabled(s, step) && !Lossless(s, step)
    ensures !Finishable(cfg, Apply(cfg, s, step))
  {
    hide Good, Apply, Lossless, Leads, Finishable;
    var s1 := Apply(cfg, s, step);
    LossyDrops(cfg, s, step);
    Itself(cfg, s1);
    DroppedForever(cfg, s, step, [], s1);
    forall steps, t | Leads(cfg, s1, false, steps, t) ensures Waits(t, DroppedBy(step)) {
      DroppedForever(cfg, s, step, steps, t);
    }
    NotFinishable(cfg, s1, DroppedBy(step));
  }

  lemma Itself(cfg: Config, s: State)
    ensures Leads(cfg, s, false, [], s)
  {
  }

  lemma NotFinishable(cfg: Config, s: State, e: Event)
    requires Waits(s, e) && forall steps, t :: Leads(cfg, s, false, steps, t) ==> Waits(t, e)
    ensures !Finishable(cfg, s)
  {
    hide Leads;
    if e.Start? || e.Complete? {
      assert !RequestFinalizable(cfg, s, e.req);
    } else {
      assert !CallResolvable(cfg, s, SpawnKey(e).value);
    }
  }

  /** From a state in which nothing was lost, everything can still be finished after a sound
      step if and only if the step is lossless. */
  lemma StepKeepsFinishableIf(cfg: Config, s: State, step: Step)
    requires Good(s, true, {}, {}) && Enabled(s, step) && Sound(cfg, s, step)
    ensures Finishable(cfg, Apply(cfg, s, step)) <==> Lossless(s, step)
  {
    hide Good, Apply, Sound, Lossless, Finishable;
    if Lossless(s, step) {
      StepKeeps(cfg, s, true, step);
      GoodIsFinishable(cfg, Apply(cfg, s, step));
    } else {
      LossyIsNotFinishable(cfg, s, step);
    }
  }

  /** The two conditions are exact for the next step of every sound and lossless run. */
  lemma NextStepExactly(cfg: Config, states: seq<State>, steps: seq<Step>, step: Step)
    requires LosslessRun(cfg, states, steps) && Enabled(states[|steps|], step)
    ensures Wf(states[|steps|])
    ensures var t := Apply(cfg, states[|steps|], step);
      && ((forall more, u :: Leads(cfg, t, false, more, u) ==> Exact(u)) <==> Sound(cfg, states[|steps|], step))
      && (Sound(cfg, states[|steps|], step) ==> (Finishable(cfg, t) <==> Lossless(states[|steps|], step)))
  {
    hide Good, Apply, Enabled, Sound, Lossless, Finishable, Leads, Exact;
    var s := states[|steps|];
    RunGood(cfg, states, steps, true, |steps|);
    StepKeepsExactlyIf(cfg, s, step);
    if Sound(cfg, s, step) {
      StepKeepsFinishableIf(cfg, s, step);
    }
  }
}
