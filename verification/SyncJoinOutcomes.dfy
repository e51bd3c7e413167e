/**
  How a request ends.  In every run, sound or not, a request that a handler finalises ends
  as failed if it failed to start, timed out locally or failed its dependency, and one that
  is finalised with the last of its calls ends as failed if and only if one of them failed.
*/
module SyncJoinOutcomes {
  import opened Wrappers
  import opened SyncJoin
  import opened SyncJoinAlways
  import SyncJoinTheorems

  /** Requests from `n` on are as before. */
  ghost predicate Younger(s: State, t: State, n: nat) {
    t.reqs.Keys == s.reqs.Keys && forall r :: r in s.reqs && r >= n ==> t.reqs[r] == s.reqs[r]
  }

  /** Whoever but `own` was finalised on the way ended as the flag for its calls says. */
  ghost predicate EndsWell(s: State, t: State, own: set<ReqId>) {
    forall r :: r in s.reqs && r in t.reqs && r !in own && !s.reqs[r].finalized && t.reqs[r].finalized ==>
      t.reqs[r].status == if t.reqs[r].subtreeFailed then Failed else Completed
  }

  ghost predicate Waiting(s: State) {
    forall p :: p in s.pending ==> p in s.reqs && s.reqs[p].status.Processing?
  }

  predicate SameEnd(q: Request, q': Request) {
    q'.status == q.status && q'.finalized == q.finalized && q'.subtreeFailed == q.subtreeFailed
  }

  // --- The resolution chain -------------------------------------------------------

  lemma SelfEnds(s: State, n: nat)
    ensures Younger(s, s, n) && EndsWell(s, s, {})
  {
  }

  lemma PutEnds(s: State, r: ReqId, q: Request)
    requires Wf(s) && r in s.reqs && q.parent == s.reqs[r].parent
    ensures Younger(s, Put(s, r, q), r + 1) && EndsWell(s, Put(s, r, q), {r})
    ensures q.finalized == s.reqs[r].finalized ==> EndsWell(s, Put(s, r, q), {})
    ensures Waiting(s) && (r in s.pending ==> q.status.Processing?) ==> Waiting(Put(s, r, q))
  {
  }

  lemma NotifyEnds(s: State, c: ReqId, failed: bool)
    requires Wf(s) && c in s.reqs && Waiting(s)
    ensures var t := Notify(s, c, failed); Younger(s, t, c + 1) && EndsWell(s, t, {}) && SameEnd(s.reqs[c], t.reqs[c])
    decreases c, 0
  {
    hide Join, Younger, EndsWell, Waiting, Wf;
    var q := s.reqs[c];
    SelfEnds(s, c + 1);
    OlderParent(s, c);
    PutEnds(s, c, q.(resolved := true));
    PutEnds(s, c, Reported(q));
    if q.parent.Some? && !q.async && !q.resolved && q.parent.value in s.pending && s.pending[q.parent.value] > 0 {
      StillWaiting(s, c, Reported(q));
      JoinEnds(Put(s, c, Reported(q)), KeyOf(q), failed, false);
      ReportedEnds(s, c, Join(Put(s, c, Reported(q)), KeyOf(q), failed, false));
    }
  }

  lemma OlderParent(s: State, c: ReqId)
    requires Wf(s) && c in s.reqs
    ensures s.reqs[c].parent.Some? ==> s.reqs[c].parent.value < c && s.reqs[c].parent.value in s.reqs
  {
  }

  lemma StillWaiting(s: State, c: ReqId, q: Request)
    requires Wf(s) && c in s.reqs && q.parent == s.reqs[c].parent && q.status == s.reqs[c].status && Waiting(s)
    ensures Waiting(Put(s, c, q))
  {
  }

  lemma ReportedEnds(s: State, c: ReqId, t: State)
    requires Wf(s) && c in s.reqs && s.reqs[c].parent.Some? && s.reqs[c].parent.value < c
    requires var s1 := Put(s, c, Reported(s.reqs[c])); Younger(s1, t, s.reqs[c].parent.value + 1) && EndsWell(s1, t, {})
    ensures Younger(s, t, c + 1) && EndsWell(s, t, {}) && SameEnd(s.reqs[c], t.reqs[c])
  {
  }

  lemma JoinEnds(s: State, key: CallKey, failed: bool, held: bool)
    requires Wf(s) && key.parent in s.reqs && key.parent in s.pending && s.pending[key.parent] > 0 && Waiting(s)
    ensures var t := Join(s, key, failed, held); Younger(s, t, key.parent + 1) && EndsWell(s, t, {})
    decreases key.parent, 3
  {
    hide FinalizeFailure, FinalizeCompletion, Younger, EndsWell, Wf;
    var p := key.parent;
    var found := held || Lookup(s, p);
    var q := if failed && found then s.reqs[p].(subtreeFailed := true) else s.reqs[p];
    var s0 := if failed && found then Put(s, p, q) else s;
    var s2 := s0.(calls := s0.calls[key := if failed then Broken else Succeeded], pending := s0.pending - {p});
    PutEnds(s, p, q);
    SelfEnds(s, p + 1);
    SameWf(s0, s2);
    var t := Join(s, key, failed, held);
    if s.pending[p] > 1 || !found {
      OnlyCounts(s, s0, t, p + 1);
    } else {
      FinalizeEnds(s2, p, s2.reqs[p].subtreeFailed);
      LastEnds(s, s2, t, p);
    }
  }

  lemma SameWf(s: State, t: State)
    requires Wf(s) && t.reqs == s.reqs && t.nextId == s.nextId
    ensures Wf(t)
  {
  }

  lemma OnlyCounts(s: State, s0: State, t: State, n: nat)
    requires Younger(s, s0, n) && EndsWell(s, s0, {}) && t.reqs == s0.reqs
    ensures Younger(s, t, n) && EndsWell(s, t, {})
  {
  }

  /** The parent is finalised by the flag, and its parents in their turn. */
  lemma LastEnds(s: State, s2: State, t: State, p: ReqId)
    requires p in s.reqs && p in s2.reqs && s2.reqs == s.reqs[p := s2.reqs[p]] && s2.reqs[p].finalized == s.reqs[p].finalized && s2.reqs[p].status.Processing?
    requires Younger(s2, t, p + 1) && EndsWell(s2, t, {p})
    requires t.reqs[p].subtreeFailed == s2.reqs[p].subtreeFailed
    requires !s2.reqs[p].finalized ==> t.reqs[p].status == if s2.reqs[p].subtreeFailed then Failed else Completed
    ensures Younger(s, t, p + 1) && EndsWell(s, t, {})
  {
  }

  /** What a finalisation makes of the request itself. */
  function EndOf(q: Request, failed: bool): Status {
    if failed || (q.status.Failed? && !q.marks.abandoned) then Failed else Completed
  }

  lemma FinalizeEnds(s: State, r: ReqId, failed: bool)
    requires Wf(s) && r in s.reqs && Waiting(s) && r !in s.pending
    ensures var t := if failed then FinalizeFailure(s, r) else FinalizeCompletion(s, r);
      && Younger(s, t, r + 1) && EndsWell(s, t, {r}) && t.reqs[r].subtreeFailed == s.reqs[r].subtreeFailed && t.reqs[r].finalized
      && (!s.reqs[r].finalized ==> t.reqs[r].status == EndOf(s.reqs[r], failed))
    decreases r, 2
  {
    hide Notify, Younger, EndsWell, Wf;
    var q := s.reqs[r];
    SelfEnds(s, r + 1);
    FewerOwn(s, s, r);
    if !q.finalized {
      FinishedEnds(s, r, EndOf(q, failed), failed);
    }
  }

  lemma FewerOwn(s: State, t: State, r: ReqId)
    requires EndsWell(s, t, {})
    ensures EndsWell(s, t, {r})
  {
  }

  lemma FinishedEnds(s: State, r: ReqId, status: Status, failed: bool)
    requires Wf(s) && r in s.reqs && Waiting(s) && r !in s.pending
    ensures var s1 := Put(s, r, Finished(s.reqs[r], status));
      && r in s1.reqs && Younger(s, s1, r + 1) && EndsWell(s, s1, {r})
      && var t := Notify(s1, r, failed);
         Younger(s, t, r + 1) && EndsWell(s, t, {r}) && SameEnd(s1.reqs[r], t.reqs[r])
    decreases r, 1
  {
    hide Notify, Younger, EndsWell, Wf;
    var q := Finished(s.reqs[r], status);
    var s1 := Put(s, r, q);
    PutEnds(s, r, q);
    NotifyEnds(s1, r, failed);
    FewerOwn(s1, Notify(s1, r, failed), r);
    FinishedOn(s, s1, Notify(s1, r, failed), r);
  }

  lemma FinishedOn(s: State, s1: State, t: State, r: ReqId)
    requires r in s.reqs && r in s1.reqs && s1.reqs == s.reqs[r := s1.reqs[r]] && Younger(s1, t, r + 1) && EndsWell(s1, t, {r})
    ensures Younger(s, t, r + 1) && EndsWell(s, t, {r})
  {
  }

  // --- The handlers ---------------------------------------------------------------

  /** A handler that changes one record and finalises nobody. */
  lemma ChangeEnds(s: State, t: State, r: ReqId)
    requires r in s.reqs && r in t.reqs && t.reqs == s.reqs[r := t.reqs[r]] && t.reqs[r].finalized == s.reqs[r].finalized
    ensures EndsWell(s, t, {})
  {
  }

  lemma StartEnds(cfg: Config, s: State, r: ReqId, o: StartOutcome)
    requires Wf(s) && r in s.reqs && Waiting(s) && r !in s.pending && !s.reqs[r].finalized
    ensures var t := HandleStart(cfg, s, r, o);
      && t.reqs.Keys == s.reqs.Keys && EndsWell(s, t, {r})
      && (t.reqs[r].finalized ==> o.LocalFailure? && t.reqs[r].status == Failed)
      && (t.reqs[r].finalized || IsFailure(o) ==> t.reqs[r].status == Failed)
      && (o.LocalFailure? && !RetryApplies(cfg, s, r) ==> t.reqs[r].finalized)
  {
    hide Notify, FinalizeFailure, Younger, EndsWell, Wf, Waiting;
    var t, q := HandleStart(cfg, s, r, o), s.reqs[r].(status := Failed);
    var s1 := Put(s, r, q);
    PutEnds(s, r, q);
    if IsFailure(o) && !RetryApplies(cfg, s1, r) {
      FailedWaits(s, r);
      if o.LocalFailure? {
        FinalizeEnds(s1, r, true);
      } else {
        NotifyEnds(s1, r, true);
        FewerOwn(s1, t, r);
      }
      FinishedOn(s, s1, t, r);
    } else if o.HandlerError? {
      SelfEnds(s, 0);
      FewerOwn(s, s, r);
    } else if IsFailure(o) {
      GivenUp(s, r);
      FewerOwn(s, t, r);
    } else {
      ChangeEnds(s, t, r);
      FewerOwn(s, t, r);
    }
  }

  lemma FailedWaits(s: State, r: ReqId)
    requires Wf(s) && r in s.reqs && Waiting(s) && r !in s.pending
    ensures Waiting(Put(s, r, s.reqs[r].(status := Failed)))
  {
  }

  lemma GivenUp(s: State, r: ReqId)
    requires Wf(s) && r in s.reqs && s.reqs[r].parent.Some?
    ensures var t := Isolate(Put(s, r, s.reqs[r].(status := Failed)), r); EndsWell(s, t, {}) && t.reqs[r].finalized == s.reqs[r].finalized
  {
  }

  lemma CompleteEnds(s: State, r: ReqId, o: CompleteOutcome)
    requires Wf(s) && r in s.reqs && Waiting(s) && r !in s.pending && !s.reqs[r].finalized && s.reqs[r].status.Processing?
    ensures var t, q := HandleComplete(s, r, o), s.reqs[r];
      && t.reqs.Keys == s.reqs.Keys && EndsWell(s, t, {r})
      && (t.reqs[r].finalized ==> t.reqs[r].status == if q.marks.localTimeout then Failed else Completed)
      && (t.reqs[r].finalized <==> q.marks.localTimeout || q.marks.cacheHit || (o.Calls? && o.syncOverheads == []))
  {
    hide FinalizeFailure, FinalizeCompletion, FanOut, Younger, EndsWell, Wf;
    var q := s.reqs[r];
    SelfEnds(s, 0);
    FewerOwn(s, s, r);
    if q.marks.localTimeout {
      FinalizeEnds(s, r, true);
    } else if q.marks.cacheHit {
      FinalizeEnds(s, r, false);
    } else if o.Calls? {
      var s1 := s.(events := s.events + FanOut(r, true, o.asyncOverheads));
      SameWf(s, s1);
      if o.syncOverheads == [] {
        FinalizeEnds(s1, r, false);
        SameRecords(s, s1, HandleComplete(s, r, o), {r});
      } else {
        SameRecords(s, HandleComplete(s, r, o), HandleComplete(s, r, o), {r});
      }
    }
  }

  lemma SameRecords(s: State, s1: State, t: State, own: set<ReqId>)
    requires s1.reqs == s.reqs && (EndsWell(s1, t, own) || t.reqs == s.reqs)
    ensures EndsWell(s, t, own)
  {
  }

  /** Only the new request may be new, and it is finalised as failed or not at all. */
  ghost predicate OneNew(s: State, t: State) {
    forall r :: r in t.reqs && r !in s.reqs ==> r == s.nextId && (t.reqs[r].finalized ==> t.reqs[r].status == Failed)
  }

  lemma SpawnEnds(cfg: Config, s: State, p: ReqId, k: nat, async: bool, attempt: nat, o: SpawnOutcome)
    requires Wf(s) && p in s.reqs && Waiting(s) && s.nextId !in s.pending
    ensures var t := Spawn(cfg, s, p, k, async, attempt, o); EndsWell(s, t, {}) && OneNew(s, t)
  {
    hide FinalizeFailure, RetryApplies, Isolate, Younger, Waiting, EndsWell, OneNew;
    var c, t := s.nextId, Spawn(cfg, s, p, k, async, attempt, o);
    match o
    case SpawnError => Unspawned(s);
    case DependencyFailure(retryable) =>
      var s1 := s.(reqs := s.reqs[c := NewRequest(Some(p), k, async, attempt, Failed)], nextId := c + 1);
      EnteredWaits(s, s1);
      FailedSpawnEnds(cfg, s1, c, retryable);
      EnteredEnds(s, s1, t);
    case Spawned(timeout) =>
      SelfEnds(t, 0);
      FewerOwn(t, t, c);
      EnteredEnds(s, t, t);
  }

  lemma Unspawned(s: State)
    ensures EndsWell(s, s, {}) && OneNew(s, s)
  {
  }

  lemma FailedSpawnEnds(cfg: Config, s: State, c: ReqId, retryable: bool)
    requires Wf(s) && c in s.reqs && s.reqs[c].parent.Some? && !s.reqs[c].finalized && s.reqs[c].status.Failed? && Waiting(s) && c !in s.pending
    ensures var t := if retryable && RetryApplies(cfg, s, c) then Isolate(s, c) else FinalizeFailure(s, c);
      t.reqs.Keys == s.reqs.Keys && EndsWell(s, t, {c}) && t.reqs[c].status == Failed
  {
    hide FinalizeFailure, Younger, Waiting;
    FinalizeEnds(s, c, true);
  }

  lemma EnteredEnds(s: State, s1: State, t: State)
    requires s.nextId !in s.reqs && s.nextId in s1.reqs && s1.reqs == s.reqs[s.nextId := s1.reqs[s.nextId]] && t.reqs.Keys == s1.reqs.Keys
    requires EndsWell(s1, t, {s.nextId}) && (t.reqs[s.nextId].finalized ==> t.reqs[s.nextId].status == Failed)
    ensures EndsWell(s, t, {}) && OneNew(s, t)
  {
  }

  lemma EnteredWaits(s: State, s1: State)
    requires Waiting(s) && s.nextId !in s.pending && s.nextId in s1.reqs && s1.reqs == s.reqs[s.nextId := s1.reqs[s.nextId]] && s1.pending == s.pending
    ensures Waiting(s1)
  {
  }

  lemma TimeoutEnds(cfg: Config, s: State, c: ReqId)
    requires Wf(s) && c in s.reqs && s.reqs[c].parent.Some? && Waiting(s)
    ensures var t := HandleTimeout(cfg, s, c); t.reqs.Keys == s.reqs.Keys && EndsWell(s, t, {})
  {
    hide Notify, Younger, EndsWell, Waiting, Wf;
    var t, q := HandleTimeout(cfg, s, c), s.reqs[c].(marks := s.reqs[c].marks.(waitTimedOut := true));
    SelfEnds(s, 0);
    if t.reqs != s.reqs {
      if !s.reqs[c].async && !RetryApplies(cfg, Put(s, c, q), c) {
        StillWaiting(s, c, q);
        NotifyEnds(Put(s, c, q), c, true);
        MarkedEnds(s, Put(s, c, q), t, c);
      } else {
        TimeoutChanges(cfg, s, c);
        ChangeEnds(s, t, c);
      }
    } else {
      SameRecords(s, t, t, {});
    }
  }

  lemma TimeoutChanges(cfg: Config, s: State, c: ReqId)
    requires Wf(s) && c in s.reqs && s.reqs[c].parent.Some?
    requires s.reqs[c].async || RetryApplies(cfg, s, c)
    ensures var t := HandleTimeout(cfg, s, c); c in t.reqs && t.reqs == s.reqs[c := t.reqs[c]] && t.reqs[c].finalized == s.reqs[c].finalized
  {
    hide Notify;
  }

  lemma MarkedEnds(s: State, s1: State, t: State, c: ReqId)
    requires c in s.reqs && c in s1.reqs && s1.reqs == s.reqs[c := s1.reqs[c]] && s1.reqs[c].finalized == s.reqs[c].finalized && EndsWell(s1, t, {})
    ensures EndsWell(s, t, {})
  {
  }

  lemma OverheadEnds(cfg: Config, s: State, e: Event, ok: bool)
    requires Wf(s) && e.OverheadStart? && e.parent in s.reqs && Waiting(s)
    ensures var t := HandleOverheadStart(cfg, s, e, ok); t.reqs.Keys == s.reqs.Keys && EndsWell(s, t, {})
  {
    hide Join, Younger, EndsWell, Waiting;
    SelfEnds(s, 0);
    if e.parent in s.pending && s.pending[e.parent] > 0 {
      JoinEnds(s, CallKey(e.parent, e.call), true, true);
    }
    var t := HandleOverheadStart(cfg, s, e, ok);
    if t.reqs == s.reqs { SameRecords(s, t, t, {}); }
  }

  // --- Every run ------------------------------------------------------------------

  /** How a request that the step finalises must end. */
  ghost predicate EndsRightly(s: State, t: State, step: Step, r: ReqId)
    requires r in t.reqs
  {
    if r !in s.reqs then t.reqs[r].status == Failed
    else if step.OnStart? && step.req == r then step.start.LocalFailure? && t.reqs[r].status == Failed
    else if step.OnComplete? && step.req == r then t.reqs[r].status == if s.reqs[r].marks.localTimeout then Failed else Completed
    else t.reqs[r].status == if t.reqs[r].subtreeFailed then Failed else Completed
  }

  ghost predicate AllEndRightly(s: State, t: State, step: Step) {
    forall r :: r in t.reqs && t.reqs[r].finalized && !(r in s.reqs && s.reqs[r].finalized) ==> EndsRightly(s, t, step, r)
  }

  lemma AlwaysWaits(cfg: Config, s: State, m: multiset<Event>)
    requires Always(cfg, s)
    ensures var s0 := s.(events := m); Wf(s0) && Waiting(s0) && s0.nextId !in s0.pending
  {
    forall p | p in s.pending ensures WaitingOk(s, p) {}
  }

  lemma NotWaiting(cfg: Config, s: State, e: Event)
    requires Always(cfg, s) && e in s.events && (e.Start? || e.Complete?)
    ensures e.req in s.reqs && !s.reqs[e.req].finalized && e.req !in s.pending && (e.Complete? ==> s.reqs[e.req].status.Processing?)
  {
    assert QueuedOk(cfg, s, e);
    assert e.req in s.pending ==> WaitingOk(s, e.req);
  }

  /** A step that works on no request of its own. */
  lemma OthersEnd(s: State, s0: State, t: State, step: Step)
    requires s0 == s.(events := s0.events) && EndsWell(s0, t, {}) && OneNew(s0, t) && !step.OnStart? && !step.OnComplete?
    ensures AllEndRightly(s, t, step)
  {
  }

  /** A start or a completion. */
  lemma OwnEnds(s: State, s0: State, t: State, step: Step)
    requires s0 == s.(events := s0.events) && (step.OnStart? || step.OnComplete?) && t.reqs.Keys == s.reqs.Keys && step.req in s.reqs
    requires EndsWell(s0, t, {step.req}) && (t.reqs[step.req].finalized ==> EndsRightly(s, t, step, step.req))
    ensures AllEndRightly(s, t, step)
  {
  }

  lemma NoneNew(s: State, t: State)
    requires t.reqs.Keys == s.reqs.Keys
    ensures OneNew(s, t)
  {
  }

  lemma StepEnds(cfg: Config, s: State, step: Step)
    requires Always(cfg, s) && Enabled(s, step)
    ensures AllEndRightly(s, Apply(cfg, s, step), step)
  {
    hide Always, Waiting, EndsWell, OneNew, AllEndRightly, HandleStart, HandleComplete, HandleTimeout, HandleOverheadStart, Spawn;
    var s0, t := s.(events := s.events - Taken(step)), Apply(cfg, s, step);
    AlwaysWaits(cfg, s, s0.events);
    match step {
      case OnStart(r, o) =>
        assert Start(r) in Taken(step);
        NotWaiting(cfg, s, Start(r));
        StartEnds(cfg, s0, r, o);
        OwnEnds(s, s0, t, step);
      case OnComplete(r, o) =>
        assert Complete(r) in Taken(step);
        NotWaiting(cfg, s, Complete(r));
        CompleteEnds(s0, r, o);
        OwnEnds(s, s0, t, step);
      case OnTimeout(c) =>
        TimeoutEnds(cfg, s0, c);
        NoneNew(s0, t);
        OthersEnd(s, s0, t, step);
      case OnOverheadStart(e, ok) =>
        OverheadEnds(cfg, s0, e, ok);
        NoneNew(s0, t);
        OthersEnd(s, s0, t, step);
      case _ => EdgeEnds(cfg, s, step);
    }
  }

  lemma EdgeEnds(cfg: Config, s: State, step: Step)
    requires Wf(s) && Enabled(s, step) && Waiting(s.(events := s.events - Taken(step))) && s.nextId !in s.pending
    requires !step.OnStart? && !step.OnComplete? && !step.OnTimeout? && !step.OnOverheadStart?
    ensures AllEndRightly(s, Apply(cfg, s, step), step)
  {
    hide Waiting, EndsWell, OneNew, AllEndRightly, Spawn;
    var s0, t := s.(events := s.events - Taken(step)), Apply(cfg, s, step);
    match step {
      case OnCall(e, o) => SpawnEnds(cfg, s0, e.parent, e.call, e.async, 0, o);
      case OnRetry(e, overhead, o) => if overhead { Queued(s0, t); } else { SpawnEnds(cfg, s0, e.parent, e.call, e.async, e.attempt, o); }
      case OnOverheadEnd(e, o) => if e.fromRetry { SpawnEnds(cfg, s0, e.parent, e.call, e.async, e.attempt, o); } else { Queued(s0, t); }
      case Arrive(accepted) => Arrived(s0, t);
      case _ => Queued(s0, t);
    }
    OthersEnd(s, s0, t, step);
  }

  lemma Queued(s: State, t: State)
    requires t.reqs == s.reqs
    ensures EndsWell(s, t, {}) && OneNew(s, t)
  {
  }

  lemma Arrived(s: State, t: State)
    requires s.nextId in t.reqs && t.reqs == s.reqs[s.nextId := t.reqs[s.nextId]] && s.nextId !in s.reqs && !t.reqs[s.nextId].finalized
    ensures EndsWell(s, t, {}) && OneNew(s, t)
  {
  }

  /** In every run, whatever the steps: a request finalised by its own start failed, one
      finalised by its own completion failed if and only if its work timed out, one finalised
      on creation failed, and one finalised with its calls failed if and only if the flag that
      its broken calls set is set. */
  lemma EndsAs(cfg: Config, states: seq<State>, steps: seq<Step>, i: nat, r: ReqId)
    requires IsRun(cfg, states, steps) && i < |steps| && r in states[i + 1].reqs && states[i + 1].reqs[r].finalized
    requires !(r in states[i].reqs && states[i].reqs[r].finalized)
    ensures EndsRightly(states[i], states[i + 1], steps[i], r)
  {
    hide Always, Apply, Enabled;
    RunAlways(cfg, states, steps, i);
    StepEnds(cfg, states[i], steps[i]);
  }

  // --- How it gets there ----------------------------------------------------------

  /** A request that begins is marked with how its work will go, and its completion is queued. */
  lemma BeginsAs(cfg: Config, s: State, r: ReqId, localTimeout: bool, cacheHit: bool)
    requires Wf(s) && r in s.reqs
    ensures var t := HandleStart(cfg, s, r, Begin(localTimeout, cacheHit));
      && t.reqs[r].status == Processing && t.reqs[r].marks.localTimeout == localTimeout && t.reqs[r].marks.cacheHit == cacheHit
      && t.events == s.events + multiset{Complete(r)} && t.calls == s.calls && t.pending == s.pending
  {
  }

  /** A spawned attempt is pending for its call, with its start queued, and its deadline if and
      only if the call has one. */
  lemma SpawnedAs(cfg: Config, s: State, p: ReqId, k: nat, async: bool, attempt: nat, timeout: bool)
    requires Wf(s) && p in s.reqs
    ensures var t, c := Spawn(cfg, s, p, k, async, attempt, Spawned(timeout)), s.nextId;
      && c !in s.reqs && c in t.reqs && t.reqs[c].status == Pending && t.reqs[c].parent == Some(p) && t.reqs[c].call == k
      && t.reqs[c].async == async && t.reqs[c].attempt == attempt && !t.reqs[c].resolved
      && t.events[Start(c)] == s.events[Start(c)] + 1
      && t.events[Timeout(c)] == s.events[Timeout(c)] + if timeout then 1 else 0
  {
  }

  predicate IsQueued(s: State, t: State, e: Event) { t.events[e] == s.events[e] + 1 }

  /** A completion that makes calls queues exactly one event for each call of either mode, which
      will make its first attempt, and opens exactly the synchronous ones. */
  lemma CallsAs(s: State, r: ReqId, o: CompleteOutcome)
    requires Wf(s) && r in s.reqs && o.Calls? && !s.reqs[r].marks.localTimeout && !s.reqs[r].marks.cacheHit
    ensures var t := HandleComplete(s, r, o);
      && (forall k :: 0 <= k < |o.asyncOverheads| ==> IsQueued(s, t, SyncJoinTheorems.SpawnEdge(r, k, true, o.asyncOverheads[k])))
      && (forall k :: 0 <= k < |o.syncOverheads| ==> IsQueued(s, t, SyncJoinTheorems.SpawnEdge(r, k, false, o.syncOverheads[k])))
      && (o.syncOverheads != [] ==>
            && r in t.pending && t.pending[r] == |o.syncOverheads|
            && forall key: CallKey :: key.parent == r && key.index < |o.syncOverheads| ==> key in t.calls && t.calls[key] == Open)
  {
    hide FinalizeCompletion, FanOut;
    SyncJoinTheorems.FanOutContents(r, true, o.asyncOverheads);
    SyncJoinTheorems.FanOutContents(r, false, o.syncOverheads);
    var a, b := FanOut(r, true, o.asyncOverheads), FanOut(r, false, o.syncOverheads);
    forall k | 0 <= k < |o.asyncOverheads| ensures var e := SyncJoinTheorems.SpawnEdge(r, k, true, o.asyncOverheads[k]); a[e] == 1 && b[e] == 0 {
      var e := SyncJoinTheorems.SpawnEdge(r, k, true, o.asyncOverheads[k]);
      assert SyncJoinTheorems.IsFanOut(e, r, true, o.asyncOverheads) && !SyncJoinTheorems.IsFanOut(e, r, false, o.syncOverheads);
      assert a[e] == 1 && b[e] == 0;
    }
    forall k | 0 <= k < |o.syncOverheads| ensures var e := SyncJoinTheorems.SpawnEdge(r, k, false, o.syncOverheads[k]); b[e] == 1 && a[e] == 0 {
      var e := SyncJoinTheorems.SpawnEdge(r, k, false, o.syncOverheads[k]);
      assert SyncJoinTheorems.IsFanOut(e, r, false, o.syncOverheads) && !SyncJoinTheorems.IsFanOut(e, r, true, o.asyncOverheads);
      assert b[e] == 1 && a[e] == 0;
    }
  }
}
