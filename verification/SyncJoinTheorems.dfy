/**
  Whole runs of the synchronous join.

  Two steps of the source break the join: a start that fails after its attempt was
  already given up (a second replacement is scheduled), and a caller-overhead start
  that fails (its end event stays queued).  Steps that return an error lose a call
  or a request without miscounting.
*/
module SyncJoinTheorems {
  import opened Wrappers
  import opened SyncJoin
  import opened SyncJoinInvariant
  import opened SyncJoinSteps

  /** Testable before the step: it does not replace an attempt that was already given
      up, and it does not fail the caller overhead of a synchronous call. */
  predicate Sound(cfg: Config, s: State, step: Step) {
    match step
    case OnStart(r, o) => r in s.reqs && IsFailure(o) ==> !(s.reqs[r].resolved && RetryApplies(cfg, s, r))
    case OnOverheadStart(e, ok) => !ok && e.OverheadStart? ==> e.async
    case _ => true
  }

  predicate LosesCall(e: Event, o: SpawnOutcome) {
    SpawnKey(e).Some? && o.SpawnError?
  }

  /** The step is not one of those that return an error and drop what they hold. */
  predicate Lossless(s: State, step: Step) {
    match step
    case OnStart(r, o) => !o.HandlerError? && !o.BeginError?
    case OnComplete(r, o) => r in s.reqs && o.NoCallList? ==> s.reqs[r].marks.localTimeout || s.reqs[r].marks.cacheHit
    case OnCall(e, o) => !LosesCall(e, o)
    case OnRetry(e, overhead, o) => overhead || !LosesCall(e, o)
    case OnOverheadEnd(e, o) => e.OverheadEnd? && e.fromRetry ==> !LosesCall(e, o)
    case _ => true
  }

  // --- One step -------------------------------------------------------------------

  lemma NoCallsWhileQueued(s: State, e: Event)
    requires Base(s, {}) && e in s.events && (e.Start? || e.Complete?)
    ensures forall key :: key in s.calls ==> key.parent != e.req
  {
    forall key | key in s.calls ensures key.parent != e.req {
      assert CallOk(s, key, {});
    }
  }

  /** Without the strict part a handler may simply return. */
  lemma Release(s: State, K: set<CallKey>, R: set<ReqId>)
    requires Good(s, false, K, R)
    requires forall r :: r in R ==> !s.reqs[r].status.Failed?
    requires forall key :: key in s.calls ==> key.parent !in R
    ensures Good(s, false, {}, {})
  {
    forall key | key in s.calls ensures CallOk(s, key, {}) {
      assert CallOk(s, key, R);
    }
    forall r | r in s.reqs ensures RequestOk(s, r, {}) {
      assert RequestOk(s, r, R);
    }
  }

  lemma QueueRetry(s: State, strict: bool, K: set<CallKey>, p: ReqId, k: nat, async: bool, attempt: nat)
    requires Good(s, strict, K, {}) && p in s.reqs && K == (if async then {} else {CallKey(p, k)})
    ensures Good(With(s, multiset{Retry(p, k, async, attempt)}), strict, {}, {})
  {
    var e := Retry(p, k, async, attempt);
    assert !async ==> SpawnKey(e) == Some(CallKey(p, k)) && e in multiset{e};
    Queue(s, strict, K, {}, {}, multiset{e});
  }

  /** The events of one edge, each queued once. */
  predicate IsEdge(e: Event, p: ReqId, k: nat, async: bool, attempt: nat, fromRetry: bool, overhead: bool) {
    if overhead then
      e == OverheadStart(p, k, async, attempt, fromRetry) || e == OverheadEnd(p, k, async, attempt, fromRetry)
    else e == Call(p, k, async)
  }

  lemma EdgeContents(p: ReqId, k: nat, async: bool, attempt: nat, fromRetry: bool, overhead: bool)
    ensures var m := EdgeEvents(p, k, async, attempt, fromRetry, overhead);
      forall e :: m[e] == if IsEdge(e, p, k, async, attempt, fromRetry, overhead) then 1 else 0
  {
  }

  lemma EdgeQueueable(s: State, p: ReqId, k: nat, async: bool, attempt: nat, fromRetry: bool, overhead: bool)
    requires p in s.reqs
    ensures var m := EdgeEvents(p, k, async, attempt, fromRetry, overhead);
      && Queueable(s, if async then {} else {CallKey(p, k)}, m)
      && (!async ==> Spawns(m, CallKey(p, k)))
  {
    var m := EdgeEvents(p, k, async, attempt, fromRetry, overhead);
    EdgeContents(p, k, async, attempt, fromRetry, overhead);
    var e := if overhead then OverheadEnd(p, k, async, attempt, fromRetry) else Call(p, k, async);
    assert e in m;
  }

  lemma QueueEdge(s: State, strict: bool, K: set<CallKey>, p: ReqId, k: nat, async: bool, attempt: nat, fromRetry: bool, overhead: bool)
    requires Good(s, strict, K, {}) && p in s.reqs && K == (if async then {} else {CallKey(p, k)})
    ensures Good(With(s, EdgeEvents(p, k, async, attempt, fromRetry, overhead)), strict, {}, {})
  {
    EdgeQueueable(s, p, k, async, attempt, fromRetry, overhead);
    Queue(s, strict, K, {}, {}, EdgeEvents(p, k, async, attempt, fromRetry, overhead));
  }

  ghost function Replaced(s: State, r: ReqId, q': Request): State
    requires Wf(s) && r in s.reqs && q'.parent == s.reqs[r].parent && q'.parent.Some?
  {
    With(Put(s, r, q'), multiset{Retry(q'.parent.value, q'.call, false, q'.attempt + 1)})
  }

  /** An awaited attempt fails for good and a retry event takes over its call. */
  lemma ReplaceKeeps(s: State, strict: bool, r: ReqId, q': Request)
    requires Good(s, strict, {}, {r}) && IsAwaited(s.reqs[r]) && q'.resolved && Retires(s, r, q')
    ensures Good(Replaced(s, r, q'), strict, {}, {})
  {
    hide Good;
    Retire(s, strict, {}, r, q');
    assert {} + Freed(s.reqs[r], q') == {KeyOf(q')};
    QueueRetry(Put(s, r, q'), strict, {KeyOf(q')}, q'.parent.value, q'.call, false, q'.attempt + 1);
  }

  lemma PutPut(s: State, r: ReqId, q: Request, q': Request)
    requires Wf(s) && r in s.reqs && q.parent == q'.parent == s.reqs[r].parent
    ensures Put(Put(s, r, q), r, q') == Put(s, r, q')
  {
    assert s.reqs[r := q][r := q'] == s.reqs[r := q'];
  }

  lemma IsolateUnfolds(s: State, r: ReqId, q: Request)
    requires Wf(s) && r in s.reqs && q.parent == s.reqs[r].parent && q.parent.Some?
    ensures Isolate(Put(s, r, q), r) == Replaced(s, r, q.(resolved := true))
  {
    PutPut(s, r, q, q.(resolved := true));
  }

  lemma FailStartKeeps(cfg: Config, s: State, strict: bool, r: ReqId, finalize: bool)
    requires Good(s, strict, {}, {r}) && !(s.reqs[r].resolved && RetryApplies(cfg, s, r))
    requires forall key :: key in s.calls ==> key.parent != r
    ensures Good(FailStart(cfg, s, r, finalize), strict, {}, {})
  {
    hide Good, Notify, FinalizeFailure;
    NoOpenCalls(s, strict, {}, r);
    var q1 := s.reqs[r].(status := Failed);
    var t := FailStart(cfg, s, r, finalize);
    if RetryApplies(cfg, s, r) {
      IsolateUnfolds(s, r, q1);
      assert t == Replaced(s, r, q1.(resolved := true));
      ReplaceKeeps(s, strict, r, q1.(resolved := true));
    } else if finalize {
      FailedStays(s, strict, r);
      assert t == FinalizeFailure(Put(s, r, q1), r);
      FinalizeKeeps(Put(s, r, q1), strict, r, true);
    } else {
      assert t == Notify(Put(s, r, q1), r, true);
      NotifyKeeps(s, strict, r, q1, true);
    }
  }

  lemma FailedStays(s: State, strict: bool, r: ReqId)
    requires Good(s, strict, {}, {r})
    ensures Good(Put(s, r, s.reqs[r].(status := Failed)), strict, {}, {r})
  {
    NoOpenCalls(s, strict, {}, r);
    var q1 := s.reqs[r].(status := Failed);
    Touch(s, strict, {}, {r}, r, q1);
    assert {} + Freed(s.reqs[r], q1) == {};
  }

  ghost predicate Retouched(q: Request, q1: Request) {
    && q1 == q.(status := q1.status, marks := q1.marks) && q1.marks.abandoned == q.marks.abandoned
    && q1.marks.asyncTimedOut == q.marks.asyncTimedOut && q1.marks.waitTimedOut == q.marks.waitTimedOut
    && !q1.status.Failed?
  }

  lemma RetouchKeeps(s: State, strict: bool, r: ReqId, q1: Request)
    requires Good(s, strict, {}, {r}) && s.reqs[r].status.Pending? && (forall key :: key in s.calls ==> key.parent != r)
    requires Retouched(s.reqs[r], q1) && (q1.status.Pending? || q1.status.Processing?)
    ensures Good(Put(s, r, q1), strict, {}, {r})
  {
    NoOpenCalls(s, strict, {}, r);
    Touch(s, strict, {}, {r}, r, q1);
    assert {} + Freed(s.reqs[r], q1) == {};
  }

  /** A pending request is queued again, to start or to complete. */
  lemma RedriveKeeps(s: State, strict: bool, r: ReqId, q1: Request, e: Event)
    requires Good(s, strict, {}, {r}) && s.reqs[r].status.Pending? && (forall key :: key in s.calls ==> key.parent != r)
    requires Retouched(s.reqs[r], q1)
    requires (e == Start(r) && q1.status.Pending?) || (e == Complete(r) && q1.status.Processing?)
    ensures Good(With(Put(s, r, q1), multiset{e}), strict, {}, {})
  {
    RetouchKeeps(s, strict, r, q1);
    Drive(Put(s, r, q1), strict, {}, e);
  }

  lemma StartKeeps(cfg: Config, s: State, strict: bool, r: ReqId, o: StartOutcome)
    requires Good(s, strict, {}, {r}) && s.reqs[r].status.Pending?
    requires IsFailure(o) ==> !(s.reqs[r].resolved && RetryApplies(cfg, s, r))
    requires strict ==> !o.HandlerError? && !o.BeginError?
    requires forall key :: key in s.calls ==> key.parent != r
    ensures Good(HandleStart(cfg, s, r, o), strict, {}, {})
  {
    hide Good, FailStart;
    var q := s.reqs[r];
    match o
    case HandlerError =>
      Release(s, {}, {r});
    case BeginError(hit) =>
      RetouchKeeps(s, strict, r, Begun(q, false, hit));
      Release(Put(s, r, Begun(q, false, hit)), {}, {r});
    case Defer =>
      RedriveKeeps(s, strict, r, q.(marks := q.marks.(deferred := true)), Start(r));
    case Begin(lt, hit) =>
      RedriveKeeps(s, strict, r, Begun(q, lt, hit), Complete(r));
    case LocalFailure =>
      FailStartKeeps(cfg, s, strict, r, true);
    case StartFailure =>
      FailStartKeeps(cfg, s, strict, r, false);
  }

  predicate IsFanOut(e: Event, p: ReqId, async: bool, overheads: seq<bool>) {
    && (e.Call? || e.OverheadStart? || e.OverheadEnd?)
    && e.call < |overheads|
    && IsEdge(e, p, e.call, async, 0, false, overheads[e.call])
  }

  lemma {:induction false} FanOutContents(p: ReqId, async: bool, overheads: seq<bool>)
    ensures var m := FanOut(p, async, overheads);
      forall e :: m[e] == if IsFanOut(e, p, async, overheads) then 1 else 0
  {
    if overheads != [] {
      var k := |overheads| - 1;
      FanOutContents(p, async, overheads[..k]);
      EdgeContents(p, k, async, 0, false, overheads[k]);
      var m, m' := FanOut(p, async, overheads), FanOut(p, async, overheads[..k]);
      forall e ensures m[e] == if IsFanOut(e, p, async, overheads) then 1 else 0 {
        assert m[e] == m'[e] + EdgeEvents(p, k, async, 0, false, overheads[k])[e];
        assert IsFanOut(e, p, async, overheads) <==> IsFanOut(e, p, async, overheads[..k]) || IsEdge(e, p, k, async, 0, false, overheads[k]);
      }
    }
  }

  function SpawnEdge(p: ReqId, k: nat, async: bool, overhead: bool): Event {
    if overhead then OverheadEnd(p, k, async, 0, false) else Call(p, k, async)
  }

  predicate IsEdgeEvent(e: Event) { e.Call? || e.OverheadStart? || e.OverheadEnd? }

  lemma FanOutMembers(p: ReqId, async: bool, overheads: seq<bool>, e: Event)
    requires e in FanOut(p, async, overheads)
    ensures FanOut(p, async, overheads)[e] == 1 && IsEdgeEvent(e)
    ensures e.parent == p && e.async == async && e.call < |overheads|
    ensures SpawnKey(e).Some? ==> e == SpawnEdge(p, e.call, async, overheads[e.call])
    ensures e.OverheadStart? ==> FanOut(p, async, overheads)[EndOf(e)] == 1
  {
    FanOutContents(p, async, overheads);
    assert IsFanOut(e, p, async, overheads);
    if e.OverheadStart? {
      assert IsFanOut(EndOf(e), p, async, overheads);
    }
  }

  lemma FanOutSpawns(p: ReqId, overheads: seq<bool>, k: nat)
    requires k < |overheads|
    ensures Spawns(FanOut(p, false, overheads), CallKey(p, k))
  {
    FanOutContents(p, false, overheads);
    var e := SpawnEdge(p, k, false, overheads[k]);
    assert IsFanOut(e, p, false, overheads);
    assert e in FanOut(p, false, overheads) && SpawnKey(e) == Some(CallKey(p, k));
  }

  lemma FanOutQueueable(s: State, p: ReqId, async: bool, overheads: seq<bool>)
    requires p in s.reqs
    ensures Queueable(s, if async then {} else OpenedCalls(p, |overheads|).Keys, FanOut(p, async, overheads))
  {
    var m := FanOut(p, async, overheads);
    var K := if async then {} else OpenedCalls(p, |overheads|).Keys;
    hide FanOut, OpenedCalls;
    forall e | e in m
      ensures !e.Start? && !e.Complete? && !e.Timeout? && Subject(e) in s.reqs && m[e] == 1
      ensures SpawnKey(e).Some? ==> SpawnKey(e).value in K
      ensures e.OverheadStart? ==> m[e] <= m[EndOf(e)]
    {
      FanOutMembers(p, async, overheads, e);
    }
    forall e1, e2 | e1 in m && e2 in m && SpawnKey(e1).Some? && SpawnKey(e1) == SpawnKey(e2)
      ensures e1 == e2
    {
      FanOutMembers(p, async, overheads, e1);
      FanOutMembers(p, async, overheads, e2);
    }
  }

  lemma QueueFanOut(s: State, strict: bool, R: set<ReqId>, p: ReqId, async: bool, overheads: seq<bool>)
    requires Good(s, strict, if async then {} else OpenedCalls(p, |overheads|).Keys, R) && p in s.reqs
    ensures Good(With(s, FanOut(p, async, overheads)), strict, {}, R)
  {
    hide Good;
    FanOutQueueable(s, p, async, overheads);
    var K := if async then {} else OpenedCalls(p, |overheads|).Keys;
    forall key | key in K ensures Spawns(FanOut(p, async, overheads), key) {
      FanOutSpawns(p, overheads, key.index);
      assert key == CallKey(p, key.index);
    }
    Queue(s, strict, K, {}, R, FanOut(p, async, overheads));
  }

  lemma CompleteKeeps(s: State, strict: bool, r: ReqId, o: CompleteOutcome)
    requires Good(s, strict, {}, {r}) && s.reqs[r].status.Processing?
    requires forall key :: key in s.calls ==> key.parent != r
    requires strict && o.NoCallList? ==> s.reqs[r].marks.localTimeout || s.reqs[r].marks.cacheHit
    ensures Good(HandleComplete(s, r, o), strict, {}, {})
  {
    assert CallsAt(s.calls, r, Broken) == {};
    if s.reqs[r].marks.localTimeout {
      FinalizeKeeps(s, strict, r, true);
    } else if s.reqs[r].marks.cacheHit {
      FinalizeKeeps(s, strict, r, false);
    } else if o.NoCallList? {
      Release(s, {}, {r});
    } else {
      QueueFanOut(s, strict, {r}, r, true, o.asyncOverheads);
      var s1 := With(s, FanOut(r, true, o.asyncOverheads));
      if o.syncOverheads == [] {
        FinalizeKeeps(s1, strict, r, false);
      } else {
        Expand(s1, strict, r, |o.syncOverheads|);
        QueueFanOut(Expanded(s1, r, |o.syncOverheads|), strict, {}, r, false, o.syncOverheads);
      }
    }
  }

  lemma QueueTimeout(s: State, strict: bool, c: ReqId, timeout: bool)
    requires Good(s, strict, {}, {}) && c in s.reqs && s.reqs[c].parent.Some?
    ensures Good(With(s, if timeout then multiset{Timeout(c)} else multiset{}), strict, {}, {})
  {
    var m: multiset<Event> := if timeout then multiset{Timeout(c)} else multiset{};
    assert forall e :: e in m ==> e == Timeout(c);
    Queue(s, strict, {}, {}, {}, m);
  }

  lemma SpawnedKeeps(s: State, strict: bool, K: set<CallKey>, q: Request, timeout: bool)
    requires Good(s, strict, K, {}) && IsNew(q) && q.parent.Some? && q.parent.value in s.reqs && q.status.Pending?
    requires K == Claimed(q)
    ensures Good(With(With(Entered(s, q), multiset{Start(s.nextId)}), if timeout then multiset{Timeout(s.nextId)} else multiset{}), strict, {}, {})
  {
    var c := s.nextId;
    Enter(s, strict, K, q);
    assert K - Claimed(q) == {};
    Drive(Entered(s, q), strict, {}, Start(c));
    QueueTimeout(With(Entered(s, q), multiset{Start(c)}), strict, c, timeout);
  }

  lemma SpawnKeeps(cfg: Config, s: State, strict: bool, p: ReqId, k: nat, async: bool, attempt: nat, o: SpawnOutcome)
    requires Good(s, strict, if async then {} else {CallKey(p, k)}, {}) && p in s.reqs
    requires strict && o.SpawnError? ==> async
    ensures Good(Spawn(cfg, s, p, k, async, attempt, o), strict, {}, {})
  {
    hide Good;
    var K := if async then {} else {CallKey(p, k)};
    match o
    case SpawnError =>
      if !async { Release(s, K, {}); }
    case DependencyFailure(retryable) =>
      var q := NewRequest(Some(p), k, async, attempt, Failed);
      Enter(s, strict, K, q);
      assert K - Claimed(q) == {};
      DependencyFailureKeeps(cfg, Entered(s, q), strict, s.nextId, retryable);
    case Spawned(timeout) =>
      SpawnedKeeps(s, strict, K, NewRequest(Some(p), k, async, attempt, Pending), timeout);
  }

  lemma DependencyFailureKeeps(cfg: Config, s: State, strict: bool, c: ReqId, retryable: bool)
    requires Good(s, strict, {}, {c}) && !s.reqs[c].resolved && s.reqs[c].status.Failed?
    requires forall key :: key in s.calls ==> key.parent != c
    ensures Good(if retryable && RetryApplies(cfg, s, c) then Isolate(s, c) else FinalizeFailure(s, c), strict, {}, {})
  {
    if retryable && RetryApplies(cfg, s, c) {
      GiveUpKeeps(s, strict, c);
    } else {
      hide Good;
      FinalizeKeeps(s, strict, c, true);
    }
  }

  lemma GiveUpKeeps(s: State, strict: bool, c: ReqId)
    requires Good(s, strict, {}, {c}) && IsAwaited(s.reqs[c]) && s.reqs[c].status.Failed?
    requires forall key :: key in s.calls ==> key.parent != c
    ensures Good(Isolate(s, c), strict, {}, {})
  {
    hide Good;
    NoOpenCalls(s, strict, {}, c);
    var q := s.reqs[c].(resolved := true);
    ReplaceKeeps(s, strict, c, q);
    assert Isolate(s, c) == Replaced(s, c, q);
  }

  lemma TimeOutAsyncKeeps(cfg: Config, s: State, strict: bool, c: ReqId)
    requires Good(s, strict, {}, {}) && c in s.reqs && s.reqs[c].parent.Some? && s.reqs[c].async
    ensures Good(TimeOutAsync(cfg, s, c), strict, {}, {})
  {
    hide Good;
    var q := s.reqs[c];
    if !(q.status.Completed? || q.status.Failed? || q.marks.asyncTimedOut) {
      var retry := CanRetry(cfg, q.attempt) && Lookup(s, q.parent.value);
      var q1 := q.(marks := if retry then q.marks.(abandoned := true) else q.marks.(asyncTimedOut := true));
      Touch(s, strict, {}, {}, c, q1);
      assert {} + Freed(q, q1) == {};
      if retry {
        QueueRetry(Put(s, c, q1), strict, {}, q.parent.value, q.call, true, q.attempt + 1);
      }
    }
  }

  /** Giving up on an awaited attempt frees its call. */
  lemma ResolveAwaited(s: State, strict: bool, c: ReqId, q': Request)
    requires Good(s, strict, {}, {}) && c in s.reqs && IsAwaited(s.reqs[c]) && q'.resolved && Touches(s, {}, c, q')
    ensures Good(Put(s, c, q'), strict, {KeyOf(q')}, {})
    ensures s.reqs[c].parent.value in s.pending && s.pending[s.reqs[c].parent.value] > 0
  {
    hide Good;
    Touch(s, strict, {}, {}, c, q');
    assert {} + Freed(s.reqs[c], q') == {KeyOf(q')};
    AwaitedIsOpen(s, strict, c);
    AtOpenCall(s, strict, {}, {}, KeyOf(s.reqs[c]));
  }

  lemma AwaitedIsOpen(s: State, strict: bool, c: ReqId)
    requires Good(s, strict, {}, {}) && c in s.reqs && IsAwaited(s.reqs[c])
    ensures KeyOf(s.reqs[c]) in s.calls && s.calls[KeyOf(s.reqs[c])] == Open
    ensures !s.reqs[c].status.Failed? && !s.reqs[c].finalized && !(s.reqs[c].marks.abandoned || s.reqs[c].marks.asyncTimedOut)
  {
    assert RequestOk(s, c, {});
    assert Live(s, Child(c), KeyOf(s.reqs[c]));
  }

  lemma TimeOutSyncKeeps(cfg: Config, s: State, strict: bool, c: ReqId)
    requires Good(s, strict, {}, {}) && c in s.reqs && IsAwaited(s.reqs[c])
    ensures Good(TimeOutSync(cfg, s, c), strict, {}, {})
  {
    hide Good, Join;
    var q := s.reqs[c];
    if !q.status.Completed? {
      AwaitedIsOpen(s, strict, c);
      var q1 := q.(marks := q.marks.(waitTimedOut := true));
      if RetryApplies(cfg, Put(s, c, q1), c) {
        var q2 := q1.(resolved := true);
        ResolveAwaited(s, strict, c, q2);
        QueueRetry(Put(s, c, q2), strict, {KeyOf(q)}, q.parent.value, q.call, false, q.attempt + 1);
        IsolateUnfolds(s, c, q1);
      } else {
        ResolveAwaited(s, strict, c, Reported(q1));
        JoinKeeps(Put(s, c, Reported(q1)), strict, KeyOf(q), true, false);
        NotifyUnfolds(s, c, q1, true);
      }
    }
  }

  lemma TimeoutKeeps(cfg: Config, s: State, strict: bool, c: ReqId)
    requires Good(s, strict, {}, {}) && c in s.reqs && s.reqs[c].parent.Some?
    ensures Good(HandleTimeout(cfg, s, c), strict, {}, {})
  {
    hide Good;
    if Lookup(s, c) && !s.reqs[c].resolved {
      if s.reqs[c].async { TimeOutAsyncKeeps(cfg, s, strict, c); } else { TimeOutSyncKeeps(cfg, s, strict, c); }
    }
  }

  lemma ArriveKeeps(s: State, strict: bool, accepted: bool)
    requires Good(s, strict, {}, {})
    ensures var q := NewRequest(None, 0, false, 0, if accepted then Pending else Failed);
      Good(With(Entered(s, q), if accepted then multiset{Start(s.nextId)} else multiset{}), strict, {}, {})
  {
    hide Good;
    var q := NewRequest(None, 0, false, 0, if accepted then Pending else Failed);
    Enter(s, strict, {}, q);
    assert {} - Claimed(q) == {};
    if accepted {
      Drive(Entered(s, q), strict, {}, Start(s.nextId));
    } else {
      DropFailed(Entered(s, q), strict, s.nextId);
      assert With(Entered(s, q), multiset{}) == Entered(s, q);
    }
  }

  /** A request that fails on entry is never looked at again. */
  lemma DropFailed(s: State, strict: bool, r: ReqId)
    requires Good(s, strict, {}, {r}) && s.reqs[r].status.Failed? && s.reqs[r].parent.None?
    requires forall key :: key in s.calls ==> key.parent != r
    ensures Good(s, strict, {}, {})
  {
    forall key | key in s.calls ensures CallOk(s, key, {}) {
      assert CallOk(s, key, {r});
    }
    forall x | x in s.reqs ensures RequestOk(s, x, {}) {
      assert RequestOk(s, x, {r});
    }
  }

  lemma ForgetBase(s: State, r: ReqId)
    requires Base(s, {}) && r in s.reqs && s.reqs[r].finalized
    ensures Base(s.(gone := s.gone + {r}), {})
  {
    var s' := s.(gone := s.gone + {r});
    SameTokens(s, s');
    forall e | e in s'.events ensures EventOk(s', e) { assert EventOk(s, e); }
    forall p | p in s'.pending ensures PendingOk(s', p) { assert PendingOk(s, p); }
    forall key | key in s'.calls ensures CallOk(s', key, {}) { assert CallOk(s, key, {}); }
    forall x | x in s'.reqs ensures RequestOk(s', x, {}) { assert RequestOk(s, x, {}); }
  }

  lemma ForgetKeeps(s: State, strict: bool, r: ReqId)
    requires Good(s, strict, {}, {}) && r in s.reqs && s.reqs[r].finalized
    ensures Good(s.(gone := s.gone + {r}), strict, {}, {})
  {
    hide EventsOk, CountersOk, RequestsOk, TokensOk;
    var s' := s.(gone := s.gone + {r});
    ForgetBase(s, r);
    SameTokens(s, s');
    if strict {
      forall x | x in s.reqs && !s.reqs[x].finalized && !s.reqs[x].status.Failed? ensures Driven(s', x) { assert Driven(s, x); }
    }
  }

  /** The event a step takes, when it takes one. */
  ghost predicate TakesEvent(step: Step, e: Event) {
    !step.Arrive? && !step.Forget? && Taken(step) == multiset{e}
  }

  lemma TakeStep(s: State, strict: bool, step: Step, e: Event)
    requires Good(s, strict, {}, {}) && Enabled(s, step) && TakesEvent(step, e)
    ensures e in s.events && EventOk(s, e) && Good(Without(s, e), strict, FreedBy(e), OwnerOf(e))
    ensures e.Start? || e.Complete? ==> forall key :: key in s.calls ==> key.parent != e.req
  {
    assert e in Taken(step);
    Take(s, strict, e);
    if e.Start? || e.Complete? { NoCallsWhileQueued(s, e); }
  }

  lemma RequestStepKeeps(cfg: Config, s: State, strict: bool, step: Step)
    requires Good(s, strict, {}, {}) && Enabled(s, step) && Sound(cfg, s, step)
    requires strict ==> Lossless(s, step)
    requires step.OnStart? || step.OnComplete? || step.OnTimeout?
    ensures Good(Apply(cfg, s, step), strict, {}, {})
  {
    hide Good, HandleStart, HandleComplete, HandleTimeout;
    match step
    case OnStart(r, o) =>
      TakeStep(s, strict, step, Start(r));
      StartKeeps(cfg, Without(s, Start(r)), strict, r, o);
    case OnComplete(r, o) =>
      TakeStep(s, strict, step, Complete(r));
      CompleteKeeps(Without(s, Complete(r)), strict, r, o);
    case OnTimeout(r) =>
      TakeStep(s, strict, step, Timeout(r));
      TimeoutKeeps(cfg, Without(s, Timeout(r)), strict, r);
  }

  lemma RetryStepKeeps(cfg: Config, s: State, strict: bool, e: Event, overhead: bool, o: SpawnOutcome)
    requires e.Retry? && e.parent in s.reqs && Good(s, strict, if e.async then {} else {CallKey(e.parent, e.call)}, {})
    requires strict ==> overhead || !LosesCall(e, o)
    ensures Good(HandleRetry(cfg, s, e, overhead, o), strict, {}, {})
  {
    hide Good, Spawn;
    if overhead {
      QueueEdge(s, strict, if e.async then {} else {CallKey(e.parent, e.call)}, e.parent, e.call, e.async, e.attempt, true, true);
    } else {
      SpawnKeeps(cfg, s, strict, e.parent, e.call, e.async, e.attempt, o);
    }
  }

  lemma OverheadEndKeeps(cfg: Config, s: State, strict: bool, e: Event, o: SpawnOutcome)
    requires e.OverheadEnd? && e.parent in s.reqs && Good(s, strict, if e.async then {} else {CallKey(e.parent, e.call)}, {})
    requires strict && e.fromRetry ==> !LosesCall(e, o)
    ensures Good(HandleOverheadEnd(cfg, s, e, o), strict, {}, {})
  {
    hide Good, Spawn;
    if e.fromRetry {
      SpawnKeeps(cfg, s, strict, e.parent, e.call, e.async, e.attempt, o);
    } else {
      QueueEdge(s, strict, if e.async then {} else {CallKey(e.parent, e.call)}, e.parent, e.call, e.async, 0, false, false);
    }
  }

  lemma EdgeStepKeeps(cfg: Config, s: State, strict: bool, step: Step)
    requires Good(s, strict, {}, {}) && Enabled(s, step) && Sound(cfg, s, step)
    requires strict ==> Lossless(s, step)
    requires step.OnCall? || step.OnRetry? || step.OnOverheadStart? || step.OnOverheadEnd?
    ensures Good(Apply(cfg, s, step), strict, {}, {})
  {
    hide Good, Spawn, HandleRetry, HandleOverheadEnd;
    TakeStep(s, strict, step, step.event);
    match step
    case OnCall(e, o) =>
      SpawnKeeps(cfg, Without(s, e), strict, e.parent, e.call, e.async, 0, o);
    case OnRetry(e, overhead, o) =>
      RetryStepKeeps(cfg, Without(s, e), strict, e, overhead, o);
    case OnOverheadStart(e, ok) =>
    case OnOverheadEnd(e, o) =>
      OverheadEndKeeps(cfg, Without(s, e), strict, e, o);
  }

  /** The invariant step: every sound step keeps the join exact, and every sound and
      lossless step also keeps every open call and unfinished request moving. */
  lemma StepKeeps(cfg: Config, s: State, strict: bool, step: Step)
    requires Good(s, strict, {}, {}) && Enabled(s, step) && Sound(cfg, s, step)
    requires strict ==> Lossless(s, step)
    ensures Good(Apply(cfg, s, step), strict, {}, {})
  {
    hide Good, HandleStart, HandleComplete, HandleTimeout, Spawn, HandleRetry, HandleOverheadStart, HandleOverheadEnd;
    assert s.(events := s.events - multiset{}) == s;
    match step
    case Arrive(accepted) => ArriveKeeps(s, strict, accepted);
    case Forget(r) => ForgetKeeps(s, strict, r);
    case OnStart(_, _) => RequestStepKeeps(cfg, s, strict, step);
    case OnComplete(_, _) => RequestStepKeeps(cfg, s, strict, step);
    case OnTimeout(_) => RequestStepKeeps(cfg, s, strict, step);
    case _ => EdgeStepKeeps(cfg, s, strict, step);
  }
}
