/**
  What holds in every run of the join, with no condition on the steps: nothing is
  reported or finalised twice, counters stay positive, retry chains are bounded,
  and an attempt the caller gave up on has no further effect on its parent.
*/
module SyncJoinAlways {
  import opened Wrappers
  import opened SyncJoin

  function RetryCap(cfg: Config): nat {
    if cfg.retryEnabled && cfg.maxRetries > 0 then cfg.maxRetries else 0
  }

  ghost predicate RecordOk(cfg: Config, q: Request) {
    && q.reports <= (if q.resolved then 1 else 0)
    && q.finals == (if q.finalized then 1 else 0)
    && (q.marks.waitTimedOut ==> q.resolved)
    && q.attempt <= RetryCap(cfg)
  }

  ghost predicate Idle(s: State, r: ReqId) {
    Start(r) !in s.events && Complete(r) !in s.events && r !in s.pending
  }

  ghost predicate WaitingOk(s: State, p: ReqId)
    requires p in s.pending
  {
    && p in s.reqs && s.reqs[p].status.Processing? && !s.reqs[p].finalized
    && s.pending[p] >= 1
    && Start(p) !in s.events && Complete(p) !in s.events
  }

  ghost predicate QueuedOk(cfg: Config, s: State, e: Event) {
    && (e.Start? || e.Complete? ==> e.req in s.reqs && !s.reqs[e.req].finalized && s.events[e] == 1)
    && (e.Start? ==> s.reqs[e.req].status.Pending?)
    && (e.Complete? ==> s.reqs[e.req].status.Processing?)
    && (e.Retry? || e.OverheadStart? || e.OverheadEnd? ==> e.attempt <= RetryCap(cfg))
  }

  ghost predicate Always(cfg: Config, s: State): (always: bool)
    ensures always ==> Wf(s)
  {
    && Wf(s)
    && (forall r :: r in s.reqs ==> RecordOk(cfg, s.reqs[r]))
    && (forall p :: p in s.pending ==> WaitingOk(s, p))
    && (forall e :: e in s.events ==> QueuedOk(cfg, s, e))
  }

  /** How a request may change: a resolution or a finalisation is never undone or redone. */
  ghost predicate Kept(q: Request, q': Request) {
    && q'.parent == q.parent && q'.call == q.call && q'.async == q.async && q'.attempt == q.attempt
    && (q.finalized ==> q'.finalized && q'.status == q.status && q'.finals == q.finals)
    && (q.resolved ==> q'.resolved && q'.reports == q.reports && q'.marks.waitTimedOut == q.marks.waitTimedOut)
    && (q.marks.waitTimedOut ==> q'.marks.waitTimedOut)
  }

  ghost predicate AllKept(s: State, t: State) {
    && s.calls.Keys <= t.calls.Keys
    && forall r :: r in s.reqs ==> r in t.reqs && Kept(s.reqs[r], t.reqs[r])
  }

  lemma KeptTransitive(s: State, t: State, u: State)
    requires AllKept(s, t) && AllKept(t, u)
    ensures AllKept(s, u)
  {
  }

  lemma SelfKept(s: State)
    ensures AllKept(s, s)
  {
  }

  // --- Small changes --------------------------------------------------------------

  /** Replacing a record. Status may change only while no event or counter refers to it. */
  lemma PutAlways(cfg: Config, s: State, r: ReqId, q': Request)
    requires Always(cfg, s) && r in s.reqs && Kept(s.reqs[r], q') && RecordOk(cfg, q')
    requires Idle(s, r) || (q'.status == s.reqs[r].status && q'.finalized == s.reqs[r].finalized)
    ensures Always(cfg, Put(s, r, q')) && AllKept(s, Put(s, r, q'))
  {
    var s' := Put(s, r, q');
    forall p | p in s'.pending ensures WaitingOk(s', p) { assert WaitingOk(s, p); }
    forall e | e in s'.events ensures QueuedOk(cfg, s', e) { assert QueuedOk(cfg, s, e); }
  }

  lemma QueueAlways(cfg: Config, s: State, m: multiset<Event>)
    requires Always(cfg, s)
    requires forall e :: e in m ==> !e.Start? && !e.Complete?
    requires forall e :: e in m && (e.Retry? || e.OverheadStart? || e.OverheadEnd?) ==> e.attempt <= RetryCap(cfg)
    ensures Always(cfg, s.(events := s.events + m)) && AllKept(s, s.(events := s.events + m))
  {
    var s' := s.(events := s.events + m);
    forall p | p in s'.pending ensures WaitingOk(s', p) { assert WaitingOk(s, p); }
    forall e | e in s'.events ensures QueuedOk(cfg, s', e) { assert e in s.events ==> QueuedOk(cfg, s, e); }
  }

  lemma DriveAlways(cfg: Config, s: State, e: Event)
    requires Always(cfg, s) && (e.Start? || e.Complete?) && e.req in s.reqs && Idle(s, e.req) && !s.reqs[e.req].finalized
    requires if e.Start? then s.reqs[e.req].status.Pending? else s.reqs[e.req].status.Processing?
    ensures Always(cfg, Schedule(s, e)) && AllKept(s, Schedule(s, e))
  {
    var s' := Schedule(s, e);
    forall p | p in s'.pending ensures WaitingOk(s', p) { assert WaitingOk(s, p); }
    forall x | x in s'.events ensures QueuedOk(cfg, s', x) { assert x in s.events ==> QueuedOk(cfg, s, x); }
  }

  lemma TakeAlways(cfg: Config, s: State, e: Event)
    requires Always(cfg, s) && e in s.events
    ensures var s' := s.(events := s.events - multiset{e});
      Always(cfg, s') && AllKept(s, s') && (e.Start? || e.Complete? ==> Idle(s', e.req))
  {
    var s' := s.(events := s.events - multiset{e});
    assert QueuedOk(cfg, s, e);
    forall p | p in s'.pending ensures WaitingOk(s', p) { assert WaitingOk(s, p); }
    forall x | x in s'.events ensures QueuedOk(cfg, s', x) { assert QueuedOk(cfg, s, x); }
    if e.Start? || e.Complete? {
      var r := e.req;
      assert r in s.pending ==> WaitingOk(s, r);
      assert Start(r) in s.events ==> QueuedOk(cfg, s, Start(r));
      assert Complete(r) in s.events ==> QueuedOk(cfg, s, Complete(r));
    }
  }

  lemma EnterAlways(cfg: Config, s: State, q: Request)
    requires Always(cfg, s) && RecordOk(cfg, q) && !q.finalized && (q.parent.Some? ==> q.parent.value in s.reqs)
    ensures var s' := s.(reqs := s.reqs[s.nextId := q], nextId := s.nextId + 1);
      Always(cfg, s') && AllKept(s, s') && Idle(s', s.nextId)
  {
    var s' := s.(reqs := s.reqs[s.nextId := q], nextId := s.nextId + 1);
    forall p | p in s'.pending ensures WaitingOk(s', p) { assert WaitingOk(s, p); }
    forall x | x in s'.events ensures QueuedOk(cfg, s', x) { assert QueuedOk(cfg, s, x); }
    var r := s.nextId;
    assert r in s.pending ==> WaitingOk(s, r);
    assert Start(r) in s.events ==> QueuedOk(cfg, s, Start(r));
    assert Complete(r) in s.events ==> QueuedOk(cfg, s, Complete(r));
  }

  // --- The resolution chain -------------------------------------------------------

  lemma NotifyAlways(cfg: Config, s: State, c: ReqId, failed: bool)
    requires Always(cfg, s) && c in s.reqs
    ensures Always(cfg, Notify(s, c, failed)) && AllKept(s, Notify(s, c, failed))
    decreases c, 0
  {
    hide Always, Join;
    var q := s.reqs[c];
    RecordAt(cfg, s, c);
    if !(q.parent.None? || q.async || q.resolved) {
      var p := q.parent.value;
      if p !in s.pending || s.pending[p] <= 0 {
        PutAlways(cfg, s, c, q.(resolved := true));
      } else {
        var s1 := Put(s, c, Reported(q));
        PutAlways(cfg, s, c, Reported(q));
        JoinAlways(cfg, s1, KeyOf(q), failed, false);
        KeptTransitive(s, s1, Join(s1, KeyOf(q), failed, false));
      }
    }
  }

  lemma RecordAt(cfg: Config, s: State, r: ReqId)
    requires Always(cfg, s) && r in s.reqs
    ensures RecordOk(cfg, s.reqs[r])
    ensures r in s.pending ==> WaitingOk(s, r)
  {
  }

  lemma CloseAlways(cfg: Config, s: State, key: CallKey, o: Outcome)
    requires Always(cfg, s) && key.parent in s.pending && s.pending[key.parent] > 0
    ensures var p, n := key.parent, s.pending[key.parent] - 1;
      var s1 := s.(calls := s.calls[key := o]);
      if n > 0 then Always(cfg, s1.(pending := s1.pending[p := n]))
      else Always(cfg, s1.(pending := s1.pending - {p})) && Idle(s1.(pending := s1.pending - {p}), p)
  {
    var p, n := key.parent, s.pending[key.parent] - 1;
    var s1 := s.(calls := s.calls[key := o]);
    var s2 := if n > 0 then s1.(pending := s1.pending[p := n]) else s1.(pending := s1.pending - {p});
    assert WaitingOk(s, p);
    forall x | x in s2.pending ensures WaitingOk(s2, x) { assert WaitingOk(s, x); }
    forall e | e in s2.events ensures QueuedOk(cfg, s2, e) { assert QueuedOk(cfg, s, e); }
  }

  lemma JoinAlways(cfg: Config, s: State, key: CallKey, failed: bool, held: bool)
    requires Always(cfg, s) && key.parent in s.reqs && key.parent in s.pending && s.pending[key.parent] > 0
    ensures Always(cfg, Join(s, key, failed, held)) && AllKept(s, Join(s, key, failed, held))
    decreases key.parent, 2
  {
    hide Always, FinalizeFailure, FinalizeCompletion;
    var p, found, o := key.parent, held || Lookup(s, key.parent), if failed then Broken else Succeeded;
    RecordAt(cfg, s, p);
    var q1 := s.reqs[p].(subtreeFailed := true);
    PutAlways(cfg, s, p, q1);
    var s0 := if failed && found then Put(s, p, q1) else s;
    assert AllKept(s, s0);
    CloseAlways(cfg, s0, key, o);
    var s1 := s0.(calls := s0.calls[key := o]);
    if s.pending[p] > 1 {
      assert AllKept(s, s1.(pending := s1.pending[p := s.pending[p] - 1]));
    } else {
      var s2 := s1.(pending := s1.pending - {p});
      assert AllKept(s, s2);
      if found {
        var fails := s2.reqs[p].subtreeFailed;
        FinalizeAlways(cfg, s2, p, fails);
        KeptTransitive(s, s2, if fails then FinalizeFailure(s2, p) else FinalizeCompletion(s2, p));
      }
    }
  }

  lemma FinalizeAlways(cfg: Config, s: State, r: ReqId, failed: bool)
    requires Always(cfg, s) && r in s.reqs && Idle(s, r)
    ensures var t := if failed then FinalizeFailure(s, r) else FinalizeCompletion(s, r); Always(cfg, t) && AllKept(s, t)
    decreases r, 1
  {
    hide Always, Notify;
    var q := s.reqs[r];
    RecordAt(cfg, s, r);
    if !q.finalized {
      var status := if failed then Failed else if q.marks.abandoned || !q.status.Failed? then Completed else Failed;
      var s1 := Put(s, r, Finished(q, status));
      PutAlways(cfg, s, r, Finished(q, status));
      NotifyAlways(cfg, s1, r, failed);
      KeptTransitive(s, s1, Notify(s1, r, failed));
    }
  }

  // --- The handlers ---------------------------------------------------------------

  lemma IsolateAlways(cfg: Config, s: State, c: ReqId)
    requires Always(cfg, s) && c in s.reqs && s.reqs[c].parent.Some? && CanRetry(cfg, s.reqs[c].attempt)
    ensures Always(cfg, Isolate(s, c)) && AllKept(s, Isolate(s, c))
  {
    hide Always;
    RecordAt(cfg, s, c);
    var q := s.reqs[c];
    var s1 := Put(s, c, q.(resolved := true));
    PutAlways(cfg, s, c, q.(resolved := true));
    QueueAlways(cfg, s1, multiset{Retry(q.parent.value, q.call, false, q.attempt + 1)});
    KeptTransitive(s, s1, Isolate(s, c));
  }

  lemma FailStartAlways(cfg: Config, s: State, r: ReqId, finalize: bool)
    requires Always(cfg, s) && r in s.reqs && Idle(s, r) && !s.reqs[r].finalized
    ensures Always(cfg, FailStart(cfg, s, r, finalize)) && AllKept(s, FailStart(cfg, s, r, finalize))
  {
    hide Always, Notify, FinalizeFailure, Isolate;
    RecordAt(cfg, s, r);
    var s1 := Put(s, r, s.reqs[r].(status := Failed));
    PutAlways(cfg, s, r, s.reqs[r].(status := Failed));
    if RetryApplies(cfg, s1, r) { IsolateAlways(cfg, s1, r); }
    else if finalize { FinalizeAlways(cfg, s1, r, true); }
    else { NotifyAlways(cfg, s1, r, true); }
    KeptTransitive(s, s1, FailStart(cfg, s, r, finalize));
  }

  lemma StartAlways(cfg: Config, s: State, r: ReqId, o: StartOutcome)
    requires Always(cfg, s) && r in s.reqs && Idle(s, r) && !s.reqs[r].finalized && s.reqs[r].status.Pending?
    ensures Always(cfg, HandleStart(cfg, s, r, o)) && AllKept(s, HandleStart(cfg, s, r, o))
  {
    hide Always, FailStart;
    var q := s.reqs[r];
    RecordAt(cfg, s, r);
    match o
    case HandlerError =>
    case BeginError(hit) => PutAlways(cfg, s, r, Begun(q, false, hit));
    case Defer =>
      var q1 := q.(marks := q.marks.(deferred := true));
      PutAlways(cfg, s, r, q1);
      DriveAlways(cfg, Put(s, r, q1), Start(r));
      KeptTransitive(s, Put(s, r, q1), HandleStart(cfg, s, r, o));
    case Begin(lt, hit) =>
      var q1 := Begun(q, lt, hit);
      PutAlways(cfg, s, r, q1);
      DriveAlways(cfg, Put(s, r, q1), Complete(r));
      KeptTransitive(s, Put(s, r, q1), HandleStart(cfg, s, r, o));
    case LocalFailure => FailStartAlways(cfg, s, r, true);
    case StartFailure => FailStartAlways(cfg, s, r, false);
  }

  lemma FanOutAttempts(p: ReqId, async: bool, overheads: seq<bool>, e: Event)
    requires e in FanOut(p, async, overheads)
    ensures e.Call? || ((e.OverheadStart? || e.OverheadEnd?) && e.attempt == 0)
  {
    if overheads != [] {
      var k := |overheads| - 1;
      if e in FanOut(p, async, overheads[..k]) {
        FanOutAttempts(p, async, overheads[..k], e);
      } else {
        assert e in EdgeEvents(p, k, async, 0, false, overheads[k]);
      }
    }
  }

  lemma FanOutAlways(cfg: Config, s: State, p: ReqId, async: bool, overheads: seq<bool>)
    requires Always(cfg, s)
    ensures var t := s.(events := s.events + FanOut(p, async, overheads)); Always(cfg, t) && AllKept(s, t)
    ensures var t := s.(events := s.events + FanOut(p, async, overheads)); Idle(s, p) ==> Idle(t, p)
  {
    hide Always;
    var m := FanOut(p, async, overheads);
    forall e | e in m ensures e.Call? || ((e.OverheadStart? || e.OverheadEnd?) && e.attempt == 0) {
      FanOutAttempts(p, async, overheads, e);
    }
    QueueAlways(cfg, s, m);
  }

  lemma ExpandAlways(cfg: Config, s: State, r: ReqId, n: nat)
    requires Always(cfg, s) && r in s.reqs && Idle(s, r) && s.reqs[r].status.Processing? && !s.reqs[r].finalized && n >= 1
    ensures Always(cfg, s.(pending := s.pending[r := n], calls := s.calls + OpenedCalls(r, n)))
  {
    var s' := s.(pending := s.pending[r := n], calls := s.calls + OpenedCalls(r, n));
    forall p | p in s'.pending ensures WaitingOk(s', p) { assert p in s.pending ==> WaitingOk(s, p); }
    forall e | e in s'.events ensures QueuedOk(cfg, s', e) { assert QueuedOk(cfg, s, e); }
  }

  lemma CompleteAlways(cfg: Config, s: State, r: ReqId, o: CompleteOutcome)
    requires Always(cfg, s) && r in s.reqs && Idle(s, r) && !s.reqs[r].finalized && s.reqs[r].status.Processing?
    ensures Always(cfg, HandleComplete(s, r, o)) && AllKept(s, HandleComplete(s, r, o))
  {
    hide Always, FinalizeFailure, FinalizeCompletion, FanOut;
    if s.reqs[r].marks.localTimeout { FinalizeAlways(cfg, s, r, true); }
    else if s.reqs[r].marks.cacheHit { FinalizeAlways(cfg, s, r, false); }
    else if o.Calls? {
      var s1 := s.(events := s.events + FanOut(r, true, o.asyncOverheads));
      FanOutAlways(cfg, s, r, true, o.asyncOverheads);
      if o.syncOverheads == [] {
        FinalizeAlways(cfg, s1, r, false);
        KeptTransitive(s, s1, HandleComplete(s, r, o));
      } else {
        ExpandAlways(cfg, s1, r, |o.syncOverheads|);
        var s2 := s1.(pending := s1.pending[r := |o.syncOverheads|], calls := s1.calls + OpenedCalls(r, |o.syncOverheads|));
        FanOutAlways(cfg, s2, r, false, o.syncOverheads);
      }
    }
  }

  lemma SpawnAlways(cfg: Config, s: State, p: ReqId, k: nat, async: bool, attempt: nat, o: SpawnOutcome)
    requires Always(cfg, s) && p in s.reqs && attempt <= RetryCap(cfg)
    ensures Always(cfg, Spawn(cfg, s, p, k, async, attempt, o)) && AllKept(s, Spawn(cfg, s, p, k, async, attempt, o))
  {
    hide Always, AllKept, Isolate, FinalizeFailure;
    SelfKept(s);
    var c := s.nextId;
    match o
    case SpawnError =>
    case DependencyFailure(retryable) =>
      var q := NewRequest(Some(p), k, async, attempt, Failed);
      var s1 := s.(reqs := s.reqs[c := q], nextId := c + 1);
      EnterAlways(cfg, s, q);
      if retryable && RetryApplies(cfg, s1, c) { IsolateAlways(cfg, s1, c); } else { FinalizeAlways(cfg, s1, c, true); }
      KeptTransitive(s, s1, Spawn(cfg, s, p, k, async, attempt, o));
    case Spawned(timeout) => SpawnedAlways(cfg, s, NewRequest(Some(p), k, async, attempt, Pending), timeout);
  }

  lemma SpawnedAlways(cfg: Config, s: State, q: Request, timeout: bool)
    requires Always(cfg, s) && RecordOk(cfg, q) && !q.finalized && q.status.Pending? && (q.parent.Some? ==> q.parent.value in s.reqs)
    ensures var t := s.(reqs := s.reqs[s.nextId := q], nextId := s.nextId + 1,
                        events := s.events + multiset{Start(s.nextId)} + if timeout then multiset{Timeout(s.nextId)} else multiset{});
      Always(cfg, t) && AllKept(s, t)
  {
    hide Always, AllKept;
    var c := s.nextId;
    var s1 := s.(reqs := s.reqs[c := q], nextId := c + 1);
    EnterAlways(cfg, s, q);
    DriveAlways(cfg, s1, Start(c));
    var s2 := Schedule(s1, Start(c));
    KeptTransitive(s, s1, s2);
    var m: multiset<Event> := if timeout then multiset{Timeout(c)} else multiset{};
    assert forall e :: e in m ==> e == Timeout(c);
    QueueAlways(cfg, s2, m);
    KeptTransitive(s, s2, s2.(events := s2.events + m));
  }

  lemma TimeoutAlways(cfg: Config, s: State, c: ReqId)
    requires Always(cfg, s) && c in s.reqs && s.reqs[c].parent.Some?
    ensures Always(cfg, HandleTimeout(cfg, s, c)) && AllKept(s, HandleTimeout(cfg, s, c))
  {
    hide Always, TimeOutAsync, TimeOutSync;
    if Lookup(s, c) && !s.reqs[c].resolved {
      if s.reqs[c].async { TimeOutAsyncAlways(cfg, s, c); } else { TimeOutSyncAlways(cfg, s, c); }
    }
  }

  lemma MarkAlways(cfg: Config, s: State, c: ReqId, marks: Marks)
    requires Always(cfg, s) && c in s.reqs && marks.waitTimedOut == s.reqs[c].marks.waitTimedOut
    ensures var t := Put(s, c, s.reqs[c].(marks := marks));
      Always(cfg, t) && AllKept(s, t)
  {
    hide Always, AllKept;
    RecordAt(cfg, s, c);
    PutAlways(cfg, s, c, s.reqs[c].(marks := marks));
  }

  lemma RetryAlways(cfg: Config, s: State, e: Event)
    requires Always(cfg, s) && e.Retry? && e.attempt <= RetryCap(cfg)
    ensures Always(cfg, Schedule(s, e)) && AllKept(s, Schedule(s, e))
  {
    hide Always, AllKept;
    QueueAlways(cfg, s, multiset{e});
  }

  lemma TimeOutAsyncAlways(cfg: Config, s: State, c: ReqId)
    requires Always(cfg, s) && c in s.reqs && s.reqs[c].parent.Some?
    ensures Always(cfg, TimeOutAsync(cfg, s, c)) && AllKept(s, TimeOutAsync(cfg, s, c))
  {
    hide Always, AllKept, Put, Schedule;
    SelfKept(s);
    var q := s.reqs[c];
    if !(q.status.Completed? || q.status.Failed? || q.marks.asyncTimedOut) {
      var retry := CanRetry(cfg, q.attempt) && Lookup(s, q.parent.value);
      var q1 := q.(marks := if retry then q.marks.(abandoned := true) else q.marks.(asyncTimedOut := true));
      MarkAlways(cfg, s, c, q1.marks);
      if retry {
        RetryAlways(cfg, Put(s, c, q1), Retry(q.parent.value, q.call, true, q.attempt + 1));
        KeptTransitive(s, Put(s, c, q1), TimeOutAsync(cfg, s, c));
      }
    }
  }

  predicate Reports(s: State, q: Request) {
    q.parent.Some? && q.parent.value in s.pending && s.pending[q.parent.value] > 0
  }

  /** Marking the wait as timed out and giving the attempt up, as one record change. */
  ghost function TimedOut(q: Request, report: bool): Request {
    var q1 := q.(marks := q.marks.(waitTimedOut := true));
    if report then Reported(q1) else q1.(resolved := true)
  }

  lemma TimeOutSyncUnfolds(cfg: Config, s: State, c: ReqId)
    requires Wf(s) && c in s.reqs && s.reqs[c].parent.Some? && !s.reqs[c].async && !s.reqs[c].resolved && !s.reqs[c].status.Completed?
    ensures var q := s.reqs[c];
      TimeOutSync(cfg, s, c) ==
        if RetryApplies(cfg, s, c) then Schedule(Put(s, c, TimedOut(q, false)), Retry(q.parent.value, q.call, false, q.attempt + 1))
        else if Reports(s, q) then Join(Put(s, c, TimedOut(q, true)), KeyOf(q), true, false)
        else Put(s, c, TimedOut(q, false))
  {
    hide Join;
    var q := s.reqs[c];
    var q1 := q.(marks := q.marks.(waitTimedOut := true));
    assert s.reqs[c := q1][c := TimedOut(q, true)] == s.reqs[c := TimedOut(q, true)];
    assert s.reqs[c := q1][c := TimedOut(q, false)] == s.reqs[c := TimedOut(q, false)];
  }

  lemma TimeOutSyncAlways(cfg: Config, s: State, c: ReqId)
    requires Always(cfg, s) && c in s.reqs && s.reqs[c].parent.Some? && !s.reqs[c].async && !s.reqs[c].resolved
    ensures Always(cfg, TimeOutSync(cfg, s, c)) && AllKept(s, TimeOutSync(cfg, s, c))
  {
    hide Always, AllKept, Join, Notify, Isolate;
    SelfKept(s);
    RecordAt(cfg, s, c);
    var q := s.reqs[c];
    if !q.status.Completed? {
      TimeOutSyncUnfolds(cfg, s, c);
      var s2 := Put(s, c, TimedOut(q, !RetryApplies(cfg, s, c) && Reports(s, q)));
      PutAlways(cfg, s, c, s2.reqs[c]);
      if RetryApplies(cfg, s, c) {
        QueueAlways(cfg, s2, multiset{Retry(q.parent.value, q.call, false, q.attempt + 1)});
      } else if Reports(s, q) {
        JoinAlways(cfg, s2, KeyOf(q), true, false);
      } else {
        SelfKept(s2);
      }
      KeptTransitive(s, s2, TimeOutSync(cfg, s, c));
    }
  }

  lemma OverheadStartAlways(cfg: Config, s: State, e: Event, ok: bool)
    requires Always(cfg, s) && e.OverheadStart? && e.parent in s.reqs && e.attempt <= RetryCap(cfg)
    ensures Always(cfg, HandleOverheadStart(cfg, s, e, ok)) && AllKept(s, HandleOverheadStart(cfg, s, e, ok))
  {
    hide Always, Join;
    if !ok {
      if !e.async && CanRetry(cfg, e.attempt) {
        QueueAlways(cfg, s, multiset{Retry(e.parent, e.call, false, e.attempt + 1)});
      } else if !(e.async || e.parent !in s.pending || s.pending[e.parent] <= 0) {
        JoinAlways(cfg, s, CallKey(e.parent, e.call), true, true);
      }
    }
  }

  lemma EdgeAlways(cfg: Config, s: State, step: Step)
    requires Always(cfg, s) && Enabled(s, step)
    requires step.OnCall? || step.OnRetry? || step.OnOverheadStart? || step.OnOverheadEnd?
    ensures Always(cfg, Apply(cfg, s, step)) && AllKept(s, Apply(cfg, s, step))
  {
    hide Always, AllKept, Spawn, HandleOverheadStart, EdgeEvents;
    var s0 := s.(events := s.events - multiset{step.event});
    assert step.event in Taken(step);
    TakeAlways(cfg, s, step.event);
    QueuedAt(cfg, s, step.event);
    match step {
    case OnCall(e, o) => SpawnAlways(cfg, s0, e.parent, e.call, e.async, 0, o);
    case OnRetry(e, overhead, o) =>
      if overhead { EdgeEventsAlways(cfg, s0, e.parent, e.call, e.async, e.attempt); }
      else { SpawnAlways(cfg, s0, e.parent, e.call, e.async, e.attempt, o); }
    case OnOverheadStart(e, ok) => OverheadStartAlways(cfg, s0, e, ok);
    case OnOverheadEnd(e, o) =>
      if e.fromRetry { SpawnAlways(cfg, s0, e.parent, e.call, e.async, e.attempt, o); }
      else { QueueAlways(cfg, s0, multiset{Call(e.parent, e.call, e.async)}); }
    }
    KeptTransitive(s, s0, Apply(cfg, s, step));
  }

  lemma EdgeEventsAlways(cfg: Config, s: State, p: ReqId, k: nat, async: bool, attempt: nat)
    requires Always(cfg, s) && attempt <= RetryCap(cfg)
    ensures var t := s.(events := s.events + EdgeEvents(p, k, async, attempt, true, true)); Always(cfg, t) && AllKept(s, t)
  {
    hide Always, AllKept;
    QueueAlways(cfg, s, EdgeEvents(p, k, async, attempt, true, true));
  }

  lemma QueuedAt(cfg: Config, s: State, e: Event)
    requires Always(cfg, s) && e in s.events
    ensures QueuedOk(cfg, s, e)
  {
  }

  lemma RequestAlways(cfg: Config, s: State, step: Step)
    requires Always(cfg, s) && Enabled(s, step) && (step.OnStart? || step.OnComplete? || step.OnTimeout?)
    ensures Always(cfg, Apply(cfg, s, step)) && AllKept(s, Apply(cfg, s, step))
  {
    hide Always, AllKept, HandleStart, HandleComplete, HandleTimeout;
    var e := match step case OnStart(r, _) => Start(r) case OnComplete(r, _) => Complete(r) case OnTimeout(r) => Timeout(r);
    assert e in Taken(step);
    var s0 := s.(events := s.events - multiset{e});
    TakeAlways(cfg, s, e);
    QueuedAt(cfg, s, e);
    match step {
    case OnStart(r, o) => StartAlways(cfg, s0, r, o);
    case OnComplete(r, o) => CompleteAlways(cfg, s0, r, o);
    case OnTimeout(r) => TimeoutAlways(cfg, s0, r);
    }
    KeptTransitive(s, s0, Apply(cfg, s, step));
  }

  lemma ArriveAlways(cfg: Config, s: State, accepted: bool)
    requires Always(cfg, s)
    ensures var t := Apply(cfg, s, Arrive(accepted)); Always(cfg, t) && AllKept(s, t)
  {
    hide Always, AllKept;
    assert s.events - multiset{} == s.events;
    var q := NewRequest(None, 0, false, 0, if accepted then Pending else Failed);
    var s1 := s.(reqs := s.reqs[s.nextId := q], nextId := s.nextId + 1);
    EnterAlways(cfg, s, q);
    if accepted {
      DriveAlways(cfg, s1, Start(s.nextId));
      KeptTransitive(s, s1, Schedule(s1, Start(s.nextId)));
    } else {
      assert s1.(events := s1.events + multiset{}) == s1;
    }
  }

  lemma ForgetAlways(cfg: Config, s: State, r: ReqId)
    requires Always(cfg, s) && Enabled(s, Forget(r))
    ensures var t := Apply(cfg, s, Forget(r)); Always(cfg, t) && AllKept(s, t)
  {
    assert s.events - multiset{} == s.events;
    var s' := s.(gone := s.gone + {r});
    forall p | p in s'.pending ensures WaitingOk(s', p) { assert WaitingOk(s, p); }
    forall e | e in s'.events ensures QueuedOk(cfg, s', e) { assert QueuedOk(cfg, s, e); }
  }

  lemma StepAlways(cfg: Config, s: State, step: Step)
    requires Always(cfg, s) && Enabled(s, step)
    ensures Always(cfg, Apply(cfg, s, step)) && AllKept(s, Apply(cfg, s, step))
  {
    hide Always, AllKept, Apply;
    match step
    case Arrive(accepted) => ArriveAlways(cfg, s, accepted);
    case Forget(r) => ForgetAlways(cfg, s, r);
    case OnStart(_, _) => RequestAlways(cfg, s, step);
    case OnComplete(_, _) => RequestAlways(cfg, s, step);
    case OnTimeout(_) => RequestAlways(cfg, s, step);
    case _ => EdgeAlways(cfg, s, step);
  }

  // --- Whole runs -----------------------------------------------------------------

  lemma EmptyAlways(cfg: Config)
    ensures Always(cfg, EMPTY)
  {
  }

  lemma {:induction false} RunAlways(cfg: Config, states: seq<State>, steps: seq<Step>, i: nat)
    requires IsRun(cfg, states, steps) && i < |states|
    ensures Always(cfg, states[i])
  {
    hide Always, Apply, Enabled;
    if i == 0 {
      EmptyAlways(cfg);
    } else {
      RunAlways(cfg, states, steps, i - 1);
      StepAlways(cfg, states[i - 1], steps[i - 1]);
    }
  }

  lemma {:induction false} RunKept(cfg: Config, states: seq<State>, steps: seq<Step>, i: nat, j: nat)
    requires IsRun(cfg, states, steps) && i <= j < |states|
    ensures AllKept(states[i], states[j])
  {
    hide Always, Apply, Enabled;
    if i < j {
      RunKept(cfg, states, steps, i, j - 1);
      RunAlways(cfg, states, steps, j - 1);
      StepAlways(cfg, states[j - 1], steps[j - 1]);
      KeptTransitive(states[i], states[j - 1], states[j]);
    }
  }

  /** In every run, whatever the steps: each attempt reports at most once, each request is
      finalised at most once, stored counters are positive, no attempt number exceeds
      max_retries, and a resolution or a final status is never changed later on. */
  lemma AtMostOnce(cfg: Config, states: seq<State>, steps: seq<Step>, i: nat, j: nat, r: ReqId)
    requires IsRun(cfg, states, steps) && i <= j < |states| && r in states[i].reqs
    ensures r in states[j].reqs
    ensures var q, q' := states[i].reqs[r], states[j].reqs[r];
      && q.reports <= 1 && q.finals <= 1
      && (q.finals == 1 <==> q.finalized)
      && q.attempt <= RetryCap(cfg)
      && (q.finalized ==> q'.finalized && q'.status == q.status)
      && (q.resolved ==> q'.resolved && q'.reports == q.reports && q'.marks.waitTimedOut == q.marks.waitTimedOut)
    ensures forall p :: p in states[i].pending ==>
      states[i].pending[p] >= 1 && p in states[i].reqs && !states[i].reqs[p].finalized
  {
    RunAlways(cfg, states, steps, i);
    RunKept(cfg, states, steps, i, j);
    RecordAt(cfg, states[i], r);
    forall p | p in states[i].pending ensures WaitingOk(states[i], p) {}
  }

  lemma NotifyResolved(s: State, c: ReqId, failed: bool)
    requires Wf(s) && c in s.reqs && s.reqs[c].resolved
    ensures Notify(s, c, failed) == s
  {
  }

  lemma FinalizeResolved(s: State, r: ReqId, failed: bool)
    requires Wf(s) && r in s.reqs && s.reqs[r].resolved
    ensures var t := if failed then FinalizeFailure(s, r) else FinalizeCompletion(s, r);
      t.pending == s.pending && t.calls == s.calls && t.reqs == s.reqs[r := t.reqs[r]]
  {
    hide Notify;
    NotifyResolved(Put(s, r, Finished(s.reqs[r], if failed then Failed else Completed)), r, failed);
  }

  /** Finalising or completing an attempt whose caller no longer waits touches that attempt only. */
  lemma ResolvedIsInert(s: State, r: ReqId, o: CompleteOutcome)
    requires Wf(s) && r in s.reqs && s.reqs[r].resolved
    ensures var t := HandleComplete(s, r, o);
      && t.reqs.Keys == s.reqs.Keys && (forall x :: x in s.reqs && x != r ==> t.reqs[x] == s.reqs[x])
      && (forall p :: p != r ==> (p in t.pending <==> p in s.pending) && (p in s.pending ==> t.pending[p] == s.pending[p]))
      && (forall key: CallKey :: key.parent != r ==> (key in t.calls <==> key in s.calls) && (key in s.calls ==> t.calls[key] == s.calls[key]))
  {
    hide FinalizeFailure, FinalizeCompletion;
    if s.reqs[r].marks.localTimeout { FinalizeResolved(s, r, true); }
    else if s.reqs[r].marks.cacheHit { FinalizeResolved(s, r, false); }
    else if o.Calls? && o.syncOverheads == [] {
      FinalizeResolved(s.(events := s.events + FanOut(r, true, o.asyncOverheads)), r, false);
    }
  }

  /** A sync attempt whose caller timed out may complete later: no counter, call or other
      request is changed by that, in particular not the parent. */
  lemma LateCompletion(cfg: Config, states: seq<State>, steps: seq<Step>, i: nat)
    requires IsRun(cfg, states, steps) && i < |steps| && steps[i].OnComplete?
    requires steps[i].req in states[i].reqs && states[i].reqs[steps[i].req].marks.waitTimedOut
    ensures var r, s, t := steps[i].req, states[i], states[i + 1];
      && (forall x :: x in s.reqs && x != r ==> x in t.reqs && t.reqs[x] == s.reqs[x])
      && (forall p :: p != r ==> (p in t.pending <==> p in s.pending) && (p in s.pending ==> t.pending[p] == s.pending[p]))
      && (forall key :: key in s.calls && key.parent != r ==> key in t.calls && t.calls[key] == s.calls[key])
  {
    var r, s := steps[i].req, states[i];
    RunAlways(cfg, states, steps, i);
    RecordAt(cfg, s, r);
    ResolvedIsInert(s.(events := s.events - multiset{Complete(r)}), r, steps[i].complete);
  }

  /** An attempt resolved before its timeout fires is never counted as timed out. */
  lemma ResolvedInTime(cfg: Config, states: seq<State>, steps: seq<Step>, i: nat, j: nat, c: ReqId)
    requires IsRun(cfg, states, steps) && i <= j < |states| && c in states[i].reqs
    requires states[i].reqs[c].resolved && !states[i].reqs[c].marks.waitTimedOut
    ensures c in states[j].reqs && states[j].reqs[c].resolved && !states[j].reqs[c].marks.waitTimedOut
  {
    RunKept(cfg, states, steps, i, j);
  }
}
