/**
  The invariant of the synchronous join, and that every step keeps it.

  A logical call that is still open is carried by at most one token: a queued
  event that will spawn its next attempt, or the one attempt whose outcome the
  parent still waits for.  Handlers only ever drop a token, move it, or trade it
  for a resolution, and the parent's counter is the number of open calls.
*/
module SyncJoinInvariant {
  import opened Wrappers
  import opened SyncJoin

  datatype Token = Queued(event: Event) | Child(req: ReqId)

  /** The logical call that a queued event will make another attempt for. */
  function SpawnKey(e: Event): Option<CallKey> {
    if (e.Call? || e.Retry? || e.OverheadEnd?) && !e.async then Some(CallKey(e.parent, e.call)) else None
  }

  predicate IsAwaited(q: Request) {
    q.parent.Some? && !q.async && !q.resolved
  }

  predicate Live(s: State, t: Token, key: CallKey) {
    match t
    case Queued(e) => e in s.events && SpawnKey(e) == Some(key)
    case Child(c) => c in s.reqs && IsAwaited(s.reqs[c]) && KeyOf(s.reqs[c]) == key
  }

  function CallsAt(calls: map<CallKey, Outcome>, p: ReqId, o: Outcome): set<CallKey> {
    set key | key in calls && key.parent == p && calls[key] == o
  }

  function EndOf(e: Event): Event
    requires e.OverheadStart?
  {
    OverheadEnd(e.parent, e.call, e.async, e.attempt, e.fromRetry)
  }

  /** The request an event is about. */
  function Subject(e: Event): ReqId {
    if e.Start? || e.Complete? || e.Timeout? then e.req else e.parent
  }

  ghost predicate EventOk(s: State, e: Event) {
    && Subject(e) in s.reqs
    && (e.Start? ==> s.reqs[e.req].status.Pending? && !s.reqs[e.req].finalized)
    && (e.Complete? ==> s.reqs[e.req].status.Processing? && !s.reqs[e.req].finalized)
    && (e.Timeout? ==> s.reqs[e.req].parent.Some?)
    && (e.Start? || e.Complete? || SpawnKey(e).Some? ==> s.events[e] == 1)
    && (e.OverheadStart? ==> s.events[e] <= s.events[EndOf(e)])
  }

  ghost predicate PendingOk(s: State, p: ReqId)
    requires p in s.pending
  {
    && p in s.reqs && !s.reqs[p].finalized && s.reqs[p].status.Processing?
    && s.pending[p] == |CallsAt(s.calls, p, Open)|
    && s.pending[p] >= 1
  }

  ghost predicate NotQueued(s: State, r: ReqId) {
    Start(r) !in s.events && Complete(r) !in s.events
  }

  /** `R` holds the requests a handler is working on: they are finalised, or given
      their next event, before the handler returns. */
  ghost predicate CallOk(s: State, key: CallKey, R: set<ReqId>)
    requires key in s.calls
  {
    var p := key.parent;
    && p in s.reqs && NotQueued(s, p)
    && (s.calls[key] == Open ==> p in s.pending)
    && (p !in R ==> (p in s.pending <==> !s.reqs[p].finalized))
    && (s.reqs[p].finalized ==> (s.reqs[p].status.Failed? <==> CallsAt(s.calls, p, Broken) != {}))
  }

  ghost predicate RequestOk(s: State, r: ReqId, R: set<ReqId>)
    requires r in s.reqs
  {
    var q := s.reqs[r];
    && (q.subtreeFailed <==> CallsAt(s.calls, r, Broken) != {})
    && (r !in R && IsAwaited(q) ==> !q.status.Failed? && !q.finalized)
    && (q.marks.abandoned || q.marks.asyncTimedOut ==> q.async)
    && (r in R ==> !q.finalized && NotQueued(s, r) && r !in s.pending)
  }

  ghost predicate TokensOk(s: State) {
    && (forall t, key :: Live(s, t, key) ==> key in s.calls && s.calls[key] == Open)
    && (forall t1, t2, key :: Live(s, t1, key) && Live(s, t2, key) ==> t1 == t2)
  }

  ghost predicate EventsOk(s: State) {
    forall e :: e in s.events ==> EventOk(s, e)
  }

  ghost predicate CountersOk(s: State, R: set<ReqId>) {
    && (forall p :: p in s.pending ==> PendingOk(s, p))
    && (forall key :: key in s.calls ==> CallOk(s, key, R))
  }

  ghost predicate RequestsOk(s: State, R: set<ReqId>) {
    && (forall r :: r in s.reqs ==> RequestOk(s, r, R))
    && (forall r :: r in s.gone ==> r in s.reqs && s.reqs[r].finalized)
  }

  ghost predicate Base(s: State, R: set<ReqId>) {
    Wf(s) && R <= s.reqs.Keys && EventsOk(s) && CountersOk(s, R) && RequestsOk(s, R) && TokensOk(s)
  }

  ghost predicate Carried(s: State, key: CallKey) {
    exists t :: Live(s, t, key)
  }

  /** Some queued event or counter will move the request on. */
  ghost predicate Driven(s: State, r: ReqId) {
    Start(r) in s.events || Complete(r) in s.events || r in s.pending
  }

  /** Nothing is lost: every open call is carried and every unfinished request is driven. */
  ghost predicate NothingLost(s: State, K: set<CallKey>, R: set<ReqId>) {
    && (forall key :: key in s.calls && s.calls[key] == Open && key !in K ==> Carried(s, key))
    && (forall r :: r in s.reqs && r !in R && !s.reqs[r].finalized && !s.reqs[r].status.Failed? ==> Driven(s, r))
  }

  /** `K` holds the open calls that a handler has just taken the token from. */
  ghost predicate Good(s: State, strict: bool, K: set<CallKey>, R: set<ReqId>): (good: bool)
    ensures good ==> Wf(s) && R <= s.reqs.Keys
  {
    && Base(s, R)
    && (forall key :: key in K ==> key in s.calls && s.calls[key] == Open && !Carried(s, key))
    && (strict ==> NothingLost(s, K, R))
  }

  // --- Changing one request -------------------------------------------------------

  ghost function Freed(q: Request, q': Request): set<CallKey> {
    if IsAwaited(q) && !IsAwaited(q') then {KeyOf(q)} else {}
  }

  lemma LiveAfterPut(s: State, r: ReqId, q': Request)
    requires Wf(s) && r in s.reqs
    requires var q := s.reqs[r]; q'.parent == q.parent && q'.call == q.call && q'.async == q.async && (q.resolved ==> q'.resolved)
    ensures forall t, key :: Live(Put(s, r, q'), t, key) <==> Live(s, t, key) && !(t == Child(r) && q'.resolved)
  {
  }

  /** A change of metadata, of `resolved`, or of the status of a request in `R`. */
  ghost predicate Touches(s: State, R: set<ReqId>, r: ReqId, q': Request) {
    r in s.reqs && var q := s.reqs[r];
      && q'.parent == q.parent && q'.call == q.call && q'.async == q.async && q'.finalized == q.finalized
      && q'.subtreeFailed == q.subtreeFailed && (q.resolved ==> q'.resolved)
      && (q'.status == q.status || r in R)
      && (q'.marks.abandoned || q'.marks.asyncTimedOut ==> q'.async)
  }

  lemma TouchEvents(s: State, R: set<ReqId>, r: ReqId, q': Request)
    requires Wf(s) && EventsOk(s) && RequestsOk(s, R) && Touches(s, R, r, q')
    ensures EventsOk(Put(s, r, q'))
  {
    forall e | e in s.events ensures EventOk(Put(s, r, q'), e) {
      assert EventOk(s, e);
    }
  }

  lemma TouchCounters(s: State, R: set<ReqId>, r: ReqId, q': Request)
    requires Wf(s) && CountersOk(s, R) && RequestsOk(s, R) && Touches(s, R, r, q')
    ensures CountersOk(Put(s, r, q'), R)
  {
  }

  lemma TouchRequests(s: State, R: set<ReqId>, r: ReqId, q': Request)
    requires Wf(s) && RequestsOk(s, R) && Touches(s, R, r, q')
    ensures RequestsOk(Put(s, r, q'), R)
  {
  }

  lemma TouchBase(s: State, R: set<ReqId>, r: ReqId, q': Request)
    requires Base(s, R) && Touches(s, R, r, q')
    ensures Base(Put(s, r, q'), R)
  {
    LiveAfterPut(s, r, q');
    TouchEvents(s, R, r, q');
    TouchCounters(s, R, r, q');
    TouchRequests(s, R, r, q');
  }

  /** Metadata and resolution changes keep the invariant; resolving an awaited attempt frees its call. */
  lemma Touch(s: State, strict: bool, K: set<CallKey>, R: set<ReqId>, r: ReqId, q': Request)
    requires Good(s, strict, K, R) && Touches(s, R, r, q')
    ensures Good(Put(s, r, q'), strict, K + Freed(s.reqs[r], q'), R)
  {
    TouchBase(s, R, r, q');
    FreedCall(s, K, r, q');
  }

  lemma FreedCall(s: State, K: set<CallKey>, r: ReqId, q': Request)
    requires Wf(s) && TokensOk(s) && r in s.reqs
    requires forall key :: key in K ==> key in s.calls && s.calls[key] == Open && !Carried(s, key)
    requires var q := s.reqs[r]; q'.parent == q.parent && q'.call == q.call && q'.async == q.async && (q.resolved ==> q'.resolved)
    ensures forall key :: key in K + Freed(s.reqs[r], q') ==>
      key in s.calls && s.calls[key] == Open && !Carried(Put(s, r, q'), key)
    ensures forall key :: key !in Freed(s.reqs[r], q') && Carried(s, key) ==> Carried(Put(s, r, q'), key)
  {
    var s', q := Put(s, r, q'), s.reqs[r];
    LiveAfterPut(s, r, q');
    if IsAwaited(q) && !IsAwaited(q') {
      assert Live(s, Child(r), KeyOf(q));
    }
    forall key | key !in Freed(q, q') && Carried(s, key)
      ensures Carried(s', key)
    {
      var t :| Live(s, t, key);
      assert Live(s', t, key);
    }
  }

  /** A request in `R` reaches a state in which nothing more will be done for it. */
  ghost predicate Retires(s: State, r: ReqId, q': Request) {
    r in s.reqs && var q := s.reqs[r];
      && q'.parent == q.parent && q'.call == q.call && q'.async == q.async
      && q'.subtreeFailed == q.subtreeFailed && (q.resolved ==> q'.resolved)
      && (q'.marks.abandoned || q'.marks.asyncTimedOut ==> q'.async)
      && !IsAwaited(q')
      && (q'.finalized || q'.status.Failed?)
      && (forall key :: key in s.calls && key.parent == r ==>
            q'.finalized && (q'.status.Failed? <==> CallsAt(s.calls, r, Broken) != {}))
      && CallsAt(s.calls, r, Open) == {}
  }

  lemma RetireEvents(s: State, r: ReqId, q': Request)
    requires Wf(s) && EventsOk(s) && RequestsOk(s, {r}) && Retires(s, r, q')
    ensures EventsOk(Put(s, r, q'))
  {
    assert RequestOk(s, r, {r});
    forall e | e in s.events ensures EventOk(Put(s, r, q'), e) {
      assert EventOk(s, e);
    }
  }

  lemma RetireCounters(s: State, r: ReqId, q': Request)
    requires Wf(s) && CountersOk(s, {r}) && RequestsOk(s, {r}) && Retires(s, r, q')
    ensures CountersOk(Put(s, r, q'), {})
  {
    assert RequestOk(s, r, {r});
    var s' := Put(s, r, q');
    forall key | key in s.calls ensures CallOk(s', key, {}) {
      assert CallOk(s, key, {r});
    }
  }

  lemma RetireBase(s: State, r: ReqId, q': Request)
    requires Base(s, {r}) && Retires(s, r, q')
    ensures Base(Put(s, r, q'), {})
  {
    LiveAfterPut(s, r, q');
    RetireEvents(s, r, q');
    RetireCounters(s, r, q');
    assert RequestsOk(Put(s, r, q'), {}) by {
      forall x | x in s.reqs ensures RequestOk(Put(s, r, q'), x, {}) {
        assert RequestOk(s, x, {r});
      }
    }
  }

  lemma Retire(s: State, strict: bool, K: set<CallKey>, r: ReqId, q': Request)
    requires Good(s, strict, K, {r}) && Retires(s, r, q')
    ensures Good(Put(s, r, q'), strict, K + Freed(s.reqs[r], q'), {})
  {
    RetireBase(s, r, q');
    FreedCall(s, K, r, q');
  }

  // --- Closing a call and finalising ----------------------------------------------

  /** The state of Join after the counter update. */
  ghost function Closed(s: State, key: CallKey, failed: bool): (t: State)
    requires Wf(s) && key.parent in s.reqs && key.parent in s.pending
    ensures Wf(t)
  {
    var p := key.parent;
    var s0 := if failed then Put(s, p, s.reqs[p].(subtreeFailed := true)) else s;
    s0.(calls := s.calls[key := if failed then Broken else Succeeded],
        pending := if s.pending[p] > 1 then s.pending[p := s.pending[p] - 1] else s.pending - {p})
  }

  lemma CallsAtAfterClose(calls: map<CallKey, Outcome>, key: CallKey, o: Outcome)
    requires key in calls && calls[key] == Open && o != Open
    ensures var calls' := calls[key := o];
      && (forall p, x :: p != key.parent ==> CallsAt(calls', p, x) == CallsAt(calls, p, x))
      && key in CallsAt(calls, key.parent, Open)
      && CallsAt(calls', key.parent, Open) == CallsAt(calls, key.parent, Open) - {key}
      && CallsAt(calls', key.parent, Broken) == CallsAt(calls, key.parent, Broken) + if o == Broken then {key} else {}
  {
  }

  lemma CloseCounters(s: State, key: CallKey, failed: bool)
    requires Wf(s) && CountersOk(s, {}) && key in s.calls && s.calls[key] == Open
    ensures CallOk(s, key, {}) && key.parent in s.pending
    ensures CountersOk(Closed(s, key, failed), if s.pending[key.parent] > 1 then {} else {key.parent})
  {
    assert CallOk(s, key, {}) && PendingOk(s, key.parent);
    var s' := Closed(s, key, failed);
    CallsAtAfterClose(s.calls, key, s'.calls[key]);
    var R := if s.pending[key.parent] > 1 then {} else {key.parent};
    forall p | p in s'.pending ensures PendingOk(s', p) {
      assert PendingOk(s, p);
    }
    forall x | x in s'.calls ensures CallOk(s', x, R) {
      assert CallOk(s, x, {});
      assert x in CallsAt(s'.calls, x.parent, s'.calls[x]);
    }
  }

  lemma CloseRequests(s: State, key: CallKey, failed: bool)
    requires Wf(s) && RequestsOk(s, {}) && key in s.calls && s.calls[key] == Open
    requires CallOk(s, key, {}) && key.parent in s.pending && PendingOk(s, key.parent)
    ensures RequestsOk(Closed(s, key, failed), if s.pending[key.parent] > 1 then {} else {key.parent})
  {
    var s' := Closed(s, key, failed);
    CallsAtAfterClose(s.calls, key, s'.calls[key]);
  }

  lemma CloseEvents(s: State, key: CallKey, failed: bool)
    requires Wf(s) && EventsOk(s) && key.parent in s.reqs && key.parent in s.pending
    ensures EventsOk(Closed(s, key, failed))
  {
    forall e | e in s.events ensures EventOk(Closed(s, key, failed), e) {
      assert EventOk(s, e);
    }
  }

  lemma CloseTokens(s: State, key: CallKey, failed: bool)
    requires Wf(s) && TokensOk(s) && key.parent in s.reqs && key.parent in s.pending && !Carried(s, key)
    ensures forall t, k :: Live(Closed(s, key, failed), t, k) <==> Live(s, t, k)
    ensures TokensOk(Closed(s, key, failed))
  {
    var s' := Closed(s, key, failed);
    assert forall t, k :: Live(s', t, k) <==> Live(s, t, k);
  }

  lemma CloseBase(s: State, key: CallKey, failed: bool)
    requires Base(s, {}) && key in s.calls && s.calls[key] == Open && !Carried(s, key)
    ensures CallOk(s, key, {}) && key.parent in s.pending
    ensures Base(Closed(s, key, failed), if s.pending[key.parent] > 1 then {} else {key.parent})
  {
    CloseCounters(s, key, failed);
    CloseRequests(s, key, failed);
    CloseEvents(s, key, failed);
    CloseTokens(s, key, failed);
  }

  lemma CloseLost(s: State, key: CallKey, failed: bool)
    requires Wf(s) && NothingLost(s, {key}, {}) && key.parent in s.reqs && key.parent in s.pending
    ensures NothingLost(Closed(s, key, failed), {}, if s.pending[key.parent] > 1 then {} else {key.parent})
  {
    var s' := Closed(s, key, failed);
    forall k | k in s'.calls && s'.calls[k] == Open ensures Carried(s', k) {
      var t :| Live(s, t, k);
      assert Live(s', t, k);
    }
  }

  lemma Close(s: State, strict: bool, key: CallKey, failed: bool)
    requires Good(s, strict, {key}, {})
    ensures key.parent in s.reqs && key.parent in s.pending
    ensures Good(Closed(s, key, failed), strict, {}, if s.pending[key.parent] > 1 then {} else {key.parent})
  {
    CloseBase(s, key, failed);
    if strict {
      CloseLost(s, key, failed);
    }
  }

  lemma JoinUnfolds(s: State, key: CallKey, failed: bool, held: bool)
    requires Wf(s) && key.parent in s.reqs && key.parent in s.pending && s.pending[key.parent] > 0
    requires key.parent !in s.gone
    ensures var p, s' := key.parent, Closed(s, key, failed);
      Join(s, key, failed, held) ==
        if s.pending[p] > 1 then s'
        else if s'.reqs[p].subtreeFailed then FinalizeFailure(s', p) else FinalizeCompletion(s', p)
  {
  }

  lemma NotifyUnfolds(s: State, r: ReqId, q: Request, failed: bool)
    requires Wf(s) && r in s.reqs && q.parent == s.reqs[r].parent
    ensures !IsAwaited(q) ==> Notify(Put(s, r, q), r, failed) == Put(s, r, q)
    ensures IsAwaited(q) && q.parent.value in s.pending && s.pending[q.parent.value] > 0 ==>
      Notify(Put(s, r, q), r, failed) == Join(Put(s, r, Reported(q)), KeyOf(q), failed, false)
  {
    assert Put(Put(s, r, q), r, Reported(q)) == Put(s, r, Reported(q));
  }

  lemma FinalizeCompletionUnfolds(s: State, r: ReqId)
    requires Wf(s) && r in s.reqs && !s.reqs[r].finalized && !s.reqs[r].status.Failed?
    requires s.reqs[r].marks.abandoned || s.reqs[r].marks.asyncTimedOut ==> s.reqs[r].async
    ensures FinalizeCompletion(s, r) == Notify(Put(s, r, Finished(s.reqs[r], Completed)), r, false)
  {
    if s.reqs[r].async {
      NotifyUnfolds(s, r, Finished(s.reqs[r], Completed), false);
    }
  }

  /** What holds at an open call. */
  lemma AtOpenCall(s: State, strict: bool, K: set<CallKey>, R: set<ReqId>, key: CallKey)
    requires Good(s, strict, K, R) && key in s.calls && s.calls[key] == Open
    ensures key.parent in s.reqs && key.parent in s.pending && s.pending[key.parent] > 0 && key.parent !in s.gone
  {
    assert CallOk(s, key, R) && PendingOk(s, key.parent);
  }

  lemma NoOpenCalls(s: State, strict: bool, K: set<CallKey>, r: ReqId)
    requires Good(s, strict, K, {r})
    ensures CallsAt(s.calls, r, Open) == {}
    ensures var q := s.reqs[r]; !q.finalized && (q.subtreeFailed <==> CallsAt(s.calls, r, Broken) != {})
    ensures var q := s.reqs[r]; q.marks.abandoned || q.marks.asyncTimedOut ==> q.async
    ensures var q := s.reqs[r]; IsAwaited(q) ==> KeyOf(q) in s.calls && s.calls[KeyOf(q)] == Open
  {
    assert RequestOk(s, r, {r});
    forall key | key in s.calls && key.parent == r ensures s.calls[key] != Open {
      assert CallOk(s, key, {r});
    }
    assert IsAwaited(s.reqs[r]) ==> Live(s, Child(r), KeyOf(s.reqs[r]));
  }

  /** Join on an open call without a token: the counter follows the open calls, and the
      last resolution finalises the parent (and may go on to the parent's own parent). */
  lemma JoinKeeps(s: State, strict: bool, key: CallKey, failed: bool, held: bool)
    requires Good(s, strict, {key}, {})
    ensures key.parent in s.reqs && key.parent in s.pending && s.pending[key.parent] > 0
    ensures Good(Join(s, key, failed, held), strict, {}, {})
    decreases key.parent, 2
  {
    AtOpenCall(s, strict, {key}, {}, key);
    Close(s, strict, key, failed);
    JoinUnfolds(s, key, failed, held);
    var p, s' := key.parent, Closed(s, key, failed);
    if s.pending[p] <= 1 {
      NoOpenCalls(s', strict, {}, p);
      assert PendingOk(s, p);
      FinalizeKeeps(s', strict, p, s'.reqs[p].subtreeFailed);
    }
  }

  /** A request in `R` settles with record `q`, reporting to its parent if that waits. */
  lemma NotifyKeeps(s: State, strict: bool, r: ReqId, q: Request, failed: bool)
    requires Good(s, strict, {}, {r}) && q.parent == s.reqs[r].parent && IsAwaited(q) == IsAwaited(s.reqs[r])
    requires Retires(s, r, if IsAwaited(q) then Reported(q) else q)
    ensures Good(Notify(Put(s, r, q), r, failed), strict, {}, {})
    decreases r, 0
  {
    NotifyUnfolds(s, r, q, failed);
    if IsAwaited(q) {
      NoOpenCalls(s, strict, {}, r);
      AtOpenCall(s, strict, {}, {r}, KeyOf(q));
      Retire(s, strict, {}, r, Reported(q));
      assert {} + Freed(s.reqs[r], Reported(q)) == {KeyOf(q)};
      JoinKeeps(Put(s, r, Reported(q)), strict, KeyOf(q), failed, false);
    } else {
      Retire(s, strict, {}, r, q);
      assert {} + Freed(s.reqs[r], q) == {};
    }
  }

  /** Finalising a request whose calls are all closed keeps the invariant. */
  lemma FinalizeKeeps(s: State, strict: bool, r: ReqId, failed: bool)
    requires Good(s, strict, {}, {r})
    requires failed ==> (forall key :: key in s.calls ==> key.parent != r) || CallsAt(s.calls, r, Broken) != {}
    requires !failed ==> CallsAt(s.calls, r, Broken) == {} && !s.reqs[r].status.Failed?
    ensures Good(if failed then FinalizeFailure(s, r) else FinalizeCompletion(s, r), strict, {}, {})
    decreases r, 1
  {
    NoOpenCalls(s, strict, {}, r);
    if !failed { FinalizeCompletionUnfolds(s, r); }
    NotifyKeeps(s, strict, r, Finished(s.reqs[r], if failed then Failed else Completed), failed);
  }
}
