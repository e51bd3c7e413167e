/**
  How a call is closed follows how its attempt ended: an attempt reports a broken call if
  and only if it failed or timed out, and nothing else closes a call, except that a caller
  overhead that fails to start breaks it.
*/
module SyncJoinReports {
  import opened Wrappers
  import opened SyncJoin
  import opened SyncJoinInvariant
  import opened SyncJoinTheorems
  import opened SyncJoinRuns
  import opened SyncJoinAlways
  import SyncJoinAttempts

  /** The attempt failed, or its caller stopped waiting for it. */
  predicate EndedBadly(q: Request) {
    q.status.Failed? || q.marks.waitTimedOut
  }

  function ReportsOf(s: State, r: ReqId): nat {
    if r in s.reqs then s.reqs[r].reports else 0
  }

  predicate IsFor(q: Request, key: CallKey) {
    q.parent.Some? && !q.async && KeyOf(q) == key
  }

  /** What an attempt has told its parent is how it ended; a success is final. */
  ghost predicate Truthful(s: State, r: ReqId)
    requires r in s.reqs
  {
    var q := s.reqs[r];
    && q.parent.Some? && !q.async && KeyOf(q) in s.calls
    && var o := s.calls[KeyOf(q)];
       o != Open && (o == Broken <==> EndedBadly(q)) && (o == Succeeded ==> q.finalized)
  }

  ghost predicate Reporter(s: State, t: State, r: ReqId, key: CallKey) {
    r in t.reqs && IsFor(t.reqs[r], key) && t.reqs[r].reports == ReportsOf(s, r) + 1
  }

  predicate Closed(s: State, t: State, key: CallKey) {
    key in t.calls && t.calls[key] != Open && !(key in s.calls && s.calls[key] == t.calls[key])
  }

  /** From `s` to `t` attempts reported at most once, and truthfully, and every call closed,
      but for those in `own`, was closed by such a report. */
  ghost predicate Told(s: State, t: State, own: set<CallKey>) {
    && s.reqs.Keys <= t.reqs.Keys
    && (forall r :: r in t.reqs ==> t.reqs[r].reports == ReportsOf(s, r) || (t.reqs[r].reports == ReportsOf(s, r) + 1 && Truthful(t, r)))
    && (forall key :: Closed(s, t, key) && key !in own ==> exists r :: Reporter(s, t, r, key))
  }

  /** Requests from `a` on and calls of parents from `b` on are as before. */
  ghost predicate Untouched(s: State, t: State, a: nat, b: nat) {
    && t.reqs.Keys == s.reqs.Keys
    && (forall r :: r in s.reqs && r >= a ==> t.reqs[r] == s.reqs[r])
    && (forall key: CallKey :: key.parent >= b ==> (key in t.calls <==> key in s.calls) && (key in s.calls ==> t.calls[key] == s.calls[key]))
  }

  /** A failed attempt stays failed, unless it was abandoned, and a closed call closed. */
  ghost predicate Stays(s: State, t: State) {
    && (forall r :: r in s.reqs && s.reqs[r].status.Failed? && !s.reqs[r].marks.abandoned ==> r in t.reqs && t.reqs[r].status.Failed?)
    && (forall key :: key in s.calls && s.calls[key] != Open ==> key in t.calls && t.calls[key] != Open)
  }

  ghost predicate NoCallsOf(s: State, r: ReqId) {
    forall key :: key in s.calls ==> key.parent != r
  }

  /** Nobody whose caller stopped waiting is still waited for. */
  ghost predicate MarksOk(s: State) {
    forall r :: r in s.reqs && s.reqs[r].marks.waitTimedOut ==> s.reqs[r].resolved
  }

  // --- The resolution chain -------------------------------------------------------

  lemma SelfTold(s: State)
    ensures Told(s, s, {}) && Untouched(s, s, 0, 0) && Stays(s, s)
  {
  }

  /** A record changes without a report. */
  lemma PutTold(s: State, r: ReqId, q: Request)
    requires Wf(s) && r in s.reqs && q.parent == s.reqs[r].parent && q.reports == s.reqs[r].reports
    requires s.reqs[r].status.Failed? && !s.reqs[r].marks.abandoned ==> q.status.Failed?
    ensures Told(s, Put(s, r, q), {}) && Untouched(s, Put(s, r, q), r + 1, 0) && Stays(s, Put(s, r, q))
  {
  }

  /** What happens to the older requests afterwards does not change what was told. */
  lemma ToldOn(s: State, m: State, t: State, own: set<CallKey>, a: nat, b: nat)
    requires Told(s, m, own) && Told(m, t, {}) && Untouched(m, t, a, b)
    requires forall r :: r in m.reqs && m.reqs[r].reports != ReportsOf(s, r) ==> r >= a && m.reqs[r].parent.Some? && m.reqs[r].parent.value >= b
    requires forall key :: Closed(s, m, key) ==> key.parent >= b
    ensures Told(s, t, own)
  {
    forall r | r in t.reqs ensures t.reqs[r].reports == ReportsOf(s, r) || (t.reqs[r].reports == ReportsOf(s, r) + 1 && Truthful(t, r)) {
      if m.reqs[r].reports != ReportsOf(s, r) {
        assert Truthful(m, r);
      }
    }
    forall key | Closed(s, t, key) && key !in own ensures exists r :: Reporter(s, t, r, key) {
      if Closed(s, m, key) {
        var r :| Reporter(s, m, r, key);
        assert Reporter(s, t, r, key);
      } else {
        assert Closed(m, t, key);
        var r :| Reporter(m, t, r, key);
        assert m.reqs[r].reports == ReportsOf(s, r);
        assert Reporter(s, t, r, key);
      }
    }
  }

  lemma FailedOn(s: State, m: State, t: State)
    requires Stays(s, m) && Stays(m, t) && s.reqs.Keys <= m.reqs.Keys
    requires forall r :: r in s.reqs ==> m.reqs[r].marks.abandoned == s.reqs[r].marks.abandoned
    ensures Stays(s, t)
  {
  }

  lemma NotifyTold(s: State, c: ReqId, failed: bool)
    requires Wf(s) && c in s.reqs && (!s.reqs[c].resolved ==> (failed <==> EndedBadly(s.reqs[c])) && (!failed ==> s.reqs[c].finalized))
    requires forall r :: r in s.reqs && r != c && s.reqs[r].marks.waitTimedOut ==> s.reqs[r].resolved
    ensures var t := Notify(s, c, failed); Told(s, t, {}) && Untouched(s, t, c + 1, c) && Stays(s, t)
    decreases c, 0
  {
    hide Join, Told, Untouched, Stays, EndedBadly, MarksOk, Wf;
    var q := s.reqs[c];
    SelfTold(s);
    SelfUntouched(s, c);
    ParentOlder(s, c);
    if q.parent.Some? && !q.async && !q.resolved {
      var p := q.parent.value;
      if p !in s.pending || s.pending[p] <= 0 {
        PutTold(s, c, q.(resolved := true));
        PutUntouched(s, c, q.(resolved := true));
      } else {
        var s1 := Put(s, c, Reported(q));
        ReportedMarks(s, c);
        JoinTold(s1, KeyOf(q), failed, false);
        ReportTold(s, c, failed, Join(s1, KeyOf(q), failed, false));
      }
    }
  }

  lemma ParentOlder(s: State, c: ReqId)
    requires Wf(s) && c in s.reqs
    ensures s.reqs[c].parent.Some? ==> s.reqs[c].parent.value < c && s.reqs[c].parent.value in s.reqs
  {
  }

  lemma ReportedMarks(s: State, c: ReqId)
    requires Wf(s) && c in s.reqs && forall r :: r in s.reqs && r != c && s.reqs[r].marks.waitTimedOut ==> s.reqs[r].resolved
    ensures MarksOk(Put(s, c, Reported(s.reqs[c])))
  {
  }

  lemma SelfUntouched(s: State, c: ReqId)
    ensures Untouched(s, s, c + 1, c)
  {
  }

  lemma PutUntouched(s: State, r: ReqId, q: Request)
    requires Wf(s) && r in s.reqs && q.parent == s.reqs[r].parent
    ensures Untouched(s, Put(s, r, q), r + 1, r)
  {
  }

  /** The counter update that follows a report, or a failed overhead start. */
  lemma JoinTold(s: State, key: CallKey, failed: bool, held: bool)
    requires Wf(s) && key.parent in s.reqs && key.parent in s.pending && s.pending[key.parent] > 0 && MarksOk(s)
    ensures var t := Join(s, key, failed, held);
      && Told(s, t, {key}) && Untouched(s.(calls := s.calls[key := if failed then Broken else Succeeded]), t, key.parent + 1, key.parent) && Stays(s, t)
    decreases key.parent, 3
  {
    hide FinalizeFailure, FinalizeCompletion, Told, Untouched, Stays, Wf;
    var p := key.parent;
    var found := held || Lookup(s, p);
    var s0 := if failed && found then Put(s, p, s.reqs[p].(subtreeFailed := true)) else s;
    var s1 := s0.(calls := s0.calls[key := if failed then Broken else Succeeded]);
    var s2 := s1.(pending := s1.pending - {p});
    var t := Join(s, key, failed, held);
    StillWf(s0, s2);
    if s.pending[p] > 1 || !found {
      MarkedTold(s, s0, key, failed, t);
    } else {
      MarkedTold(s, s0, key, failed, s2);
      FinalizeTold(s2, p, s2.reqs[p].subtreeFailed);
      JoinedTold(s, s2, t, key, failed);
    }
  }

  lemma StillWf(s: State, t: State)
    requires Wf(s) && t.reqs == s.reqs && t.nextId == s.nextId
    ensures Wf(t)
  {
  }

  /** Closing the call itself, before the parent is finalised. */
  lemma MarkedTold(s: State, s0: State, key: CallKey, failed: bool, t: State)
    requires Wf(s) && key.parent in s.reqs
    requires s0 == s || s0 == Put(s, key.parent, s.reqs[key.parent].(subtreeFailed := true))
    requires t == s0.(calls := s0.calls[key := if failed then Broken else Succeeded], pending := t.pending)
    ensures Told(s, t, {key}) && Stays(s, t)
    ensures Untouched(s.(calls := s.calls[key := if failed then Broken else Succeeded]), t, key.parent + 1, key.parent)
  {
    hide Truthful;
    forall k | Closed(s, t, k) ensures k == key {}
    forall r | r in t.reqs ensures t.reqs[r].reports == ReportsOf(s, r) {}
  }

  lemma JoinedTold(s: State, s2: State, t: State, key: CallKey, failed: bool)
    requires Told(s, s2, {key}) && Stays(s, s2) && Told(s2, t, {}) && Stays(s2, t) && Untouched(s2, t, key.parent + 1, key.parent)
    requires Untouched(s.(calls := s.calls[key := if failed then Broken else Succeeded]), s2, key.parent + 1, key.parent)
    requires s2.reqs.Keys == s.reqs.Keys && forall r :: r in s.reqs ==> s2.reqs[r].reports == s.reqs[r].reports && s2.reqs[r].marks == s.reqs[r].marks
    requires s2.calls == s.calls[key := if failed then Broken else Succeeded]
    ensures Told(s, t, {key}) && Stays(s, t)
    ensures Untouched(s.(calls := s.calls[key := if failed then Broken else Succeeded]), t, key.parent + 1, key.parent)
  {
    ToldOn(s, s2, t, {key}, key.parent + 1, key.parent);
    FailedOn(s, s2, t);
  }

  lemma ReportTold(s: State, c: ReqId, failed: bool, t: State)
    requires Wf(s) && c in s.reqs && s.reqs[c].parent.Some? && !s.reqs[c].async && (failed <==> EndedBadly(s.reqs[c])) && (!failed ==> s.reqs[c].finalized)
    requires var q := s.reqs[c]; var s1 := Put(s, c, Reported(q));
      && Told(s1, t, {KeyOf(q)}) && Stays(s1, t)
      && Untouched(s1.(calls := s1.calls[KeyOf(q) := if failed then Broken else Succeeded]), t, q.parent.value + 1, q.parent.value)
    ensures Told(s, t, {}) && Untouched(s, t, c + 1, c) && Stays(s, t)
  {
    var q := s.reqs[c];
    var key := KeyOf(q);
    var s1 := Put(s, c, Reported(q));
    assert t.reqs[c] == s1.reqs[c] && t.calls[key] == if failed then Broken else Succeeded;
    assert Truthful(t, c) && Reporter(s, t, c, key);
    forall r | r in t.reqs && r != c ensures ReportsOf(s1, r) == ReportsOf(s, r) {}
    forall k | Closed(s, t, k) ensures exists r :: Reporter(s, t, r, k) {
      if k != key {
        assert Closed(s1, t, k);
        var r :| Reporter(s1, t, r, k);
        assert r != c;
        assert Reporter(s, t, r, k);
      }
    }
  }

  lemma FinalizeTold(s: State, r: ReqId, failed: bool)
    requires Wf(s) && r in s.reqs && MarksOk(s)
    ensures var t := if failed then FinalizeFailure(s, r) else FinalizeCompletion(s, r);
      Told(s, t, {}) && Untouched(s, t, r + 1, r) && Stays(s, t)
    decreases r, 2
  {
    hide Notify, Told, Untouched, Stays;
    var q := s.reqs[r];
    if q.finalized {
      SelfTold(s);
      SelfUntouched(s, r);
    } else if failed {
      EndTold(s, r, Failed, true, true);
    } else if q.marks.abandoned {
      EndTold(s, r, Completed, false, false);
    } else if q.status.Failed? {
      EndTold(s, r, Failed, false, false);
    } else {
      EndTold(s, r, Completed, false, !(q.marks.asyncTimedOut && q.async));
    }
  }

  /** Finalising with a status, with or without telling the parent. */
  lemma EndTold(s: State, r: ReqId, status: Status, failed: bool, tell: bool)
    requires Wf(s) && r in s.reqs && MarksOk(s)
    requires s.reqs[r].status.Failed? && !s.reqs[r].marks.abandoned ==> status.Failed?
    requires tell ==> (failed <==> status.Failed?)
    ensures var s1 := Put(s, r, Finished(s.reqs[r], status));
      r in s1.reqs && var t := if tell then Notify(s1, r, failed) else s1; Told(s, t, {}) && Untouched(s, t, r + 1, r) && Stays(s, t)
    decreases r, 1
  {
    hide Notify, Told, Untouched, Stays;
    var q := Finished(s.reqs[r], status);
    var s1 := Put(s, r, q);
    PutTold(s, r, q);
    PutUntouched(s, r, q);
    if tell {
      NotifyTold(s1, r, failed);
      FinishedTold(s, s1, Notify(s1, r, failed), r);
    }
  }

  lemma FinishedTold(s: State, s1: State, t: State, r: ReqId)
    requires Told(s, s1, {}) && Told(s1, t, {}) && Stays(s, s1) && Stays(s1, t) && Untouched(s, s1, r + 1, r) && Untouched(s1, t, r + 1, r)
    requires s1.reqs.Keys == s.reqs.Keys && s1.calls == s.calls
    requires forall x :: x in s.reqs ==> s1.reqs[x].reports == s.reqs[x].reports && s1.reqs[x].marks == s.reqs[x].marks
    ensures Told(s, t, {}) && Stays(s, t) && Untouched(s, t, r + 1, r)
  {
    ToldOn(s, s1, t, {}, r + 1, r);
    FailedOn(s, s1, t);
  }

  // --- The handlers ---------------------------------------------------------------

  /** A record changes without a report, and events are scheduled. */
  lemma ChangeTold(s: State, r: ReqId, q: Request, t: State)
    requires r in s.reqs && q.reports == s.reqs[r].reports && t == s.(reqs := s.reqs[r := q], events := t.events)
    requires s.reqs[r].status.Failed? && !s.reqs[r].marks.abandoned ==> q.status.Failed?
    ensures Told(s, t, {}) && Stays(s, t)
  {
    hide Truthful;
  }

  lemma IsolateTold(s: State, c: ReqId)
    requires Wf(s) && c in s.reqs && s.reqs[c].parent.Some?
    ensures Told(s, Isolate(s, c), {}) && Stays(s, Isolate(s, c))
  {
    hide Told, Stays;
    ChangeTold(s, c, s.reqs[c].(resolved := true), Isolate(s, c));
  }

  lemma FailStartTold(cfg: Config, s: State, r: ReqId, finalize: bool)
    requires Wf(s) && r in s.reqs && MarksOk(s)
    ensures var t := FailStart(cfg, s, r, finalize); Told(s, t, {}) && Stays(s, t)
  {
    hide Told, Untouched, Stays, Notify, FinalizeFailure, Isolate;
    var q := s.reqs[r].(status := Failed);
    var s1 := Put(s, r, q);
    PutTold(s, r, q);
    PutUntouched(s, r, q);
    if RetryApplies(cfg, s1, r) {
      IsolatedTold(s, r);
    } else if finalize {
      FinalizeTold(s1, r, true);
      FinishedTold(s, s1, FinalizeFailure(s1, r), r);
    } else {
      NotifyTold(s1, r, true);
      FinishedTold(s, s1, Notify(s1, r, true), r);
    }
  }

  lemma IsolatedTold(s: State, r: ReqId)
    requires Wf(s) && r in s.reqs && s.reqs[r].parent.Some?
    ensures var t := Isolate(Put(s, r, s.reqs[r].(status := Failed)), r); Told(s, t, {}) && Stays(s, t)
  {
    hide Told, Stays;
    var q := s.reqs[r];
    assert s.reqs[r := q.(status := Failed)][r := q.(status := Failed, resolved := true)] == s.reqs[r := q.(status := Failed, resolved := true)];
    ChangeTold(s, r, q.(status := Failed, resolved := true), Isolate(Put(s, r, q.(status := Failed)), r));
  }

  lemma StartTold(cfg: Config, s: State, r: ReqId, o: StartOutcome)
    requires Wf(s) && r in s.reqs && MarksOk(s) && s.reqs[r].status.Pending?
    ensures var t := HandleStart(cfg, s, r, o); Told(s, t, {}) && Stays(s, t)
  {
    hide FailStart, Told, Stays;
    var t := HandleStart(cfg, s, r, o);
    if IsFailure(o) {
      FailStartTold(cfg, s, r, o.LocalFailure?);
    } else if o.HandlerError? {
      SelfTold(s);
    } else {
      ChangeTold(s, r, t.reqs[r], t);
    }
  }

  /** Told does not look at events. */
  lemma SameEvents(s: State, s': State, t: State)
    requires s' == s.(events := s'.events) && Told(s', t, {}) && Stays(s', t)
    ensures Told(s, t, {}) && Stays(s, t)
  {
    forall key | Closed(s, t, key) ensures exists r :: Reporter(s, t, r, key) {
      assert Closed(s', t, key);
      var r :| Reporter(s', t, r, key);
      assert Reporter(s, t, r, key);
    }
    forall r | r in t.reqs ensures ReportsOf(s, r) == ReportsOf(s', r) {}
  }

  lemma CompleteTold(s: State, r: ReqId, o: CompleteOutcome)
    requires Wf(s) && r in s.reqs && MarksOk(s)
    ensures var t := HandleComplete(s, r, o); Told(s, t, {}) && (NoCallsOf(s, r) ==> Stays(s, t))
  {
    hide Told, Stays, FinalizeCompletion, FinalizeFailure, FanOut;
    if s.reqs[r].marks.localTimeout {
      FinalizeTold(s, r, true);
    } else if s.reqs[r].marks.cacheHit {
      FinalizeTold(s, r, false);
    } else if o.NoCallList? {
      SelfTold(s);
    } else if o.syncOverheads == [] {
      var s1 := s.(events := s.events + FanOut(r, true, o.asyncOverheads));
      FinalizeTold(s1, r, false);
      SameEvents(s, s1, FinalizeCompletion(s1, r));
    } else {
      OpenedTold(s, r, |o.syncOverheads|, HandleComplete(s, r, o));
    }
  }

  lemma OpenedTold(s: State, r: ReqId, n: nat, t: State)
    requires t.reqs == s.reqs && t.calls == s.calls + OpenedCalls(r, n)
    ensures Told(s, t, {}) && (NoCallsOf(s, r) ==> Stays(s, t))
  {
    forall key ensures !Closed(s, t, key) {}
  }

  lemma EnteredTold(s: State, s1: State, t: State)
    requires s.nextId !in s.reqs && s1.calls == s.calls && s.nextId in s1.reqs && s1.reqs == s.reqs[s.nextId := s1.reqs[s.nextId]]
    requires s1.reqs[s.nextId].reports == 0 && Told(s1, t, {}) && Stays(s1, t)
    ensures Told(s, t, {}) && Stays(s, t)
  {
    forall r ensures ReportsOf(s, r) == ReportsOf(s1, r) {}
    forall key | Closed(s, t, key) ensures exists r :: Reporter(s, t, r, key) {
      assert Closed(s1, t, key);
      var r :| Reporter(s1, t, r, key);
      assert Reporter(s, t, r, key);
    }
  }

  lemma FailedAtOnceTold(cfg: Config, s: State, c: ReqId, retryable: bool)
    requires Wf(s) && c in s.reqs && MarksOk(s) && s.reqs[c].parent.Some?
    ensures var t := if retryable && RetryApplies(cfg, s, c) then Isolate(s, c) else FinalizeFailure(s, c); Told(s, t, {}) && Stays(s, t)
  {
    hide Told, Stays, Untouched, Isolate, FinalizeFailure;
    if retryable && RetryApplies(cfg, s, c) { IsolateTold(s, c); } else { FinalizeTold(s, c, true); }
  }

  lemma SpawnTold(cfg: Config, s: State, p: ReqId, k: nat, async: bool, attempt: nat, o: SpawnOutcome)
    requires Wf(s) && p in s.reqs && MarksOk(s)
    ensures var t := Spawn(cfg, s, p, k, async, attempt, o); Told(s, t, {}) && Stays(s, t)
  {
    hide Told, Stays, Isolate, FinalizeFailure, RetryApplies;
    match o
    case SpawnError => SelfTold(s);
    case DependencyFailure(retryable) =>
      var s1 := s.(reqs := s.reqs[s.nextId := NewRequest(Some(p), k, async, attempt, Failed)], nextId := s.nextId + 1);
      FailedAtOnceTold(cfg, s1, s.nextId, retryable);
      EnteredTold(s, s1, Spawn(cfg, s, p, k, async, attempt, o));
    case Spawned(timeout) =>
      var t := Spawn(cfg, s, p, k, async, attempt, o);
      SelfTold(t);
      EnteredTold(s, t, t);
  }

  lemma TimeOutSyncTold(cfg: Config, s: State, c: ReqId)
    requires Wf(s) && c in s.reqs && s.reqs[c].parent.Some? && MarksOk(s)
    ensures var t := TimeOutSync(cfg, s, c); Told(s, t, {}) && Stays(s, t)
  {
    hide Told, Stays, Untouched, Isolate, Notify;
    var q := s.reqs[c].(marks := s.reqs[c].marks.(waitTimedOut := true));
    var s1 := Put(s, c, q);
    SelfTold(s);
    if !s.reqs[c].status.Completed? {
      if RetryApplies(cfg, s1, c) {
        GivenUpTold(s, c, q);
      } else {
        PutTold(s, c, q);
        PutUntouched(s, c, q);
        NotifyTold(s1, c, true);
        TimedOutTold(s, s1, Notify(s1, c, true), c);
      }
    }
  }

  lemma GivenUpTold(s: State, c: ReqId, q: Request)
    requires Wf(s) && c in s.reqs && s.reqs[c].parent.Some? && q == s.reqs[c].(marks := s.reqs[c].marks.(waitTimedOut := true))
    ensures var t := Isolate(Put(s, c, q), c); Told(s, t, {}) && Stays(s, t)
  {
    hide Told, Stays;
    assert s.reqs[c := q][c := q.(resolved := true)] == s.reqs[c := q.(resolved := true)];
    ChangeTold(s, c, q.(resolved := true), Isolate(Put(s, c, q), c));
  }

  lemma TimedOutTold(s: State, s1: State, t: State, r: ReqId)
    requires Told(s, s1, {}) && Told(s1, t, {}) && Stays(s, s1) && Stays(s1, t) && Untouched(s1, t, r + 1, r)
    requires s1.reqs.Keys == s.reqs.Keys && s1.calls == s.calls
    requires forall x :: x in s.reqs ==> s1.reqs[x].reports == s.reqs[x].reports && s1.reqs[x].marks.abandoned == s.reqs[x].marks.abandoned
    ensures Told(s, t, {}) && Stays(s, t)
  {
    ToldOn(s, s1, t, {}, r + 1, r);
    FailedOn(s, s1, t);
  }

  lemma TimeOutAsyncTold(cfg: Config, s: State, c: ReqId)
    requires Wf(s) && c in s.reqs && s.reqs[c].parent.Some?
    ensures var t := TimeOutAsync(cfg, s, c); Told(s, t, {}) && Stays(s, t)
  {
    hide Told, Stays;
    var t := TimeOutAsync(cfg, s, c);
    SelfTold(s);
    if t != s {
      ChangeTold(s, c, t.reqs[c], t);
    }
  }

  /** The call that a failed overhead start closes itself. */
  function Own(step: Step): set<CallKey> {
    if step.OnOverheadStart? && !step.ok && step.event.OverheadStart? && !step.event.async then {CallKey(step.event.parent, step.event.call)} else {}
  }

  lemma OverheadStartTold(cfg: Config, s: State, e: Event, ok: bool)
    requires Wf(s) && e.OverheadStart? && e.parent in s.reqs && MarksOk(s)
    ensures var t := HandleOverheadStart(cfg, s, e, ok);
      && Told(s, t, Own(OnOverheadStart(e, ok))) && Stays(s, t)
      && forall key :: key in Own(OnOverheadStart(e, ok)) && Closed(s, t, key) ==> t.calls[key] == Broken
  {
    hide Told, Stays, Join;
    var t, key := HandleOverheadStart(cfg, s, e, ok), CallKey(e.parent, e.call);
    SelfTold(s);
    if ok || e.async || CanRetry(cfg, e.attempt) || e.parent !in s.pending || s.pending[e.parent] <= 0 {
      QuietTold(s, t, Own(OnOverheadStart(e, ok)));
    } else {
      JoinTold(s, key, true, true);
    }
  }

  lemma QuietTold(s: State, t: State, own: set<CallKey>)
    requires t == s.(events := t.events)
    ensures Told(s, t, own) && Stays(s, t) && forall key :: !Closed(s, t, key)
  {
  }

  // --- One step -------------------------------------------------------------------

  lemma AlwaysMarks(cfg: Config, s: State, m: multiset<Event>)
    requires Always(cfg, s)
    ensures MarksOk(s.(events := m)) && Wf(s.(events := m))
  {
    forall r | r in s.reqs ensures RecordOk(cfg, s.reqs[r]) {}
  }

  lemma TakenTold(s: State, s0: State, t: State, own: set<CallKey>)
    requires s0 == s.(events := s0.events) && Told(s0, t, own)
    ensures Told(s, t, own) && (Stays(s0, t) ==> Stays(s, t))
    ensures forall key :: Closed(s, t, key) <==> Closed(s0, t, key)
  {
    forall key | Closed(s, t, key) && key !in own ensures exists r :: Reporter(s, t, r, key) {
      assert Closed(s0, t, key);
      var r :| Reporter(s0, t, r, key);
      assert Reporter(s, t, r, key);
    }
    forall r | r in t.reqs ensures ReportsOf(s, r) == ReportsOf(s0, r) {}
  }

  /** In every step of every run attempts report how they ended, and a call that is closed
      without a report was closed, as broken, by the failed start of its caller overhead. */
  lemma StepTold(cfg: Config, s: State, step: Step)
    requires Always(cfg, s) && Enabled(s, step)
    ensures var t := Apply(cfg, s, step);
      && Told(s, t, Own(step)) && ((step.OnComplete? ==> NoCallsOf(s, step.req)) ==> Stays(s, t))
      && forall key :: key in Own(step) && Closed(s, t, key) ==> t.calls[key] == Broken
  {
    hide Told, Stays, Always, HandleStart, HandleComplete, Spawn, HandleTimeout, HandleOverheadStart;
    var s0, t := s.(events := s.events - Taken(step)), Apply(cfg, s, step);
    AlwaysMarks(cfg, s, s0.events);
    match step {
      case Arrive(accepted) => ArriveTold(s0, t);
      case OnStart(r, o) =>
        assert Start(r) in Taken(step);
        QueuedAt(cfg, s, Start(r));
        StartTold(cfg, s0, r, o);
      case OnComplete(r, o) => CompleteTold(s0, r, o);
      case OnCall(e, o) => SpawnTold(cfg, s0, e.parent, e.call, e.async, 0, o);
      case OnRetry(e, overhead, o) => if overhead { QuietTold(s0, t, {}); } else { SpawnTold(cfg, s0, e.parent, e.call, e.async, e.attempt, o); }
      case OnOverheadStart(e, ok) => OverheadStartTold(cfg, s0, e, ok);
      case OnOverheadEnd(e, o) => if e.fromRetry { SpawnTold(cfg, s0, e.parent, e.call, e.async, e.attempt, o); } else { QuietTold(s0, t, {}); }
      case OnTimeout(c) => TimeoutTold(cfg, s0, c);
      case Forget(r) => SameRecords(s0, t);
    }
    TakenTold(s, s0, t, Own(step));
  }

  lemma ArriveTold(s: State, t: State)
    requires Wf(s) && t.calls == s.calls && s.nextId in t.reqs && t.reqs == s.reqs[s.nextId := t.reqs[s.nextId]] && t.reqs[s.nextId].reports == 0
    ensures Told(s, t, {}) && Stays(s, t)
  {
    SelfTold(t);
    EnteredTold(s, t, t);
  }

  lemma SameRecords(s: State, t: State)
    requires t.reqs == s.reqs && t.calls == s.calls
    ensures Told(s, t, {}) && Stays(s, t)
  {
  }

  lemma TimeoutTold(cfg: Config, s: State, c: ReqId)
    requires Wf(s) && c in s.reqs && s.reqs[c].parent.Some? && MarksOk(s)
    ensures var t := HandleTimeout(cfg, s, c); Told(s, t, {}) && Stays(s, t)
  {
    hide Told, Stays, TimeOutAsync, TimeOutSync;
    SelfTold(s);
    TimeOutAsyncTold(cfg, s, c);
    TimeOutSyncTold(cfg, s, c);
  }

  // --- Whole runs -----------------------------------------------------------------

  ghost predicate ReportedFor(s: State, c: ReqId, key: CallKey) {
    c in s.reqs && IsFor(s.reqs[c], key) && s.reqs[c].reports == 1
  }

  ghost predicate Matched(s: State) {
    && (forall c :: c in s.reqs && s.reqs[c].reports > 0 ==> Truthful(s, c))
    && (forall key :: key in s.calls && s.calls[key] != Open ==> exists c :: ReportedFor(s, c, key))
  }

  /** Whoever reports was waited for until then, or was only just made. */
  lemma ReporterWaited(cfg: Config, s: State, step: Step, r: ReqId, key: CallKey)
    requires Always(cfg, s) && Base(s, {}) && Enabled(s, step) && Reporter(s, Apply(cfg, s, step), r, key)
    ensures key in s.calls && s.calls[key] == Open
  {
    var t := Apply(cfg, s, step);
    StepAlways(cfg, s, step);
    if r in s.reqs {
      hide Apply, Enabled, Always;
      assert Kept(s.reqs[r], t.reqs[r]);
      assert Live(s, Child(r), key);
    } else {
      hide Always, AllKept, Base;
      var e := MadeBy(cfg, s, step, r, key);
      SpawnIsOpen(s, e);
    }
  }

  lemma SpawnIsOpen(s: State, e: Event)
    requires Base(s, {}) && e in s.events && SpawnKey(e).Some?
    ensures SpawnKey(e).value in s.calls && s.calls[SpawnKey(e).value] == Open
  {
    assert Live(s, Queued(e), SpawnKey(e).value);
  }

  /** A new attempt was made by the event that was to make it. */
  lemma MadeBy(cfg: Config, s: State, step: Step, r: ReqId, key: CallKey) returns (e: Event)
    requires Always(cfg, s) && Enabled(s, step) && r !in s.reqs && r in Apply(cfg, s, step).reqs && IsFor(Apply(cfg, s, step).reqs[r], key)
    ensures e in s.events && SpawnKey(e) == Some(key)
  {
    hide Always, HandleStart, HandleComplete, HandleTimeout, HandleRetry, HandleOverheadStart, HandleOverheadEnd, Spawn;
    var s0 := s.(events := s.events - Taken(step));
    match step {
      case OnStart(x, o) => StartMakesNone(cfg, s0, x, o);
      case OnComplete(x, o) => CompleteMakesNone(s0, x, o);
      case OnTimeout(x) => TimeoutMakesNone(cfg, s0, x);
      case OnOverheadStart(x, ok) => OverheadMakesNone(cfg, s0, x, ok);
      case OnCall(x, o) => e := MadeFrom(cfg, s, step, 0, o, r, key);
      case OnRetry(x, overhead, o) =>
        RetryMakes(cfg, s0, x, overhead, o);
        e := MadeFrom(cfg, s, step, x.attempt, o, r, key);
      case OnOverheadEnd(x, o) =>
        EndMakes(cfg, s0, x, o);
        e := MadeFrom(cfg, s, step, x.attempt, o, r, key);
      case _ =>
    }
  }

  lemma StartMakesNone(cfg: Config, s: State, r: ReqId, o: StartOutcome)
    requires Wf(s) && r in s.reqs
    ensures HandleStart(cfg, s, r, o).reqs.Keys == s.reqs.Keys
  {
    hide Notify, FinalizeFailure;
  }

  lemma CompleteMakesNone(s: State, r: ReqId, o: CompleteOutcome)
    requires Wf(s) && r in s.reqs
    ensures HandleComplete(s, r, o).reqs.Keys == s.reqs.Keys
  {
    hide FinalizeFailure, FinalizeCompletion;
  }

  lemma TimeoutMakesNone(cfg: Config, s: State, c: ReqId)
    requires Wf(s) && c in s.reqs && s.reqs[c].parent.Some?
    ensures HandleTimeout(cfg, s, c).reqs.Keys == s.reqs.Keys
  {
    hide Notify;
  }

  lemma OverheadMakesNone(cfg: Config, s: State, e: Event, ok: bool)
    requires Wf(s) && e.OverheadStart? && e.parent in s.reqs
    ensures HandleOverheadStart(cfg, s, e, ok).reqs.Keys == s.reqs.Keys
  {
    hide Join;
  }

  lemma RetryMakes(cfg: Config, s: State, e: Event, overhead: bool, o: SpawnOutcome)
    requires Wf(s) && e.Retry? && e.parent in s.reqs
    ensures var t := HandleRetry(cfg, s, e, overhead, o);
      t.reqs == s.reqs || t == Spawn(cfg, s, e.parent, e.call, e.async, e.attempt, o)
  {
    hide Spawn;
  }

  lemma EndMakes(cfg: Config, s: State, e: Event, o: SpawnOutcome)
    requires Wf(s) && e.OverheadEnd? && e.parent in s.reqs
    ensures var t := HandleOverheadEnd(cfg, s, e, o);
      t.reqs == s.reqs || t == Spawn(cfg, s, e.parent, e.call, e.async, e.attempt, o)
  {
    hide Spawn;
  }

  lemma MadeFrom(cfg: Config, s: State, step: Step, attempt: nat, o: SpawnOutcome, r: ReqId, key: CallKey) returns (e: Event)
    requires Always(cfg, s) && (step.OnCall? || step.OnRetry? || step.OnOverheadEnd?) && Enabled(s, step)
    requires attempt == if step.OnCall? then 0 else step.event.attempt
    requires r !in s.reqs
    requires Wf(s.(events := s.events - Taken(step)))
    requires var t := Spawn(cfg, s.(events := s.events - Taken(step)), step.event.parent, step.event.call, step.event.async, attempt, o);
      r in t.reqs && IsFor(t.reqs[r], key)
    ensures e in s.events && SpawnKey(e) == Some(key)
  {
    hide Always, Spawn;
    e := step.event;
    assert e in Taken(step);
    TakeAlways(cfg, s, e);
    QueuedAt(cfg, s, e);
    var s0 := s.(events := s.events - Taken(step));
    if o.SpawnError? {
      NothingSpawned(cfg, s0, e.parent, e.call, e.async, attempt);
    } else {
      SyncJoinAttempts.SpawnCreates(cfg, s0, e.parent, e.call, e.async, attempt, o);
    }
  }

  lemma NothingSpawned(cfg: Config, s: State, p: ReqId, k: nat, async: bool, attempt: nat)
    requires Wf(s) && p in s.reqs
    ensures Spawn(cfg, s, p, k, async, attempt, SpawnError) == s
  {
  }

  /** A closed call stays as it was closed. */
  lemma ClosedStays(cfg: Config, s: State, step: Step, key: CallKey)
    requires Always(cfg, s) && Base(s, {}) && Enabled(s, step) && Sound(cfg, s, step) && key in s.calls && s.calls[key] != Open
    ensures var t := Apply(cfg, s, step); key in t.calls && t.calls[key] == s.calls[key]
  {
    hide Always, Base, Apply, Enabled, Truthful;
    var t := Apply(cfg, s, step);
    StepTold(cfg, s, step);
    StepStays(cfg, s, step);
    if Closed(s, t, key) {
      var r :| Reporter(s, t, r, key);
      ReporterWaited(cfg, s, step, r, key);
    }
  }

  lemma StepStays(cfg: Config, s: State, step: Step)
    requires Always(cfg, s) && Base(s, {}) && Enabled(s, step)
    ensures Stays(s, Apply(cfg, s, step))
  {
    hide Always, Base, Apply, Told, Stays;
    StepTold(cfg, s, step);
    if step.OnComplete? {
      assert Complete(step.req) in Taken(step);
      NoCallsWhileQueued(s, Complete(step.req));
    }
  }

  lemma TruthStays(cfg: Config, s: State, step: Step, c: ReqId)
    requires Always(cfg, s) && Base(s, {}) && Enabled(s, step) && Sound(cfg, s, step) && c in s.reqs && s.reqs[c].reports > 0 && Truthful(s, c)
    ensures var t := Apply(cfg, s, step); c in t.reqs && Truthful(t, c)
  {
    hide Always, Base, Apply, Enabled;
    var t := Apply(cfg, s, step);
    RecordAt(cfg, s, c);
    StepAlways(cfg, s, step);
    assert Kept(s.reqs[c], t.reqs[c]);
    ClosedStays(cfg, s, step, KeyOf(s.reqs[c]));
    StepStays(cfg, s, step);
    NotAbandoned(s, c);
  }

  lemma NotAbandoned(s: State, c: ReqId)
    requires Base(s, {}) && c in s.reqs && !s.reqs[c].async
    ensures !s.reqs[c].marks.abandoned
  {
    assert RequestOk(s, c, {});
  }

  lemma StepMatched(cfg: Config, s: State, step: Step)
    requires Always(cfg, s) && Base(s, {}) && Enabled(s, step) && Sound(cfg, s, step) && Matched(s)
    ensures Matched(Apply(cfg, s, step))
  {
    hide Always, Base, Apply, Enabled, Truthful;
    var t := Apply(cfg, s, step);
    StepTold(cfg, s, step);
    forall c | c in t.reqs && t.reqs[c].reports > 0 ensures Truthful(t, c) {
      if t.reqs[c].reports == ReportsOf(s, c) {
        TruthStays(cfg, s, step, c);
      }
    }
    forall key | key in t.calls && t.calls[key] != Open ensures exists c :: ReportedFor(t, c, key) {
      if Closed(s, t, key) {
        var r :| Reporter(s, t, r, key);
        OnceReported(cfg, s, step, r);
        assert ReportedFor(t, r, key);
      } else {
        var c :| ReportedFor(s, c, key);
        StillReported(cfg, s, step, c);
        assert ReportedFor(t, c, key);
      }
    }
  }

  lemma OnceReported(cfg: Config, s: State, step: Step, r: ReqId)
    requires Always(cfg, s) && Enabled(s, step) && r in Apply(cfg, s, step).reqs
    ensures Apply(cfg, s, step).reqs[r].reports <= 1
  {
    hide Always, Apply, Enabled, AllKept;
    StepAlways(cfg, s, step);
    RecordAt(cfg, Apply(cfg, s, step), r);
  }

  lemma StillReported(cfg: Config, s: State, step: Step, c: ReqId)
    requires Always(cfg, s) && Enabled(s, step) && c in s.reqs && s.reqs[c].reports == 1
    ensures var t := Apply(cfg, s, step);
      c in t.reqs && t.reqs[c].reports == 1 && t.reqs[c].parent == s.reqs[c].parent && t.reqs[c].call == s.reqs[c].call && t.reqs[c].async == s.reqs[c].async
  {
    hide Always, Apply, Enabled;
    RecordAt(cfg, s, c);
    StepAlways(cfg, s, step);
    assert Kept(s.reqs[c], Apply(cfg, s, step).reqs[c]);
  }

  lemma {:induction false} RunMatched(cfg: Config, states: seq<State>, steps: seq<Step>, i: nat)
    requires SoundRun(cfg, states, steps) && i < |states|
    ensures Matched(states[i])
  {
    if i > 0 {
      hide Matched, Good, Base, Always, Apply, Enabled, Sound;
      RunMatched(cfg, states, steps, i - 1);
      RunGood(cfg, states, steps, false, i - 1);
      SyncJoinAttempts.GoodBase(states[i - 1]);
      RunAlways(cfg, states, steps, i - 1);
      StepMatched(cfg, states[i - 1], steps[i - 1]);
    }
  }

  /** In every sound run, at every point: an attempt that reported made its call broken if and
      only if it failed or its caller stopped waiting for it, and every call that is closed
      was closed by the report of exactly such an attempt. */
  lemma ReportsMatch(cfg: Config, states: seq<State>, steps: seq<Step>, i: nat)
    requires SoundRun(cfg, states, steps) && i < |states|
    ensures var s := states[i];
      && (forall c :: c in s.reqs && s.reqs[c].reports == 1 ==>
            && s.reqs[c].parent.Some? && KeyOf(s.reqs[c]) in s.calls && s.calls[KeyOf(s.reqs[c])] != Open
            && (s.calls[KeyOf(s.reqs[c])] == Broken <==> s.reqs[c].status.Failed? || s.reqs[c].marks.waitTimedOut))
      && (forall key :: key in s.calls && s.calls[key] != Open ==>
            exists c :: c in s.reqs && s.reqs[c].reports == 1 && IsFor(s.reqs[c], key))
  {
    hide SoundRun;
    RunMatched(cfg, states, steps, i);
    var s := states[i];
    forall key | key in s.calls && s.calls[key] != Open ensures exists c :: c in s.reqs && s.reqs[c].reports == 1 && IsFor(s.reqs[c], key) {
      var c :| ReportedFor(s, c, key);
    }
  }

  /** So a parent with calls ends as failed if and only if one of the attempts that reported to
      it failed or was given up. */
  lemma ParentFollowsChildren(cfg: Config, states: seq<State>, steps: seq<Step>, i: nat, key: CallKey)
    requires SoundRun(cfg, states, steps) && i < |states| && key in states[i].calls && key.parent in states[i].reqs && states[i].reqs[key.parent].finalized
    ensures var s, p := states[i], key.parent;
      s.reqs[p].status.Failed? <==>
        exists c :: c in s.reqs && s.reqs[c].reports == 1 && s.reqs[c].parent == Some(p) && (s.reqs[c].status.Failed? || s.reqs[c].marks.waitTimedOut)
  {
    hide SoundRun;
    var s, p := states[i], key.parent;
    JoinIsExact(cfg, states, steps, i);
    assert ExactAt(s, p);
    hide Exact;
    ReportsMatch(cfg, states, steps, i);
    if s.reqs[p].status.Failed? {
      var k :| k in CallsAt(s.calls, p, Broken);
      var c :| c in s.reqs && s.reqs[c].reports == 1 && IsFor(s.reqs[c], k);
      assert s.reqs[c].parent == Some(p);
    }
    if c :| c in s.reqs && s.reqs[c].reports == 1 && s.reqs[c].parent == Some(p) && EndedBadly(s.reqs[c]) {
      assert KeyOf(s.reqs[c]) in CallsAt(s.calls, p, Broken);
    }
  }

  /** In every run, sound or not: a step that closes a call without a report of one of its
      attempts is the failed start of the call's caller overhead, and the call is broken. */
  lemma ClosedWithoutReport(cfg: Config, states: seq<State>, steps: seq<Step>, i: nat, key: CallKey)
    requires IsRun(cfg, states, steps) && i < |steps| && key in states[i + 1].calls && states[i + 1].calls[key] != Open
    requires !(key in states[i].calls && states[i].calls[key] == states[i + 1].calls[key])
    requires forall c :: c in states[i + 1].reqs && IsFor(states[i + 1].reqs[c], key) ==> c in states[i].reqs && states[i + 1].reqs[c].reports == states[i].reqs[c].reports
    ensures steps[i].OnOverheadStart? && !steps[i].ok && key == CallKey(steps[i].event.parent, steps[i].event.call)
    ensures states[i + 1].calls[key] == Broken
  {
    hide Always, Apply, Enabled, Truthful;
    var s, t := states[i], states[i + 1];
    RunAlways(cfg, states, steps, i);
    StepTold(cfg, s, steps[i]);
    assert Closed(s, t, key);
    assert forall r :: !Reporter(s, t, r, key);
  }
}
