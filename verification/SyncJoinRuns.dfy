/**
  Theorems about whole runs of the synchronous join: exactness of the counters, the
  moment a parent is finalised, and absence of stuck joins.
*/
module SyncJoinRuns {
  import opened SyncJoin
  import opened SyncJoinInvariant
  import opened SyncJoinSteps
  import opened SyncJoinTheorems
  import SyncJoinAlways

  ghost predicate SoundRun(cfg: Config, states: seq<State>, steps: seq<Step>) {
    IsRun(cfg, states, steps) && forall i :: 0 <= i < |steps| ==> Sound(cfg, states[i], steps[i])
  }

  ghost predicate LosslessRun(cfg: Config, states: seq<State>, steps: seq<Step>) {
    SoundRun(cfg, states, steps) && forall i :: 0 <= i < |steps| ==> Lossless(states[i], steps[i])
  }

  lemma EmptyGood()
    ensures Good(EMPTY, true, {}, {})
  {
  }

  lemma {:induction false} RunGood(cfg: Config, states: seq<State>, steps: seq<Step>, strict: bool, i: nat)
    requires SoundRun(cfg, states, steps) && (strict ==> LosslessRun(cfg, states, steps)) && i < |states|
    ensures Good(states[i], strict, {}, {})
  {
    if i == 0 {
      EmptyGood();
    } else {
      hide Good, Apply, Enabled, Sound, Lossless;
      RunGood(cfg, states, steps, strict, i - 1);
      StepKeeps(cfg, states[i - 1], strict, steps[i - 1]);
    }
  }

  /** The join is exact: counters count open calls, a parent with calls is finalised
      exactly when none is open, as failed exactly when one was broken, and at most one
      attempt at a time is waited for on behalf of a call. */
  ghost predicate ExactAt(s: State, p: ReqId) {
    var open := CallsAt(s.calls, p, Open);
    && p in s.reqs
    && (p in s.pending <==> open != {})
    && (p in s.pending ==> s.pending[p] == |open|)
    && (s.reqs[p].finalized <==> open == {})
    && (s.reqs[p].finalized ==> (s.reqs[p].status.Failed? <==> CallsAt(s.calls, p, Broken) != {}))
  }

  predicate Rivals(q: Request, q': Request) {
    IsAwaited(q) && IsAwaited(q') && KeyOf(q) == KeyOf(q')
  }

  ghost predicate Exact(s: State) {
    && (forall p :: p in s.pending ==> ExactAt(s, p))
    && (forall key :: key in s.calls ==> ExactAt(s, key.parent))
    && (forall c :: c in s.reqs && IsAwaited(s.reqs[c]) ==> KeyOf(s.reqs[c]) in s.calls && s.calls[KeyOf(s.reqs[c])] == Open)
    && (forall c, d :: c in s.reqs && d in s.reqs && Rivals(s.reqs[c], s.reqs[d]) ==> c == d)
  }

  lemma GoodAtCall(s: State, strict: bool, key: CallKey)
    requires Good(s, strict, {}, {}) && key in s.calls
    ensures ExactAt(s, key.parent)
  {
    var p := key.parent;
    assert CallOk(s, key, {});
    if p in s.pending {
      assert PendingOk(s, p);
    } else {
      forall k | k in s.calls && k.parent == p ensures s.calls[k] != Open {
        assert CallOk(s, k, {});
      }
    }
  }

  lemma GoodIsExact(s: State, strict: bool)
    requires Good(s, strict, {}, {})
    ensures Exact(s)
  {
    forall key | key in s.calls ensures ExactAt(s, key.parent) { GoodAtCall(s, strict, key); }
    forall p | p in s.pending ensures ExactAt(s, p) {
      assert PendingOk(s, p);
      var key :| key in CallsAt(s.calls, p, Open);
      GoodAtCall(s, strict, key);
    }
    forall c | c in s.reqs && IsAwaited(s.reqs[c]) ensures Live(s, Child(c), KeyOf(s.reqs[c])) {}
  }

  /** In every sound run, in every interleaving, the join is exact at every point. */
  lemma JoinIsExact(cfg: Config, states: seq<State>, steps: seq<Step>, i: nat)
    requires SoundRun(cfg, states, steps) && i < |states|
    ensures Exact(states[i])
  {
    hide Good, Exact, SoundRun;
    RunGood(cfg, states, steps, false, i);
    GoodIsExact(states[i], false);
  }

  /** A parent with calls is finalised at exactly the step that resolves its last open call. */
  lemma FinalisedWithLastCall(cfg: Config, states: seq<State>, steps: seq<Step>, i: nat, key: CallKey)
    requires SoundRun(cfg, states, steps) && i < |steps| && key in states[i].calls
    ensures var p, s, t := key.parent, states[i], states[i + 1];
      && p in s.reqs && p in t.reqs && key in t.calls
      && (!s.reqs[p].finalized && t.reqs[p].finalized <==>
            CallsAt(s.calls, p, Open) != {} && CallsAt(t.calls, p, Open) == {})
      && (t.reqs[p].finalized ==> (t.reqs[p].status.Failed? <==> CallsAt(t.calls, p, Broken) != {}))
  {
    hide Apply, Enabled;
    JoinIsExact(cfg, states, steps, i);
    JoinIsExact(cfg, states, steps, i + 1);
    SyncJoinAlways.RunKept(cfg, states, steps, i, i + 1);
  }

  // --- Nothing gets stuck ---------------------------------------------------------

  /** Once no event is left, no request waits: a waiting parent would have an open call,
      the call a child, the younger child would wait itself, and so on. */
  lemma {:induction false} NobodyWaits(s: State, p: ReqId)
    requires Good(s, true, {}, {}) && s.events == multiset{}
    ensures p !in s.pending
    decreases if p < s.nextId then s.nextId - p else 0
  {
    if p in s.pending {
      assert PendingOk(s, p);
      var key :| key in CallsAt(s.calls, p, Open);
      assert Carried(s, key);
      var t :| Live(s, t, key);
      var c := t.req;
      assert RequestOk(s, c, {});
      assert Driven(s, c);
      NobodyWaits(s, c);
    }
  }

  /** In every sound and lossless run, when the queue has run dry every call is resolved,
      no counter is left, and every request is finalised or failed before it started. */
  lemma QuiescentMeansDone(cfg: Config, states: seq<State>, steps: seq<Step>, i: nat)
    requires LosslessRun(cfg, states, steps) && i < |states| && states[i].events == multiset{}
    ensures var s := states[i];
      && s.pending == map[]
      && (forall key :: key in s.calls ==> s.calls[key] != Open && key.parent in s.reqs && s.reqs[key.parent].finalized)
      && (forall r :: r in s.reqs ==> s.reqs[r].finalized || s.reqs[r].status.Failed?)
  {
    var s := states[i];
    RunGood(cfg, states, steps, true, i);
    forall p ensures p !in s.pending { NobodyWaits(s, p); }
    assert s.pending == map[];
    forall key | key in s.calls ensures s.calls[key] != Open && s.reqs[key.parent].finalized {
      assert CallOk(s, key, {});
    }
    forall r | r in s.reqs ensures s.reqs[r].finalized || s.reqs[r].status.Failed? {
      assert !s.reqs[r].finalized && !s.reqs[r].status.Failed? ==> Driven(s, r);
    }
  }

  // --- How a call is closed --------------------------------------------------------

  ghost predicate SameCallsFrom(calls: map<CallKey, Outcome>, calls': map<CallKey, Outcome>, p: ReqId) {
    forall k: CallKey :: k.parent >= p ==> (k in calls <==> k in calls') && (k in calls ==> calls'[k] == calls[k])
  }

  /** The resolution chain climbs to older requests only. */
  lemma JoinClosesCall(s: State, key: CallKey, failed: bool, held: bool)
    requires Wf(s) && key.parent in s.reqs && key.parent in s.pending && s.pending[key.parent] > 0
    ensures SameCallsFrom(s.calls[key := if failed then Broken else Succeeded], Join(s, key, failed, held).calls, key.parent)
    decreases key.parent, 2
  {
    hide SameCallsFrom, FinalizeFailure, FinalizeCompletion;
    var p, found := key.parent, held || Lookup(s, key.parent);
    var s0 := if failed && found then Put(s, p, s.reqs[p].(subtreeFailed := true)) else s;
    var s2 := s0.(calls := s0.calls[key := if failed then Broken else Succeeded], pending := s0.pending - {p});
    SameCalls(s2.calls, p);
    if s.pending[p] <= 1 && found {
      FinalizeKeepsCalls(s2, p, s2.reqs[p].subtreeFailed);
    }
  }

  lemma SameCalls(calls: map<CallKey, Outcome>, p: ReqId)
    ensures SameCallsFrom(calls, calls, p)
  {
  }

  lemma FinalizeKeepsCalls(s: State, r: ReqId, failed: bool)
    requires Wf(s) && r in s.reqs
    ensures SameCallsFrom(s.calls, (if failed then FinalizeFailure(s, r) else FinalizeCompletion(s, r)).calls, r)
    decreases r, 1
  {
    if failed {
      FinalizeFailureKeepsCalls(s, r);
    } else {
      FinalizeCompletionKeepsCalls(s, r);
    }
  }

  lemma FinalizeFailureKeepsCalls(s: State, r: ReqId)
    requires Wf(s) && r in s.reqs
    ensures SameCallsFrom(s.calls, FinalizeFailure(s, r).calls, r)
    decreases r, 1, 0
  {
    hide Notify, SameCallsFrom;
    SameCalls(s.calls, r);
    NotifyKeepsCalls(Put(s, r, Finished(s.reqs[r], Failed)), r, true);
  }

  lemma FinalizeCompletionKeepsCalls(s: State, r: ReqId)
    requires Wf(s) && r in s.reqs
    ensures SameCallsFrom(s.calls, FinalizeCompletion(s, r).calls, r)
    decreases r, 1, 0
  {
    hide Notify, SameCallsFrom;
    SameCalls(s.calls, r);
    var q, t := s.reqs[r], FinalizeCompletion(s, r);
    if !q.finalized && !q.marks.abandoned && !q.status.Failed? {
      var s1 := Put(s, r, Finished(q, Completed));
      assert t == s1 || t == Notify(s1, r, false);
      NotifyKeepsCalls(s1, r, false);
    } else {
      assert t.calls == s.calls;
    }
  }

  lemma NotifyKeepsCalls(s: State, c: ReqId, failed: bool)
    requires Wf(s) && c in s.reqs
    ensures SameCallsFrom(s.calls, Notify(s, c, failed).calls, c)
    decreases c, 0
  {
    hide Join;
    var q := s.reqs[c];
    if IsAwaited(q) && q.parent.value in s.pending && s.pending[q.parent.value] > 0 {
      JoinClosesCall(Put(s, c, Reported(q)), KeyOf(q), failed, false);
    }
  }

  lemma CarrierOf(s: State, key: CallKey) returns (token: Token)
    requires Good(s, true, {}, {}) && key in s.calls && s.calls[key] == Open
    ensures Live(s, token, key)
  {
    assert Carried(s, key);
    token :| Live(s, token, key);
  }

  lemma SecondReplacement(cfg: Config, s: State, r: ReqId, o: StartOutcome)
    requires Wf(s) && Enabled(s, OnStart(r, o)) && IsFailure(o) && RetryApplies(cfg, s, r)
    ensures Apply(cfg, s, OnStart(r, o)) == Replaced(Without(s, Start(r)), r, s.reqs[r].(status := Failed, resolved := true))
  {
    hide Notify, FinalizeFailure, Isolate;
    IsolateUnfolds(Without(s, Start(r)), r, s.reqs[r].(status := Failed));
  }

  lemma EndFollows(s: State, e: Event)
    requires Good(s, true, {}, {}) && e in s.events && e.OverheadStart? && !e.async
    ensures EndOf(e) in s.events && CallKey(e.parent, e.call) in s.calls && s.calls[CallKey(e.parent, e.call)] == Open
    ensures e.parent in s.reqs && e.parent in s.pending && s.pending[e.parent] > 0
  {
    assert EventOk(s, e);
    assert Live(s, Queued(EndOf(e)), CallKey(e.parent, e.call));
    AtOpenCall(s, true, {}, {}, CallKey(e.parent, e.call));
  }

  lemma Weaken(s: State)
    requires Good(s, true, {}, {})
    ensures Good(s, false, {}, {})
  {
  }
}
