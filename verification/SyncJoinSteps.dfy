/** What queueing, taking, creating and fanning out do to the invariant of the join. */
module SyncJoinSteps {
  import opened Wrappers
  import opened SyncJoin
  import opened SyncJoinInvariant

  // --- Taking an event ------------------------------------------------------------

  ghost function FreedBy(e: Event): set<CallKey> {
    if SpawnKey(e).Some? then {SpawnKey(e).value} else {}
  }

  ghost function OwnerOf(e: Event): set<ReqId> {
    if e.Start? || e.Complete? then {e.req} else {}
  }

  ghost function Without(s: State, e: Event): State {
    s.(events := s.events - multiset{e})
  }

  lemma TakeEvents(s: State, e: Event)
    requires EventsOk(s) && e in s.events && (e.OverheadEnd? ==> s.events[StartOf(e)] < s.events[e])
    ensures EventsOk(Without(s, e))
  {
    var s' := Without(s, e);
    forall x | x in s'.events ensures EventOk(s', x) {
      assert EventOk(s, x);
      if x.OverheadStart? && EndOf(x) == e {
        assert StartOf(e) == x;
      }
    }
  }

  lemma TakeRequests(s: State, e: Event)
    requires EventsOk(s) && CountersOk(s, {}) && RequestsOk(s, {}) && e in s.events
    ensures CountersOk(Without(s, e), OwnerOf(e)) && RequestsOk(Without(s, e), OwnerOf(e))
  {
    var s' := Without(s, e);
    assert EventOk(s, e);
    forall key | key in s'.calls ensures CallOk(s', key, OwnerOf(e)) {
      assert CallOk(s, key, {});
    }
    forall p | p in s'.pending ensures PendingOk(s', p) {
      assert PendingOk(s, p);
    }
    forall r | r in s'.reqs ensures RequestOk(s', r, OwnerOf(e)) {
      assert RequestOk(s, r, {});
      TakenOnce(s, e, r);
    }
  }

  /** A request is started and completed by one event at a time, and not while it waits. */
  lemma TakenOnce(s: State, e: Event, r: ReqId)
    requires EventsOk(s) && CountersOk(s, {}) && e in s.events && r in s.reqs
    ensures r in OwnerOf(e) ==> !s.reqs[r].finalized && NotQueued(Without(s, e), r) && r !in s.pending
  {
    assert EventOk(s, e);
    assert Start(r) in s.events ==> EventOk(s, Start(r));
    assert Complete(r) in s.events ==> EventOk(s, Complete(r));
    if r in s.pending {
      assert PendingOk(s, r);
      var key :| key in CallsAt(s.calls, r, Open);
      assert CallOk(s, key, {});
    }
  }

  lemma TakeTokens(s: State, e: Event)
    requires EventsOk(s) && TokensOk(s) && e in s.events
    ensures TokensOk(Without(s, e))
    ensures forall key :: key in FreedBy(e) ==> key in s.calls && s.calls[key] == Open && !Carried(Without(s, e), key)
    ensures forall key :: Carried(s, key) && key !in FreedBy(e) ==> Carried(Without(s, e), key)
  {
    var s' := Without(s, e);
    assert EventOk(s, e);
    assert forall t, key :: Live(s', t, key) ==> Live(s, t, key);
    forall key | key in FreedBy(e) ensures key in s.calls && s.calls[key] == Open && !Carried(s', key) {
      assert Live(s, Queued(e), key);
    }
    forall key | Carried(s, key) && key !in FreedBy(e) ensures Carried(s', key) {
      var t :| Live(s, t, key);
      assert Live(s', t, key);
    }
  }

  lemma TakeLost(s: State, e: Event)
    requires Base(s, {}) && e in s.events && NothingLost(s, {}, {})
    ensures NothingLost(Without(s, e), FreedBy(e), OwnerOf(e))
  {
    TakeTokens(s, e);
    var s' := Without(s, e);
    forall r | r in s.reqs && r !in OwnerOf(e) && !s.reqs[r].finalized && !s.reqs[r].status.Failed? ensures Driven(s', r) {
      assert Driven(s, r);
    }
  }

  /** Taking an event frees the call it would have spawned for, and hands its request to the handler. */
  lemma Take(s: State, strict: bool, e: Event)
    requires Good(s, strict, {}, {}) && e in s.events && (e.OverheadEnd? ==> s.events[StartOf(e)] < s.events[e])
    ensures Good(Without(s, e), strict, FreedBy(e), OwnerOf(e))
  {
    assert EventOk(s, e);
    TakeEvents(s, e);
    TakeRequests(s, e);
    TakeTokens(s, e);
    if strict {
      TakeLost(s, e);
    }
  }

  // --- Queueing events ------------------------------------------------------------

  ghost function With(s: State, m: multiset<Event>): State {
    s.(events := s.events + m)
  }

  /** Spawn events for calls in `K`, one each, and events that carry no call. */
  ghost predicate Queueable(s: State, K: set<CallKey>, m: multiset<Event>) {
    && (forall e :: e in m ==> !e.Start? && !e.Complete? && Subject(e) in s.reqs)
    && (forall e :: e in m && e.Timeout? ==> s.reqs[e.req].parent.Some?)
    && (forall e :: e in m && SpawnKey(e).Some? ==> SpawnKey(e).value in K && m[e] == 1)
    && (forall e1, e2 :: e1 in m && e2 in m && SpawnKey(e1).Some? && SpawnKey(e1) == SpawnKey(e2) ==> e1 == e2)
    && (forall e :: e in m && e.OverheadStart? ==> m[e] <= m[EndOf(e)])
  }

  ghost predicate Spawns(m: multiset<Event>, key: CallKey) {
    exists e :: e in m && SpawnKey(e) == Some(key)
  }

  lemma QueueEvents(s: State, K: set<CallKey>, m: multiset<Event>)
    requires EventsOk(s) && Queueable(s, K, m)
    requires forall key :: key in K ==> !Carried(s, key)
    ensures EventsOk(With(s, m))
  {
    var s' := With(s, m);
    forall e | e in s'.events ensures EventOk(s', e) {
      if e in s.events {
        assert EventOk(s, e);
        if SpawnKey(e).Some? {
          assert Live(s, Queued(e), SpawnKey(e).value);
        }
      }
    }
  }

  lemma QueueTokens(s: State, K: set<CallKey>, m: multiset<Event>)
    requires TokensOk(s) && Queueable(s, K, m)
    requires forall key :: key in K ==> key in s.calls && s.calls[key] == Open && !Carried(s, key)
    ensures TokensOk(With(s, m))
    ensures forall key :: Carried(With(s, m), key) <==> Carried(s, key) || Spawns(m, key)
  {
    var s' := With(s, m);
    assert forall t, key :: Live(s', t, key) <==> Live(s, t, key) || (t.Queued? && t.event in m && SpawnKey(t.event) == Some(key));
    forall key | Carried(s, key) || Spawns(m, key) ensures Carried(s', key) {
      if Carried(s, key) {
        var t :| Live(s, t, key);
        assert Live(s', t, key);
      } else {
        var e :| e in m && SpawnKey(e) == Some(key);
        assert Live(s', Queued(e), key);
      }
    }
  }

  lemma QueueBase(s: State, K: set<CallKey>, R: set<ReqId>, m: multiset<Event>)
    requires Base(s, R) && Queueable(s, K, m)
    requires forall key :: key in K ==> key in s.calls && s.calls[key] == Open && !Carried(s, key)
    ensures Base(With(s, m), R)
  {
    QueueEvents(s, K, m);
    QueueTokens(s, K, m);
    var s' := With(s, m);
    forall key | key in s'.calls ensures CallOk(s', key, R) {
      assert CallOk(s, key, R);
    }
    forall r | r in s'.reqs ensures RequestOk(s', r, R) {
      assert RequestOk(s, r, R);
    }
    forall p | p in s'.pending ensures PendingOk(s', p) {
      assert PendingOk(s, p);
    }
  }

  /** Queueing a spawn event gives a freed call its token back. */
  lemma Queue(s: State, strict: bool, K: set<CallKey>, K': set<CallKey>, R: set<ReqId>, m: multiset<Event>)
    requires Good(s, strict, K, R) && Queueable(s, K, m)
    requires K' <= K && forall key :: key in K ==> (key in K' <==> !Spawns(m, key))
    ensures Good(With(s, m), strict, K', R)
  {
    QueueBase(s, K, R, m);
    QueueTokens(s, K, m);
    var s' := With(s, m);
    if strict {
      forall r | r in s.reqs && r !in R && !s.reqs[r].finalized && !s.reqs[r].status.Failed? ensures Driven(s', r) {
        assert Driven(s, r);
      }
    }
  }

  // --- Starting, creating and fanning out -----------------------------------------

  ghost predicate Drivable(s: State, e: Event) {
    && (e.Start? || e.Complete?)
    && e.req in s.reqs
    && (if e.Start? then s.reqs[e.req].status.Pending? else s.reqs[e.req].status.Processing?)
    && (forall key :: key in s.calls ==> key.parent != e.req)
  }

  lemma DriveEvents(s: State, e: Event)
    requires EventsOk(s) && Drivable(s, e) && RequestOk(s, e.req, {e.req})
    ensures EventsOk(With(s, multiset{e}))
  {
    var s' := With(s, multiset{e});
    forall x | x in s'.events ensures EventOk(s', x) {
      assert x in s.events ==> EventOk(s, x);
    }
  }

  lemma DriveRequests(s: State, e: Event)
    requires Drivable(s, e) && CountersOk(s, {e.req}) && RequestsOk(s, {e.req})
    ensures CountersOk(With(s, multiset{e}), {}) && RequestsOk(With(s, multiset{e}), {})
  {
    var s', r := With(s, multiset{e}), e.req;
    forall key | key in s'.calls ensures CallOk(s', key, {}) {
      assert CallOk(s, key, {r});
    }
    forall p | p in s'.pending ensures PendingOk(s', p) {
      assert PendingOk(s, p);
    }
    forall x | x in s'.reqs ensures RequestOk(s', x, {}) {
      assert RequestOk(s, x, {r});
    }
  }

  /** A request in the handler's hands gets its next start or completion event. */
  lemma Drive(s: State, strict: bool, K: set<CallKey>, e: Event)
    requires Drivable(s, e) && Good(s, strict, K, {e.req})
    ensures Good(With(s, multiset{e}), strict, K, {})
  {
    hide EventsOk, TokensOk, Carried, Live;
    assert RequestOk(s, e.req, {e.req});
    DriveEvents(s, e);
    DriveRequests(s, e);
    var s' := With(s, multiset{e});
    SameTokens(s, s');
    if strict {
      forall r | r in s.reqs && !s.reqs[r].finalized && !s.reqs[r].status.Failed? ensures Driven(s', r) {
        assert r != e.req ==> Driven(s, r);
      }
    }
  }

  lemma SameTokens(s: State, s': State)
    requires s'.reqs == s.reqs && s'.calls == s.calls
    requires forall e :: SpawnKey(e).Some? ==> (e in s'.events <==> e in s.events)
    ensures forall t, key :: Live(s', t, key) <==> Live(s, t, key)
    ensures TokensOk(s) ==> TokensOk(s')
    ensures forall key :: Carried(s', key) <==> Carried(s, key)
  {
    assert forall t, key :: Live(s', t, key) <==> Live(s, t, key);
    forall key ensures Carried(s', key) <==> Carried(s, key) {
      if Carried(s, key) { var t :| Live(s, t, key); assert Live(s', t, key); }
    }
  }

  ghost function Entered(s: State, q: Request): (t: State)
    requires Wf(s) && (q.parent.Some? ==> q.parent.value in s.reqs)
    ensures Wf(t)
  {
    s.(reqs := s.reqs[s.nextId := q], nextId := s.nextId + 1)
  }

  ghost predicate IsNew(q: Request) {
    !q.finalized && !q.subtreeFailed && !q.marks.abandoned && !q.marks.asyncTimedOut
  }

  ghost function Claimed(q: Request): set<CallKey> {
    if IsAwaited(q) then {KeyOf(q)} else {}
  }

  lemma EnterEvents(s: State, q: Request)
    requires Wf(s) && EventsOk(s) && (q.parent.Some? ==> q.parent.value in s.reqs)
    ensures EventsOk(Entered(s, q)) && NotQueued(s, s.nextId)
  {
    var s' := Entered(s, q);
    forall e | e in s'.events ensures EventOk(s', e) {
      assert EventOk(s, e);
    }
    assert Start(s.nextId) in s.events ==> EventOk(s, Start(s.nextId));
    assert Complete(s.nextId) in s.events ==> EventOk(s, Complete(s.nextId));
  }

  lemma EnterRequests(s: State, q: Request)
    requires Wf(s) && CountersOk(s, {}) && RequestsOk(s, {}) && NotQueued(s, s.nextId)
    requires IsNew(q) && (q.parent.Some? ==> q.parent.value in s.reqs)
    ensures CountersOk(Entered(s, q), {s.nextId}) && RequestsOk(Entered(s, q), {s.nextId})
    ensures forall key :: key in s.calls ==> key.parent != s.nextId
  {
    var s', c := Entered(s, q), s.nextId;
    forall key | key in s'.calls ensures CallOk(s', key, {c}) && key.parent != c {
      assert CallOk(s, key, {});
    }
    assert CallsAt(s.calls, c, Broken) == {};
    forall p | p in s'.pending ensures PendingOk(s', p) {
      assert PendingOk(s, p);
    }
    forall x | x in s'.reqs ensures RequestOk(s', x, {c}) {
      assert x != c ==> RequestOk(s, x, {});
    }
  }

  lemma EnterTokens(s: State, K: set<CallKey>, q: Request)
    requires Wf(s) && TokensOk(s) && (q.parent.Some? ==> q.parent.value in s.reqs)
    requires forall key :: key in K ==> key in s.calls && s.calls[key] == Open && !Carried(s, key)
    requires Claimed(q) <= K
    ensures TokensOk(Entered(s, q))
    ensures forall key :: Carried(Entered(s, q), key) <==> Carried(s, key) || key in Claimed(q)
  {
    var s', c := Entered(s, q), s.nextId;
    assert forall t, key :: Live(s', t, key) <==> Live(s, t, key) || (t == Child(c) && key in Claimed(q));
    forall key | Carried(s, key) || key in Claimed(q) ensures Carried(s', key) {
      if Carried(s, key) {
        var t :| Live(s, t, key);
        assert Live(s', t, key);
      } else {
        assert Live(s', Child(c), key);
      }
    }
  }

  /** A new attempt becomes the carrier of the call it was created for. */
  lemma Enter(s: State, strict: bool, K: set<CallKey>, q: Request)
    requires Good(s, strict, K, {}) && IsNew(q) && (q.parent.Some? ==> q.parent.value in s.reqs)
    requires Claimed(q) <= K
    ensures Good(Entered(s, q), strict, K - Claimed(q), {s.nextId})
    ensures forall key :: key in s.calls ==> key.parent != s.nextId
  {
    EnterEvents(s, q);
    EnterRequests(s, q);
    EnterTokens(s, K, q);
    var s' := Entered(s, q);
    if strict {
      forall r | r in s'.reqs && r != s.nextId && !s'.reqs[r].finalized && !s'.reqs[r].status.Failed? ensures Driven(s', r) {
        assert Driven(s, r);
      }
    }
  }

  ghost function Expanded(s: State, r: ReqId, n: nat): State {
    s.(pending := s.pending[r := n], calls := s.calls + OpenedCalls(r, n))
  }

  lemma OpenedCount(r: ReqId, n: nat)
    ensures |CallsAt(OpenedCalls(r, n), r, Open)| == n
  {
    if n == 0 {
      assert CallsAt(OpenedCalls(r, 0), r, Open) == {};
    } else {
      OpenedCount(r, n - 1);
      assert CallsAt(OpenedCalls(r, n), r, Open) == CallsAt(OpenedCalls(r, n - 1), r, Open) + {CallKey(r, n - 1)};
    }
  }

  lemma CallsAtAfterExpand(calls: map<CallKey, Outcome>, r: ReqId, n: nat)
    requires forall key :: key in calls ==> key.parent != r
    ensures var calls' := calls + OpenedCalls(r, n);
      && (forall p, o :: p != r ==> CallsAt(calls', p, o) == CallsAt(calls, p, o))
      && |CallsAt(calls', r, Open)| == n && CallsAt(calls', r, Broken) == {}
  {
    var calls' := calls + OpenedCalls(r, n);
    OpenedCount(r, n);
    assert CallsAt(calls', r, Open) == CallsAt(OpenedCalls(r, n), r, Open);
  }

  lemma ExpandCounters(s: State, r: ReqId, n: nat)
    requires CountersOk(s, {r}) && r in s.reqs && RequestOk(s, r, {r}) && s.reqs[r].status.Processing? && n >= 1
    requires forall key :: key in s.calls ==> key.parent != r
    ensures CountersOk(Expanded(s, r, n), {})
  {
    var s' := Expanded(s, r, n);
    CallsAtAfterExpand(s.calls, r, n);
    forall key | key in s'.calls ensures CallOk(s', key, {}) {
      assert key in s.calls ==> CallOk(s, key, {r});
    }
    forall p | p in s'.pending ensures PendingOk(s', p) {
      assert p in s.pending ==> PendingOk(s, p);
    }
  }

  lemma ExpandRequests(s: State, r: ReqId, n: nat)
    requires RequestsOk(s, {r}) && r in s.reqs
    requires forall key :: key in s.calls ==> key.parent != r
    requires s.reqs[r].status.Processing?
    ensures RequestsOk(Expanded(s, r, n), {})
  {
    var s' := Expanded(s, r, n);
    CallsAtAfterExpand(s.calls, r, n);
    assert CallsAt(s.calls, r, Broken) == {};
    forall x | x in s'.reqs ensures RequestOk(s', x, {}) {
      assert RequestOk(s, x, {r});
    }
  }

  lemma ExpandTokens(s: State, r: ReqId, n: nat)
    requires TokensOk(s) && forall key :: key in s.calls ==> key.parent != r
    ensures TokensOk(Expanded(s, r, n))
    ensures forall key :: Carried(Expanded(s, r, n), key) <==> Carried(s, key)
    ensures forall key: CallKey :: key.parent == r ==> !Carried(s, key)
  {
    var s' := Expanded(s, r, n);
    assert forall t, key :: Live(s', t, key) <==> Live(s, t, key);
    forall key ensures Carried(s', key) <==> Carried(s, key) {
      if Carried(s, key) { var t :| Live(s, t, key); assert Live(s', t, key); }
    }
  }

  lemma ExpandBase(s: State, r: ReqId, n: nat)
    requires Base(s, {r}) && s.reqs[r].status.Processing? && n >= 1
    requires forall key :: key in s.calls ==> key.parent != r
    ensures Base(Expanded(s, r, n), {})
  {
    assert RequestOk(s, r, {r});
    ExpandCounters(s, r, n);
    ExpandRequests(s, r, n);
    ExpandTokens(s, r, n);
    var s' := Expanded(s, r, n);
    forall e | e in s'.events ensures EventOk(s', e) {
      assert EventOk(s, e);
    }
  }

  /** Fanning out opens the calls of a request that had none; their spawn events are still to come. */
  lemma Expand(s: State, strict: bool, r: ReqId, n: nat)
    requires Good(s, strict, {}, {r}) && s.reqs[r].status.Processing? && n >= 1
    requires forall key :: key in s.calls ==> key.parent != r
    ensures Good(Expanded(s, r, n), strict, OpenedCalls(r, n).Keys, {})
  {
    ExpandBase(s, r, n);
    ExpandTokens(s, r, n);
    var s' := Expanded(s, r, n);
    if strict {
      forall x | x in s.reqs && !s.reqs[x].finalized && !s.reqs[x].status.Failed? ensures Driven(s', x) {
        assert x != r ==> Driven(s, x);
      }
    }
  }
}
