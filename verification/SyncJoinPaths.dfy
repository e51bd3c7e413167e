/**
  What can still happen from a state: sound continuations, the continuation in which an
  unsound step shows, what a dropped event leaves behind for ever, and how every open call
  can be resolved as long as nothing was dropped.
*/
module SyncJoinPaths {
  import opened Wrappers
  import opened SyncJoin
  import opened SyncJoinInvariant
  import opened SyncJoinSteps
  import opened SyncJoinTheorems
  import opened SyncJoinRuns

  /** `steps` are sound, and lossless if `strict`, and lead from `s` to `t`. */
  ghost predicate Leads(cfg: Config, s: State, strict: bool, steps: seq<Step>, t: State)
    decreases |steps|
  {
    if steps == [] then t == s
    else
      && Wf(s) && Enabled(s, steps[0]) && Sound(cfg, s, steps[0]) && (strict ==> Lossless(s, steps[0]))
      && Leads(cfg, Apply(cfg, s, steps[0]), strict, steps[1..], t)
  }

  lemma LeadsOne(cfg: Config, s: State, strict: bool, step: Step)
    requires Wf(s) && Enabled(s, step) && Sound(cfg, s, step) && (strict ==> Lossless(s, step))
    ensures Leads(cfg, s, strict, [step], Apply(cfg, s, step))
  {
    hide Wf, Enabled, Sound, Lossless, Apply;
    var t := Apply(cfg, s, step);
    assert Leads(cfg, t, strict, [], t);
    assert [step][1..] == [];
  }

  lemma {:induction false} LeadsOn(cfg: Config, s: State, strict: bool, p: seq<Step>, t: State, q: seq<Step>, u: State)
    requires Leads(cfg, s, strict, p, t) && Leads(cfg, t, strict, q, u)
    ensures Leads(cfg, s, strict, p + q, u)
    decreases |p|
  {
    hide Wf, Enabled, Sound, Lossless, Apply;
    if p == [] {
      assert p + q == q;
    } else {
      LeadsOn(cfg, Apply(cfg, s, p[0]), strict, p[1..], t, q, u);
      assert (p + q)[1..] == p[1..] + q;
    }
  }

  lemma {:induction false} LeadsKeeps(cfg: Config, s: State, strict: bool, steps: seq<Step>, t: State)
    requires Good(s, strict, {}, {}) && Leads(cfg, s, strict, steps, t)
    ensures Good(t, strict, {}, {})
    decreases |steps|
  {
    hide Good, Wf, Enabled, Sound, Lossless, Apply;
    if steps != [] {
      StepKeeps(cfg, s, strict, steps[0]);
      LeadsKeeps(cfg, Apply(cfg, s, steps[0]), strict, steps[1..], t);
    }
  }

  // --- Making an attempt ----------------------------------------------------------

  /** The event can be taken at once, or after its overhead start. */
  ghost predicate Ready(s: State, e: Event, key: CallKey) {
    && Wf(s) && e in s.events && SpawnKey(e) == Some(key) && key.parent in s.reqs
    && (e.OverheadEnd? ==> s.events[e] == 1 && s.events[StartOf(e)] <= 1)
  }

  /** A new attempt for the call is waited for, and nothing else changed but the queue. */
  ghost predicate Attempted(s: State, t: State, key: CallKey) {
    && t.calls == s.calls && t.pending == s.pending && t.gone == s.gone
    && s.nextId in t.reqs && IsAwaited(t.reqs[s.nextId]) && KeyOf(t.reqs[s.nextId]) == key
    && (forall r :: r in s.reqs ==> r in t.reqs && t.reqs[r] == s.reqs[r])
  }

  /** Steps that spawn directly from the queued event. */
  function Spawning(e: Event): Step {
    if e.Call? then OnCall(e, Spawned(false))
    else if e.Retry? then OnRetry(e, false, Spawned(false))
    else OnOverheadEnd(e, Spawned(false))
  }

  lemma SpawnsDirectly(cfg: Config, s: State, e: Event, key: CallKey)
    requires Ready(s, e, key) && (e.OverheadEnd? ==> e.fromRetry && s.events[StartOf(e)] == 0)
    ensures Leads(cfg, s, true, [Spawning(e)], Apply(cfg, s, Spawning(e)))
    ensures Attempted(s, Apply(cfg, s, Spawning(e)), key)
    ensures Apply(cfg, s, Spawning(e)).events == s.events - multiset{e} + multiset{Start(s.nextId)}
  {
    LeadsOne(cfg, s, true, Spawning(e));
  }

  lemma Spawns(cfg: Config, s: State, e: Event, key: CallKey) returns (steps: seq<Step>, t: State)
    requires Ready(s, e, key) && (e.OverheadEnd? ==> s.events[StartOf(e)] == 0)
    ensures Leads(cfg, s, true, steps, t) && Attempted(s, t, key)
  {
    hide Leads, Apply;
    if e.OverheadEnd? && !e.fromRetry {
      var call := Call(e.parent, e.call, false);
      var s1 := EndsInCall(cfg, s, e, key);
      SpawnsDirectly(cfg, s1, call, key);
      t := Apply(cfg, s1, Spawning(call));
      LeadsOn(cfg, s, true, [OnOverheadEnd(e, SpawnError)], s1, [Spawning(call)], t);
      steps := [OnOverheadEnd(e, SpawnError)] + [Spawning(call)];
    } else {
      SpawnsDirectly(cfg, s, e, key);
      steps, t := [Spawning(e)], Apply(cfg, s, Spawning(e));
    }
  }

  lemma EndsInCall(cfg: Config, s: State, e: Event, key: CallKey) returns (t: State)
    requires Ready(s, e, key) && e.OverheadEnd? && !e.fromRetry && s.events[StartOf(e)] == 0
    ensures t == s.(events := t.events) && Ready(t, Call(e.parent, e.call, false), key)
    ensures Leads(cfg, s, true, [OnOverheadEnd(e, SpawnError)], t)
  {
    LeadsOne(cfg, s, true, OnOverheadEnd(e, SpawnError));
    t := Apply(cfg, s, OnOverheadEnd(e, SpawnError));
  }

  lemma PassesOverhead(cfg: Config, s: State, e: Event, key: CallKey) returns (t: State)
    requires Ready(s, e, key) && e.OverheadEnd? && s.events[StartOf(e)] == 1
    ensures t == Without(s, StartOf(e)) && Ready(t, e, key) && t.events[StartOf(e)] == 0
    ensures Leads(cfg, s, true, [OnOverheadStart(StartOf(e), true)], t)
  {
    var step := OnOverheadStart(StartOf(e), true);
    assert StartOf(e) in s.events;
    LeadsOne(cfg, s, true, step);
    t := Apply(cfg, s, step);
  }

  /** Whatever queued event is to make the next attempt, it can be made in a few sound steps. */
  lemma CanAttempt(cfg: Config, s: State, e: Event, key: CallKey) returns (steps: seq<Step>, t: State)
    requires Ready(s, e, key)
    ensures Leads(cfg, s, true, steps, t) && Attempted(s, t, key)
  {
    hide Leads, Apply;
    if e.OverheadEnd? && s.events[StartOf(e)] == 1 {
      var s1 := PassesOverhead(cfg, s, e, key);
      var rest;
      rest, t := Spawns(cfg, s1, e, key);
      LeadsOn(cfg, s, true, [OnOverheadStart(StartOf(e), true)], s1, rest, t);
      steps := [OnOverheadStart(StartOf(e), true)] + rest;
    } else {
      steps, t := Spawns(cfg, s, e, key);
    }
  }

  // --- An unsound step shows ------------------------------------------------------

  lemma ClosedCallAwaited(t: State, c: ReqId)
    requires c in t.reqs && IsAwaited(t.reqs[c]) && !(KeyOf(t.reqs[c]) in t.calls && t.calls[KeyOf(t.reqs[c])] == Open)
    ensures !Exact(t)
  {
    hide ExactAt;
  }

  lemma TwoAwaited(t: State, c: ReqId, d: ReqId)
    requires c in t.reqs && d in t.reqs && c != d && Rivals(t.reqs[c], t.reqs[d])
    ensures !Exact(t)
  {
    hide ExactAt;
  }

  /** A queued event that carries a call of a good state is ready to make its attempt. */
  lemma QueuedIsReady(s: State, strict: bool, e: Event, key: CallKey)
    requires Good(s, strict, {}, {}) && e in s.events && SpawnKey(e) == Some(key)
    ensures Ready(s, e, key) && s.events[e] == 1
  {
    hide CountersOk, RequestsOk, TokensOk, Carried, NothingLost;
    assert EventOk(s, e);
    if e.OverheadEnd? && StartOf(e) in s.events {
      assert EventOk(s, StartOf(e));
    }
  }

  /** With two events for one call in the queue, two attempts can be waited for at once. */
  lemma BothAttempted(cfg: Config, s: State, e: Event, x: Event, key: CallKey) returns (steps: seq<Step>, t: State)
    requires Ready(s, e, key) && e.Retry? && Ready(s, x, key) && (x == e ==> s.events[e] == 2)
    ensures Leads(cfg, s, true, steps, t) && !Exact(t)
  {
    hide Leads, Apply, Exact;
    SpawnsDirectly(cfg, s, e, key);
    var s1 := Apply(cfg, s, Spawning(e));
    assert x in s1.events;
    var rest;
    rest, t := CanAttempt(cfg, s1, x, key);
    LeadsOn(cfg, s, true, [Spawning(e)], s1, rest, t);
    steps := [Spawning(e)] + rest;
    TwoAwaited(t, s.nextId, s1.nextId);
  }

  lemma AttemptedWrongly(cfg: Config, s: State, e: Event, key: CallKey) returns (steps: seq<Step>, t: State)
    requires Ready(s, e, key)
    requires !(key in s.calls && s.calls[key] == Open) || exists c :: c in s.reqs && IsAwaited(s.reqs[c]) && KeyOf(s.reqs[c]) == key
    ensures Leads(cfg, s, true, steps, t) && !Exact(t)
  {
    hide Leads, Exact;
    steps, t := CanAttempt(cfg, s, e, key);
    if key in s.calls && s.calls[key] == Open {
      var c :| c in s.reqs && IsAwaited(s.reqs[c]) && KeyOf(s.reqs[c]) == key;
      TwoAwaited(t, c, s.nextId);
    } else {
      ClosedCallAwaited(t, s.nextId);
    }
  }

  /** The failed start of an attempt that was already given up queues a second replacement:
      a sound continuation waits for two attempts of the call, or for one of a closed call. */
  lemma SecondReplacementShows(cfg: Config, s: State, r: ReqId, o: StartOutcome) returns (steps: seq<Step>, t: State)
    requires Good(s, true, {}, {}) && Enabled(s, OnStart(r, o)) && IsFailure(o)
    requires s.reqs[r].resolved && RetryApplies(cfg, s, r)
    ensures Leads(cfg, Apply(cfg, s, OnStart(r, o)), true, steps, t) && !Exact(t)
  {
    hide Good, Apply, Leads, Exact;
    var q, s1 := s.reqs[r], Apply(cfg, s, OnStart(r, o));
    var e, key := Retry(q.parent.value, q.call, false, q.attempt + 1), KeyOf(q);
    SecondReplacement(cfg, s, r, o);
    assert Ready(s1, e, key);
    if !(key in s.calls && s.calls[key] == Open) {
      steps, t := AttemptedWrongly(cfg, s1, e, key);
    } else {
      var token := CarrierOf(s, key);
      match token {
        case Child(c) =>
          assert c in s1.reqs && IsAwaited(s1.reqs[c]);
          steps, t := AttemptedWrongly(cfg, s1, e, key);
        case Queued(x) =>
          QueuedIsReady(s, true, x, key);
          assert Ready(s1, x, key);
          steps, t := BothAttempted(cfg, s1, e, x, key);
      }
    }
  }

  /** A failed caller-overhead start of a synchronous call leaves its end event queued: a
      sound continuation makes the call once more. */
  lemma FailedOverheadShows(cfg: Config, s: State, e: Event) returns (steps: seq<Step>, t: State)
    requires Good(s, true, {}, {}) && Enabled(s, OnOverheadStart(e, false)) && !e.async
    ensures Leads(cfg, Apply(cfg, s, OnOverheadStart(e, false)), true, steps, t) && !Exact(t)
  {
    hide Good, Leads, Exact, Join;
    var s0, s1, key, end := Without(s, e), Apply(cfg, s, OnOverheadStart(e, false)), CallKey(e.parent, e.call), EndOf(e);
    assert e in Taken(OnOverheadStart(e, false));
    EndFollows(s, e);
    QueuedIsReady(s, true, end, key);
    assert Ready(s1, end, key);
    if CanRetry(cfg, e.attempt) {
      var retry := Retry(e.parent, e.call, false, e.attempt + 1);
      assert Ready(s1, retry, key);
      steps, t := BothAttempted(cfg, s1, retry, end, key);
    } else {
      JoinClosesCall(s0, key, true, true);
      steps, t := AttemptedWrongly(cfg, s1, end, key);
    }
  }

  lemma UnsoundShows(cfg: Config, s: State, step: Step) returns (steps: seq<Step>, t: State)
    requires Good(s, true, {}, {}) && Enabled(s, step) && !Sound(cfg, s, step)
    ensures Leads(cfg, Apply(cfg, s, step), true, steps, t) && !Exact(t)
  {
    hide Good, Apply, Leads, Exact;
    match step {
      case OnStart(r, o) => steps, t := SecondReplacementShows(cfg, s, r, o);
      case OnOverheadStart(e, ok) => steps, t := FailedOverheadShows(cfg, s, e);
    }
  }

  /** From a state in which nothing was lost, the join is exact in every sound continuation
      of a step if and only if the step is sound. */
  lemma StepKeepsExactlyIf(cfg: Config, s: State, step: Step)
    requires Good(s, true, {}, {}) && Enabled(s, step)
    ensures (forall steps, t :: Leads(cfg, Apply(cfg, s, step), false, steps, t) ==> Exact(t)) <==> Sound(cfg, s, step)
  {
    hide Good, Apply, Leads, Exact, Sound;
    if Sound(cfg, s, step) {
      Weaken(s);
      StepKeeps(cfg, s, false, step);
      forall steps, t | Leads(cfg, Apply(cfg, s, step), false, steps, t) ensures Exact(t) {
        LeadsKeeps(cfg, Apply(cfg, s, step), false, steps, t);
        GoodIsExact(t, false);
      }
    } else {
      var steps, t := UnsoundShows(cfg, s, step);
      LeadsLoosely(cfg, Apply(cfg, s, step), steps, t);
    }
  }

  lemma {:induction false} LeadsLoosely(cfg: Config, s: State, steps: seq<Step>, t: State)
    requires Leads(cfg, s, true, steps, t)
    ensures Leads(cfg, s, false, steps, t)
    decreases |steps|
  {
    hide Wf, Enabled, Sound, Lossless, Apply;
    if steps != [] {
      LeadsLoosely(cfg, Apply(cfg, s, steps[0]), steps[1..], t);
    }
  }
}
