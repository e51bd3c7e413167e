/**
  How many attempts one logical call is given: in every sound run they carry different
  numbers, none above max_retries, so there are at most max_retries + 1 of them.
*/
module SyncJoinAttempts {
  import opened Wrappers
  import opened SyncJoin
  import opened SyncJoinInvariant
  import opened SyncJoinTheorems
  import opened SyncJoinRuns
  import opened SyncJoinAlways

  predicate IsAttempt(q: Request, key: CallKey) {
    q.parent.Some? && !q.async && KeyOf(q) == key
  }

  /** Every physical attempt ever made for a logical call, resolved or not. */
  ghost function AttemptsOf(s: State, key: CallKey): set<ReqId> {
    set c | c in s.reqs && IsAttempt(s.reqs[c], key)
  }

  /** The number of the attempt that an event will make: a plain call makes the first. */
  function NextAttempt(e: Event): nat
    requires SpawnKey(e).Some?
  {
    if e.Call? || (e.OverheadEnd? && !e.fromRetry) then 0 else e.attempt
  }

  ghost predicate AttemptOk(s: State, key: CallKey, c: ReqId) {
    c in AttemptsOf(s, key) ==>
      && key in s.calls
      && (forall d :: d in AttemptsOf(s, key) && d != c ==> s.reqs[d].attempt != s.reqs[c].attempt)
      && (IsAwaited(s.reqs[c]) ==> forall d :: d in AttemptsOf(s, key) ==> s.reqs[d].attempt <= s.reqs[c].attempt)
  }

  /** The attempts already made have smaller numbers than the one an event will make. */
  ghost predicate Later(s: State, key: CallKey, e: Event)
    requires SpawnKey(e).Some?
  {
    forall c :: c in AttemptsOf(s, key) ==> s.reqs[c].attempt < NextAttempt(e)
  }

  ghost predicate Numbered(s: State) {
    && (forall key, c :: AttemptOk(s, key, c))
    && (forall e :: e in s.events && SpawnKey(e).Some? ==> Later(s, SpawnKey(e).value, e))
  }

  // --- One step -------------------------------------------------------------------

  /** The requests of `t` that `s` does not have make no attempt for a call. */
  ghost predicate NoNewAttempts(s: State, t: State) {
    forall c :: c in t.reqs && c !in s.reqs ==> t.reqs[c].parent.None? || t.reqs[c].async
  }

  lemma SameAttempts(s: State, t: State, key: CallKey)
    requires AllKept(s, t) && NoNewAttempts(s, t)
    ensures AttemptsOf(t, key) == AttemptsOf(s, key)
  {
    forall c | c in s.reqs ensures Kept(s.reqs[c], t.reqs[c]) {}
  }

  lemma AttemptsStay(s: State, t: State)
    requires Numbered(s) && AllKept(s, t) && NoNewAttempts(s, t)
    ensures forall key, c :: AttemptOk(t, key, c)
    ensures forall key, e :: SpawnKey(e).Some? && Later(s, key, e) ==> Later(t, key, e)
  {
    forall key, c ensures AttemptOk(t, key, c) {
      SameAttempts(s, t, key);
      assert AttemptOk(s, key, c);
      forall d | d in AttemptsOf(s, key) ensures Kept(s.reqs[d], t.reqs[d]) {}
    }
    forall key, e | SpawnKey(e).Some? && Later(s, key, e) ensures Later(t, key, e) {
      SameAttempts(s, t, key);
      forall d | d in AttemptsOf(s, key) ensures Kept(s.reqs[d], t.reqs[d]) {}
    }
  }

  /** Steps that make no attempt: whatever new event they queue makes a later one. */
  lemma EventsStay(s: State, t: State)
    requires Numbered(s) && AllKept(s, t) && NoNewAttempts(s, t)
    requires forall e :: e in t.events && SpawnKey(e).Some? ==> e in s.events || Later(s, SpawnKey(e).value, e)
    ensures Numbered(t)
  {
    AttemptsStay(s, t);
    hide AttemptOk, Later;
  }

  /** The event that replaces a failed or timed-out attempt. */
  function Replacement(q: Request): Event
    requires q.parent.Some?
  {
    Retry(q.parent.value, q.call, false, q.attempt + 1)
  }

  /** The attempt a parent waits for has the highest number so far. */
  lemma ReplacementIsLater(s: State, c: ReqId)
    requires Numbered(s) && c in s.reqs && IsAwaited(s.reqs[c])
    ensures Later(s, KeyOf(s.reqs[c]), Replacement(s.reqs[c]))
  {
    assert AttemptOk(s, KeyOf(s.reqs[c]), c);
    assert c in AttemptsOf(s, KeyOf(s.reqs[c]));
  }

  /** The step makes no request, and queues nothing that spawns but a replacement of `c`. */
  ghost predicate OnlyReplaces(s: State, t: State, c: ReqId)
    requires c in s.reqs
  {
    && t.reqs.Keys == s.reqs.Keys
    && forall e :: e in t.events && SpawnKey(e).Some? ==> e in s.events || (IsAwaited(s.reqs[c]) && e == Replacement(s.reqs[c]))
  }

  lemma ReplacesNumbered(s: State, t: State, c: ReqId)
    requires Numbered(s) && AllKept(s, t) && c in s.reqs && OnlyReplaces(s, t, c)
    ensures Numbered(t)
  {
    hide Numbered, AllKept, Later;
    if IsAwaited(s.reqs[c]) {
      ReplacementIsLater(s, c);
    }
    EventsStay(s, t);
  }

  lemma StartReplaces(cfg: Config, s: State, r: ReqId, o: StartOutcome)
    requires Wf(s) && r in s.reqs && (IsFailure(o) && RetryApplies(cfg, s, r) ==> !s.reqs[r].resolved)
    ensures OnlyReplaces(s, HandleStart(cfg, s, r, o), r)
  {
    hide Notify, FinalizeFailure;
  }

  lemma TimeoutReplaces(cfg: Config, s: State, c: ReqId)
    requires Wf(s) && c in s.reqs && s.reqs[c].parent.Some?
    ensures OnlyReplaces(s, HandleTimeout(cfg, s, c), c)
  {
    hide Notify;
  }

  /** A request that has not made its calls yet has made no attempt for any of them. */
  lemma FirstIsLater(s: State, r: ReqId, async: bool, overheads: seq<bool>, e: Event)
    requires Numbered(s) && (forall key :: key in s.calls ==> key.parent != r)
    requires e in FanOut(r, async, overheads) && SpawnKey(e).Some?
    ensures Later(s, SpawnKey(e).value, e)
  {
    FanOutMembers(r, async, overheads, e);
    hide FanOut;
    var key := SpawnKey(e).value;
    assert forall c :: c in AttemptsOf(s, key) ==> AttemptOk(s, key, c);
  }

  lemma CompleteNumbered(s: State, s0: State, r: ReqId, o: CompleteOutcome)
    requires Wf(s) && r in s.reqs && Numbered(s) && (forall key :: key in s.calls ==> key.parent != r)
    requires s0.events <= s.events && s0 == s.(events := s0.events) && AllKept(s, HandleComplete(s0, r, o))
    ensures Numbered(HandleComplete(s0, r, o))
  {
    var t := HandleComplete(s0, r, o);
    hide AllKept, FinalizeCompletion, FinalizeFailure, FanOut, Later, Numbered;
    forall e | e in t.events && SpawnKey(e).Some? ensures e in s.events || Later(s, SpawnKey(e).value, e) {
      if e !in s.events {
        if e in FanOut(r, true, o.asyncOverheads) {
          FirstIsLater(s, r, true, o.asyncOverheads, e);
        } else {
          FirstIsLater(s, r, false, o.syncOverheads, e);
        }
      }
    }
    EventsStay(s, t);
  }

  /** Making an attempt: its number is above all before, and nobody else will make one. */
  ghost predicate Makes(s: State, t: State, e: Event, c: ReqId) {
    && e in s.events && SpawnKey(e).Some? && c !in s.reqs && t.reqs.Keys == s.reqs.Keys + {c}
    && IsAttempt(t.reqs[c], SpawnKey(e).value) && t.reqs[c].attempt == NextAttempt(e)
    && forall e' :: e' in t.events && SpawnKey(e').Some? ==>
         (e' in s.events && e' != e) || (SpawnKey(e') == SpawnKey(e) && NextAttempt(e') == NextAttempt(e) + 1)
  }

  lemma OneMore(s: State, t: State, e: Event, c: ReqId, key: CallKey)
    requires AllKept(s, t) && Makes(s, t, e, c)
    ensures AttemptsOf(t, key) == AttemptsOf(s, key) + if key == SpawnKey(e).value then {c} else {}
  {
    forall d | d in s.reqs ensures Kept(s.reqs[d], t.reqs[d]) {}
  }

  /** While the next attempt is due, no earlier one is waited for. */
  lemma NobodyAwaited(s: State, e: Event)
    requires TokensOk(s) && e in s.events && SpawnKey(e).Some?
    ensures SpawnKey(e).value in s.calls
    ensures forall d :: d in AttemptsOf(s, SpawnKey(e).value) ==> !IsAwaited(s.reqs[d])
  {
    var key := SpawnKey(e).value;
    assert Live(s, Queued(e), key);
    forall d | d in AttemptsOf(s, key) ensures !IsAwaited(s.reqs[d]) {
      assert IsAwaited(s.reqs[d]) ==> Live(s, Child(d), key);
    }
  }

  lemma AttemptAdded(s: State, t: State, e: Event, c: ReqId, key: CallKey, d: ReqId)
    requires Numbered(s) && TokensOk(s) && AllKept(s, t) && Makes(s, t, e, c)
    ensures AttemptOk(t, key, d)
  {
    OneMore(s, t, e, c, key);
    forall b | b in s.reqs ensures Kept(s.reqs[b], t.reqs[b]) {}
    assert AttemptOk(s, key, d) && Later(s, SpawnKey(e).value, e);
    NobodyAwaited(s, e);
  }

  lemma LaterStill(s: State, t: State, e: Event, c: ReqId, e': Event)
    requires Numbered(s) && TokensOk(s) && AllKept(s, t) && Makes(s, t, e, c)
    requires e' in t.events && SpawnKey(e').Some?
    ensures Later(t, SpawnKey(e').value, e')
  {
    OneMore(s, t, e, c, SpawnKey(e').value);
    forall b | b in s.reqs ensures Kept(s.reqs[b], t.reqs[b]) {}
    assert Later(s, SpawnKey(e).value, e);
    if e' in s.events && e' != e {
      assert Later(s, SpawnKey(e').value, e');
      assert Live(s, Queued(e), SpawnKey(e).value) && Live(s, Queued(e'), SpawnKey(e').value);
    }
  }

  lemma MakesNumbered(s: State, t: State, e: Event, c: ReqId)
    requires Numbered(s) && TokensOk(s) && AllKept(s, t) && Makes(s, t, e, c)
    ensures Numbered(t)
  {
    hide AttemptOk, TokensOk, AllKept, Makes, Later;
    forall key, d ensures AttemptOk(t, key, d) { AttemptAdded(s, t, e, c, key, d); }
    forall e' | e' in t.events && SpawnKey(e').Some? ensures Later(t, SpawnKey(e').value, e') { LaterStill(s, t, e, c, e'); }
  }

  /** An attempt that fails at once is given up or finalised. */
  lemma FailedAtOnce(cfg: Config, s: State, c: ReqId, retryable: bool)
    requires Always(cfg, s) && c in s.reqs && Idle(s, c)
    ensures var t := if retryable && RetryApplies(cfg, s, c) then Isolate(s, c) else FinalizeFailure(s, c);
      t.reqs.Keys == s.reqs.Keys && Kept(s.reqs[c], t.reqs[c])
  {
    hide Always, FinalizeFailure;
    if !(retryable && RetryApplies(cfg, s, c)) {
      FinalizeAlways(cfg, s, c, true);
    }
  }

  /** What a spawn creates: one request, for that call and with that number. */
  lemma SpawnCreates(cfg: Config, s: State, p: ReqId, k: nat, async: bool, attempt: nat, o: SpawnOutcome)
    requires Always(cfg, s) && p in s.reqs && attempt <= RetryCap(cfg) && !o.SpawnError?
    ensures var c, t := s.nextId, Spawn(cfg, s, p, k, async, attempt, o);
      && c !in s.reqs && t.reqs.Keys == s.reqs.Keys + {c}
      && t.reqs[c].parent == Some(p) && t.reqs[c].call == k && t.reqs[c].async == async && t.reqs[c].attempt == attempt
  {
    hide Always, AllKept, FinalizeFailure, Isolate, RetryApplies, Idle;
    if o.DependencyFailure? {
      var c, q := s.nextId, NewRequest(Some(p), k, async, attempt, Failed);
      EnterAlways(cfg, s, q);
      FailedAtOnce(cfg, s.(reqs := s.reqs[c := q], nextId := c + 1), c, o.retryable);
    }
  }

  /** What a spawn queues: for a synchronous call at most the next attempt. */
  lemma SpawnQueues(cfg: Config, s: State, p: ReqId, k: nat, async: bool, attempt: nat, o: SpawnOutcome, e: Event)
    requires Wf(s) && p in s.reqs && e in Spawn(cfg, s, p, k, async, attempt, o).events && SpawnKey(e).Some?
    ensures e in s.events || (!async && e == Retry(p, k, false, attempt + 1))
  {
    hide FinalizeFailure;
  }

  lemma SpawnMakes(cfg: Config, s: State, s0: State, e: Event, o: SpawnOutcome)
    requires Always(cfg, s0) && e in s.events && s.events[e] == 1 && SpawnKey(e).Some? && e.parent in s.reqs
    requires !o.SpawnError? && NextAttempt(e) <= RetryCap(cfg) && s0 == s.(events := s.events - multiset{e})
    ensures Makes(s, Spawn(cfg, s0, e.parent, e.call, e.async, NextAttempt(e), o), e, s.nextId)
  {
    hide Always, Spawn;
    var t := Spawn(cfg, s0, e.parent, e.call, e.async, NextAttempt(e), o);
    SpawnCreates(cfg, s0, e.parent, e.call, e.async, NextAttempt(e), o);
    forall e' | e' in t.events && SpawnKey(e').Some?
      ensures (e' in s.events && e' != e) || (SpawnKey(e') == SpawnKey(e) && NextAttempt(e') == NextAttempt(e) + 1)
    {
      SpawnQueues(cfg, s0, e.parent, e.call, e.async, NextAttempt(e), o, e');
    }
  }

  /** A spawn on behalf of the event just taken. */
  lemma SpawnNumbered(cfg: Config, s: State, s0: State, e: Event, attempt: nat, o: SpawnOutcome)
    requires Base(s, {}) && Numbered(s) && e in s.events && !e.Start? && !e.Complete? && !e.Timeout? && e.parent in s.reqs
    requires SpawnKey(e).Some? ==> attempt == NextAttempt(e)
    requires !e.async ==> SpawnKey(e).Some?
    requires Always(cfg, s0) && attempt <= RetryCap(cfg) && s0 == s.(events := s.events - multiset{e})
    requires AllKept(s, Spawn(cfg, s0, e.parent, e.call, e.async, attempt, o))
    ensures Numbered(Spawn(cfg, s0, e.parent, e.call, e.async, attempt, o))
  {
    var t := Spawn(cfg, s0, e.parent, e.call, e.async, attempt, o);
    assert EventOk(s, e);
    hide Always, AllKept, Numbered, Makes, EventOk, EventsOk;
    if o.SpawnError? {
      EventsStay(s, t);
    } else if e.async {
      hide Spawn;
      SpawnCreates(cfg, s0, e.parent, e.call, e.async, attempt, o);
      forall e' | e' in t.events && SpawnKey(e').Some? ensures e' in s.events {
        SpawnQueues(cfg, s0, e.parent, e.call, e.async, attempt, o, e');
      }
      EventsStay(s, t);
    } else {
      hide Spawn;
      SpawnMakes(cfg, s, s0, e, o);
      MakesNumbered(s, t, e, s.nextId);
    }
  }

  /** Handing an attempt on to an event that will make it later. */
  lemma HandsOn(s: State, s0: State, t: State, e: Event, e': Event)
    requires Numbered(s) && e in s.events && s0 == s.(events := s.events - multiset{e}) && AllKept(s, t)
    requires t.reqs == s0.reqs && SpawnKey(e') == SpawnKey(e)
    requires SpawnKey(e).Some? ==> NextAttempt(e') == NextAttempt(e)
    requires forall x :: x in t.events && SpawnKey(x).Some? ==> x in s0.events || x == e'
    ensures Numbered(t)
  {
    hide AllKept, AttemptOk;
    EventsStay(s, t);
  }

  /** A sound overhead start changes nothing but the queue. */
  lemma SoundOverhead(cfg: Config, s: State, e: Event, ok: bool)
    requires Wf(s) && e.OverheadStart? && e.parent in s.reqs && (ok || e.async)
    ensures HandleOverheadStart(cfg, s, e, ok) == s
  {
  }

  lemma RetryNumbered(cfg: Config, s: State, s0: State, e: Event, overhead: bool, o: SpawnOutcome)
    requires Base(s, {}) && Numbered(s) && e in s.events && e.Retry? && e.parent in s.reqs
    requires Always(cfg, s0) && e.attempt <= RetryCap(cfg) && s0 == s.(events := s.events - multiset{e})
    requires AllKept(s, HandleRetry(cfg, s0, e, overhead, o))
    ensures Numbered(HandleRetry(cfg, s0, e, overhead, o))
  {
    hide Always, AllKept, Spawn, Base, Numbered;
    if overhead {
      HandsOn(s, s0, HandleRetry(cfg, s0, e, overhead, o), e, OverheadEnd(e.parent, e.call, e.async, e.attempt, true));
    } else {
      SpawnNumbered(cfg, s, s0, e, e.attempt, o);
    }
  }

  lemma OverheadEndNumbered(cfg: Config, s: State, s0: State, e: Event, o: SpawnOutcome)
    requires Base(s, {}) && Numbered(s) && e in s.events && e.OverheadEnd? && e.parent in s.reqs
    requires Always(cfg, s0) && e.attempt <= RetryCap(cfg) && s0 == s.(events := s.events - multiset{e})
    requires AllKept(s, HandleOverheadEnd(cfg, s0, e, o))
    ensures Numbered(HandleOverheadEnd(cfg, s0, e, o))
  {
    hide Always, AllKept, Spawn, Base, Numbered;
    if e.fromRetry {
      SpawnNumbered(cfg, s, s0, e, e.attempt, o);
    } else {
      HandsOn(s, s0, HandleOverheadEnd(cfg, s0, e, o), e, Call(e.parent, e.call, e.async));
    }
  }

  lemma EdgeNumbered(cfg: Config, s: State, step: Step)
    requires Base(s, {}) && Numbered(s) && Always(cfg, s) && Enabled(s, step) && Sound(cfg, s, step)
    requires step.OnCall? || step.OnRetry? || step.OnOverheadStart? || step.OnOverheadEnd?
    ensures Numbered(Apply(cfg, s, step))
  {
    hide Always, AllKept, Spawn, Base, Numbered, HandleRetry, HandleOverheadStart, HandleOverheadEnd;
    var e := step.event;
    var s0 := s.(events := s.events - multiset{e});
    assert e in Taken(step);
    StepAlways(cfg, s, step);
    TakeAlways(cfg, s, e);
    QueuedAt(cfg, s, e);
    match step {
      case OnCall(_, o) => SpawnNumbered(cfg, s, s0, e, 0, o);
      case OnRetry(_, overhead, o) => RetryNumbered(cfg, s, s0, e, overhead, o);
      case OnOverheadStart(_, ok) =>
        SoundOverhead(cfg, s0, e, ok);
        EventsStay(s, s0);
      case OnOverheadEnd(_, o) => OverheadEndNumbered(cfg, s, s0, e, o);
    }
  }

  lemma RequestNumbered(cfg: Config, s: State, step: Step)
    requires Base(s, {}) && Numbered(s) && Always(cfg, s) && Enabled(s, step) && Sound(cfg, s, step)
    requires step.OnStart? || step.OnComplete? || step.OnTimeout?
    ensures Numbered(Apply(cfg, s, step))
  {
    hide Always, AllKept, Base, Numbered, HandleStart, HandleComplete, HandleTimeout;
    var t := Apply(cfg, s, step);
    var s0 := s.(events := s.events - Taken(step));
    StepAlways(cfg, s, step);
    match step {
      case OnStart(r, o) =>
        StartReplaces(cfg, s0, r, o);
        ReplacesNumbered(s, t, r);
      case OnTimeout(c) =>
        TimeoutReplaces(cfg, s0, c);
        ReplacesNumbered(s, t, c);
      case OnComplete(r, o) =>
        NoCallsWhileQueued(s, Complete(r));
        CompleteNumbered(s, s0, r, o);
    }
  }

  lemma StepNumbered(cfg: Config, s: State, step: Step)
    requires Base(s, {}) && Numbered(s) && Always(cfg, s) && Enabled(s, step) && Sound(cfg, s, step)
    ensures Numbered(Apply(cfg, s, step))
  {
    hide Always, AllKept, Base, Numbered;
    match step
    case OnStart(_, _) => RequestNumbered(cfg, s, step);
    case OnComplete(_, _) => RequestNumbered(cfg, s, step);
    case OnTimeout(_) => RequestNumbered(cfg, s, step);
    case Arrive(_) =>
      StepAlways(cfg, s, step);
      EventsStay(s, Apply(cfg, s, step));
    case Forget(_) =>
      StepAlways(cfg, s, step);
      EventsStay(s, Apply(cfg, s, step));
    case _ => EdgeNumbered(cfg, s, step);
  }

  // --- Whole runs -----------------------------------------------------------------

  lemma {:induction false} RunNumbered(cfg: Config, states: seq<State>, steps: seq<Step>, i: nat)
    requires SoundRun(cfg, states, steps) && i < |states|
    ensures Numbered(states[i])
  {
    if i > 0 {
      hide Numbered, Good, Base, Always, Apply, Enabled, Sound;
      RunNumbered(cfg, states, steps, i - 1);
      RunGood(cfg, states, steps, false, i - 1);
      GoodBase(states[i - 1]);
      RunAlways(cfg, states, steps, i - 1);
      StepNumbered(cfg, states[i - 1], steps[i - 1]);
    }
  }

  lemma GoodBase(s: State)
    requires Good(s, false, {}, {})
    ensures Base(s, {})
  {
  }

  /** Requests whose attempt numbers differ and stay below n are at most n. */
  lemma {:induction false} AtMost(s: State, cs: set<ReqId>, n: nat)
    requires cs <= s.reqs.Keys && forall c :: c in cs ==> s.reqs[c].attempt < n
    requires forall c, d :: c in cs && d in cs && c != d ==> s.reqs[c].attempt != s.reqs[d].attempt
    ensures |cs| <= n
    decreases n
  {
    if c :| c in cs && s.reqs[c].attempt == n - 1 {
      AtMost(s, cs - {c}, n - 1);
    } else if n > 0 {
      AtMost(s, cs, n - 1);
    } else {
      assert cs == {};
    }
  }

  /** In every sound run, in every interleaving, a logical call is given at most
      max_retries + 1 attempts in all, each with a number of its own, and the one waited
      for has the highest. */
  lemma AttemptsBounded(cfg: Config, states: seq<State>, steps: seq<Step>, i: nat, key: CallKey)
    requires SoundRun(cfg, states, steps) && i < |states|
    ensures var s, cs := states[i], AttemptsOf(states[i], key);
      && |cs| <= RetryCap(cfg) + 1
      && (forall c, d :: c in cs && d in cs && c != d ==> s.reqs[c].attempt != s.reqs[d].attempt)
      && (forall c, d :: c in cs && d in cs && IsAwaited(s.reqs[c]) ==> s.reqs[d].attempt <= s.reqs[c].attempt)
  {
    hide SoundRun, IsRun;
    var s, cs := states[i], AttemptsOf(states[i], key);
    RunNumbered(cfg, states, steps, i);
    forall c | c in cs ensures AttemptOk(s, key, c) {}
    NumbersBounded(cfg, states, steps, i);
    AtMost(s, cs, RetryCap(cfg) + 1);
  }

  lemma NumbersBounded(cfg: Config, states: seq<State>, steps: seq<Step>, i: nat)
    requires SoundRun(cfg, states, steps) && i < |states|
    ensures forall c :: c in states[i].reqs ==> states[i].reqs[c].attempt <= RetryCap(cfg)
  {
    RunAlways(cfg, states, steps, i);
    forall c | c in states[i].reqs ensures states[i].reqs[c].attempt <= RetryCap(cfg) {
      RecordAt(cfg, states[i], c);
    }
  }
}
