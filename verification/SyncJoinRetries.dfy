/**
  Retries that are left are made: an attempt that fails to start, or whose caller stops
  waiting, is replaced if and only if its number is below max_retries, and a call broken by
  a timeout had used them all.
*/
module SyncJoinRetries {
  import opened Wrappers
  import opened SyncJoin
  import opened SyncJoinInvariant
  import opened SyncJoinTheorems
  import opened SyncJoinRuns
  import opened SyncJoinAlways
  import SyncJoinAttempts
  import SyncJoinReports
  import SyncJoinTimed

  /** The number of further attempts that the policy leaves. */
  function RetriesLeft(cfg: Config, q: Request): int {
    if cfg.retryEnabled then cfg.maxRetries - q.attempt else 0
  }

  /** The attempt was given up without telling the parent, and its replacement is queued. */
  ghost predicate ReplacedBy(s: State, t: State, c: ReqId, e: Event)
    requires c in s.reqs && s.reqs[c].parent.Some?
  {
    && t.events == s.events + multiset{e}
    && t.reqs.Keys == s.reqs.Keys && t.reqs[c].resolved && t.reqs[c].reports == s.reqs[c].reports
    && t.calls == s.calls && t.pending == s.pending
  }

  /** A start that fails is retried exactly if a retry is left and the parent is retained; it
      is not retried and told to the parent at the same time. */
  lemma FailedStartRetried(cfg: Config, s: State, r: ReqId, finalize: bool)
    requires Wf(s) && r in s.reqs && IsAwaited(s.reqs[r])
    ensures var q, t := s.reqs[r], FailStart(cfg, s, r, finalize);
      if RetriesLeft(cfg, q) > 0 && q.parent.value in s.reqs && q.parent.value !in s.gone then
        ReplacedBy(s, t, r, Retry(q.parent.value, q.call, false, q.attempt + 1))
      else t.events == s.events
  {
    hide Notify, FinalizeFailure;
  }

  /** So is a synchronous attempt whose caller stops waiting. */
  lemma TimedOutSyncRetried(cfg: Config, s: State, c: ReqId)
    requires Wf(s) && c in s.reqs && IsAwaited(s.reqs[c]) && c !in s.gone && !s.reqs[c].status.Completed?
    ensures var q, t := s.reqs[c], HandleTimeout(cfg, s, c);
      if RetriesLeft(cfg, q) > 0 && q.parent.value in s.reqs && q.parent.value !in s.gone then
        ReplacedBy(s, t, c, Retry(q.parent.value, q.call, false, q.attempt + 1))
      else t.events == s.events
  {
    hide Notify;
  }

  /** And an asynchronous one, which is abandoned then; without a retry it is only marked. */
  lemma TimedOutAsyncRetried(cfg: Config, s: State, c: ReqId)
    requires Wf(s) && c in s.reqs && s.reqs[c].parent.Some? && s.reqs[c].async && !s.reqs[c].resolved && c !in s.gone
    requires (s.reqs[c].status.Pending? || s.reqs[c].status.Processing?) && !s.reqs[c].marks.asyncTimedOut
    ensures var q, t := s.reqs[c], HandleTimeout(cfg, s, c);
      if RetriesLeft(cfg, q) > 0 && q.parent.value in s.reqs && q.parent.value !in s.gone then
        && t.events == s.events + multiset{Retry(q.parent.value, q.call, true, q.attempt + 1)}
        && t.reqs[c].marks == q.marks.(abandoned := true)
      else t.events == s.events && t.reqs[c].marks == q.marks.(asyncTimedOut := true)
  {
    hide TimeOutSync;
  }

  /** A caller overhead that fails to start is retried too; without a retry the call breaks. */
  lemma FailedOverheadRetried(cfg: Config, s: State, e: Event)
    requires Wf(s) && e.OverheadStart? && !e.async && e.parent in s.reqs && e.parent in s.pending && s.pending[e.parent] > 0
    ensures var t := HandleOverheadStart(cfg, s, e, false);
      if cfg.retryEnabled && e.attempt < cfg.maxRetries then
        t == s.(events := s.events + multiset{Retry(e.parent, e.call, false, e.attempt + 1)})
      else t.events == s.events && CallKey(e.parent, e.call) in t.calls && t.calls[CallKey(e.parent, e.call)] == Broken
  {
    hide Join;
    var key := CallKey(e.parent, e.call);
    JoinClosesCall(s, key, true, true);
    assert key in s.calls[key := Broken] && s.calls[key := Broken][key] == Broken;
  }

  // --- Whole runs -----------------------------------------------------------------

  /** Attempts that reported a timeout were the last that the policy allows. */
  ghost predicate LastOnes(cfg: Config, s: State) {
    forall c :: c in s.reqs && s.reqs[c].reports == 1 && s.reqs[c].marks.waitTimedOut ==> s.reqs[c].attempt == RetryCap(cfg)
  }

  /** A parent that waits is retained. */
  ghost predicate WaitersRetained(s: State) {
    forall p :: p in s.pending ==> Lookup(s, p)
  }

  lemma BaseRetains(s: State, m: multiset<Event>)
    requires Base(s, {})
    ensures WaitersRetained(s.(events := m))
  {
    forall p | p in s.pending ensures Lookup(s, p) {
      assert PendingOk(s, p);
    }
  }

  lemma OwnTimeout(cfg: Config, s: State, c: ReqId)
    requires Always(cfg, s) && WaitersRetained(s) && c in s.reqs && s.reqs[c].parent.Some?
    requires var t := HandleTimeout(cfg, s, c); c in t.reqs && t.reqs[c].reports == 1 && t.reqs[c].marks.waitTimedOut
    ensures s.reqs[c].attempt == RetryCap(cfg) || (s.reqs[c].reports == 1 && s.reqs[c].marks.waitTimedOut)
  {
    RecordAt(cfg, s, c);
    var q := s.reqs[c];
    if !q.resolved && !q.async && !q.status.Completed? && Lookup(s, c) {
      hide Always, Join;
      TimeOutSyncUnfolds(cfg, s, c);
    }
  }

  lemma FailedUnmarked(cfg: Config, s: State, c: ReqId, retryable: bool)
    requires Wf(s) && c in s.reqs && s.reqs[c].parent.Some? && !s.reqs[c].marks.waitTimedOut
    ensures var t := if retryable && RetryApplies(cfg, s, c) then Isolate(s, c) else FinalizeFailure(s, c);
      t.reqs.Keys == s.reqs.Keys && !t.reqs[c].marks.waitTimedOut
  {
    hide FinalizeFailure;
    SyncJoinTimed.FinalizeMarks(s, c);
  }

  lemma SpawnUnmarked(cfg: Config, s: State, p: ReqId, k: nat, async: bool, attempt: nat, o: SpawnOutcome, c: ReqId)
    requires Wf(s) && p in s.reqs && c !in s.reqs && c in Spawn(cfg, s, p, k, async, attempt, o).reqs
    ensures !Spawn(cfg, s, p, k, async, attempt, o).reqs[c].marks.waitTimedOut
  {
    hide FinalizeFailure, Isolate, RetryApplies;
    if o.DependencyFailure? {
      FailedUnmarked(cfg, s.(reqs := s.reqs[s.nextId := NewRequest(Some(p), k, async, attempt, Failed)], nextId := s.nextId + 1), s.nextId, o.retryable);
    }
  }

  /** A new request has not timed out. */
  lemma NewUnmarked(cfg: Config, s: State, step: Step, c: ReqId)
    requires Wf(s) && Enabled(s, step) && c !in s.reqs && c in Apply(cfg, s, step).reqs
    ensures !Apply(cfg, s, step).reqs[c].marks.waitTimedOut
  {
    hide HandleStart, HandleComplete, HandleTimeout, HandleRetry, HandleOverheadStart, HandleOverheadEnd, Spawn;
    var s0 := s.(events := s.events - Taken(step));
    match step {
      case OnStart(x, o) => SyncJoinReports.StartMakesNone(cfg, s0, x, o);
      case OnComplete(x, o) => SyncJoinReports.CompleteMakesNone(s0, x, o);
      case OnTimeout(x) => SyncJoinReports.TimeoutMakesNone(cfg, s0, x);
      case OnOverheadStart(x, ok) => SyncJoinReports.OverheadMakesNone(cfg, s0, x, ok);
      case OnCall(x, o) => SpawnUnmarked(cfg, s0, x.parent, x.call, x.async, 0, o, c);
      case OnRetry(x, overhead, o) =>
        SyncJoinReports.RetryMakes(cfg, s0, x, overhead, o);
        SpawnUnmarked(cfg, s0, x.parent, x.call, x.async, x.attempt, o, c);
      case OnOverheadEnd(x, o) =>
        SyncJoinReports.EndMakes(cfg, s0, x, o);
        SpawnUnmarked(cfg, s0, x.parent, x.call, x.async, x.attempt, o, c);
      case _ =>
    }
  }

  lemma StepLast(cfg: Config, s: State, step: Step)
    requires Always(cfg, s) && Base(s, {}) && Enabled(s, step) && LastOnes(cfg, s)
    ensures LastOnes(cfg, Apply(cfg, s, step))
  {
    hide Always, Base, Apply, AllKept;
    var t := Apply(cfg, s, step);
    StepAlways(cfg, s, step);
    forall c | c in t.reqs && t.reqs[c].reports == 1 && t.reqs[c].marks.waitTimedOut ensures t.reqs[c].attempt == RetryCap(cfg) {
      if c !in s.reqs {
        NewUnmarked(cfg, s, step, c);
      } else {
        WasLast(cfg, s, step, c);
      }
    }
  }

  lemma WasLast(cfg: Config, s: State, step: Step, c: ReqId)
    requires Always(cfg, s) && Base(s, {}) && Enabled(s, step) && LastOnes(cfg, s) && c in s.reqs
    requires var t := Apply(cfg, s, step); c in t.reqs && t.reqs[c].reports == 1 && t.reqs[c].marks.waitTimedOut
    ensures Apply(cfg, s, step).reqs[c].attempt == RetryCap(cfg)
  {
    hide Always, Base, HandleStart, HandleComplete, HandleTimeout, HandleRetry, HandleOverheadStart, HandleOverheadEnd, Spawn;
    var t := Apply(cfg, s, step);
    StepAlways(cfg, s, step);
    assert Kept(s.reqs[c], t.reqs[c]);
    RecordAt(cfg, s, c);
    if step == OnTimeout(c) {
      assert Timeout(c) in Taken(step);
      TakeAlways(cfg, s, Timeout(c));
      BaseRetains(s, s.events - Taken(step));
      OwnTimeout(cfg, s.(events := s.events - Taken(step)), c);
    } else {
      hide Apply;
      SyncJoinTimed.StepSpares(cfg, s, step, c);
    }
  }

  lemma {:induction false} RunLast(cfg: Config, states: seq<State>, steps: seq<Step>, i: nat)
    requires SoundRun(cfg, states, steps) && i < |states|
    ensures LastOnes(cfg, states[i])
  {
    if i > 0 {
      hide LastOnes, Good, Base, Always, Apply, Enabled, Sound;
      RunLast(cfg, states, steps, i - 1);
      RunGood(cfg, states, steps, false, i - 1);
      SyncJoinAttempts.GoodBase(states[i - 1]);
      RunAlways(cfg, states, steps, i - 1);
      StepLast(cfg, states[i - 1], steps[i - 1]);
    }
  }

  /** In every sound run a timeout breaks a call only after all retries: the attempt that
      reported it has the number max_retries. */
  lemma NoRetryWasLeft(cfg: Config, states: seq<State>, steps: seq<Step>, i: nat, c: ReqId)
    requires SoundRun(cfg, states, steps) && i < |states| && c in states[i].reqs
    requires states[i].reqs[c].reports == 1 && states[i].reqs[c].marks.waitTimedOut
    ensures states[i].reqs[c].attempt == if cfg.retryEnabled && cfg.maxRetries > 0 then cfg.maxRetries else 0
  {
    hide SoundRun;
    RunLast(cfg, states, steps, i);
  }
}
