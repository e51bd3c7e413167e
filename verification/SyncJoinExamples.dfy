/**
  Two concrete runs in which the join goes wrong, one for each way in which a step
  can be unsound.  In both, a parent with two calls is finalised while its second
  call has not even been made.
*/
module SyncJoinExamples {
  import opened Wrappers
  import opened SyncJoin
  import opened SyncJoinInvariant
  import opened SyncJoinSteps
  import opened SyncJoinTheorems
  import opened SyncJoinRuns
  import SyncJoinAlways

  const ONE_RETRY := Config(true, 1)
  const NO_RETRY := Config(false, 0)

  const ROOT := NewRequest(None, 0, false, 0, Processing)
  const FIRST := CallKey(0, 0)
  const SECOND := CallKey(0, 1)

  function Calls2(first: Outcome): map<CallKey, Outcome> {
    map[FIRST := first, SECOND := Open]
  }

  /** Each state of a run is the result of the step before it. */
  ghost predicate Goes(cfg: Config, s: State, step: Step, t: State) {
    Wf(s) && Enabled(s, step) && Apply(cfg, s, step) == t
  }

  // --- The parent's own work ------------------------------------------------------

  const S1 := State(map[0 := NewRequest(None, 0, false, 0, Pending)], map[], map[], multiset{Start(0)}, {}, 1)
  const S2 := State(map[0 := ROOT], map[], map[], multiset{Complete(0)}, {}, 1)

  lemma Arrives(cfg: Config)
    ensures Goes(cfg, EMPTY, Arrive(true), S1)
  {
    assert Apply(cfg, EMPTY, Arrive(true)).events == S1.events;
  }

  lemma Begins(cfg: Config)
    ensures Goes(cfg, S1, OnStart(0, Begin(false, false)), S2)
  {
    var t := Apply(cfg, S1, OnStart(0, Begin(false, false)));
    assert t.reqs == S2.reqs;
    assert t.events == S2.events;
  }

  // --- A second replacement -------------------------------------------------------

  const ATTEMPT := NewRequest(Some(0), 0, false, 0, Pending)
  const DEFERRED := ATTEMPT.(marks := NO_MARKS.(deferred := true))
  const GIVEN_UP := ATTEMPT.(resolved := true, marks := NO_MARKS.(deferred := true, waitTimedOut := true))
  const RETRY := Retry(0, 0, false, 1)
  const CALL2 := Call(0, 1, false)

  const A3 := State(map[0 := ROOT], map[0 := 2], Calls2(Open), multiset{Call(0, 0, false), CALL2}, {}, 1)
  const A4 := State(map[0 := ROOT, 1 := ATTEMPT], map[0 := 2], Calls2(Open), multiset{CALL2, Start(1), Timeout(1)}, {}, 2)
  const A5 := A4.(reqs := map[0 := ROOT, 1 := DEFERRED])
  const A6 := A5.(reqs := map[0 := ROOT, 1 := GIVEN_UP], events := multiset{CALL2, Start(1), RETRY})
  const A7 := A6.(reqs := map[0 := ROOT, 1 := GIVEN_UP.(status := Failed)], events := multiset{CALL2, RETRY, RETRY})

  lemma TwoCalls(overhead: bool)
    ensures FanOut(0, false, [overhead, false]) == EdgeEvents(0, 0, false, 0, false, overhead) + multiset{CALL2}
    ensures FanOut(0, true, []) == multiset{}
    ensures OpenedCalls(0, 2) == Calls2(Open)
  {
    assert [overhead, false][..1] == [overhead];
    assert [overhead][..0] == [];
    assert FanOut(0, false, [overhead]) == EdgeEvents(0, 0, false, 0, false, overhead);
    assert OpenedCalls(0, 1) == map[FIRST := Open];
  }

  lemma FansOutTwo(cfg: Config)
    ensures Goes(cfg, S2, OnComplete(0, Calls([], [false, false])), A3)
  {
    TwoCalls(false);
    hide FanOut, OpenedCalls, FinalizeFailure, FinalizeCompletion;
    var t := Apply(cfg, S2, OnComplete(0, Calls([], [false, false])));
    assert t.events == A3.events;
    assert t.calls == A3.calls;
    assert t.pending == A3.pending;
  }

  lemma SpawnsFirst(cfg: Config)
    ensures Goes(cfg, A3, OnCall(Call(0, 0, false), Spawned(true)), A4)
  {
    var t := Apply(cfg, A3, OnCall(Call(0, 0, false), Spawned(true)));
    assert t.reqs == A4.reqs;
    assert t.events == A4.events;
  }

  lemma DefersFirst(cfg: Config)
    ensures Goes(cfg, A4, OnStart(1, Defer), A5)
  {
    var t := Apply(cfg, A4, OnStart(1, Defer));
    assert t.reqs == A5.reqs;
    assert t.events == A5.events;
  }

  lemma TimeoutReplaces(cfg: Config, s: State, c: ReqId)
    requires Wf(s) && Enabled(s, OnTimeout(c)) && Lookup(s, c) && IsAwaited(s.reqs[c]) && !s.reqs[c].status.Completed?
    requires RetryApplies(cfg, s, c)
    ensures var q := s.reqs[c];
      var s1 := Put(Without(s, Timeout(c)), c, SyncJoinAlways.TimedOut(q, false));
      Apply(cfg, s, OnTimeout(c)) == Schedule(s1, Retry(q.parent.value, q.call, false, q.attempt + 1))
  {
    hide Notify, Join, Isolate, TimeOutSync, TimeOutAsync, Put, Schedule, SyncJoinAlways.TimedOut;
    SyncJoinAlways.TimeOutSyncUnfolds(cfg, Without(s, Timeout(c)), c);
  }

  lemma A5Ready()
    ensures Wf(A5) && Enabled(A5, OnTimeout(1)) && Lookup(A5, 1) && RetryApplies(ONE_RETRY, A5, 1)
  {
  }

  lemma TimesOut()
    ensures Goes(ONE_RETRY, A5, OnTimeout(1), A6)
  {
    hide Apply, Enabled, Wf;
    A5Ready();
    TimeoutReplaces(ONE_RETRY, A5, 1);
    var t := Apply(ONE_RETRY, A5, OnTimeout(1));
    assert t.reqs == A6.reqs;
    assert t.events == A6.events;
  }

  lemma FailsLateUnfolds()
    ensures Wf(A6) && Enabled(A6, OnStart(1, StartFailure))
    ensures !Sound(ONE_RETRY, A6, OnStart(1, StartFailure))
    ensures Apply(ONE_RETRY, A6, OnStart(1, StartFailure)) ==
      Replaced(Without(A6, Start(1)), 1, GIVEN_UP.(status := Failed))
  {
    hide Apply;
    SecondReplacement(ONE_RETRY, A6, 1, StartFailure);
  }

  lemma FailsLate()
    ensures Goes(ONE_RETRY, A6, OnStart(1, StartFailure), A7)
  {
    FailsLateUnfolds();
    hide Apply;
    var t := Apply(ONE_RETRY, A6, OnStart(1, StartFailure));
    assert t.reqs == A7.reqs;
    assert t.events == A7.events;
  }

  /** An attempt for the first call that fails at once, as an external dependency may. */
  lemma FailsAtOnce(cfg: Config, s: State, attempt: nat)
    requires Wf(s) && 0 in s.reqs && 0 in s.pending && s.pending[0] > 0 && 0 !in s.gone
    ensures var q := NewRequest(Some(0), 0, false, attempt, Failed);
      Spawn(cfg, s, 0, 0, false, attempt, DependencyFailure(false)) ==
        Join(Entered(s, Reported(Finished(q, Failed))), FIRST, true, false)
  {
    hide Join, Isolate;
    var q := NewRequest(Some(0), 0, false, attempt, Failed);
    NotifyUnfolds(Entered(s, q), s.nextId, Finished(q, Failed), true);
    assert Put(Entered(s, q), s.nextId, Reported(Finished(q, Failed))) == Entered(s, Reported(Finished(q, Failed)));
  }

  lemma Decrements(s: State)
    requires Wf(s) && 0 in s.reqs && 0 in s.pending && s.pending[0] > 0 && 0 !in s.gone
    requires s.reqs[0] == ROOT || s.reqs[0] == ROOT.(subtreeFailed := true)
    ensures var t := Join(s, FIRST, true, false);
      && t.calls == s.calls[FIRST := Broken] && t.events == s.events && t.gone == s.gone && t.nextId == s.nextId
      && (s.pending[0] > 1 ==> t.pending == s.pending[0 := s.pending[0] - 1] && t.reqs == s.reqs[0 := ROOT.(subtreeFailed := true)])
      && (s.pending[0] == 1 ==> t.pending == s.pending - {0} && t.reqs == s.reqs[0 := Finished(ROOT.(subtreeFailed := true), Failed)])
  {
    hide Notify, Join;
    JoinUnfolds(s, FIRST, true, false);
    var s' := Closed(s, FIRST, true);
    NotifyUnfolds(s', 0, Finished(s'.reqs[0], Failed), true);
  }

  /** What both runs end in: the parent is finalised although its second call is open. */
  ghost predicate FinalisedTooEarly(t: State) {
    0 in t.reqs && t.reqs[0].finalized && SECOND in t.calls && t.calls[SECOND] == Open
  }

  const AGAIN := OnRetry(RETRY, false, DependencyFailure(false))

  lemma ReplacementFails(s: State, n: nat)
    requires Wf(s) && 0 in s.reqs && s.pending == map[0 := n] && n > 0 && s.gone == {} && s.calls.Keys == {FIRST, SECOND}
    requires s.reqs[0] == ROOT || s.reqs[0] == ROOT.(subtreeFailed := true)
    requires s.calls[SECOND] == Open && RETRY in s.events
    ensures Enabled(s, AGAIN)
    ensures var t := Apply(ONE_RETRY, s, AGAIN);
      && t.events == s.events - multiset{RETRY} && t.gone == {} && t.calls.Keys == {FIRST, SECOND} && t.calls[SECOND] == Open
      && (n > 1 ==> t.pending == map[0 := n - 1] && 0 in t.reqs && t.reqs[0] == ROOT.(subtreeFailed := true))
      && (n == 1 ==> FinalisedTooEarly(t))
  {
    hide Join, Spawn;
    var s0 := Without(s, RETRY);
    FailsAtOnce(ONE_RETRY, s0, 1);
    Decrements(Entered(s0, Reported(Finished(NewRequest(Some(0), 0, false, 1, Failed), Failed))));
  }

  lemma BothReplacementsFail() returns (a8: State, a9: State)
    ensures Goes(ONE_RETRY, A7, AGAIN, a8) && Goes(ONE_RETRY, a8, AGAIN, a9) && FinalisedTooEarly(a9)
  {
    hide Apply, Enabled;
    ReplacementFails(A7, 2);
    a8 := Apply(ONE_RETRY, A7, AGAIN);
    ReplacementFails(a8, 1);
    a9 := Apply(ONE_RETRY, a8, AGAIN);
  }

  /** A run of nine steps in which an attempt that timed out, and was given up, fails its
      deferred start afterwards: one logical call is replaced twice and counted twice. */
  lemma SecondReplacementRun() returns (states: seq<State>, steps: seq<Step>)
    ensures IsRun(ONE_RETRY, states, steps)
    ensures FinalisedTooEarly(states[|states| - 1])
    ensures |steps| == 9 && steps[6] == OnStart(1, StartFailure)
    ensures forall i :: 0 <= i < 9 ==> (Sound(ONE_RETRY, states[i], steps[i]) <==> i != 6)
  {
    hide Apply, Goes, Enabled, Wf, Sound, IsRun, FinalisedTooEarly;
    var a8, a9 := BothReplacementsFail();
    steps := [Arrive(true), OnStart(0, Begin(false, false)), OnComplete(0, Calls([], [false, false])),
      OnCall(Call(0, 0, false), Spawned(true)), OnStart(1, Defer), OnTimeout(1), OnStart(1, StartFailure), AGAIN, AGAIN];
    states := [EMPTY, S1, S2, A3, A4, A5, A6, A7, a8, a9];
    Arrives(ONE_RETRY); Begins(ONE_RETRY); FansOutTwo(ONE_RETRY); SpawnsFirst(ONE_RETRY); DefersFirst(ONE_RETRY);
    TimesOut(); FailsLate(); FailsLateUnfolds();
    RunOf(ONE_RETRY, states, steps);
    forall i | 0 <= i < 9 && i != 6 ensures Sound(ONE_RETRY, states[i], steps[i]) { Harmless(ONE_RETRY, states[i], steps[i]); }
  }

  lemma Harmless(cfg: Config, s: State, step: Step)
    requires !(step.OnStart? && IsFailure(step.start)) && !step.OnOverheadStart?
    ensures Sound(cfg, s, step)
  {
  }

  lemma Going(cfg: Config, s: State, step: Step)
    requires Wf(s) && Enabled(s, step)
    ensures Goes(cfg, s, step, Apply(cfg, s, step))
  {
  }

  lemma RunOf(cfg: Config, states: seq<State>, steps: seq<Step>)
    requires |states| == |steps| + 1 && states[0] == EMPTY
    requires forall i :: 0 <= i < |steps| ==> Goes(cfg, states[i], steps[i], states[i + 1])
    ensures IsRun(cfg, states, steps)
  {
    forall i | 0 <= i < |steps|
      ensures Wf(states[i]) && Enabled(states[i], steps[i]) && states[i + 1] == Apply(cfg, states[i], steps[i])
    {
      assert Goes(cfg, states[i], steps[i], states[i + 1]);
    }
  }

  // --- A failed caller overhead ---------------------------------------------------

  const BEGIN := OverheadStart(0, 0, false, 0, false)
  const END := OverheadEnd(0, 0, false, 0, false)
  const B3 := State(map[0 := ROOT], map[0 := 2], Calls2(Open), multiset{BEGIN, END, CALL2}, {}, 1)
  const B4 := State(map[0 := ROOT.(subtreeFailed := true)], map[0 := 1], Calls2(Broken), multiset{END, CALL2}, {}, 1)
  const B5 := B4.(events := multiset{Call(0, 0, false), CALL2})

  lemma FansOutWithOverhead(cfg: Config)
    ensures Goes(cfg, S2, OnComplete(0, Calls([], [true, false])), B3)
  {
    TwoCalls(true);
    hide FanOut, OpenedCalls, FinalizeFailure, FinalizeCompletion;
    var t := Apply(cfg, S2, OnComplete(0, Calls([], [true, false])));
    assert t.events == B3.events;
    assert t.calls == B3.calls;
    assert t.pending == B3.pending;
  }

  lemma OverheadCloses(cfg: Config, s: State, e: Event)
    requires Wf(s) && Enabled(s, OnOverheadStart(e, false)) && !e.async && !CanRetry(cfg, e.attempt)
    requires e.parent in s.pending && s.pending[e.parent] > 1 && e.parent !in s.gone
    ensures Apply(cfg, s, OnOverheadStart(e, false)) == Closed(Without(s, e), CallKey(e.parent, e.call), true)
  {
    hide Join;
    JoinUnfolds(Without(s, e), CallKey(e.parent, e.call), true, true);
  }

  lemma B3Ready()
    ensures Wf(B3) && Enabled(B3, OnOverheadStart(BEGIN, false))
  {
  }

  lemma OverheadFailsCall()
    ensures Wf(B3) && Enabled(B3, OnOverheadStart(BEGIN, false))
    ensures Apply(NO_RETRY, B3, OnOverheadStart(BEGIN, false)).calls == B4.calls
    ensures Apply(NO_RETRY, B3, OnOverheadStart(BEGIN, false)).events == B4.events
  {
    hide Apply, Enabled, Wf;
    B3Ready();
    OverheadCloses(NO_RETRY, B3, BEGIN);
  }

  lemma OverheadFails()
    ensures Goes(NO_RETRY, B3, OnOverheadStart(BEGIN, false), B4)
  {
    hide Apply, Enabled, Wf;
    B3Ready();
    OverheadFailsCall();
    OverheadCloses(NO_RETRY, B3, BEGIN);
    var t := Apply(NO_RETRY, B3, OnOverheadStart(BEGIN, false));
    assert t.reqs == B4.reqs;
    assert t.pending == B4.pending;
  }

  lemma OverheadEnds()
    ensures Goes(NO_RETRY, B4, OnOverheadEnd(END, SpawnError), B5)
  {
    var t := Apply(NO_RETRY, B4, OnOverheadEnd(END, SpawnError));
    assert t.events == B5.events;
  }

  lemma CallFails()
    ensures Wf(B5) && Enabled(B5, OnCall(Call(0, 0, false), DependencyFailure(false)))
    ensures FinalisedTooEarly(Apply(NO_RETRY, B5, OnCall(Call(0, 0, false), DependencyFailure(false))))
  {
    hide Join, Spawn;
    var s0 := Without(B5, Call(0, 0, false));
    FailsAtOnce(NO_RETRY, s0, 0);
    Decrements(Entered(s0, Reported(Finished(NewRequest(Some(0), 0, false, 0, Failed), Failed))));
  }

  /** A run of six steps in which the caller overhead of a call fails: the call is counted
      as failed, and is made all the same. */
  lemma FailedOverheadRun() returns (states: seq<State>, steps: seq<Step>)
    ensures IsRun(NO_RETRY, states, steps)
    ensures FinalisedTooEarly(states[|states| - 1])
    ensures |steps| == 6 && steps[3] == OnOverheadStart(BEGIN, false)
    ensures forall i :: 0 <= i < 6 ==> (Sound(NO_RETRY, states[i], steps[i]) <==> i != 3)
  {
    hide Apply, Goes, Enabled, IsRun, FinalisedTooEarly;
    CallFails();
    var last := OnCall(Call(0, 0, false), DependencyFailure(false));
    steps := [Arrive(true), OnStart(0, Begin(false, false)), OnComplete(0, Calls([], [true, false])),
      OnOverheadStart(BEGIN, false), OnOverheadEnd(END, SpawnError), last];
    states := [EMPTY, S1, S2, B3, B4, B5, Apply(NO_RETRY, B5, last)];
    Arrives(NO_RETRY); Begins(NO_RETRY); FansOutWithOverhead(NO_RETRY); OverheadFails(); OverheadEnds();
    Going(NO_RETRY, B5, last);
    RunOf(NO_RETRY, states, steps);
  }
}
