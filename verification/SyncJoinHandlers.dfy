/**
  The handlers themselves: methods that update the request table, the pendingSync map
  and the event queue in place, with the early returns of the source.  Each one is
  proved to do what its transformer in SyncJoin says; `Dispatch` takes one event and
  calls its handler, and `Run` shows that whatever it executes is a run of the join.
*/
module SyncJoinHandlers {
  import opened Wrappers
  import opened SyncJoin

  lemma FanOutNone(p: ReqId, async: bool)
    ensures FanOut(p, async, []) == multiset{}
  {
  }

  lemma FanOutNext(p: ReqId, async: bool, overheads: seq<bool>, k: nat)
    requires k < |overheads|
    ensures FanOut(p, async, overheads[..k + 1]) ==
      FanOut(p, async, overheads[..k]) + EdgeEvents(p, k, async, 0, false, overheads[k])
  {
    assert overheads[..k + 1][..k] == overheads[..k];
  }

  class Simulation {
    const cfg: Config
    var reqs: map<ReqId, Request>
    var pendingSync: map<ReqId, int>
    var queue: multiset<Event>
    var gone: set<ReqId>
    var nextId: ReqId
    ghost var calls: map<CallKey, Outcome>

    ghost function View(): State
      reads this
    {
      State(reqs, pendingSync, calls, queue, gone, nextId)
    }

    ghost predicate Valid()
      reads this
    {
      Wf(View())
    }

    constructor (cfg: Config)
      ensures Valid() && View() == EMPTY && this.cfg == cfg
    {
      this.cfg := cfg;
      reqs, pendingSync, queue, gone, nextId := map[], map[], multiset{}, {}, 0;
      calls := map[];
    }

    method NotifyParentSyncChildResolved(c: ReqId, childFailed: bool)
      requires Valid() && c in reqs
      modifies this
      ensures Valid() && View() == Notify(old(View()), c, childFailed)
      decreases c, 0
    {
      var child := reqs[c];
      if child.parent.None? { return; }
      if child.async { return; }
      if child.resolved { return; }
      var parentId := child.parent.value;
      if parentId !in pendingSync || pendingSync[parentId] <= 0 {
        reqs := reqs[c := child.(resolved := true)];
        return;
      }
      reqs := reqs[c := Reported(child)];
      DecrementPendingSync(KeyOf(child), childFailed, false);
    }

    /** The update of the parent's counter that ends each of the three resolution paths. */
    method DecrementPendingSync(key: CallKey, childFailed: bool, held: bool)
      requires Valid() && key.parent in reqs && key.parent in pendingSync && pendingSync[key.parent] > 0
      modifies this
      ensures Valid() && View() == Join(old(View()), key, childFailed, held)
      decreases key.parent, 2
    {
      hide FinalizeFailure, FinalizeCompletion;
      var p := key.parent;
      var n := pendingSync[p] - 1;
      var found := held || p !in gone;
      if childFailed && found {
        reqs := reqs[p := reqs[p].(subtreeFailed := true)];
      }
      calls := calls[key := if childFailed then Broken else Succeeded];
      if n > 0 {
        pendingSync := pendingSync[p := n];
        return;
      }
      pendingSync := pendingSync - {p};
      if !found { return; }
      if reqs[p].subtreeFailed {
        FinalizeRequestFailure(p);
        return;
      }
      FinalizeRequestCompletion(p);
    }

    method FinalizeRequestFailure(r: ReqId)
      requires Valid() && r in reqs
      modifies this
      ensures Valid() && View() == FinalizeFailure(old(View()), r)
      decreases r, 1
    {
      if reqs[r].finalized { return; }
      reqs := reqs[r := Finished(reqs[r], Failed)];
      NotifyParentSyncChildResolved(r, true);
    }

    method FinalizeRequestCompletion(r: ReqId)
      requires Valid() && r in reqs
      modifies this
      ensures Valid() && View() == FinalizeCompletion(old(View()), r)
      decreases r, 1
    {
      var request := reqs[r];
      if request.finalized { return; }
      if request.marks.abandoned {
        reqs := reqs[r := Finished(request, Completed)];
        return;
      }
      if request.status.Failed? {
        reqs := reqs[r := Finished(request, request.status)];
        return;
      }
      reqs := reqs[r := Finished(request, Completed)];
      if request.marks.asyncTimedOut && request.async { return; }
      NotifyParentSyncChildResolved(r, false);
    }

    /** isolateFailedSyncAttempt and scheduleDownstreamRetryEvent. */
    method IsolateAndRetry(c: ReqId)
      requires Valid() && c in reqs && reqs[c].parent.Some?
      modifies this
      ensures Valid() && View() == Isolate(old(View()), c)
    {
      var child := reqs[c];
      reqs := reqs[c := child.(resolved := true)];
      queue := queue + multiset{Retry(child.parent.value, child.call, false, child.attempt + 1)};
    }

    method MaybeRetrySyncStartFailure(c: ReqId) returns (retried: bool)
      requires Valid() && c in reqs
      modifies this
      ensures Valid() && retried == RetryApplies(cfg, old(View()), c)
      ensures View() == if retried then Isolate(old(View()), c) else old(View())
    {
      var child := reqs[c];
      if !cfg.retryEnabled { return false; }
      if child.parent.None? || child.async { return false; }
      if child.attempt >= cfg.maxRetries { return false; }
      if !(child.parent.value in reqs && child.parent.value !in gone) { return false; }
      IsolateAndRetry(c);
      return true;
    }

    method FailRequestStart(r: ReqId, finalize: bool)
      requires Valid() && r in reqs
      modifies this
      ensures Valid() && View() == FailStart(cfg, old(View()), r, finalize)
    {
      reqs := reqs[r := reqs[r].(status := Failed)];
      var retried := MaybeRetrySyncStartFailure(r);
      if retried { return; }
      if finalize {
        FinalizeRequestFailure(r);
      } else {
        NotifyParentSyncChildResolved(r, true);
      }
    }

    method HandleRequestStart(r: ReqId, o: StartOutcome)
      requires Valid() && r in reqs
      modifies this
      ensures Valid() && View() == HandleStart(cfg, old(View()), r, o)
    {
      var q := reqs[r];
      match o
      case HandlerError => return;
      case BeginError(cacheHit) => reqs := reqs[r := Begun(q, false, cacheHit)];
      case LocalFailure => FailRequestStart(r, true);
      case StartFailure => FailRequestStart(r, false);
      case Defer =>
        reqs := reqs[r := q.(marks := q.marks.(deferred := true))];
        queue := queue + multiset{Start(r)};
      case Begin(localTimeout, cacheHit) =>
        reqs := reqs[r := Begun(q, localTimeout, cacheHit)];
        queue := queue + multiset{Complete(r)};
    }

    /** The loop over the calls of one mode: each is scheduled, behind caller CPU or directly. */
    method ScheduleDownstreamCalls(r: ReqId, async: bool, overheads: seq<bool>)
      requires Valid()
      modifies this`queue
      ensures View() == old(View()).(events := old(queue) + FanOut(r, async, overheads))
    {
      hide FanOut;
      FanOutNone(r, async);
      assert overheads[..0] == [];
      for k := 0 to |overheads|
        invariant queue == old(queue) + FanOut(r, async, overheads[..k])
      {
        FanOutNext(r, async, overheads, k);
        if overheads[k] {
          queue := queue + multiset{OverheadStart(r, k, async, 0, false)};
          queue := queue + multiset{OverheadEnd(r, k, async, 0, false)};
        } else {
          queue := queue + multiset{Call(r, k, async)};
        }
      }
      assert overheads[..|overheads|] == overheads;
    }

    method HandleRequestComplete(r: ReqId, o: CompleteOutcome)
      requires Valid() && r in reqs
      modifies this
      ensures Valid() && View() == HandleComplete(old(View()), r, o)
    {
      if reqs[r].marks.localTimeout {
        FinalizeRequestFailure(r);
        return;
      }
      if reqs[r].marks.cacheHit {
        FinalizeRequestCompletion(r);
        return;
      }
      if o.NoCallList? { return; }
      ScheduleDownstreamCalls(r, true, o.asyncOverheads);
      if |o.syncOverheads| == 0 {
        FinalizeRequestCompletion(r);
        return;
      }
      pendingSync := pendingSync[r := |o.syncOverheads|];
      calls := calls + OpenedCalls(r, |o.syncOverheads|);
      ScheduleDownstreamCalls(r, false, o.syncOverheads);
    }

    method ExecDownstreamSpawn(p: ReqId, k: nat, async: bool, attempt: nat, o: SpawnOutcome)
      requires Valid() && p in reqs
      modifies this
      ensures Valid() && View() == Spawn(cfg, old(View()), p, k, async, attempt, o)
    {
      hide Isolate, FinalizeFailure, RetryApplies;
      if o.SpawnError? { return; }
      var c := nextId;
      if o.DependencyFailure? {
        reqs, nextId := reqs[c := NewRequest(Some(p), k, async, attempt, Failed)], c + 1;
        if o.retryable {
          var retried := MaybeRetrySyncStartFailure(c);
          if retried { return; }
        }
        FinalizeRequestFailure(c);
        return;
      }
      reqs, nextId := reqs[c := NewRequest(Some(p), k, async, attempt, Pending)], c + 1;
      queue := queue + multiset{Start(c)};
      queue := queue + if o.timeout then multiset{Timeout(c)} else multiset{};
    }

    method HandleDownstreamTimeout(c: ReqId)
      requires Valid() && c in reqs && reqs[c].parent.Some?
      modifies this
      ensures Valid() && View() == HandleTimeout(cfg, old(View()), c)
    {
      if c in gone { return; }
      var child := reqs[c];
      if child.resolved { return; }
      if child.async {
        TimeOutAsyncCall(c);
        return;
      }
      if child.status.Completed? { return; }
      reqs := reqs[c := child.(marks := child.marks.(waitTimedOut := true))];
      var retried := MaybeRetrySyncStartFailure(c);
      if retried { return; }
      NotifyParentSyncChildResolved(c, true);
    }

    method TimeOutAsyncCall(c: ReqId)
      requires Valid() && c in reqs && reqs[c].parent.Some?
      modifies this
      ensures Valid() && View() == TimeOutAsync(cfg, old(View()), c)
    {
      var child := reqs[c];
      if child.status.Completed? || child.status.Failed? { return; }
      if child.marks.asyncTimedOut { return; }
      var p := child.parent.value;
      if CanRetry(cfg, child.attempt) && p !in gone {
        reqs := reqs[c := child.(marks := child.marks.(abandoned := true))];
        queue := queue + multiset{Retry(p, child.call, true, child.attempt + 1)};
        return;
      }
      reqs := reqs[c := child.(marks := child.marks.(asyncTimedOut := true))];
    }

    method HandleDownstreamCallerOverheadStart(e: Event, ok: bool)
      requires Valid() && e.OverheadStart? && e.parent in reqs
      modifies this
      ensures Valid() && View() == HandleOverheadStart(cfg, old(View()), e, ok)
    {
      if ok { return; }
      if !e.async && CanRetry(cfg, e.attempt) {
        queue := queue + multiset{Retry(e.parent, e.call, false, e.attempt + 1)};
        return;
      }
      if e.async { return; }
      if e.parent !in pendingSync || pendingSync[e.parent] <= 0 { return; }
      DecrementPendingSync(CallKey(e.parent, e.call), true, true);
    }

    method HandleDownstreamCallerOverheadEnd(e: Event, o: SpawnOutcome)
      requires Valid() && e.OverheadEnd? && e.parent in reqs
      modifies this
      ensures Valid() && View() == HandleOverheadEnd(cfg, old(View()), e, o)
    {
      hide Spawn;
      if e.fromRetry {
        ExecDownstreamSpawn(e.parent, e.call, e.async, e.attempt, o);
        return;
      }
      queue := queue + multiset{Call(e.parent, e.call, e.async)};
    }

    method HandleDownstreamRetry(e: Event, overhead: bool, o: SpawnOutcome)
      requires Valid() && e.Retry? && e.parent in reqs
      modifies this
      ensures Valid() && View() == HandleRetry(cfg, old(View()), e, overhead, o)
    {
      hide Spawn;
      if overhead {
        ghost var before := queue;
        queue := queue + multiset{OverheadStart(e.parent, e.call, e.async, e.attempt, true)};
        queue := queue + multiset{OverheadEnd(e.parent, e.call, e.async, e.attempt, true)};
        assert queue == before + EdgeEvents(e.parent, e.call, e.async, e.attempt, true, true);
        return;
      }
      ExecDownstreamSpawn(e.parent, e.call, e.async, e.attempt, o);
    }

    /** A request arrives from the workload; a rejected one is recorded as failed. */
    method HandleRequestArrival(accepted: bool)
      requires Valid()
      modifies this
      ensures Valid() && View() == Apply(cfg, old(View()), Arrive(accepted))
    {
      var r := nextId;
      reqs, nextId := reqs[r := NewRequest(None, 0, false, 0, if accepted then Pending else Failed)], r + 1;
      ghost var before := queue;
      if accepted { queue := queue + multiset{Start(r)}; }
      assert queue == before - multiset{} + if accepted then multiset{Start(r)} else multiset{};
    }

    /** The run manager no longer retains a finalised request. */
    method EvictRequest(r: ReqId)
      requires Valid() && r in reqs && reqs[r].finalized
      modifies this`gone
      ensures Valid() && View() == old(View()).(gone := old(gone) + {r})
    {
      gone := gone + {r};
    }

    /** May the step be next? */
    method CanTake(step: Step) returns (ok: bool)
      ensures ok <==> Enabled(View(), step)
    {
      if !(Taken(step) <= queue) { return false; }
      match step
      case Arrive(_) => ok := true;
      case OnStart(r, o) => ok := r in reqs && (o.Defer? ==> !reqs[r].marks.deferred);
      case OnComplete(r, _) => ok := r in reqs;
      case OnCall(e, _) => ok := e.Call? && e.parent in reqs;
      case OnRetry(e, _, _) => ok := e.Retry? && e.parent in reqs;
      case OnOverheadStart(e, _) => ok := e.OverheadStart? && e.parent in reqs;
      case OnOverheadEnd(e, _) => ok := e.OverheadEnd? && e.parent in reqs && queue[StartOf(e)] < queue[e];
      case OnTimeout(r) => ok := r in reqs && reqs[r].parent.Some?;
      case Forget(r) => ok := r in reqs && reqs[r].finalized;
    }

    /** Takes the event of the step from the queue and calls its handler. */
    method Dispatch(step: Step)
      requires Valid() && Enabled(View(), step)
      modifies this
      ensures Valid() && View() == Apply(cfg, old(View()), step)
    {
      hide HandleStart, HandleComplete, HandleTimeout, Spawn, HandleRetry, HandleOverheadStart, HandleOverheadEnd;
      if step.Arrive? {
        HandleRequestArrival(step.accepted);
        return;
      }
      queue := queue - Taken(step);
      match step {
        case OnStart(r, o) => HandleRequestStart(r, o);
        case OnComplete(r, o) => HandleRequestComplete(r, o);
        case OnCall(e, o) => ExecDownstreamSpawn(e.parent, e.call, e.async, 0, o);
        case OnRetry(e, overhead, o) => HandleDownstreamRetry(e, overhead, o);
        case OnOverheadStart(e, ok) => HandleDownstreamCallerOverheadStart(e, ok);
        case OnOverheadEnd(e, o) => HandleDownstreamCallerOverheadEnd(e, o);
        case OnTimeout(r) => HandleDownstreamTimeout(r);
        case Forget(r) => EvictRequest(r);
      }
    }

    /** Executes the steps one after the other until one is not possible. */
    method Run(steps: seq<Step>) returns (n: nat, ghost states: seq<State>)
      requires Valid() && View() == EMPTY
      modifies this
      ensures Valid() && n <= |steps| && IsRun(cfg, states, steps[..n]) && states[n] == View()
      ensures n < |steps| ==> !Enabled(View(), steps[n])
    {
      hide Apply, Enabled;
      n, states := 0, [View()];
      while n < |steps|
        invariant Valid() && n <= |steps| && IsRun(cfg, states, steps[..n]) && states[n] == View()
      {
        var ok := CanTake(steps[n]);
        if !ok { return; }
        Dispatch(steps[n]);
        RunContinues(cfg, states, steps, n);
        states := states + [View()];
        n := n + 1;
      }
    }
  }

  lemma RunContinues(cfg: Config, states: seq<State>, steps: seq<Step>, n: nat)
    requires n < |steps| && IsRun(cfg, states, steps[..n]) && Wf(states[n]) && Enabled(states[n], steps[n])
    ensures IsRun(cfg, states + [Apply(cfg, states[n], steps[n])], steps[..n + 1])
  {
    hide Apply, Enabled, Wf;
    var t := states + [Apply(cfg, states[n], steps[n])];
    forall i | 0 <= i < n + 1 ensures Wf(t[i]) && Enabled(t[i], steps[..n + 1][i]) && t[i + 1] == Apply(cfg, t[i], steps[..n + 1][i]) {
      if i < n {
        assert steps[..n + 1][i] == steps[..n][i];
      }
    }
  }
}
