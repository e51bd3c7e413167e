/**
  The synchronous fan-out join of the request handlers, as pure state transformers.

  A request that completes with synchronous downstream calls waits in `pending`
  (the source's `pendingSync` map).  Each logical call may be carried by several
  physical attempts.  The flags `resolved` (`caller_sync_resolved`) and
  `finalized` (`des_finalized`) are the ones the handlers test.

  `calls`, `Request.reports` and `Request.finals` are history: no handler reads
  them.  They record, per logical call, how it was resolved, and, per request,
  how often it decremented its parent and how often it was finalised.
*/
module SyncJoin {
  import opened Wrappers

  type ReqId = nat

  datatype Status = Pending | Processing | Completed | Failed

  /** Metadata that no join decision of a parent depends on. */
  datatype Marks = Marks(
    deferred: bool,         // CPU-deferred start pending
    waitTimedOut: bool,     // sync_wait_timed_out
    abandoned: bool,        // async_attempt_abandoned
    asyncTimedOut: bool,    // async_operation_timed_out
    localTimeout: bool,
    cacheHit: bool)

  const NO_MARKS := Marks(false, false, false, false, false, false)

  datatype Request = Request(
    parent: Option<ReqId>,
    call: nat,              // position of the logical call in the parent's fan-out
    async: bool,
    attempt: nat,
    status: Status,
    finalized: bool,
    resolved: bool,
    subtreeFailed: bool,
    marks: Marks,
    reports: nat,
    finals: nat)

  /** One logical synchronous call: the caller and the call's position in its fan-out. */
  datatype CallKey = CallKey(parent: ReqId, index: nat)

  datatype Outcome = Open | Succeeded | Broken

  datatype Event =
    | Start(req: ReqId)
    | Complete(req: ReqId)
    | Call(parent: ReqId, call: nat, async: bool)
    | Retry(parent: ReqId, call: nat, async: bool, attempt: nat)
    | OverheadStart(parent: ReqId, call: nat, async: bool, attempt: nat, fromRetry: bool)
    | OverheadEnd(parent: ReqId, call: nat, async: bool, attempt: nat, fromRetry: bool)
    | Timeout(req: ReqId)

  datatype State = State(
    reqs: map<ReqId, Request>,
    pending: map<ReqId, int>,
    calls: map<CallKey, Outcome>,
    events: multiset<Event>,
    gone: set<ReqId>,       // finalised requests the run manager no longer retains
    nextId: ReqId)

  datatype Config = Config(retryEnabled: bool, maxRetries: int)

  const EMPTY := State(map[], map[], map[], multiset{}, {}, 0)

  /** Ids are handed out in creation order, so a parent is older than its children. */
  ghost predicate Wf(s: State) {
    forall r :: r in s.reqs ==>
      && r < s.nextId
      && (s.reqs[r].parent.Some? ==> s.reqs[r].parent.value < r && s.reqs[r].parent.value in s.reqs)
  }

  predicate Lookup(s: State, r: ReqId) {
    r in s.reqs && r !in s.gone
  }

  function KeyOf(q: Request): CallKey
    requires q.parent.Some?
  {
    CallKey(q.parent.value, q.call)
  }

  /** Replaces the record of a request; its parent never changes. */
  function Put(s: State, r: ReqId, q: Request): (t: State)
    requires Wf(s) && r in s.reqs && q.parent == s.reqs[r].parent
    ensures Wf(t)
  {
    s.(reqs := s.reqs[r := q])
  }

  function Schedule(s: State, e: Event): (t: State)
    requires Wf(s)
    ensures Wf(t)
  {
    s.(events := s.events + multiset{e})
  }

  function Reported(q: Request): Request {
    q.(resolved := true, reports := q.reports + 1)
  }

  function Finished(q: Request, status: Status): Request {
    q.(finalized := true, status := status, finals := q.finals + 1)
  }

  // --- Resolution and finalisation ------------------------------------------------

  /** notifyParentSyncChildResolved: at most one report per child, then the join. */
  function Notify(s: State, c: ReqId, failed: bool): (t: State)
    requires Wf(s) && c in s.reqs
    ensures Wf(t) && t.reqs.Keys == s.reqs.Keys && t.events == s.events && t.gone == s.gone && t.nextId == s.nextId
    decreases c, 0
  {
    var q := s.reqs[c];
    if q.parent.None? || q.async || q.resolved then s
    else
      var p := q.parent.value;
      if p !in s.pending || s.pending[p] <= 0 then
        Put(s, c, q.(resolved := true))
      else
        Join(Put(s, c, Reported(q)), KeyOf(q), failed, false)
  }

  /** The counter update shared by the three resolution paths.  `held` says that the
      caller has the parent object in hand and need not look it up. */
  function Join(s: State, key: CallKey, failed: bool, held: bool): (t: State)
    requires Wf(s) && key.parent in s.reqs && key.parent in s.pending && s.pending[key.parent] > 0
    ensures Wf(t) && t.reqs.Keys == s.reqs.Keys && t.events == s.events && t.gone == s.gone && t.nextId == s.nextId
    decreases key.parent, 2
  {
    var p := key.parent;
    var n := s.pending[p] - 1;
    var found := held || Lookup(s, p);
    var s0 := if failed && found then Put(s, p, s.reqs[p].(subtreeFailed := true)) else s;
    var s1 := s0.(calls := s0.calls[key := if failed then Broken else Succeeded]);
    if n > 0 then s1.(pending := s1.pending[p := n])
    else
      var s2 := s1.(pending := s1.pending - {p});
      if !found then s2
      else if s2.reqs[p].subtreeFailed then FinalizeFailure(s2, p)
      else FinalizeCompletion(s2, p)
  }

  /** finalizeRequestFailure. */
  function FinalizeFailure(s: State, r: ReqId): (t: State)
    requires Wf(s) && r in s.reqs
    ensures Wf(t) && t.reqs.Keys == s.reqs.Keys && t.events == s.events && t.gone == s.gone && t.nextId == s.nextId
    decreases r, 1
  {
    var q := s.reqs[r];
    if q.finalized then s
    else Notify(Put(s, r, Finished(q, Failed)), r, true)
  }

  /** finalizeRequestCompletion. */
  function FinalizeCompletion(s: State, r: ReqId): (t: State)
    requires Wf(s) && r in s.reqs
    ensures Wf(t) && t.reqs.Keys == s.reqs.Keys && t.events == s.events && t.gone == s.gone && t.nextId == s.nextId
    decreases r, 1
  {
    var q := s.reqs[r];
    if q.finalized then s
    else if q.marks.abandoned then
      Put(s, r, Finished(q, Completed))
    else if q.status.Failed? then
      Put(s, r, Finished(q, q.status))
    else
      var s1 := Put(s, r, Finished(q, Completed));
      if q.marks.asyncTimedOut && q.async then s1 else Notify(s1, r, false)
  }

  // --- Retries --------------------------------------------------------------------

  /** retryPolicy.ShouldRetry, for a policy that getRetryPolicy returns. */
  predicate CanRetry(cfg: Config, attempt: nat) {
    cfg.retryEnabled && attempt < cfg.maxRetries
  }

  /** The tests that maybeRetrySyncStartFailure and maybeRetrySyncTimeout make. */
  predicate RetryApplies(cfg: Config, s: State, c: ReqId)
    requires c in s.reqs
  {
    var q := s.reqs[c];
    CanRetry(cfg, q.attempt) && q.parent.Some? && !q.async && Lookup(s, q.parent.value)
  }

  /** isolateFailedSyncAttempt followed by scheduleDownstreamRetryEvent. */
  function Isolate(s: State, c: ReqId): (t: State)
    requires Wf(s) && c in s.reqs && s.reqs[c].parent.Some?
    ensures Wf(t)
  {
    var q := s.reqs[c];
    Schedule(Put(s, c, q.(resolved := true)), Retry(q.parent.value, q.call, false, q.attempt + 1))
  }

  // --- Event handlers -------------------------------------------------------------

  datatype StartOutcome =
    | HandlerError          // unknown endpoint or service: the handler returns an error
    | LocalFailure          // failure roll: finalised as failed
    | StartFailure          // CPU reservation, memory or CPU allocation failed
    | Defer                 // CPU busy: the start is rescheduled
    | BeginError(cacheHit: bool)  // begun, but the database reservation failed: the handler returns an error
    | Begin(localTimeout: bool, cacheHit: bool)

  predicate IsFailure(o: StartOutcome) { o.LocalFailure? || o.StartFailure? }

  /** A start that fails: retry when the policy allows it, else report to the parent. */
  function FailStart(cfg: Config, s: State, r: ReqId, finalize: bool): (t: State)
    requires Wf(s) && r in s.reqs
    ensures Wf(t)
  {
    var s1 := Put(s, r, s.reqs[r].(status := Failed));
    if RetryApplies(cfg, s1, r) then Isolate(s1, r)
    else if finalize then FinalizeFailure(s1, r)
    else Notify(s1, r, true)
  }

  function Begun(q: Request, localTimeout: bool, cacheHit: bool): Request {
    q.(status := Processing, marks := q.marks.(deferred := false, localTimeout := localTimeout, cacheHit := cacheHit))
  }

  /** handleRequestStart after its event was taken from the queue. */
  function HandleStart(cfg: Config, s: State, r: ReqId, o: StartOutcome): (t: State)
    requires Wf(s) && r in s.reqs
    ensures Wf(t)
  {
    var q := s.reqs[r];
    match o
    case HandlerError => s
    case BeginError(hit) => Put(s, r, Begun(q, false, hit))
    case Defer =>
      Schedule(Put(s, r, q.(marks := q.marks.(deferred := true))), Start(r))
    case Begin(lt, hit) =>
      Schedule(Put(s, r, Begun(q, lt, hit)), Complete(r))
    case LocalFailure => FailStart(cfg, s, r, true)
    case StartFailure => FailStart(cfg, s, r, false)
  }

  /** One edge of a fan-out: direct, or behind reserved caller CPU (overhead start and end). */
  function EdgeEvents(p: ReqId, k: nat, async: bool, attempt: nat, fromRetry: bool, overhead: bool): multiset<Event> {
    if overhead then
      multiset{OverheadStart(p, k, async, attempt, fromRetry), OverheadEnd(p, k, async, attempt, fromRetry)}
    else multiset{Call(p, k, async)}
  }

  /** The edges of the first |overheads| calls of one mode, scheduled in order. */
  function FanOut(p: ReqId, async: bool, overheads: seq<bool>): (m: multiset<Event>) {
    if overheads == [] then multiset{}
    else
      var k := |overheads| - 1;
      FanOut(p, async, overheads[..k]) + EdgeEvents(p, k, async, 0, false, overheads[k])
  }

  function OpenedCalls(p: ReqId, n: nat): (m: map<CallKey, Outcome>)
    ensures forall key :: key in m <==> key.parent == p && key.index < n
    ensures forall key :: key in m ==> m[key] == Open
  {
    if n == 0 then map[] else OpenedCalls(p, n - 1)[CallKey(p, n - 1) := Open]
  }

  datatype CompleteOutcome =
    | NoCallList            // GetDownstreamCalls failed: the handler returns an error
    | Calls(asyncOverheads: seq<bool>, syncOverheads: seq<bool>)

  /** handleRequestComplete after its event was taken from the queue. */
  function HandleComplete(s: State, r: ReqId, o: CompleteOutcome): (t: State)
    requires Wf(s) && r in s.reqs
    ensures Wf(t)
  {
    if s.reqs[r].marks.localTimeout then FinalizeFailure(s, r)
    else if s.reqs[r].marks.cacheHit then FinalizeCompletion(s, r)
    else if o.NoCallList? then s
    else
      var s1 := s.(events := s.events + FanOut(r, true, o.asyncOverheads));
      if o.syncOverheads == [] then FinalizeCompletion(s1, r)
      else
        s1.(pending := s1.pending[r := |o.syncOverheads|],
            calls := s1.calls + OpenedCalls(r, |o.syncOverheads|),
            events := s1.events + FanOut(r, false, o.syncOverheads))
  }

  datatype SpawnOutcome =
    | SpawnError            // no such service, or no routable instance: nothing is created
    | DependencyFailure(retryable: bool)
    | Spawned(timeout: bool)

  function NewRequest(parent: Option<ReqId>, k: nat, async: bool, attempt: nat, status: Status): Request {
    Request(parent, k, async, attempt, status, false, false, false, NO_MARKS, 0, 0)
  }

  /** execDownstreamSpawn. */
  function Spawn(cfg: Config, s: State, p: ReqId, k: nat, async: bool, attempt: nat, o: SpawnOutcome): (t: State)
    requires Wf(s) && p in s.reqs
    ensures Wf(t)
  {
    var c := s.nextId;
    match o
    case SpawnError => s
    case DependencyFailure(retryable) =>
      var s1 := s.(reqs := s.reqs[c := NewRequest(Some(p), k, async, attempt, Failed)], nextId := c + 1);
      if retryable && RetryApplies(cfg, s1, c) then Isolate(s1, c) else FinalizeFailure(s1, c)
    case Spawned(timeout) =>
      s.(reqs := s.reqs[c := NewRequest(Some(p), k, async, attempt, Pending)], nextId := c + 1,
         events := s.events + multiset{Start(c)} + if timeout then multiset{Timeout(c)} else multiset{})
  }

  /** handleDownstreamRetry: reserve caller CPU again, or spawn at once. */
  function HandleRetry(cfg: Config, s: State, e: Event, overhead: bool, o: SpawnOutcome): (t: State)
    requires Wf(s) && e.Retry? && e.parent in s.reqs
    ensures Wf(t)
  {
    if overhead then s.(events := s.events + EdgeEvents(e.parent, e.call, e.async, e.attempt, true, true))
    else Spawn(cfg, s, e.parent, e.call, e.async, e.attempt, o)
  }

  /** handleDownstreamCallerOverheadStart: a failed CPU allocation retries or fails the call
      and leaves the matching end event in the queue. */
  function HandleOverheadStart(cfg: Config, s: State, e: Event, ok: bool): (t: State)
    requires Wf(s) && e.OverheadStart? && e.parent in s.reqs
    ensures Wf(t)
  {
    if ok then s
    else if !e.async && CanRetry(cfg, e.attempt) then
      Schedule(s, Retry(e.parent, e.call, false, e.attempt + 1))
    else if e.async || e.parent !in s.pending || s.pending[e.parent] <= 0 then s
    else Join(s, CallKey(e.parent, e.call), true, true)
  }

  /** handleDownstreamCallerOverheadEnd. */
  function HandleOverheadEnd(cfg: Config, s: State, e: Event, o: SpawnOutcome): (t: State)
    requires Wf(s) && e.OverheadEnd? && e.parent in s.reqs
    ensures Wf(t)
  {
    if e.fromRetry then Spawn(cfg, s, e.parent, e.call, e.async, e.attempt, o)
    else Schedule(s, Call(e.parent, e.call, e.async))
  }

  /** The asynchronous branch of handleDownstreamTimeout: no parent waits. */
  function TimeOutAsync(cfg: Config, s: State, c: ReqId): (t: State)
    requires Wf(s) && c in s.reqs && s.reqs[c].parent.Some?
    ensures Wf(t)
  {
    var q := s.reqs[c];
    if q.status.Completed? || q.status.Failed? || q.marks.asyncTimedOut then s
    else if CanRetry(cfg, q.attempt) && Lookup(s, q.parent.value) then
      Schedule(Put(s, c, q.(marks := q.marks.(abandoned := true))), Retry(q.parent.value, q.call, true, q.attempt + 1))
    else Put(s, c, q.(marks := q.marks.(asyncTimedOut := true)))
  }

  /** The synchronous branch: give up on this attempt and retry, or fail the call. */
  function TimeOutSync(cfg: Config, s: State, c: ReqId): (t: State)
    requires Wf(s) && c in s.reqs && s.reqs[c].parent.Some?
    ensures Wf(t)
  {
    var q := s.reqs[c];
    if q.status.Completed? then s
    else
      var s1 := Put(s, c, q.(marks := q.marks.(waitTimedOut := true)));
      if RetryApplies(cfg, s1, c) then Isolate(s1, c) else Notify(s1, c, true)
  }

  /** handleDownstreamTimeout. */
  function HandleTimeout(cfg: Config, s: State, c: ReqId): (t: State)
    requires Wf(s) && c in s.reqs && s.reqs[c].parent.Some?
    ensures Wf(t)
  {
    var q := s.reqs[c];
    if !Lookup(s, c) || q.resolved then s
    else if q.async then TimeOutAsync(cfg, s, c)
    else TimeOutSync(cfg, s, c)
  }

  // --- Runs -----------------------------------------------------------------------

  datatype Step =
    | Arrive(accepted: bool)
    | OnStart(req: ReqId, start: StartOutcome)
    | OnComplete(req: ReqId, complete: CompleteOutcome)
    | OnCall(event: Event, spawn: SpawnOutcome)
    | OnRetry(event: Event, overhead: bool, spawn: SpawnOutcome)
    | OnOverheadStart(event: Event, ok: bool)
    | OnOverheadEnd(event: Event, spawn: SpawnOutcome)
    | OnTimeout(req: ReqId)
    | Forget(req: ReqId)

  /** The event a step takes from the queue. */
  function Taken(step: Step): multiset<Event> {
    match step
    case Arrive(_) => multiset{}
    case OnStart(r, _) => multiset{Start(r)}
    case OnComplete(r, _) => multiset{Complete(r)}
    case OnCall(e, _) => multiset{e}
    case OnRetry(e, _, _) => multiset{e}
    case OnOverheadStart(e, _) => multiset{e}
    case OnOverheadEnd(e, _) => multiset{e}
    case OnTimeout(r) => multiset{Timeout(r)}
    case Forget(_) => multiset{}
  }

  function StartOf(e: Event): Event
    requires e.OverheadEnd?
  {
    OverheadStart(e.parent, e.call, e.async, e.attempt, e.fromRetry)
  }

  /** Any queued event may be next, in any order, except that a caller-overhead end
      comes after its start.  A start is deferred at most once. */
  ghost predicate Enabled(s: State, step: Step) {
    && Taken(step) <= s.events
    && match step
       case Arrive(_) => true
       case OnStart(r, o) => r in s.reqs && (o.Defer? ==> !s.reqs[r].marks.deferred)
       case OnComplete(r, o) => r in s.reqs
       case OnCall(e, _) => e.Call? && e.parent in s.reqs
       case OnRetry(e, _, _) => e.Retry? && e.parent in s.reqs
       case OnOverheadStart(e, _) => e.OverheadStart? && e.parent in s.reqs
       case OnOverheadEnd(e, _) => e.OverheadEnd? && e.parent in s.reqs && s.events[StartOf(e)] < s.events[e]
       case OnTimeout(r) => r in s.reqs && s.reqs[r].parent.Some?
       case Forget(r) => r in s.reqs && s.reqs[r].finalized
  }

  function Apply(cfg: Config, s: State, step: Step): (t: State)
    requires Wf(s) && Enabled(s, step)
    ensures Wf(t)
  {
    var s0 := s.(events := s.events - Taken(step));
    match step
    case Arrive(accepted) =>
      s0.(reqs := s0.reqs[s0.nextId := NewRequest(None, 0, false, 0, if accepted then Pending else Failed)],
          nextId := s0.nextId + 1,
          events := s0.events + if accepted then multiset{Start(s0.nextId)} else multiset{})
    case OnStart(r, o) => HandleStart(cfg, s0, r, o)
    case OnComplete(r, o) => HandleComplete(s0, r, o)
    case OnCall(e, o) => Spawn(cfg, s0, e.parent, e.call, e.async, 0, o)
    case OnRetry(e, overhead, o) => HandleRetry(cfg, s0, e, overhead, o)
    case OnOverheadStart(e, ok) => HandleOverheadStart(cfg, s0, e, ok)
    case OnOverheadEnd(e, o) => HandleOverheadEnd(cfg, s0, e, o)
    case OnTimeout(r) => HandleTimeout(cfg, s0, r)
    case Forget(r) => s0.(gone := s0.gone + {r})
  }

  /** The states a sequence of steps goes through, from the empty simulation. */
  ghost predicate IsRun(cfg: Config, states: seq<State>, steps: seq<Step>) {
    && |states| == |steps| + 1
    && states[0] == EMPTY
    && forall i :: 0 <= i < |steps| ==>
         Wf(states[i]) && Enabled(states[i], steps[i]) && states[i + 1] == Apply(cfg, states[i], steps[i])
  }
}
