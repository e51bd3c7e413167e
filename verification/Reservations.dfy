/**
  CPU and database reservations of a service instance.

  Times are nanoseconds since the zero time, which stands for "never used"; arrivals are
  not before it.  A duration given in milliseconds is rounded to the nearest nanosecond.
*/
module Reservations {
  // --- CPU: one FIFO server -------------------------------------------------------

  datatype Job = Job(arrival: nat, dur: nat)

  datatype Interval = Interval(start: nat, end: nat)

  function Max(a: int, b: int): int { if a < b then b else a }

  const MIN_CORES := 0.000000001
  const NANOS_PER_MS := 1000000.0

  function Rounded(ms: real): nat
    requires ms >= 0.0
  {
    (ms * NANOS_PER_MS + 0.5).Floor
  }

  function CpuDuration(cores: real, demandMs: real): nat {
    var ms := demandMs / (if cores < MIN_CORES then MIN_CORES else cores);
    Rounded(if ms < 0.0 then 0.0 else ms)
  }

  /** The work of a demand takes its milliseconds on one core, and proportionally less on more:
      cores times the duration is the demand, up to half a nanosecond's worth of rounding.  A
      demand that is not positive takes no time. */
  lemma DurationExactly(cores: real, demandMs: real)
    requires cores >= MIN_CORES
    ensures var d := CpuDuration(cores, demandMs) as real;
      if demandMs <= 0.0 then d == 0.0
      else cores * (d - 0.5) <= demandMs * NANOS_PER_MS < cores * (d + 0.5)
  {
    var ms := demandMs / cores;
    assert ms * cores == demandMs;
    if demandMs <= 0.0 {
      NotPositive(demandMs, cores);
    } else {
      var x, d := ms * NANOS_PER_MS, CpuDuration(cores, demandMs) as real;
      assert ms > 0.0 by { if ms <= 0.0 { Scales(cores, ms, 0.0); } }
      Scales(cores, d - 0.5, x);
      Scales(cores, x, d + 0.5);
      assert cores * x == demandMs * NANOS_PER_MS;
    }
  }

  lemma NotPositive(x: real, y: real)
    requires x <= 0.0 && y > 0.0
    ensures x / y <= 0.0
  {
  }

  lemma Scales(c: real, x: real, y: real)
    requires c > 0.0
    ensures x <= y ==> c * x <= c * y
    ensures x < y ==> c * x < c * y
  {
  }

  /** What a reservation gets when the server is free from `free` on. */
  function Reserved(free: nat, job: Job): Interval {
    var start := Max(free, job.arrival);
    Interval(start, start + job.dur)
  }

  /** The time from which the server is free after serving `jobs` in order. */
  function FreeAfter(free: nat, jobs: seq<Job>): nat {
    if jobs == [] then free else Reserved(FreeAfter(free, jobs[..|jobs| - 1]), jobs[|jobs| - 1]).end
  }

  function IntervalOf(free: nat, jobs: seq<Job>, i: nat): Interval
    requires i < |jobs|
  {
    Reserved(FreeAfter(free, jobs[..i]), jobs[i])
  }

  function Work(jobs: seq<Job>): nat {
    if jobs == [] then 0 else Work(jobs[..|jobs| - 1]) + jobs[|jobs| - 1].dur
  }

  /** Job j cannot be served, with all that follow it, before this time. */
  function Bound(jobs: seq<Job>, j: nat): nat
    requires j < |jobs|
  {
    jobs[j].arrival + Work(jobs[j..])
  }

  lemma BoundGrows(jobs: seq<Job>, job: Job, j: nat)
    requires j <= |jobs|
    ensures Bound(jobs + [job], j) == (if j == |jobs| then job.arrival else Bound(jobs, j)) + job.dur
  {
    var rest := (jobs + [job])[j..];
    assert rest[..|rest| - 1] == jobs[j..] && rest[|rest| - 1] == job;
    assert Work(rest) == Work(jobs[j..]) + job.dur;
    if j == |jobs| {
      assert jobs[j..] == [] && Work(jobs[j..]) == 0;
    }
  }

  /** Lindley's closed form: the end of the last reservation is the maximum over j of the
      arrival of job j plus the durations from j on. */
  lemma {:induction false} Lindley(jobs: seq<Job>)
    requires jobs != []
    ensures forall j :: 0 <= j < |jobs| ==> Bound(jobs, j) <= FreeAfter(0, jobs)
    ensures exists j :: 0 <= j < |jobs| && Bound(jobs, j) == FreeAfter(0, jobs)
  {
    hide Bound;
    var n := |jobs| - 1;
    var init, last := jobs[..n], jobs[n];
    assert jobs == init + [last];
    forall j | 0 <= j <= n ensures Bound(jobs, j) == (if j == n then last.arrival else Bound(init, j)) + last.dur {
      BoundGrows(init, last, j);
    }
    if n > 0 {
      Lindley(init);
      var j :| 0 <= j < n && Bound(init, j) == FreeAfter(0, init);
      assert Bound(jobs, j) == FreeAfter(0, init) + last.dur;
    }
    assert Bound(jobs, n) == last.arrival + last.dur;
  }

  /** The same for the i-th reservation of a longer sequence. */
  lemma LindleyAt(jobs: seq<Job>, i: nat)
    requires i < |jobs|
    ensures var done := jobs[..i + 1];
      && (forall j :: 0 <= j <= i ==> Bound(done, j) <= IntervalOf(0, jobs, i).end)
      && (exists j :: 0 <= j <= i && Bound(done, j) == IntervalOf(0, jobs, i).end)
  {
    hide Bound;
    Lindley(jobs[..i + 1]);
    assert jobs[..i + 1][..i] == jobs[..i];
  }

  // --- CPU: reservations and rollbacks --------------------------------------------

  /** `live` are the reservations made and not rolled back. */
  datatype Cpu = Cpu(free: nat, live: seq<Interval>)

  datatype CpuStep = ReserveCpu(job: Job) | RollBack(i: nat)

  predicate CanRollBack(free: nat, r: Interval) { free != 0 && free == r.end }

  function CpuApply(c: Cpu, step: CpuStep): Cpu
    requires step.RollBack? ==> step.i < |c.live|
  {
    match step
    case ReserveCpu(job) => Cpu(Reserved(c.free, job).end, c.live + [Reserved(c.free, job)])
    case RollBack(i) =>
      if CanRollBack(c.free, c.live[i]) then Cpu(c.live[i].start, c.live[..i] + c.live[i + 1..]) else c
  }

  ghost predicate IsCpuRun(states: seq<Cpu>, steps: seq<CpuStep>) {
    && |states| == |steps| + 1
    && states[0] == Cpu(0, [])
    && forall n :: 0 <= n < |steps| ==>
         && (steps[n].RollBack? ==> steps[n].i < |states[n].live|)
         && states[n + 1] == CpuApply(states[n], steps[n])
  }

  /** Live intervals of positive length follow each other and end by `free`. */
  ghost predicate Disjoint(c: Cpu) {
    && (forall i :: 0 <= i < |c.live| ==> c.live[i].start <= c.live[i].end)
    && (forall i :: 0 <= i < |c.live| && c.live[i].start < c.live[i].end ==> c.live[i].end <= c.free)
    && (forall i, j :: 0 <= i < j < |c.live| && c.live[i].start < c.live[i].end && c.live[j].start < c.live[j].end ==>
          c.live[i].end <= c.live[j].start)
  }

  lemma ReserveKeeps(c: Cpu, job: Job)
    requires Disjoint(c)
    ensures Disjoint(CpuApply(c, ReserveCpu(job)))
  {
    var t, r := CpuApply(c, ReserveCpu(job)), Reserved(c.free, job);
    assert c.free <= r.start <= r.end;
    assert forall n :: 0 <= n < |t.live| ==> t.live[n] == if n < |c.live| then c.live[n] else r;
  }

  lemma RollBackKeeps(c: Cpu, i: nat)
    requires i < |c.live| && Disjoint(c)
    ensures Disjoint(CpuApply(c, RollBack(i)))
  {
    var t := CpuApply(c, RollBack(i));
    if CanRollBack(c.free, c.live[i]) {
      assert forall n :: 0 <= n < |t.live| ==> t.live[n] == c.live[if n < i then n else n + 1];
      forall n | 0 <= n < |t.live| && t.live[n].start < t.live[n].end ensures t.live[n].end <= t.free {
        var m := if n < i then n else n + 1;
        assert c.live[m].end <= c.free;
      }
    }
  }

  lemma {:induction false} NeverOverlap(states: seq<Cpu>, steps: seq<CpuStep>, n: nat)
    requires IsCpuRun(states, steps) && n < |states|
    ensures Disjoint(states[n])
  {
    if n > 0 {
      NeverOverlap(states, steps, n - 1);
      match steps[n - 1] {
        case ReserveCpu(job) => ReserveKeeps(states[n - 1], job);
        case RollBack(i) => RollBackKeeps(states[n - 1], i);
      }
    }
  }

  /** The server after reserving `job` and rolling the reservation back. */
  function RolledBack(free: nat, job: Job): nat {
    var r := Reserved(free, job);
    if CanRollBack(r.end, r) then r.start else r.end
  }

  /** Can the first of the later reservations not tell that `job` was there? */
  predicate ComesAfter(free: nat, job: Job, later: seq<Job>) {
    later == [] || job.arrival <= Max(free, later[0].arrival)
  }

  /** Reserving and rolling back is invisible to all later reservations if the first of them
      arrives, or the server is free, no earlier than the job arrived. */
  lemma {:induction false} RollbackInvisible(free: nat, job: Job, later: seq<Job>, i: nat)
    requires ComesAfter(free, job, later) && i < |later|
    ensures IntervalOf(RolledBack(free, job), later, i) == IntervalOf(free, later, i)
  {
    if i > 0 {
      RollbackInvisible(free, job, later, i - 1);
      assert later[..i][..i - 1] == later[..i - 1];
    }
  }

  /** And only then. */
  lemma RollbackExactly(free: nat, job: Job, later: seq<Job>)
    ensures (forall i :: 0 <= i < |later| ==> IntervalOf(RolledBack(free, job), later, i) == IntervalOf(free, later, i))
      <==> ComesAfter(free, job, later)
  {
    if ComesAfter(free, job, later) {
      forall i | 0 <= i < |later| ensures IntervalOf(RolledBack(free, job), later, i) == IntervalOf(free, later, i) {
        RollbackInvisible(free, job, later, i);
      }
    } else {
      assert later[..0] == [];
      assert IntervalOf(RolledBack(free, job), later, 0).start == job.arrival != IntervalOf(free, later, 0).start;
    }
  }

  /** A job that arrives at a free server before one that was rolled back waits all the same. */
  lemma RollbackSeen()
    ensures exists states: seq<Cpu>, steps: seq<CpuStep> ::
      && IsCpuRun(states, steps) && steps == [ReserveCpu(Job(10, 5)), RollBack(0), ReserveCpu(Job(0, 1))]
      && states[3].live == [Interval(10, 11)] && Reserved(0, Job(0, 1)) == Interval(0, 1)
  {
    var steps := [ReserveCpu(Job(10, 5)), RollBack(0), ReserveCpu(Job(0, 1))];
    var states := [Cpu(0, []), Cpu(15, [Interval(10, 15)]), Cpu(10, []), Cpu(11, [Interval(10, 11)])];
    assert CpuApply(states[0], steps[0]) == states[1] && CpuApply(states[1], steps[1]) == states[2] && CpuApply(states[2], steps[2]) == states[3];
    assert IsCpuRun(states, steps);
  }

  // --- Database pool --------------------------------------------------------------

  const MAX_DB_SLOTS: nat := 64

  datatype DbJob = DbJob(arrival: nat, dur: nat, maxSlots: int)

  /** The slots a job may use: none when pooling is off. */
  function Width(maxSlots: int): nat {
    if maxSlots <= 0 then 0 else if maxSlots > MAX_DB_SLOTS then MAX_DB_SLOTS else maxSlots
  }

  function Extended(slots: seq<nat>, n: nat): (r: seq<nat>)
    ensures |r| >= n && |r| >= |slots| && slots <= r
    ensures forall i :: |slots| <= i < |r| ==> r[i] == 0
  {
    if |slots| < n then slots + seq(n - |slots|, _ => 0) else slots
  }

  /** The slot of the first `n` where a job that arrives at `arrival` starts first. */
  function BestSlot(slots: seq<nat>, n: nat, arrival: nat): (b: nat)
    requires 0 < n <= |slots|
    ensures b < n
    ensures forall i :: 0 <= i < n ==> Max(slots[b], arrival) <= Max(slots[i], arrival)
    ensures forall i :: 0 <= i < b ==> Max(slots[b], arrival) < Max(slots[i], arrival)
  {
    if n == 1 then 0
    else
      var b := BestSlot(slots, n - 1, arrival);
      if Max(slots[n - 1], arrival) < Max(slots[b], arrival) then n - 1 else b
  }

  lemma BestSlotNext(slots: seq<nat>, n: nat, arrival: nat)
    requires n < |slots|
    ensures n == 0 ==> BestSlot(slots, n + 1, arrival) == 0
    ensures n > 0 ==> var b := BestSlot(slots, n, arrival);
      BestSlot(slots, n + 1, arrival) == if Max(slots[n], arrival) < Max(slots[b], arrival) then n else b
  {
  }

  /** A pooled reservation; `slot` is None for one outside the pool. */
  datatype Slot = NoSlot | SlotAt(index: nat)

  datatype Io = Io(slot: Slot, start: nat, end: nat)

  function ReservedIo(slots: seq<nat>, job: DbJob): Io {
    if job.maxSlots <= 0 then Io(NoSlot, job.arrival, job.arrival + job.dur)
    else
      var all := Extended(slots, Width(job.maxSlots));
      var b := BestSlot(all, Width(job.maxSlots), job.arrival);
      Io(SlotAt(b), Max(all[b], job.arrival), Max(all[b], job.arrival) + job.dur)
  }

  function SlotsAfterOne(slots: seq<nat>, job: DbJob): seq<nat> {
    var io := ReservedIo(slots, job);
    if io.slot.NoSlot? then slots else Extended(slots, Width(job.maxSlots))[io.slot.index := io.end]
  }

  function SlotsAfter(jobs: seq<DbJob>): seq<nat> {
    if jobs == [] then [] else SlotsAfterOne(SlotsAfter(jobs[..|jobs| - 1]), jobs[|jobs| - 1])
  }

  function IoOf(jobs: seq<DbJob>, i: nat): Io
    requires i < |jobs|
  {
    ReservedIo(SlotsAfter(jobs[..i]), jobs[i])
  }

  /** Pooled or not, a reservation lasts as long as its job. */
  lemma LastsItsJob(jobs: seq<DbJob>, i: nat)
    requires i < |jobs|
    ensures IoOf(jobs, i).end == IoOf(jobs, i).start + jobs[i].dur && IoOf(jobs, i).start >= jobs[i].arrival
    ensures jobs[i].maxSlots <= 0 ==> IoOf(jobs, i).start == jobs[i].arrival
  {
    hide BestSlot;
  }

  function AsJobs(jobs: seq<DbJob>): (r: seq<Job>)
    ensures |r| == |jobs| && forall i :: 0 <= i < |jobs| ==> r[i] == Job(jobs[i].arrival, jobs[i].dur)
  {
    seq(|jobs|, i requires 0 <= i < |jobs| => Job(jobs[i].arrival, jobs[i].dur))
  }

  ghost predicate OneSlot(jobs: seq<DbJob>) {
    forall i :: 0 <= i < |jobs| ==> jobs[i].maxSlots == 1
  }

  /** A pool of one slot serves like the CPU. */
  lemma {:induction false} OneSlotServes(jobs: seq<DbJob>)
    requires OneSlot(jobs) && jobs != []
    ensures SlotsAfter(jobs) == [FreeAfter(0, AsJobs(jobs))]
  {
    var n := |jobs| - 1;
    var init := jobs[..n];
    assert AsJobs(jobs)[..n] == AsJobs(init);
    if n > 0 {
      OneSlotServes(init);
    }
    assert Extended(SlotsAfter(init), 1) == [FreeAfter(0, AsJobs(init))];
  }

  /** Lindley's closed form for a pool of one slot: the i-th query ends at the maximum over j of
      the arrival of query j plus the durations from j to i. */
  lemma LindleyOneSlot(jobs: seq<DbJob>, i: nat)
    requires OneSlot(jobs) && i < |jobs|
    ensures var done := AsJobs(jobs)[..i + 1];
      && (forall j :: 0 <= j <= i ==> Bound(done, j) <= IoOf(jobs, i).end)
      && (exists j :: 0 <= j <= i && Bound(done, j) == IoOf(jobs, i).end)
  {
    hide Bound;
    LindleyAt(AsJobs(jobs), i);
    assert AsJobs(jobs)[..i] == AsJobs(jobs[..i]);
    if i > 0 {
      OneSlotServes(jobs[..i]);
    }
    assert Extended(SlotsAfter(jobs[..i]), 1) == [FreeAfter(0, AsJobs(jobs)[..i])];
  }

  /** The widest pool any of the jobs asked for. */
  function Widest(jobs: seq<DbJob>): nat {
    if jobs == [] then 0 else Max(Widest(jobs[..|jobs| - 1]), Width(jobs[|jobs| - 1].maxSlots))
  }

  /** A job starts on arrival if one of its slots is free then, and otherwise at the
      earliest release; a slot not used yet is free. */
  lemma StartsEarliest(slots: seq<nat>, job: DbJob)
    requires job.maxSlots > 0
    ensures var io, n := ReservedIo(slots, job), Width(job.maxSlots);
      && ((exists i :: 0 <= i < n && (i >= |slots| || slots[i] <= job.arrival)) ==> io.start == job.arrival)
      && ((forall i :: 0 <= i < n ==> i < |slots| && slots[i] > job.arrival) ==>
            && (exists i :: 0 <= i < n && i < |slots| && io.start == slots[i])
            && (forall i :: 0 <= i < n && i < |slots| ==> io.start <= slots[i]))
  {
    var io, n := ReservedIo(slots, job), Width(job.maxSlots);
    var all := Extended(slots, n);
    assert forall i :: 0 <= i < |slots| ==> all[i] == slots[i];
    assert io.start == Max(all[io.slot.index], job.arrival);
  }

  /** The pool is as wide as the widest request, and a slot is busy until the last interval
      reserved on it has ended. */
  lemma {:induction false} SlotsCover(jobs: seq<DbJob>, i: nat)
    requires i < |jobs| && IoOf(jobs, i).slot.SlotAt?
    ensures |SlotsAfter(jobs)| <= Widest(jobs) && IoOf(jobs, i).slot.index < |SlotsAfter(jobs)|
    ensures IoOf(jobs, i).end <= SlotsAfter(jobs)[IoOf(jobs, i).slot.index]
  {
    hide SlotsAfterOne, ReservedIo, Widest;
    var n := |jobs| - 1;
    var init := jobs[..n];
    PoolWidth(jobs);
    SlotTaken(SlotsAfter(init), jobs[n]);
    if i < n {
      assert init[..i] == jobs[..i];
      SlotsCover(init, i);
      SlotsGrow(SlotsAfter(init), jobs[n], IoOf(jobs, i).slot.index);
    }
  }

  lemma {:induction false} PoolWidth(jobs: seq<DbJob>)
    ensures |SlotsAfter(jobs)| <= Widest(jobs) <= MAX_DB_SLOTS
  {
    if jobs != [] {
      PoolWidth(jobs[..|jobs| - 1]);
    }
  }

  lemma SlotTaken(slots: seq<nat>, job: DbJob)
    ensures var io, t := ReservedIo(slots, job), SlotsAfterOne(slots, job);
      io.slot.SlotAt? ==> io.slot.index < |t| && t[io.slot.index] == io.end
  {
  }

  lemma SlotsGrow(slots: seq<nat>, job: DbJob, i: nat)
    requires i < |slots|
    ensures i < |SlotsAfterOne(slots, job)| && slots[i] <= SlotsAfterOne(slots, job)[i]
  {
  }

  /** Intervals on one slot do not overlap. */
  lemma {:induction false} SlotDisjoint(jobs: seq<DbJob>, i: nat, j: nat)
    requires i < j < |jobs| && IoOf(jobs, i).slot == IoOf(jobs, j).slot && IoOf(jobs, i).slot.SlotAt?
    ensures IoOf(jobs, i).end <= IoOf(jobs, j).start
  {
    assert jobs[..j][..i] == jobs[..i];
    SlotsCover(jobs[..j], i);
  }

  ghost predicate Busy(jobs: seq<DbJob>, i: nat, t: int)
    requires i < |jobs|
  {
    IoOf(jobs, i).slot.SlotAt? && IoOf(jobs, i).start <= t < IoOf(jobs, i).end
  }

  /** At no instant are more pooled intervals in progress than the widest pool asked for,
      and never more than 64. */
  lemma PoolLimit(jobs: seq<DbJob>, t: int, busy: set<nat>)
    requires forall i :: i in busy ==> i < |jobs| && Busy(jobs, i, t)
    ensures |busy| <= Widest(jobs) <= MAX_DB_SLOTS
  {
    PoolWidth(jobs);
    forall i, j | i in busy && j in busy && i != j ensures IoOf(jobs, i).slot != IoOf(jobs, j).slot {
      if IoOf(jobs, i).slot == IoOf(jobs, j).slot {
        SlotDisjoint(jobs, if i < j then i else j, if i < j then j else i);
      }
    }
    forall i | i in busy ensures IoOf(jobs, i).slot.index < |SlotsAfter(jobs)| {
      SlotsCover(jobs, i);
    }
    Pigeons(jobs, busy, |SlotsAfter(jobs)|);
  }

  /** In particular, if no job asks for more than n slots, no more than n are in progress. */
  lemma PoolLimitAsked(jobs: seq<DbJob>, t: int, busy: set<nat>, n: nat)
    requires forall i :: i in busy ==> i < |jobs| && Busy(jobs, i, t)
    requires forall i :: 0 <= i < |jobs| ==> jobs[i].maxSlots <= n
    ensures |busy| <= n && |busy| <= 64
  {
    PoolLimit(jobs, t, busy);
    WidestAsked(jobs, n);
  }

  lemma {:induction false} WidestAsked(jobs: seq<DbJob>, n: nat)
    requires forall i :: 0 <= i < |jobs| ==> jobs[i].maxSlots <= n
    ensures Widest(jobs) <= n
  {
    if jobs != [] {
      WidestAsked(jobs[..|jobs| - 1], n);
    }
  }

  lemma {:induction false} Pigeons(jobs: seq<DbJob>, busy: set<nat>, n: nat)
    requires forall i :: i in busy ==> i < |jobs| && IoOf(jobs, i).slot.SlotAt? && IoOf(jobs, i).slot.index < n
    requires forall i, j :: i in busy && j in busy && i != j ==> IoOf(jobs, i).slot != IoOf(jobs, j).slot
    ensures |busy| <= n
    decreases n
  {
    if n > 0 {
      if i :| i in busy && IoOf(jobs, i).slot.index == n - 1 {
        forall j | j in busy - {i} ensures IoOf(jobs, j).slot.index < n - 1 {
          assert IoOf(jobs, j).slot != IoOf(jobs, i).slot;
        }
        Pigeons(jobs, busy - {i}, n - 1);
      } else {
        Pigeons(jobs, busy, n - 1);
      }
    } else {
      assert busy == {};
    }
  }

  lemma Widened(slots: seq<nat>, n: nat)
    ensures Extended(slots, n) == if |slots| < n then slots + seq(n - |slots|, _ => 0) else slots
  {
  }

  /** The loop that looks for the slot where the job starts first. */
  method FindSlot(slots: seq<nat>, width: nat, arrival: nat) returns (best: nat, bestStart: nat)
    requires 0 < width <= |slots|
    ensures best == BestSlot(slots, width, arrival) && bestStart == Max(slots[best], arrival) >= arrival
  {
    hide BestSlot;
    best, bestStart := 0, arrival;
    var first := true;
    for i := 0 to width
      invariant first <==> i == 0
      invariant i > 0 ==> best == BestSlot(slots, i, arrival) && bestStart == Max(slots[best], arrival)
    {
      BestSlotNext(slots, i, arrival);
      var slotStart := arrival;
      if slots[i] != 0 && slots[i] > slotStart { slotStart := slots[i]; }
      if first || slotStart < bestStart {
        bestStart, best, first := slotStart, i, false;
      }
    }
  }

  lemma WaitIs(waitMs: real, start: nat, arrival: nat)
    requires start >= arrival && waitMs == (start - arrival) as real / NANOS_PER_MS
    ensures waitMs >= 0.0 && waitMs * NANOS_PER_MS == (start - arrival) as real
  {
  }

  // --- The instance ---------------------------------------------------------------

  class ServiceInstance {
    var cpuCores: real
    var cpuNextFree: nat
    var dbSlotFree: seq<nat>
    var dbActiveConnections: nat

    constructor (cores: real)
      ensures cpuCores == cores && cpuNextFree == FreeAfter(0, []) && dbSlotFree == SlotsAfter([]) && dbActiveConnections == 0
    {
      cpuCores, cpuNextFree, dbSlotFree, dbActiveConnections := cores, 0, [], 0;
    }

    method ReserveCPUWork(arrival: nat, demandMs: real) returns (start: nat, end: nat)
      modifies this`cpuNextFree
      ensures Interval(start, end) == Reserved(old(cpuNextFree), Job(arrival, CpuDuration(cpuCores, demandMs)))
      ensures cpuNextFree == end == start + CpuDuration(cpuCores, demandMs)
    {
      var cores := cpuCores;
      if cores < MIN_CORES { cores := MIN_CORES; }
      var durMs := demandMs / cores;
      if durMs < 0.0 { durMs := 0.0; }
      var dur := Rounded(durMs);
      start := arrival;
      if cpuNextFree != 0 && cpuNextFree > start { start := cpuNextFree; }
      end := start + dur;
      cpuNextFree := end;
    }

    method RollbackCPUTailReservation(start: nat, end: nat)
      modifies this`cpuNextFree
      ensures cpuNextFree == if CanRollBack(old(cpuNextFree), Interval(start, end)) then start else old(cpuNextFree)
    {
      if cpuNextFree == 0 || cpuNextFree != end { return; }
      cpuNextFree := start;
    }

    method ReserveDBWork(arrival: nat, durMs: real, maxSlots: int) returns (r: Io, waitMs: real)
      modifies this`dbSlotFree, this`dbActiveConnections
      ensures var job := DbJob(arrival, Rounded(if durMs < 0.0 then 0.0 else durMs), maxSlots);
        r == ReservedIo(old(dbSlotFree), job) && dbSlotFree == SlotsAfterOne(old(dbSlotFree), job)
      ensures r.end == r.start + Rounded(if durMs < 0.0 then 0.0 else durMs) && r.start >= arrival
      ensures dbActiveConnections == old(dbActiveConnections) + if maxSlots > 0 then 1 else 0
      ensures waitMs * NANOS_PER_MS == (r.start - arrival) as real && waitMs >= 0.0
    {
      hide Rounded, BestSlot, Extended, Max;
      var dur := Rounded(if durMs < 0.0 then 0.0 else durMs);
      if maxSlots <= 0 { return Io(NoSlot, arrival, arrival + dur), 0.0; }
      var width: nat := if maxSlots > MAX_DB_SLOTS then MAX_DB_SLOTS else maxSlots;
      Widened(dbSlotFree, width);
      if |dbSlotFree| < width { dbSlotFree := dbSlotFree + seq(width - |dbSlotFree|, _ => 0); }
      var best, bestStart := FindSlot(dbSlotFree, width, arrival);
      waitMs := (bestStart - arrival) as real / NANOS_PER_MS;
      WaitIs(waitMs, bestStart, arrival);
      if waitMs < 0.0 { waitMs := 0.0; }
      var end := bestStart + dur;
      dbSlotFree := dbSlotFree[best := end];
      dbActiveConnections := dbActiveConnections + 1;
      r := Io(SlotAt(best), bestStart, end);
    }
  }
}
