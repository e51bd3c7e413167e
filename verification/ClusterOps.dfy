/** What the single operations of the resource manager do to its tables. */
module ClusterOps {
  import opened Orders
  import opened Cluster

  const DEFAULT_CPU := 1.0
  const DEFAULT_MEM := 512.0
  const DEFAULT_HOST_MEM := 16
  const DEFAULT_HEADROOM := 16.0

  datatype HostConfig = HostConfig(id: HostId, cores: int, memGB: int, zone: string)

  datatype ServiceConfig = ServiceConfig(id: string, replicas: int, cpu: real, mem: real, requiredZones: seq<string>, antiAffinity: seq<string>)

  function CpuFor(c: ServiceConfig): real { if c.cpu == 0.0 then DEFAULT_CPU else c.cpu }

  function MemFor(c: ServiceConfig): real { if c.mem == 0.0 then DEFAULT_MEM else c.mem }

  // --- Start ----------------------------------------------------------------------

  /** A later host of the same name replaces an earlier one. */
  function HostsOf(configs: seq<HostConfig>): map<HostId, Host> {
    if configs == [] then map[]
    else
      var c := configs[|configs| - 1];
      HostsOf(configs[..|configs| - 1])[c.id := Host(c.cores, if c.memGB <= 0 then DEFAULT_HOST_MEM else c.memGB, c.zone)]
  }

  lemma {:induction false} HostsOfSizes(configs: seq<HostConfig>)
    requires forall c :: c in configs ==> c.cores >= 1
    ensures SizesOk(HostsOf(configs))
  {
    if configs != [] {
      HostsOfSizes(configs[..|configs| - 1]);
    }
  }

  function EmptyState(hosts: map<HostId, Host>): State { State(hosts, map[], map[], map[], map[], 0) }

  lemma EmptyBase(hosts: map<HostId, Host>, negative: bool, mixed: bool)
    requires SizesOk(hosts)
    ensures Base(EmptyState(hosts), Past(false, negative, mixed, {}))
  {
  }

  ghost predicate Allowed(s: State, c: ServiceConfig, h: HostId)
    requires h in s.hosts
  {
    && (|c.requiredZones| > 0 ==> s.hosts[h].zone in c.requiredZones)
    && (|c.antiAffinity| > 0 ==> forall i :: 0 <= i < |On(s.byHost, h)| && On(s.byHost, h)[i] in s.instances ==> On(s.byHost, h)[i].service !in c.antiAffinity)
  }

  ghost predicate Accepts(s: State, c: ServiceConfig, h: HostId) {
    h in s.hosts && Allowed(s, c, h) && Room(s, h, CpuFor(c), MemFor(c))
  }

  /** Where the replica of the given number goes: the first host by name, from that number on
      round all hosts, that accepts it. */
  ghost predicate PutOn(s: State, c: ServiceConfig, replica: nat, h: HostId) {
    exists order ::
      IsSorted(order, s.hosts.Keys, HostName) && order != [] && FirstOk(order, replica % |order|, x => Accepts(s, c, x), h)
  }

  function PlacedReplica(s: State, c: ServiceConfig, h: HostId): State { Placed(s, c.id, h, CpuFor(c), MemFor(c)) }

  ghost predicate Stuck(s: State, c: ServiceConfig) {
    forall h :: h in s.hosts ==> !Accepts(s, c, h)
  }

  /** Placing the replicas of the services, from the given one on, leads from `s` to `t`. */
  ghost predicate Starts(services: seq<ServiceConfig>, k: nat, replica: nat, s: State, t: State, ok: bool)
    decreases |services| - k, if k < |services| then services[k].replicas - replica else 0
  {
    if k >= |services| then ok && t == s
    else if replica >= services[k].replicas then Starts(services, k + 1, 0, s, t, ok)
    else if Stuck(s, services[k]) then !ok && t == s
    else exists h :: PutOn(s, services[k], replica, h) && Starts(services, k, replica + 1, PlacedReplica(s, services[k], h), t, ok)
  }

  /** What a start leaves: everything placed so far, but the counter only if it succeeded. */
  ghost predicate StartLeaves(services: seq<ServiceConfig>, hosts: map<HostId, Host>, s: State, ok: bool) {
    exists t :: Starts(services, 0, 0, EmptyState(hosts), t, ok) && s == AfterStart(t, s, ok)
  }

  ghost function AfterStart(t: State, s: State, ok: bool): State {
    if ok then t.(cache := s.cache, cursor := s.cursor) else t.(next := 0)
  }

  /** The services from the given one on, which is the state of the two nested loops, lead
      from the current state to wherever they lead from the first. */
  ghost predicate Continues(services: seq<ServiceConfig>, first: State, k: nat, replica: nat, s: State) {
    forall t, ok :: Starts(services, k, replica, s, t, ok) ==> Starts(services, 0, 0, first, t, ok)
  }

  lemma ContinueReplica(services: seq<ServiceConfig>, first: State, k: nat, replica: nat, s: State, h: HostId)
    requires k < |services| && replica < services[k].replicas && Continues(services, first, k, replica, s) && PutOn(s, services[k], replica, h)
    ensures Continues(services, first, k, replica + 1, PlacedReplica(s, services[k], h))
  {
    hide PutOn, Accepts;
    PutAccepts(s, services[k], replica, h);
    forall t, ok | Starts(services, k, replica + 1, PlacedReplica(s, services[k], h), t, ok) ensures Starts(services, 0, 0, first, t, ok) {
      assert Starts(services, k, replica, s, t, ok);
    }
  }

  lemma PutAccepts(s: State, c: ServiceConfig, replica: nat, h: HostId)
    requires PutOn(s, c, replica, h)
    ensures h in s.hosts && Accepts(s, c, h) && !Stuck(s, c)
  {
    hide Allowed, Room;
  }

  lemma ContinueService(services: seq<ServiceConfig>, first: State, k: nat, replica: nat, s: State)
    requires k < |services| && replica >= services[k].replicas && Continues(services, first, k, replica, s)
    ensures Continues(services, first, k + 1, 0, s)
  {
    hide Stuck;
    forall t, ok | Starts(services, k + 1, 0, s, t, ok) ensures Starts(services, 0, 0, first, t, ok) {
      assert Starts(services, k, replica, s, t, ok);
    }
  }

  lemma ContinueNot(services: seq<ServiceConfig>, first: State, k: nat, replica: nat, s: State)
    requires k < |services| && replica < services[k].replicas && Continues(services, first, k, replica, s) && Stuck(s, services[k])
    ensures Starts(services, 0, 0, first, s, false)
  {
    hide Stuck;
    assert Starts(services, k, replica, s, s, false);
  }

  lemma StartsDone(services: seq<ServiceConfig>, first: State, k: nat, s: State)
    requires k >= |services| && Continues(services, first, k, 0, s)
    ensures Starts(services, 0, 0, first, s, true)
  {
    assert Starts(services, k, 0, s, s, true);
  }

  lemma Put(s: State, c: ServiceConfig, replica: nat, order: seq<HostId>, j: nat)
    requires IsSorted(order, s.hosts.Keys, HostName) && j < |order|
    requires Accepts(s, c, Turn(order, replica % |order|, j)) && forall i :: 0 <= i < j ==> !Accepts(s, c, Turn(order, replica % |order|, i))
    ensures PutOn(s, c, replica, Turn(order, replica % |order|, j))
  {
    hide IsSorted, Accepts, Turn;
    var h := Turn(order, replica % |order|, j);
    assert FirstOk(order, replica % |order|, x => Accepts(s, c, x), h);
  }

  /** The replicas a scenario asks for. */
  function Wanted(services: seq<ServiceConfig>, sv: string): nat {
    if services == [] then 0
    else
      var c := services[|services| - 1];
      Wanted(services[..|services| - 1], sv) + if c.id == sv && c.replicas > 0 then c.replicas else 0
  }

  lemma NobodyWanted(services: seq<ServiceConfig>)
    ensures forall sv :: Wanted(services[..0], sv) == 0
    ensures forall sv :: ActiveOf(map[], sv) == {}
  {
  }

  lemma WantedNext(services: seq<ServiceConfig>, k: nat)
    requires k < |services|
    ensures var c := services[k];
      forall sv :: Wanted(services[..k + 1], sv) == Wanted(services[..k], sv) + if c.id == sv && c.replicas > 0 then c.replicas else 0
  {
    assert services[..k + 1][..k] == services[..k];
  }

  predicate IsNegative(c: ServiceConfig) { c.cpu < 0.0 || c.mem < 0.0 }

  ghost predicate AnyNegative(services: seq<ServiceConfig>) { exists c :: c in services && IsNegative(c) }

  predicate Reserves(c: ServiceConfig, sv: string, cpu: real, mem: real) { c.id == sv && CpuFor(c) == cpu && MemFor(c) == mem }

  /** Does the scenario list a service twice with different reservations?  The loader refuses that. */
  ghost predicate AnyMixed(services: seq<ServiceConfig>) {
    exists c, d :: c in services && d in services && c.id == d.id && !Reserves(d, c.id, CpuFor(c), MemFor(c))
  }

  ghost predicate Configured(services: seq<ServiceConfig>, id: Id, i: Instance) {
    exists c :: c in services && Reserves(c, id.service, i.cpu, i.mem)
  }

  /** Every instance reserves what some configuration of its service says. */
  ghost predicate AsConfigured(services: seq<ServiceConfig>, m: map<Id, Instance>) {
    forall id :: id in m ==> Configured(services, id, m[id])
  }

  lemma ConfiguredSame(services: seq<ServiceConfig>, m: map<Id, Instance>, c: ServiceConfig)
    requires AsConfigured(services, m) && c in services && !AnyMixed(services)
    ensures SameAmounts(m, c.id, CpuFor(c), MemFor(c))
  {
    forall id | id in m && id.service == c.id ensures m[id].cpu == CpuFor(c) && m[id].mem == MemFor(c) {
      assert Configured(services, id, m[id]);
    }
  }

  lemma ConfiguredWith(services: seq<ServiceConfig>, m: map<Id, Instance>, c: ServiceConfig, id: Id, h: HostId)
    requires AsConfigured(services, m) && c in services && id.service == c.id
    ensures AsConfigured(services, m[id := NewInstance(h, CpuFor(c), MemFor(c))])
  {
    assert Reserves(c, id.service, CpuFor(c), MemFor(c));
  }

  /** Everything before the given replica has been placed. */
  ghost predicate Placing(services: seq<ServiceConfig>, first: State, k: nat, replica: nat, s: State, past: Past) {
    && Base(s, past) && !past.startFailed && past.negative == AnyNegative(services) && past.mixed == AnyMixed(services)
    && AsConfigured(services, s.instances)
    && s.cache == map[] && s.cursor == map[] && s.hosts == first.hosts
    && Continues(services, first, k, replica, s)
    && k <= |services| && forall sv :: |ActiveOf(s.instances, sv)| == Wanted(services[..k], sv) + if k < |services| && sv == services[k].id then replica else 0
  }

  lemma PlacingFirst(services: seq<ServiceConfig>, hosts: map<HostId, Host>)
    requires SizesOk(hosts)
    ensures Placing(services, EmptyState(hosts), 0, 0, EmptyState(hosts), Past(false, AnyNegative(services), AnyMixed(services), {}))
  {
    hide ActiveOf, Wanted, AnyNegative, AnyMixed;
    EmptyBase(hosts, AnyNegative(services), AnyMixed(services));
    NobodyWanted(services);
  }

  lemma PlacingMeans(services: seq<ServiceConfig>, first: State, k: nat, replica: nat, s: State, past: Past)
    requires Placing(services, first, k, replica, s, past)
    ensures Base(s, past) && !past.startFailed && past.negative == AnyNegative(services) && past.mixed == AnyMixed(services)
    ensures s.cache == map[] && s.cursor == map[] && s.hosts == first.hosts
    ensures k < |services| && IsNegative(services[k]) ==> past.negative
    ensures k < |services| ==> past.mixed || SameAmounts(s.instances, services[k].id, CpuFor(services[k]), MemFor(services[k]))
  {
    hide Base, Continues, ActiveOf, Wanted, IsNegative, AnyMixed, AsConfigured, SameAmounts, CpuFor, MemFor;
    if k < |services| && !past.mixed {
      ConfiguredSame(services, s.instances, services[k]);
    }
  }

  lemma NoHosts(negative: bool, mixed: bool)
    ensures Sound(EmptyState(map[]), Past(true, negative, mixed, {}))
  {
  }

  lemma PlacingReplica(services: seq<ServiceConfig>, first: State, k: nat, replica: nat, s: State, past: Past, h: HostId)
    requires k < |services| && replica < services[k].replicas && Placing(services, first, k, replica, s, past) && PutOn(s, services[k], replica, h)
    requires Base(PlacedReplica(s, services[k], h), past.(ever := past.ever + {services[k].id}))
    ensures Placing(services, first, k, replica + 1, PlacedReplica(s, services[k], h), past.(ever := past.ever + {services[k].id}))
  {
    hide Base, Continues, ActiveOf, Wanted, PutOn, AsConfigured, AnyMixed, AnyNegative;
    ContinueReplica(services, first, k, replica, s, h);
    ConfiguredWith(services, s.instances, services[k], Id(services[k].id, s.next), h);
    BaseTidy(s, past);
    PlacedActive(s, services[k], h);
  }

  lemma PlacingService(services: seq<ServiceConfig>, first: State, k: nat, replica: nat, s: State, past: Past)
    requires k < |services| && Placing(services, first, k, replica, s, past) && replica == if services[k].replicas < 0 then 0 else services[k].replicas
    ensures Placing(services, first, k + 1, 0, s, past)
  {
    hide Base, Continues, ActiveOf, Wanted, AsConfigured, AnyMixed, AnyNegative;
    ContinueService(services, first, k, replica, s);
    WantedNext(services, k);
  }

  lemma PlacingDone(services: seq<ServiceConfig>, first: State, s: State, past: Past)
    requires Placing(services, first, |services|, 0, s, past)
    ensures Base(s, past) && Starts(services, 0, 0, first, s, true) && forall sv :: |ActiveOf(s.instances, sv)| == Wanted(services, sv)
  {
    hide Base, Continues, ActiveOf, Wanted;
    StartsDone(services, first, |services|, s);
    assert services[..|services|] == services;
  }

  /** A failed start leaves what was placed, but with the counter at zero. */
  lemma PlacingFails(services: seq<ServiceConfig>, first: State, k: nat, replica: nat, s: State, past: Past)
    requires k < |services| && replica < services[k].replicas && Placing(services, first, k, replica, s, past) && Stuck(s, services[k])
    ensures Starts(services, 0, 0, first, s, false) && Sound(s.(next := 0), past.(startFailed := true))
  {
    hide Base, Stuck, Continues, ActiveOf, AsConfigured, AnyMixed, AnyNegative;
    ContinueNot(services, first, k, replica, s);
    CounterLost(s, past);
  }

  /** Losing the counter keeps everything that is promised after a failed start. */
  lemma CounterLost(s: State, past: Past)
    requires Base(s, past) && !past.startFailed
    ensures Base(s.(next := 0), past.(startFailed := true))
  {
    hide PlacedOk, ServedOk, SizesOk, UniformOk, AmountsOk, CapacityOk, NoDuplicates;
  }

  // --- Replicas -------------------------------------------------------------------

  ghost function InstancesOf(instances: map<Id, Instance>, sv: string): set<Id> {
    set id | id in instances && id.service == sv
  }

  /** Where a further instance of a service goes: the first host by name, from the number of
      instances it has on round all hosts, that has room. */
  ghost predicate PickedFor(s: State, sv: string, cpu: real, mem: real, h: HostId) {
    exists order ::
      && IsSorted(order, s.hosts.Keys, HostName) && order != []
      && FirstOk(order, |InstancesOf(s.instances, sv)| % |order|, x => Room(s, x, cpu, mem), h)
  }

  lemma Picked(s: State, sv: string, cpu: real, mem: real, order: seq<HostId>, j: nat)
    requires IsSorted(order, s.hosts.Keys, HostName) && j < |order|
    requires var start := |InstancesOf(s.instances, sv)| % |order|;
      Room(s, Turn(order, start, j), cpu, mem) && forall i :: 0 <= i < j ==> !Room(s, Turn(order, start, i), cpu, mem)
    ensures PickedFor(s, sv, cpu, mem, Turn(order, |InstancesOf(s.instances, sv)| % |order|, j))
  {
    hide IsSorted, Room, Turn;
    var start := |InstancesOf(s.instances, sv)| % |order|;
    assert FirstOk(order, start, x => Room(s, x, cpu, mem), Turn(order, start, j));
  }

  lemma SortedHosts(order: seq<HostId>, hosts: map<HostId, Host>)
    requires IsSorted(order, hosts.Keys, HostName)
    ensures forall h :: h in order <==> h in hosts
  {
    hide NoDuplicates, Sorted;
    assert forall h :: h in order <==> h in SetOf(order);
  }

  lemma RoomMeans(s: State, h: HostId, cpu: real, mem: real)
    requires h in s.hosts
    ensures Room(s, h, cpu, mem) <==> Fits(s.hosts[h], CpuOf(s.instances, On(s.byHost, h)) + cpu, MemOf(s.instances, On(s.byHost, h)) + mem)
  {
  }

  ghost predicate NoRoom(s: State, cpu: real, mem: real) {
    forall h :: h in s.hosts ==> !Room(s, h, cpu, mem)
  }

  /** Adding `count` instances one by one, until one finds no room, leads from `s` to `t`. */
  ghost predicate Adds(s: State, sv: string, cpu: real, mem: real, count: nat, t: State, ok: bool)
    decreases count
  {
    if count == 0 then ok && t == s
    else if NoRoom(s, cpu, mem) then !ok && t == s
    else exists h :: PickedFor(s, sv, cpu, mem, h) && Adds(Placed(s, sv, h, cpu, mem), sv, cpu, mem, count - 1, t, ok)
  }

  ghost predicate AddsOn(first: State, all: nat, s: State, left: nat, sv: string, cpu: real, mem: real) {
    forall t, ok :: Adds(s, sv, cpu, mem, left, t, ok) ==> Adds(first, sv, cpu, mem, all, t, ok)
  }

  lemma AddOne(first: State, all: nat, s: State, left: nat, sv: string, cpu: real, mem: real, h: HostId)
    requires left > 0 && AddsOn(first, all, s, left, sv, cpu, mem) && PickedFor(s, sv, cpu, mem, h)
    ensures AddsOn(first, all, Placed(s, sv, h, cpu, mem), left - 1, sv, cpu, mem)
  {
    hide PickedFor, Room;
    PickedHasRoom(s, sv, cpu, mem, h);
    forall t, ok | Adds(Placed(s, sv, h, cpu, mem), sv, cpu, mem, left - 1, t, ok) ensures Adds(first, sv, cpu, mem, all, t, ok) {
      assert Adds(s, sv, cpu, mem, left, t, ok);
    }
  }

  lemma AddsNot(first: State, all: nat, s: State, left: nat, sv: string, cpu: real, mem: real)
    requires left > 0 && AddsOn(first, all, s, left, sv, cpu, mem) && NoRoom(s, cpu, mem)
    ensures Adds(first, sv, cpu, mem, all, s, false)
  {
    hide NoRoom;
    assert Adds(s, sv, cpu, mem, left, s, false);
  }

  lemma AddsAll(first: State, all: nat, s: State, sv: string, cpu: real, mem: real)
    requires AddsOn(first, all, s, 0, sv, cpu, mem)
    ensures Adds(first, sv, cpu, mem, all, s, true)
  {
    assert Adds(s, sv, cpu, mem, 0, s, true);
  }

  lemma PickedHasRoom(s: State, sv: string, cpu: real, mem: real, h: HostId)
    requires PickedFor(s, sv, cpu, mem, h)
    ensures h in s.hosts && Room(s, h, cpu, mem) && !NoRoom(s, cpu, mem)
  {
    hide Fits;
  }

  /** The IDs handed out between two values of the counter. */
  ghost function Fresh(sv: string, from: nat, to: nat): set<Id> {
    set n | from <= n < to :: Id(sv, n)
  }

  lemma {:induction false} FreshSize(sv: string, from: nat, to: nat)
    requires from <= to
    ensures |Fresh(sv, from, to)| == to - from
  {
    if from < to {
      FreshSize(sv, from, to - 1);
      assert Fresh(sv, from, to) == Fresh(sv, from, to - 1) + {Id(sv, to - 1)};
    }
  }

  /** Instances of one service were added, under IDs that may have been taken. */
  ghost predicate AddedTo(s: State, t: State, sv: string) {
    && t == s.(instances := t.instances, byHost := t.byHost, next := t.next) && s.next <= t.next
    && t.instances.Keys == s.instances.Keys + Fresh(sv, s.next, t.next)
    && (forall id :: id in s.instances && id !in Fresh(sv, s.next, t.next) ==> t.instances[id] == s.instances[id])
    && ActiveOf(t.instances, sv) == ActiveOf(s.instances, sv) + Fresh(sv, s.next, t.next)
  }

  lemma PlacedAdds(s: State, sv: string, h: HostId, cpu: real, mem: real)
    ensures AddedTo(s, Placed(s, sv, h, cpu, mem), sv)
  {
    var t := Placed(s, sv, h, cpu, mem);
    assert Fresh(sv, s.next, t.next) == {Id(sv, s.next)};
  }

  lemma AddedOn(s: State, t: State, u: State, sv: string)
    requires AddedTo(s, t, sv) && AddedTo(t, u, sv)
    ensures AddedTo(s, u, sv)
  {
    hide ActiveOf;
    assert Fresh(sv, s.next, u.next) == Fresh(sv, s.next, t.next) + Fresh(sv, t.next, u.next);
    forall id | id in s.instances && id !in Fresh(sv, s.next, u.next) ensures u.instances[id] == s.instances[id] {
      assert id !in Fresh(sv, s.next, t.next) && id !in Fresh(sv, t.next, u.next);
    }
  }

  /** What adding instances comes to: the counter tells how many were placed. */
  lemma {:induction false} AddsMeans(s: State, sv: string, cpu: real, mem: real, count: nat, t: State, ok: bool)
    requires Adds(s, sv, cpu, mem, count, t, ok)
    ensures AddedTo(s, t, sv) && t.next <= s.next + count && (ok <==> t.next == s.next + count)
    decreases count
  {
    hide AddedTo, PickedFor, Room, Placed;
    if count == 0 || NoRoom(s, cpu, mem) {
      NothingAdded(s, sv);
    } else {
      var h :| PickedFor(s, sv, cpu, mem, h) && Adds(Placed(s, sv, h, cpu, mem), sv, cpu, mem, count - 1, t, ok);
      var u := Placed(s, sv, h, cpu, mem);
      AddsMeans(u, sv, cpu, mem, count - 1, t, ok);
      PlacedAdds(s, sv, h, cpu, mem);
      assert u.next == s.next + 1 by { PlacedNext(s, sv, h, cpu, mem); }
      AddedOn(s, u, t, sv);
    }
  }

  lemma PlacedNext(s: State, sv: string, h: HostId, cpu: real, mem: real)
    ensures Placed(s, sv, h, cpu, mem).next == s.next + 1
  {
  }

  lemma NothingAdded(s: State, sv: string)
    ensures AddedTo(s, s, sv)
  {
    assert Fresh(sv, s.next, s.next) == {};
  }

  /** The number of active instances grows by the number placed if and only if no ID handed
      out belonged to one of them. */
  lemma CountExactly(s: State, t: State, sv: string)
    requires AddedTo(s, t, sv)
    ensures |ActiveOf(t.instances, sv)| <= |ActiveOf(s.instances, sv)| + (t.next - s.next)
    ensures |ActiveOf(t.instances, sv)| == |ActiveOf(s.instances, sv)| + (t.next - s.next) <==> Fresh(sv, s.next, t.next) !! ActiveOf(s.instances, sv)
  {
    hide ActiveOf;
    FreshSize(sv, s.next, t.next);
    UnionSize(ActiveOf(s.instances, sv), Fresh(sv, s.next, t.next));
  }

  lemma UnionSize<T(!new)>(a: set<T>, b: set<T>)
    ensures |a + b| <= |a| + |b|
    ensures |a + b| == |a| + |b| <==> a !! b
  {
    assert |a + b| == |a| + |b - a| by { assert a + b == a + (b - a); }
    assert b == (b - a) + (a * b) && |b| == |b - a| + |a * b|;
    assert a !! b <==> a * b == {};
  }

  lemma TidyIsFresh(s: State, sv: string, to: nat)
    requires Tidy(s)
    ensures Fresh(sv, s.next, to) !! s.instances.Keys && Fresh(sv, s.next, to) !! ActiveOf(s.instances, sv)
  {
    hide TableOk;
  }

  /** Instances of one service were added and nothing else changed. */
  ghost predicate Grew(m: map<Id, Instance>, m': map<Id, Instance>, sv: string) {
    && (forall id :: id in m ==> id in m' && m'[id] == m[id])
    && (forall id :: id in m' && id !in m ==> id.service == sv)
  }

  lemma AddedGrew(s: State, t: State, sv: string)
    requires AddedTo(s, t, sv) && Tidy(s)
    ensures Grew(s.instances, t.instances, sv)
  {
    hide ActiveOf;
    TidyIsFresh(s, sv, t.next);
  }

  /** Instances of other services are as they were and no instance is gone. */
  ghost predicate OthersKept(m: map<Id, Instance>, m': map<Id, Instance>, sv: string) {
    forall id :: id in m ==> id in m' && (id.service != sv ==> m'[id] == m[id])
  }

  lemma OthersAdded(s: State, t: State, sv: string)
    requires AddedTo(s, t, sv)
    ensures OthersKept(s.instances, t.instances, sv)
  {
    hide ActiveOf;
    assert forall id :: id in Fresh(sv, s.next, t.next) ==> id.service == sv;
  }

  lemma OthersDrained(s: State, sv: string, ids: set<Id>, deadline: int)
    requires forall id :: id in ids ==> id.service == sv
    ensures OthersKept(s.instances, Drained(s, ids, deadline).instances, sv)
  {
  }

  lemma UnchangedGrew(s: State, sv: string)
    ensures Grew(s.instances, s.instances, sv) && OthersKept(s.instances, s.instances, sv)
  {
  }

  /** What scaling a service does to everything but the cache: a service has its active
      instances in the order of their names, and new ones are like the first. */
  ghost predicate Scales(s: State, sv: string, replicas: nat, deadline: int, t: State, ok: bool) {
    exists active :: IsSorted(active, ActiveOf(s.instances, sv), IdName) && ScalesFrom(s, sv, active, replicas, deadline, t, ok)
  }

  ghost predicate ScalesFrom(s: State, sv: string, active: seq<Id>, replicas: nat, deadline: int, t: State, ok: bool) {
    if replicas <= |active| then
      ok && t == if replicas < |active| then Drained(s, SetOf(active[replicas..]), deadline) else s
    else
      |active| > 0 && active[0] in s.instances && Adds(s, sv, s.instances[active[0]].cpu, s.instances[active[0]].mem, replicas - |active|, t, ok)
  }

  lemma DrainedAre(s: State, sv: string, active: seq<Id>, keep: nat, deadline: int)
    requires IsSorted(active, ActiveOf(s.instances, sv), IdName) && keep <= |active|
    ensures var t := Drained(s, SetOf(active[keep..]), deadline);
      forall i :: keep <= i < |active| ==> active[i] in t.instances && t.instances[active[i]].draining && t.instances[active[i]].deadline == deadline
  {
    forall i | keep <= i < |active| ensures active[i] in SetOf(active[keep..]) && active[i] in s.instances {
      assert active[keep..][i - keep] == active[i];
      assert active[i] in SetOf(active);
    }
  }

  lemma ScaledUp(s: State, past: Past, sv: string, active: seq<Id>, replicas: nat, deadline: int, t: State, ok: bool)
    requires Base(s, past) && IsSorted(active, ActiveOf(s.instances, sv), IdName) && 0 < |active| < replicas && active[0] in s.instances
    requires Adds(s, sv, s.instances[active[0]].cpu, s.instances[active[0]].mem, replicas - |active|, t, ok)
    ensures Scales(s, sv, replicas, deadline, t, ok) && t.hosts == s.hosts && OthersKept(s.instances, t.instances, sv)
    ensures ok && !past.startFailed ==> |ActiveOf(t.instances, sv)| == replicas
    ensures !past.startFailed ==> Grew(s.instances, t.instances, sv)
  {
    hide Adds, ActiveOf, Base, Tidy, Sorted, NoDuplicates, OthersKept, Grew;
    AddsMeans(s, sv, s.instances[active[0]].cpu, s.instances[active[0]].mem, replicas - |active|, t, ok);
    OthersAdded(s, t, sv);
    SizeOf(active);
    if !past.startFailed {
      BaseTidy(s, past);
      TidyIsFresh(s, sv, t.next);
      CountExactly(s, t, sv);
      AddedGrew(s, t, sv);
    }
  }

  lemma ScaledDown(s: State, sv: string, active: seq<Id>, replicas: nat, deadline: int, t: State)
    requires IsSorted(active, ActiveOf(s.instances, sv), IdName) && replicas < |active|
    requires t == Drained(s, SetOf(active[replicas..]), deadline)
    ensures Scales(s, sv, replicas, deadline, t, true) && t.hosts == s.hosts && OthersKept(s.instances, t.instances, sv)
    ensures |SetOf(active[..replicas])| == replicas
  {
    hide ActiveOf, Sorted, OthersKept, Drained;
    KeepsFirst(active, replicas);
    SizeOf(active[..replicas]);
    assert forall id :: id in SetOf(active[replicas..]) ==> id in SetOf(active);
    ActiveServes(s.instances, sv);
    OthersDrained(s, sv, SetOf(active[replicas..]), deadline);
    DrainedHosts(s, SetOf(active[replicas..]), deadline);
  }

  lemma ActiveServes(instances: map<Id, Instance>, sv: string)
    ensures forall id :: id in ActiveOf(instances, sv) ==> id in instances && IsActive(instances, id) && id.service == sv
  {
  }

  lemma DrainedHosts(s: State, ids: set<Id>, deadline: int)
    ensures Drained(s, ids, deadline).hosts == s.hosts
  {
  }

  lemma SomeActive(s: State, past: Past, sv: string, active: seq<Id>, deadline: int)
    requires Sound(s, past) && InstancesOf(s.instances, sv) != {} && IsSorted(active, ActiveOf(s.instances, sv), IdName)
    ensures |active| > 0 && IsActive(s.instances, active[0]) && active[0].service == sv && Base(s, past)
    ensures |ActiveOf(s.instances, sv)| == |active| && Scales(s, sv, |active|, deadline, s, true)
  {
    hide Base, CacheOk, RoutableOk, NoDuplicates, Sorted;
    HasActive(s, past, sv);
    SizeOf(active);
    var a :| a in ActiveOf(s.instances, sv);
    assert a in SetOf(active) && active[0] in SetOf(active);
  }

  lemma TemplateOk(s: State, past: Past, id: Id)
    requires Sound(s, past) && id in s.instances
    ensures Base(s, past) && CacheOk(s.instances, s.cache, s.cursor) && id.service in past.ever
    ensures Fitting(past) ==> s.instances[id].cpu >= 0.0 && s.instances[id].mem >= 0.0
    ensures past.mixed || SameAmounts(s.instances, id.service, s.instances[id].cpu, s.instances[id].mem)
    ensures !past.startFailed ==> RoutableOk(s.cache, past.ever)
  {
    hide PlacedOk, SizesOk, CapacityOk, TableOk, CacheOk, RoutableOk, LooseOk, SameAmounts;
  }

  // --- Draining -------------------------------------------------------------------

  lemma KeepsFirst(ids: seq<Id>, keep: nat)
    requires NoDuplicates(ids) && keep <= |ids|
    ensures SetOf(ids[..keep]) == SetOf(ids) - SetOf(ids[keep..]) && NoDuplicates(ids[..keep])
    ensures forall id :: id in ids[..keep] ==> id !in ids[keep..]
    ensures keep > 0 ==> ids[0] in ids[..keep]
  {
    assert ids == ids[..keep] + ids[keep..];
  }

  lemma DrainNone(s: State, deadline: int)
    ensures Drained(s, SetOf([]), deadline) == s
  {
    assert Drained(s, SetOf([]), deadline).instances == s.instances;
  }

  lemma DrainOne(s: State, ids: seq<Id>, id: Id, deadline: int)
    requires id in s.instances
    ensures var t, u := Drained(s, SetOf(ids), deadline), Drained(s, SetOf(ids + [id]), deadline);
      id in t.instances && u == t.(instances := t.instances[id := t.instances[id].(draining := true, deadline := deadline)])
  {
  }

  /** Draining all but the first `keep` active instances keeps the invariant and leaves those. */
  lemma DrainsAll(s: State, past: Past, sv: string, active: seq<Id>, keep: nat, deadline: int)
    requires Base(s, past) && IsSorted(active, ActiveOf(s.instances, sv), IdName) && 1 <= keep < |active|
    ensures forall i :: 0 <= i < |active| ==> active[i] in s.instances
    ensures var t := Drained(s, SetOf(active[keep..]), deadline);
      && Base(t, past) && t == s.(instances := t.instances) && ActiveOf(t.instances, sv) == SetOf(active[..keep])
      && forall i :: keep <= i < |active| ==> active[i] in t.instances && t.instances[active[i]].draining && t.instances[active[i]].deadline == deadline
  {
    hide Base, NoDuplicates, Sorted;
    DrainedAre(s, sv, active, keep, deadline);
    KeepsFirst(active, keep);
    assert forall i :: 0 <= i < |active| ==> active[i] in SetOf(active);
    assert forall id :: id in SetOf(active[keep..]) ==> id in SetOf(active);
    DrainKeeps(s, past, sv, SetOf(active[keep..]), deadline, active[0]);
  }

  lemma HasActive(s: State, past: Past, sv: string)
    requires Base(s, past) && InstancesOf(s.instances, sv) != {}
    ensures ActiveOf(s.instances, sv) != {}
  {
    hide PlacedOk, SizesOk, Tidy, Roomy;
    var id :| id in InstancesOf(s.instances, sv);
    assert Served(s.instances, sv);
    var a :| IsActive(s.instances, a) && a.service == sv;
    assert a in ActiveOf(s.instances, sv);
  }

  predicate Idle(i: Instance) { i.active == 0 && i.queue == [] }

  predicate TimedOut(i: Instance, simTime: int) { i.deadline != 0 && simTime >= i.deadline }

  predicate Evicted(i: Instance, simTime: int) { i.draining && !Idle(i) && TimedOut(i, simTime) }

  ghost function Remaining(m: map<Id, Instance>, simTime: int): map<Id, Instance> {
    map id | id in m && !(m[id].draining && (Idle(m[id]) || TimedOut(m[id], simTime))) :: m[id]
  }

  lemma RemainingAre(m: map<Id, Instance>, simTime: int)
    ensures forall id :: id in m ==>
      var i := m[id];
      if i.draining && ((i.active == 0 && i.queue == []) || (i.deadline != 0 && simTime >= i.deadline)) then id !in Remaining(m, simTime)
      else id in Remaining(m, simTime) && Remaining(m, simTime)[id] == i
  {
  }

  function NonEmpty(queue: seq<string>): (r: seq<string>)
    ensures forall q :: q in r <==> q in queue && q != ""
  {
    if queue == [] then [] else NonEmpty(queue[..|queue| - 1]) + if queue[|queue| - 1] != "" then [queue[|queue| - 1]] else []
  }

  ghost predicate IsEvictedQueue(m: map<Id, Instance>, ids: set<Id>, q: string) {
    q != "" && exists id :: id in ids && id in m && q in m[id].queue
  }

  lemma EvictOne(m: map<Id, Instance>, ids: set<Id>, id: Id)
    requires id in m
    ensures forall q :: IsEvictedQueue(m, ids + {id}, q) <==> IsEvictedQueue(m, ids, q) || (q != "" && q in m[id].queue)
  {
  }

  /** The draining instances `ids` were removed and everything else is as in `s`. */
  ghost predicate Gone(s: State, past: Past, t: State, ids: set<Id>) {
    Sound(t, past) && t == s.(instances := s.instances - ids, byHost := t.byHost)
  }

  lemma GoneOne(s: State, past: Past, t: State, ids: set<Id>, id: Id)
    requires Gone(s, past, t, ids) && id in s.instances && s.instances[id].draining && id !in ids
    ensures id in t.instances && t.instances[id] == s.instances[id] && Gone(s, past, Removed(t, id), ids + {id})
  {
    hide Base, CacheOk, RoutableOk;
    RemoveKeeps(t, past, id);
    assert s.instances - ids - {id} == s.instances - (ids + {id});
  }

  lemma AllGone(s: State, past: Past, t: State, ids: set<Id>, simTime: int)
    requires Gone(s, past, t, ids)
    requires forall id :: id in ids <==> id in s.instances && s.instances[id].draining && (Idle(s.instances[id]) || TimedOut(s.instances[id], simTime))
    ensures t.instances == Remaining(s.instances, simTime) && t.hosts == s.hosts && Sound(t, past) && Base(t, past)
  {
    hide Base, CacheOk, RoutableOk;
  }

  lemma EvictedQueues(m: map<Id, Instance>, ids: set<Id>, simTime: int)
    requires forall id :: id in ids <==> id in m && Evicted(m[id], simTime)
    ensures forall q :: IsEvictedQueue(m, ids, q) <==> q != "" && exists id :: id in m && Evicted(m[id], simTime) && q in m[id].queue
  {
  }

  lemma NoneGone(s: State, past: Past)
    requires Sound(s, past)
    ensures Gone(s, past, s, {}) && forall q :: !IsEvictedQueue(s.instances, {}, q)
  {
    hide Sound;
    assert s.instances - {} == s.instances;
  }

  // --- The routing cache ----------------------------------------------------------

  /** The listing has exactly the active instances outside `todo`, once each. */
  ghost predicate ListsBut(instances: map<Id, Instance>, listing: map<string, seq<Id>>, todo: set<Id>) {
    && (forall sv :: sv in listing ==> |listing[sv]| > 0 && NoDuplicates(listing[sv]))
    && (forall sv, id :: sv in listing && id in listing[sv] ==> IsActive(instances, id) && id.service == sv && id !in todo)
    && (forall id :: IsActive(instances, id) && id !in todo ==> id.service in listing && id in listing[id.service])
  }

  function Listed(listing: map<string, seq<Id>>, id: Id): map<string, seq<Id>> {
    listing[id.service := (if id.service in listing then listing[id.service] else []) + [id]]
  }

  lemma NothingListed(instances: map<Id, Instance>)
    ensures ListsBut(instances, map[], instances.Keys)
  {
  }

  lemma ListOne(instances: map<Id, Instance>, listing: map<string, seq<Id>>, todo: set<Id>, id: Id)
    requires ListsBut(instances, listing, todo + {id}) && id in instances && id !in todo
    ensures instances[id].draining ==> ListsBut(instances, listing, todo)
    ensures !instances[id].draining ==> ListsBut(instances, Listed(listing, id), todo)
  {
    var t := Listed(listing, id);
    if !instances[id].draining {
      forall sv | sv in t ensures |t[sv]| > 0 && NoDuplicates(t[sv]) {
      }
      forall sv, x | sv in t && x in t[sv] ensures IsActive(instances, x) && x.service == sv && x !in todo {
      }
      forall x | IsActive(instances, x) && x !in todo ensures x.service in t && x in t[x.service] {
      }
    }
  }

  lemma ListedActive(instances: map<Id, Instance>, listing: map<string, seq<Id>>)
    requires ListsBut(instances, listing, {})
    ensures forall sv :: sv in listing ==> SetOf(listing[sv]) == ActiveOf(instances, sv) && ActiveOf(instances, sv) != {}
    ensures forall sv :: sv in listing <==> ActiveOf(instances, sv) != {}
  {
    hide NoDuplicates;
    forall sv | sv in listing ensures SetOf(listing[sv]) == ActiveOf(instances, sv) && ActiveOf(instances, sv) != {} {
      forall id ensures id in SetOf(listing[sv]) <==> id in ActiveOf(instances, sv) {
        assert IsActive(instances, id) && id.service == sv <==> id in listing[sv];
      }
      assert listing[sv][0] in SetOf(listing[sv]);
    }
    forall sv | ActiveOf(instances, sv) != {} ensures sv in listing {
      var id :| id in ActiveOf(instances, sv);
      assert IsActive(instances, id);
    }
  }

  /** Only the services in `todo` are not yet sorted. */
  ghost predicate SortedBut(instances: map<Id, Instance>, listing: map<string, seq<Id>>, todo: set<string>) {
    && (forall sv :: sv in listing <==> ActiveOf(instances, sv) != {})
    && (forall sv :: sv in listing ==> |listing[sv]| > 0 && SetOf(listing[sv]) == ActiveOf(instances, sv))
    && (forall sv :: sv in listing && sv !in todo ==> IsSorted(listing[sv], ActiveOf(instances, sv), IdName))
  }

  lemma SortNone(instances: map<Id, Instance>, listing: map<string, seq<Id>>)
    requires ListsBut(instances, listing, {})
    ensures SortedBut(instances, listing, listing.Keys)
  {
    hide ActiveOf;
    ListedActive(instances, listing);
  }

  lemma SortOne(instances: map<Id, Instance>, listing: map<string, seq<Id>>, todo: set<string>, sv: string, ids: seq<Id>)
    requires SortedBut(instances, listing, todo) && sv in listing && IsSorted(ids, SetOf(listing[sv]), IdName)
    ensures SortedBut(instances, listing[sv := ids], todo - {sv}) && |ids| > 0
  {
    hide ActiveOf, Sorted, NoDuplicates;
    assert listing[sv][0] in SetOf(listing[sv]);
  }

  lemma SortedAll(instances: map<Id, Instance>, listing: map<string, seq<Id>>)
    requires SortedBut(instances, listing, {})
    ensures Lists(instances, listing)
  {
    hide ActiveOf, Sorted, NoDuplicates;
  }

  lemma SameBase(s: State, past: Past, t: State)
    requires Base(s, past) && t == s.(cache := t.cache, cursor := t.cursor)
    ensures Base(t, past)
  {
    hide PlacedOk, SizesOk, ServedOk, TableOk, CapacityOk, LooseOk, UniformOk;
  }

  lemma ServedAll(s: State, past: Past)
    requires Base(s, past)
    ensures ServedOk(s.instances, past.ever)
  {
    hide ServedOk;
  }

  lemma BaseTidy(s: State, past: Past)
    requires Base(s, past) && !past.startFailed
    ensures Tidy(s)
  {
    hide Tidy, PlacedOk, SizesOk, ServedOk;
  }

  // --- Service sizes --------------------------------------------------------------

  function Headroom(mb: real): real { if mb <= 0.0 then DEFAULT_HEADROOM else mb }

  /** Would the new amounts take CPU from a busy instance, or memory it uses or keeps as headroom? */
  predicate Cuts(i: Instance, cpu: real, mem: real, headroom: real) {
    || (cpu > 0.0 && cpu + CPU_EPS < i.cpu && (i.active != 0 || i.queue != []))
    || (mem > 0.0 && mem + CPU_EPS < i.mem && mem + CPU_EPS < i.activeMem + headroom)
  }

  ghost predicate StillFits(s: State, h: HostId, sv: string, cpu: real, mem: real)
    requires h in s.hosts
  {
    HostOk(s.hosts[h], ResizedAll(s.instances, sv, cpu, mem), On(s.byHost, h))
  }

  ghost predicate MayResize(s: State, sv: string, cpu: real, mem: real, headroom: real) {
    && cpu >= 0.0 && mem >= 0.0
    && InstancesOf(s.instances, sv) != {}
    && (forall id :: id in s.instances && id.service == sv ==> !Cuts(s.instances[id], cpu, mem, headroom))
    && (forall h :: h in s.hosts ==> StillFits(s, h, sv, cpu, mem))
  }

  /** No busy instance has lost CPU, and no instance has lost memory that it uses or keeps as
      headroom. */
  predicate NothingLost(was: Instance, got: Instance, headroom: real) {
    && (got.cpu >= was.cpu - CPU_EPS || (was.active == 0 && was.queue == []))
    && (got.mem >= was.mem - CPU_EPS || got.mem >= was.activeMem + headroom - CPU_EPS)
  }

  predicate WithinHost(h: Host, cpu: real, mem: real) {
    cpu <= h.cores as real + CPU_EPS && mem <= h.memGB as real * 1024.0 + MEM_EPS
  }

  /** The instances have the given amounts where these are positive, and nothing else changed. */
  ghost predicate HaveAmounts(was: map<Id, Instance>, got: map<Id, Instance>, sv: string, cpu: real, mem: real) {
    && got.Keys == was.Keys
    && forall id :: id in was ==>
         && got[id] == was[id].(cpu := got[id].cpu, mem := got[id].mem)
         && got[id].cpu == (if id.service == sv && cpu > 0.0 then cpu else was[id].cpu)
         && got[id].mem == (if id.service == sv && mem > 0.0 then mem else was[id].mem)
  }

  /** A resize is allowed if and only if the instances with the new amounts have lost nothing
      and every host carries them. */
  lemma ResizeExactly(s: State, past: Past, sv: string, cpu: real, mem: real, headroom: real, got: map<Id, Instance>)
    requires Sound(s, past) && HaveAmounts(s.instances, got, sv, cpu, mem)
    ensures got == ResizedAll(s.instances, sv, cpu, mem)
    ensures MayResize(s, sv, cpu, mem, headroom) <==>
      && cpu >= 0.0 && mem >= 0.0 && (exists id :: id in s.instances && id.service == sv)
      && (forall id :: id in s.instances && id.service == sv ==> NothingLost(s.instances[id], got[id], headroom))
      && (forall h :: h in s.hosts ==> WithinHost(s.hosts[h], CpuOf(got, On(s.byHost, h)), MemOf(got, On(s.byHost, h))))
  {
    hide Sound, CpuOf, MemOf;
    assert got == ResizedAll(s.instances, sv, cpu, mem);
    if cpu >= 0.0 && mem >= 0.0 {
      forall id | id in s.instances && id.service == sv
        ensures Cuts(s.instances[id], cpu, mem, headroom) <==> !NothingLost(s.instances[id], got[id], headroom) {
      }
      hide Cuts, NothingLost;
      forall h | h in s.hosts ensures StillFits(s, h, sv, cpu, mem) <==> WithinHost(s.hosts[h], CpuOf(got, On(s.byHost, h)), MemOf(got, On(s.byHost, h))) {
        FitsMeans(s, past, h, sv, cpu, mem);
      }
      assert InstancesOf(s.instances, sv) != {} <==> exists id :: id in s.instances && id.service == sv by {
        if id :| id in s.instances && id.service == sv { assert id in InstancesOf(s.instances, sv); }
        if id :| id in InstancesOf(s.instances, sv) { assert id in s.instances && id.service == sv; }
      }
    }
  }

  lemma AmountsGiven(m: map<Id, Instance>, sv: string, cpu: real, mem: real)
    ensures HaveAmounts(m, ResizedAll(m, sv, cpu, mem), sv, cpu, mem)
  {
  }

  lemma FitsMeans(s: State, past: Past, h: HostId, sv: string, cpu: real, mem: real)
    requires Sound(s, past) && h in s.hosts
    ensures s.hosts[h].cores > 0 && s.hosts[h].memGB > 0
    ensures On(s.byHost, h) == [] ==> StillFits(s, h, sv, cpu, mem)
    ensures var m := ResizedAll(s.instances, sv, cpu, mem);
      StillFits(s, h, sv, cpu, mem) <==>
        && CpuOf(m, On(s.byHost, h)) <= s.hosts[h].cores as real + CPU_EPS
        && MemOf(m, On(s.byHost, h)) <= s.hosts[h].memGB as real * 1024.0 + MEM_EPS
  {
    hide PlacedOk, Tidy, ServedOk, CacheOk, RoutableOk, Roomy;
  }

  lemma ResizeSound(s: State, past: Past, sv: string, cpu: real, mem: real)
    requires Sound(s, past) && forall h :: h in s.hosts ==> StillFits(s, h, sv, cpu, mem)
    ensures Sound(s.(instances := ResizedAll(s.instances, sv, cpu, mem)), past)
  {
    hide Base, CacheOk, HostOk;
    assert forall h :: h in s.hosts && StillFits(s, h, sv, cpu, mem) ==> HostOk(s.hosts[h], ResizedAll(s.instances, sv, cpu, mem), On(s.byHost, h));
    ResizeKeeps(s, past, sv, cpu, mem);
  }

  // --- Host sizes -----------------------------------------------------------------

  predicate SameSize(a: Host, b: Host) { a.cores == b.cores && a.memGB == b.memGB }

  ghost function AutosFrom(ids: set<HostId>, n: nat): set<HostId> {
    set h | h in ids && h.Auto? && h.n >= n
  }

  lemma HostSizes(s: State, past: Past, h: HostId)
    requires Sound(s, past) && h in s.hosts
    ensures s.hosts[h].cores >= 1 && s.hosts[h].memGB >= 1
    ensures Fitting(past) ==> HostOk(s.hosts[h], s.instances, On(s.byHost, h))
  {
    hide PlacedOk, Tidy, ServedOk, HostOk, CacheOk;
  }

  lemma AddHostKeeps(s: State, past: Past, h: HostId, host: Host)
    requires Sound(s, past) && h !in s.hosts && host.cores >= 1 && host.memGB >= 1
    ensures Sound(s.(hosts := s.hosts[h := host]), past)
  {
    hide ServedOk, CacheOk, RoutableOk, Tidy;
    assert h !in s.byHost;
    HostsKeep(s, past, s.hosts[h := host], s.byHost);
  }

  lemma DropHostKeeps(s: State, past: Past, h: HostId)
    requires Sound(s, past) && h in s.hosts && On(s.byHost, h) == []
    ensures Sound(s.(hosts := s.hosts - {h}, byHost := s.byHost - {h}), past)
  {
    hide ServedOk, CacheOk, RoutableOk, HostOk, Tidy;
    HostsKeep(s, past, s.hosts - {h}, s.byHost - {h});
  }

  function Enlarged(h: Host, cpuDelta: int, memDelta: int): Host {
    h.(cores := if cpuDelta > 0 then h.cores + cpuDelta else h.cores, memGB := if memDelta > 0 then h.memGB + memDelta else h.memGB)
  }

  lemma EnlargedNot(hosts: map<HostId, Host>, cpuDelta: int, memDelta: int)
    requires cpuDelta <= 0 && memDelta <= 0
    ensures hosts == map h | h in hosts :: Enlarged(hosts[h], cpuDelta, memDelta)
  {
  }

  lemma EnlargeKeeps(s: State, past: Past, cpuDelta: int, memDelta: int)
    requires Sound(s, past)
    ensures Sound(s.(hosts := map h | h in s.hosts :: Enlarged(s.hosts[h], cpuDelta, memDelta)), past)
  {
    hide ServedOk, CacheOk, RoutableOk, CpuOf, MemOf, Tidy;
    var hosts := map h | h in s.hosts :: Enlarged(s.hosts[h], cpuDelta, memDelta);
    forall h | h in hosts && HostOk(s.hosts[h], s.instances, On(s.byHost, h)) ensures HostOk(hosts[h], s.instances, On(s.byHost, h)) {
    }
    HostsKeep(s, past, hosts, s.byHost);
  }

  lemma EnlargedBy(hosts: map<HostId, Host>, cpuDelta: int, memDelta: int)
    ensures forall h :: h in hosts ==>
      var e := Enlarged(hosts[h], cpuDelta, memDelta);
      && e.cores == hosts[h].cores + (if cpuDelta > 0 then cpuDelta else 0)
      && e.memGB == hosts[h].memGB + (if memDelta > 0 then memDelta else 0)
      && e.zone == hosts[h].zone
  {
  }

  function AtLeastOne(n: int): int { if n < 1 then 1 else n }

  /** The size a decrease is checked against; unlike the size it sets, it counts a positive change too. */
  function Checked(h: Host, cpuDelta: int, memDelta: int): Host {
    h.(cores := AtLeastOne(h.cores + cpuDelta), memGB := AtLeastOne(h.memGB + memDelta))
  }

  function Shrunk(h: Host, cpuDelta: int, memDelta: int): Host {
    h.(cores := if cpuDelta < 0 then AtLeastOne(h.cores + cpuDelta) else h.cores,
       memGB := if memDelta < 0 then AtLeastOne(h.memGB + memDelta) else h.memGB)
  }

  function ShrunkHosts(hosts: map<HostId, Host>, cpuDelta: int, memDelta: int): map<HostId, Host> {
    map h | h in hosts :: Shrunk(hosts[h], cpuDelta, memDelta)
  }

  ghost predicate FitsChecked(s: State, h: HostId, cpuDelta: int, memDelta: int)
    requires h in s.hosts
  {
    Fits(Checked(s.hosts[h], cpuDelta, memDelta), CpuOf(s.instances, On(s.byHost, h)), MemOf(s.instances, On(s.byHost, h)))
  }

  ghost predicate AllFit(s: State, cpuDelta: int, memDelta: int) {
    forall h :: h in s.hosts ==> FitsChecked(s, h, cpuDelta, memDelta)
  }

  /** Only negative changes count, and a host keeps at least one core and one gigabyte. */
  predicate SmallerBy(was: Host, got: Host, cpuDelta: int, memDelta: int) {
    && got.zone == was.zone
    && (cpuDelta >= 0 ==> got.cores == was.cores) && (memDelta >= 0 ==> got.memGB == was.memGB)
    && (cpuDelta < 0 ==> got.cores >= 1 && (got.cores == was.cores + cpuDelta || (got.cores == 1 && was.cores + cpuDelta < 1)))
    && (memDelta < 0 ==> got.memGB >= 1 && (got.memGB == was.memGB + memDelta || (got.memGB == 1 && was.memGB + memDelta < 1)))
  }

  /** What is reserved on the host exceeds the size it would get. */
  ghost predicate TooSmall(s: State, h: HostId, cpuDelta: int, memDelta: int)
    requires h in s.hosts
  {
    var cpu, mem, cores, gb := CpuOf(s.instances, On(s.byHost, h)), MemOf(s.instances, On(s.byHost, h)), s.hosts[h].cores + cpuDelta, s.hosts[h].memGB + memDelta;
    || (cpu > cores as real + CPU_EPS && cpu > 1.0 + CPU_EPS)
    || (mem > gb as real * 1024.0 + MEM_EPS && mem > 1024.0 + MEM_EPS)
  }

  lemma ShrunkBy(s: State, cpuDelta: int, memDelta: int)
    ensures forall h :: h in s.hosts ==> SmallerBy(s.hosts[h], Shrunk(s.hosts[h], cpuDelta, memDelta), cpuDelta, memDelta)
    ensures forall h :: h in s.hosts ==> (FitsChecked(s, h, cpuDelta, memDelta) <==> !TooSmall(s, h, cpuDelta, memDelta))
  {
    hide CpuOf, MemOf;
  }

  lemma ShrunkNot(hosts: map<HostId, Host>, cpuDelta: int, memDelta: int)
    requires cpuDelta >= 0 && memDelta >= 0
    ensures ShrunkHosts(hosts, cpuDelta, memDelta) == hosts
  {
  }

  lemma ShrinkKeeps(s: State, past: Past, cpuDelta: int, memDelta: int)
    requires Sound(s, past) && AllFit(s, cpuDelta, memDelta)
    ensures Sound(s.(hosts := ShrunkHosts(s.hosts, cpuDelta, memDelta)), past)
  {
    hide ServedOk, CacheOk, RoutableOk, CpuOf, MemOf, Tidy;
    var hosts := ShrunkHosts(s.hosts, cpuDelta, memDelta);
    forall h | h in hosts && HostOk(s.hosts[h], s.instances, On(s.byHost, h)) ensures HostOk(hosts[h], s.instances, On(s.byHost, h)) {
      assert FitsChecked(s, h, cpuDelta, memDelta);
    }
    HostsKeep(s, past, hosts, s.byHost);
  }

  /** Is `g` removed before `h` when both are empty? */
  predicate GoesBefore(g: HostId, h: HostId) {
    g.Auto? && (h.Named? || g.n > h.n)
  }

  lemma {:induction false} FirstToGo(s: set<HostId>)
    requires s != {}
    ensures exists h :: h in s && forall g :: g in s ==> !GoesBefore(g, h)
    decreases |s|
  {
    hide GoesBefore;
    var x :| x in s;
    var rest := s - {x};
    NotBeforeItself(x);
    if rest == {} {
      assert s == {x} + rest;
    } else {
      FirstToGo(rest);
      var h :| h in rest && forall g :: g in rest ==> !GoesBefore(g, h);
      var best := if GoesBefore(x, h) then x else h;
      forall g | g in s ensures !GoesBefore(g, best) {
        if g in rest && best == x {
          NotBefore(g, h, x);
        }
      }
      assert best in s;
    }
  }

  lemma NotBeforeItself(h: HostId)
    ensures !GoesBefore(h, h)
  {
  }

  lemma NotBefore(g: HostId, h: HostId, x: HostId)
    requires !GoesBefore(g, h) && GoesBefore(x, h)
    ensures !GoesBefore(g, x)
  {
  }

  /** Some empty hosts of `s` were removed, none before another that should have gone first. */
  ghost predicate Thinned(s: State, past: Past, t: State, empty: set<HostId>) {
    && Sound(t, past) && t == s.(hosts := t.hosts, byHost := t.byHost)
    && (forall h :: h in t.hosts ==> h in s.hosts && t.hosts[h] == s.hosts[h])
    && (forall h :: On(t.byHost, h) == On(s.byHost, h))
    && (forall h :: h in empty <==> h in t.hosts && On(s.byHost, h) == [])
    && (forall h :: h in s.hosts && h !in t.hosts ==> On(s.byHost, h) == [])
    && (forall h, g :: h in s.hosts && h !in t.hosts && g in empty ==> !GoesBefore(g, h))
  }

  lemma NotThinned(s: State, past: Past, empty: set<HostId>)
    requires Sound(s, past) && empty == set h | h in s.hosts.Keys && On(s.byHost, h) == []
    ensures Thinned(s, past, s, empty)
  {
    hide Sound;
  }

  lemma ThinOne(s: State, past: Past, t: State, empty: set<HostId>, h: HostId)
    requires Thinned(s, past, t, empty) && h in empty && forall g :: g in empty ==> !GoesBefore(g, h)
    ensures h in t.hosts && Thinned(s, past, t.(hosts := t.hosts - {h}, byHost := t.byHost - {h}), empty - {h})
  {
    hide Sound, GoesBefore;
    DropHostKeeps(t, past, h);
  }

  lemma ThinnedMeans(s: State, past: Past, t: State, empty: set<HostId>)
    requires Thinned(s, past, t, empty)
    ensures Sound(t, past) && t == s.(hosts := t.hosts, byHost := t.byHost)
    ensures forall h :: h in t.hosts ==> h in s.hosts && t.hosts[h] == s.hosts[h]
    ensures forall h :: h in s.hosts && h !in t.hosts ==> On(s.byHost, h) == []
    ensures forall h, g :: h in s.hosts && h !in t.hosts && g in t.hosts && On(s.byHost, g) == [] ==> !GoesBefore(g, h)
  {
    hide Sound, GoesBefore;
  }

  lemma ActiveWith(m: map<Id, Instance>, id: Id, i: Instance, sv: string)
    requires id !in m && !i.draining
    ensures ActiveOf(m[id := i], sv) == ActiveOf(m, sv) + (if sv == id.service then {id} else {}) && id !in ActiveOf(m, sv)
  {
  }

  /** A placed replica is one more active instance of its service and of no other. */
  lemma PlacedActive(s: State, c: ServiceConfig, h: HostId)
    requires Tidy(s)
    ensures var t := PlacedReplica(s, c, h);
      && |ActiveOf(t.instances, c.id)| == |ActiveOf(s.instances, c.id)| + 1
      && forall other :: other != c.id ==> ActiveOf(t.instances, other) == ActiveOf(s.instances, other)
  {
    hide TableOk, ActiveOf;
    var t, id := PlacedReplica(s, c, h), Id(c.id, s.next);
    forall sv ensures ActiveOf(t.instances, sv) == ActiveOf(s.instances, sv) + (if sv == c.id then {id} else {}) && id !in ActiveOf(s.instances, sv) {
      ActiveWith(s.instances, id, NewInstance(h, CpuFor(c), MemFor(c)), sv);
    }
  }

  lemma PlacedSame(s: State, sv: string, h: HostId, cpu: real, mem: real)
    requires SameAmounts(s.instances, sv, cpu, mem)
    ensures SameAmounts(Placed(s, sv, h, cpu, mem).instances, sv, cpu, mem)
  {
  }

  // --- What a failed start and a negative reservation do --------------------------

  /** Adding a replica keeps the tables inverse to the placements if and only if its ID is not
      taken.  In a tidy state it never is; after a failed start, which leaves instances but
      a counter of zero, it can be. */
  lemma PlaceExactly(s: State, sv: string, h: HostId, cpu: real, mem: real)
    requires TableOk(s.instances, s.byHost) && PlacedOk(s.hosts, s.instances, s.byHost) && h in s.hosts
    ensures var t := Placed(s, sv, h, cpu, mem);
      TableOk(t.instances, t.byHost) <==> Id(sv, s.next) !in s.instances
  {
    var t, id := Placed(s, sv, h, cpu, mem), Id(sv, s.next);
    if id !in s.instances {
      PlaceKeepsTable(s, sv, h, cpu, mem);
    } else {
      var g := s.instances[id].host;
      assert id in On(s.byHost, g);
      if g == h {
        var n := |On(s.byHost, h)|;
        var i :| 0 <= i < n && On(s.byHost, h)[i] == id;
        assert t.byHost[h][i] == id && t.byHost[h][n] == id;
        assert !NoDuplicates(t.byHost[h]);
      } else {
        assert g in t.byHost && id in t.byHost[g] && t.instances[id].host == h;
      }
    }
  }

  /** A draining instance with the given reservation, in a state whose tables are in order,
      whose services are all served and whose hosts are not overcommitted. */
  ghost predicate MayGo(s: State, id: Id, cpu: real, mem: real) {
    && SizesOk(s.hosts) && PlacedOk(s.hosts, s.instances, s.byHost) && Tidy(s)
    && ServedOk(s.instances, set x | x in s.instances :: x.service)
    && CapacityOk(s.hosts, s.instances, s.byHost)
    && id in s.instances && s.instances[id].draining && s.instances[id].cpu == cpu && s.instances[id].mem == mem
  }

  ghost predicate LeavesRoom(s: State, id: Id) {
    id in s.instances && CapacityOk(Removed(s, id).hosts, Removed(s, id).instances, Removed(s, id).byHost)
  }

  /** Removing instances with a given reservation never overcommits a host if and only if the
      reservation is not negative. */
  lemma RemovalExactly(cpu: real, mem: real)
    ensures (forall s, id :: MayGo(s, id, cpu, mem) ==> LeavesRoom(s, id)) <==> cpu >= 0.0 && mem >= 0.0
  {
    hide MayGo, LeavesRoom;
    if cpu >= 0.0 && mem >= 0.0 {
      forall s, id | MayGo(s, id, cpu, mem) ensures LeavesRoom(s, id) {
        GoesQuietly(s, id, cpu, mem);
      }
    } else {
      HiddenLoad(cpu, mem);
      assert MayGo(Hiding(cpu, mem), Id("a", 0), cpu, mem) && !LeavesRoom(Hiding(cpu, mem), Id("a", 0));
    }
  }

  lemma GoesQuietly(s: State, id: Id, cpu: real, mem: real)
    requires MayGo(s, id, cpu, mem) && cpu >= 0.0 && mem >= 0.0
    ensures LeavesRoom(s, id)
  {
    hide PlacedOk, TableOk, CapacityOk, ServedOk, SizesOk;
    RemoveKeepsCapacity(s, id);
  }

  /** One host of one core and one gigabyte that a draining instance and another of the same
      service fill to the brim. */
  ghost function Hiding(cpu: real, mem: real): State {
    var h, a, b := Named("h"), Id("a", 0), Id("a", 1);
    State(map[h := Host(1, 1, "")],
          map[a := NewInstance(h, cpu, mem).(draining := true), b := NewInstance(h, 1.0 + CPU_EPS - cpu, 1024.0 + MEM_EPS - mem)],
          map[h := [a, b]], map[], map[], 2)
  }

  lemma HiddenLoad(cpu: real, mem: real)
    requires cpu < 0.0 || mem < 0.0
    ensures MayGo(Hiding(cpu, mem), Id("a", 0), cpu, mem) && !LeavesRoom(Hiding(cpu, mem), Id("a", 0))
  {
    hide CpuOf, MemOf, Removed;
    var s, h, a, b := Hiding(cpu, mem), Named("h"), Id("a", 0), Id("a", 1);
    SumOfTwo(s.instances, a, b);
    assert On(s.byHost, h) == [a, b];
    ServedBy(s.instances, b);
    RemovedSums(s, a);
    RemovedKeepsHosts(s, a);
    assert h in Removed(s, a).hosts && !HostOk(s.hosts[h], Removed(s, a).instances, On(Removed(s, a).byHost, h));
  }

  lemma RemovedKeepsHosts(s: State, id: Id)
    requires id in s.instances
    ensures Removed(s, id).hosts == s.hosts
  {
  }

  lemma SumOfTwo(m: map<Id, Instance>, a: Id, b: Id)
    requires a in m && b in m
    ensures CpuOf(m, [a, b]) == m[a].cpu + m[b].cpu && MemOf(m, [a, b]) == m[a].mem + m[b].mem
  {
    SumsWith(m, [], a);
    SumsWith(m, [a], b);
    assert [] + [a] == [a] && [a] + [b] == [a, b];
  }

  /** A state as a failed start leaves it, in which the next ID belongs to an instance with the
      first reservation, and the given host has room for the second. */
  ghost predicate MayReplace(s: State, sv: string, h: HostId, cpu: real, mem: real, cpu': real, mem': real) {
    && SizesOk(s.hosts) && PlacedOk(s.hosts, s.instances, s.byHost) && TableOk(s.instances, s.byHost) && Roomy(s)
    && Id(sv, s.next) in s.instances && s.instances[Id(sv, s.next)].cpu == cpu && s.instances[Id(sv, s.next)].mem == mem
    && Room(s, h, cpu', mem')
  }

  /** Handing out an ID that is taken never overcommits a host if and only if the new instance
      reserves no more than the one it replaces. */
  lemma ReplacementExactly(cpu: real, mem: real, cpu': real, mem': real)
    requires cpu >= 0.0 && mem >= 0.0 && cpu' >= 0.0 && mem' >= 0.0
    ensures (forall s, sv, h :: MayReplace(s, sv, h, cpu, mem, cpu', mem') ==> Roomy(Placed(s, sv, h, cpu', mem')))
      <==> cpu' <= cpu && mem' <= mem
  {
    hide MayReplace, Roomy, Placed;
    if cpu' <= cpu && mem' <= mem {
      forall s, sv, h | MayReplace(s, sv, h, cpu, mem, cpu', mem') ensures Roomy(Placed(s, sv, h, cpu', mem')) {
        ReplacesQuietly(s, sv, h, cpu, mem, cpu', mem');
      }
    } else {
      ReplacesLoudly(cpu, mem, cpu', mem');
      assert MayReplace(Brimful(cpu, mem, cpu', mem'), "a", Named("h"), cpu, mem, cpu', mem');
    }
  }

  lemma ReplacesQuietly(s: State, sv: string, h: HostId, cpu: real, mem: real, cpu': real, mem': real)
    requires MayReplace(s, sv, h, cpu, mem, cpu', mem') && 0.0 <= cpu' <= cpu && 0.0 <= mem' <= mem
    ensures Roomy(Placed(s, sv, h, cpu', mem'))
  {
    hide Roomy, Room, Placed, SizesOk, PlacedOk, NoDuplicates;
    PlaceKeepsCapacity(s, sv, h, cpu', mem');
  }

  /** Enough whole units for an amount. */
  ghost function Units(x: real): (n: int)
    requires x >= 0.0
    ensures n >= 1 && x <= n as real
  {
    x.Floor + 1
  }

  /** A host that an instance of `a` and one of `b` fill to the brim, and a host with room. */
  ghost function Brimful(cpu: real, mem: real, cpu': real, mem': real): State
    requires cpu >= 0.0 && mem >= 0.0 && cpu' >= 0.0 && mem' >= 0.0
  {
    var g, h, a, b := Named("g"), Named("h"), Id("a", 0), Id("b", 1);
    var full := Host(Units(cpu), Units(mem), "");
    State(map[g := full, h := Host(Units(cpu'), Units(mem'), "")],
          map[a := NewInstance(g, cpu, mem), b := NewInstance(g, full.cores as real + CPU_EPS - cpu, MemCapacity(full) + MEM_EPS - mem)],
          map[g := [a, b]], map[], map[], 0)
  }

  lemma ReplacesLoudly(cpu: real, mem: real, cpu': real, mem': real)
    requires cpu >= 0.0 && mem >= 0.0 && cpu' >= 0.0 && mem' >= 0.0 && !(cpu' <= cpu && mem' <= mem)
    ensures var s := Brimful(cpu, mem, cpu', mem');
      MayReplace(s, "a", Named("h"), cpu, mem, cpu', mem') && !Roomy(Placed(s, "a", Named("h"), cpu', mem'))
  {
    hide CpuOf, MemOf, Units;
    var s, g, h, a, b := Brimful(cpu, mem, cpu', mem'), Named("g"), Named("h"), Id("a", 0), Id("b", 1);
    var t := Placed(s, "a", h, cpu', mem');
    SumOfTwo(s.instances, a, b);
    SumOfTwo(t.instances, a, b);
    NoSum(s.instances);
    assert On(s.byHost, g) == [a, b] && On(t.byHost, g) == [a, b] && On(s.byHost, h) == [];
    assert g in t.hosts && !HostOk(t.hosts[g], t.instances, On(t.byHost, g));
  }

  lemma NoSum(m: map<Id, Instance>)
    ensures CpuOf(m, []) == 0.0 && MemOf(m, []) == 0.0
  {
  }
}
