/**
  The resource manager's tables: hosts, instances, the instances of each host, and the
  routing cache with its round-robin cursors.

  An instance ID is the service name and the value of a global counter.

  Some facts hold only of managers whose start did not fail, or whose scenario had no
  negative reservation, or no service listed with different reservations; a `Past` says
  which, and which services ever had an instance.
*/
module Cluster {
  import opened Orders

  const CPU_EPS := 0.000000001
  const MEM_EPS := 0.000001

  datatype Id = Id(service: string, n: nat)

  /** A host added by scaling out, "host-auto-n", or any other host. */
  datatype HostId = Auto(n: nat) | Named(name: string)

  function HostName(h: HostId): string {
    match h
    case Auto(n) => "host-auto-" + Digits(n)
    case Named(name) => name
  }

  function IdName(id: Id): string { id.service + "-instance-" + Digits(id.n) }

  datatype Host = Host(cores: int, memGB: int, zone: string)

  /** `deadline` matters while draining; the last three fields are the current load. */
  datatype Instance = Instance(
    host: HostId,
    cpu: real,
    mem: real,
    draining: bool,
    deadline: int,
    active: nat,
    queue: seq<string>,
    activeMem: real)

  datatype State = State(
    hosts: map<HostId, Host>,
    instances: map<Id, Instance>,
    byHost: map<HostId, seq<Id>>,
    cache: map<string, seq<Id>>,
    cursor: map<string, nat>,
    next: nat)

  datatype Past = Past(startFailed: bool, negative: bool, mixed: bool, ever: set<string>)

  function On(byHost: map<HostId, seq<Id>>, h: HostId): seq<Id> { if h in byHost then byHost[h] else [] }

  function At(cursor: map<string, nat>, sv: string): nat { if sv in cursor then cursor[sv] else 0 }

  // --- Reservations ---------------------------------------------------------------

  function CpuOf(instances: map<Id, Instance>, ids: seq<Id>): real {
    if ids == [] then 0.0
    else
      var last := ids[|ids| - 1];
      CpuOf(instances, ids[..|ids| - 1]) + if last in instances then instances[last].cpu else 0.0
  }

  function MemOf(instances: map<Id, Instance>, ids: seq<Id>): real {
    if ids == [] then 0.0
    else
      var last := ids[|ids| - 1];
      MemOf(instances, ids[..|ids| - 1]) + if last in instances then instances[last].mem else 0.0
  }

  function MemCapacity(h: Host): real { (if h.memGB < 1 then 1 else h.memGB) as real * 1024.0 }

  predicate Fits(h: Host, cpu: real, mem: real) {
    cpu <= h.cores as real + CPU_EPS && mem <= MemCapacity(h) + MEM_EPS
  }

  /** Is there room for another instance? */
  ghost predicate Room(s: State, h: HostId, cpu: real, mem: real) {
    h in s.hosts && Fits(s.hosts[h], CpuOf(s.instances, On(s.byHost, h)) + cpu, MemOf(s.instances, On(s.byHost, h)) + mem)
  }

  /** What the listed instances reserve, draining ones included, fits the host. */
  ghost predicate HostOk(h: Host, instances: map<Id, Instance>, ids: seq<Id>) {
    Fits(h, CpuOf(instances, ids), MemOf(instances, ids))
  }

  ghost predicate CapacityOk(hosts: map<HostId, Host>, instances: map<Id, Instance>, byHost: map<HostId, seq<Id>>) {
    forall h :: h in hosts ==> HostOk(hosts[h], instances, On(byHost, h))
  }

  ghost predicate AmountsOk(instances: map<Id, Instance>) {
    forall id :: id in instances ==> instances[id].cpu >= 0.0 && instances[id].mem >= 0.0
  }

  /** No host is overcommitted, and no removal can change that. */
  ghost predicate Roomy(s: State) { AmountsOk(s.instances) && CapacityOk(s.hosts, s.instances, s.byHost) }

  // --- References -----------------------------------------------------------------

  ghost predicate SizesOk(hosts: map<HostId, Host>) {
    forall h :: h in hosts ==> hosts[h].cores >= 1 && hosts[h].memGB >= 1
  }

  /** Every instance is on an existing host and in that host's table. */
  ghost predicate PlacedOk(hosts: map<HostId, Host>, instances: map<Id, Instance>, byHost: map<HostId, seq<Id>>) {
    && (forall h :: h in byHost ==> h in hosts)
    && (forall id :: id in instances ==> instances[id].host in hosts && id in On(byHost, instances[id].host))
  }

  /** The table of a host lists instances placed on it, once each. */
  ghost predicate TableOk(instances: map<Id, Instance>, byHost: map<HostId, seq<Id>>) {
    && (forall h :: h in byHost ==> NoDuplicates(byHost[h]))
    && (forall h, id :: h in byHost && id in byHost[h] ==> id in instances && instances[id].host == h)
  }

  ghost predicate NumberedOk(instances: map<Id, Instance>, next: nat) {
    forall id :: id in instances ==> id.n < next
  }

  /** Tables and placements are inverse to each other, and the next ID is new. */
  ghost predicate Tidy(s: State) { TableOk(s.instances, s.byHost) && NumberedOk(s.instances, s.next) }

  /** What a failed start leaves of that: an ID still to be handed out is listed only for an
      instance of that ID, by its host. */
  ghost predicate LooseOk(instances: map<Id, Instance>, byHost: map<HostId, seq<Id>>, next: nat) {
    forall h, id :: h in byHost && id in byHost[h] && id.n >= next ==> id in instances && instances[id].host == h
  }

  /** Do the instances of the service all reserve these amounts? */
  ghost predicate SameAmounts(instances: map<Id, Instance>, sv: string, cpu: real, mem: real) {
    forall id :: id in instances && id.service == sv ==> instances[id].cpu == cpu && instances[id].mem == mem
  }

  /** Instances of one service reserve the same. */
  ghost predicate UniformOk(instances: map<Id, Instance>) {
    forall id :: id in instances ==> SameAmounts(instances, id.service, instances[id].cpu, instances[id].mem)
  }

  // --- Routing --------------------------------------------------------------------

  predicate IsActive(instances: map<Id, Instance>, id: Id) { id in instances && !instances[id].draining }

  ghost predicate Served(instances: map<Id, Instance>, sv: string) {
    exists a :: IsActive(instances, a) && a.service == sv
  }

  /** Every service that ever had an instance has an active one. */
  ghost predicate ServedOk(instances: map<Id, Instance>, ever: set<string>) {
    && (forall id :: id in instances ==> id.service in ever)
    && (forall sv :: sv in ever ==> Served(instances, sv))
  }

  lemma ServedStays(m: map<Id, Instance>, m': map<Id, Instance>, sv: string)
    requires Served(m, sv) && forall a :: IsActive(m, a) ==> IsActive(m', a)
    ensures Served(m', sv)
  {
    var a :| IsActive(m, a) && a.service == sv;
    assert IsActive(m', a);
  }

  /** The cache lists active instances only, once each, and cursors are indices into it. */
  ghost predicate CacheOk(instances: map<Id, Instance>, cache: map<string, seq<Id>>, cursor: map<string, nat>) {
    && (forall sv :: sv in cache ==> |cache[sv]| > 0 && NoDuplicates(cache[sv]) && At(cursor, sv) < |cache[sv]|)
    && (forall sv, id :: sv in cache && id in cache[sv] ==> IsActive(instances, id) && id.service == sv)
  }

  /** Every service that ever had an instance can be routed to. */
  ghost predicate RoutableOk(cache: map<string, seq<Id>>, ever: set<string>) {
    forall sv :: sv in ever ==> sv in cache
  }

  /** Do the hosts stay within capacity?  A failed start alone does not endanger that. */
  predicate Fitting(past: Past) { !past.negative && !(past.startFailed && past.mixed) }

  ghost predicate Base(s: State, past: Past) {
    && SizesOk(s.hosts) && PlacedOk(s.hosts, s.instances, s.byHost) && ServedOk(s.instances, past.ever)
    && LooseOk(s.instances, s.byHost, s.next)
    && (!past.startFailed ==> Tidy(s))
    && (!past.mixed ==> UniformOk(s.instances))
    && (Fitting(past) ==> Roomy(s))
  }

  ghost predicate Sound(s: State, past: Past) {
    Base(s, past) && CacheOk(s.instances, s.cache, s.cursor) && (!past.startFailed ==> RoutableOk(s.cache, past.ever))
  }

  // --- Sums -----------------------------------------------------------------------

  lemma {:induction false} SumsAgree(a: map<Id, Instance>, b: map<Id, Instance>, ids: seq<Id>)
    requires forall id :: id in ids ==> (id in a <==> id in b) && (id in a ==> a[id].cpu == b[id].cpu && a[id].mem == b[id].mem)
    ensures CpuOf(a, ids) == CpuOf(b, ids) && MemOf(a, ids) == MemOf(b, ids)
  {
    if ids != [] {
      SumsAgree(a, b, ids[..|ids| - 1]);
    }
  }

  /** Listed amounts that go down, or are gone, add up to no more. */
  lemma {:induction false} SumsAtMost(a: map<Id, Instance>, b: map<Id, Instance>, ids: seq<Id>)
    requires forall id :: id in ids && id in b ==> id in a && b[id].cpu <= a[id].cpu && b[id].mem <= a[id].mem
    requires forall id :: id in ids && id in a && id !in b ==> a[id].cpu >= 0.0 && a[id].mem >= 0.0
    ensures CpuOf(b, ids) <= CpuOf(a, ids) && MemOf(b, ids) <= MemOf(a, ids)
  {
    if ids != [] {
      SumsAtMost(a, b, ids[..|ids| - 1]);
    }
  }

  lemma SumsWith(m: map<Id, Instance>, ids: seq<Id>, id: Id)
    ensures CpuOf(m, ids + [id]) == CpuOf(m, ids) + if id in m then m[id].cpu else 0.0
    ensures MemOf(m, ids + [id]) == MemOf(m, ids) + if id in m then m[id].mem else 0.0
  {
    assert (ids + [id])[..|ids|] == ids;
  }

  function Without(ids: seq<Id>, id: Id): (r: seq<Id>)
    ensures forall x :: x in r <==> x in ids && x != id
    ensures id !in ids ==> r == ids
  {
    if ids == [] then []
    else Without(ids[..|ids| - 1], id) + if ids[|ids| - 1] == id then [] else [ids[|ids| - 1]]
  }

  lemma {:induction false} WithoutKeepsOrder(ids: seq<Id>, id: Id)
    requires NoDuplicates(ids)
    ensures NoDuplicates(Without(ids, id))
  {
    if ids != [] {
      var init, last := ids[..|ids| - 1], ids[|ids| - 1];
      WithoutKeepsOrder(init, id);
      assert last !in init;
      assert forall i :: 0 <= i < |Without(init, id)| ==> Without(init, id)[i] in Without(init, id);
    }
  }

  /** Taking an instance off a list takes its reservation off the sum. */
  lemma {:induction false} SumsWithout(m: map<Id, Instance>, ids: seq<Id>, id: Id)
    requires NoDuplicates(ids) && id in ids && id in m
    ensures CpuOf(m, Without(ids, id)) == CpuOf(m, ids) - m[id].cpu
    ensures MemOf(m, Without(ids, id)) == MemOf(m, ids) - m[id].mem
  {
    var n := |ids| - 1;
    var init, last := ids[..n], ids[n];
    assert last !in init;
    if last != id {
      SumsWithout(m, init, id);
      SumsWith(m, Without(init, id), last);
    } else {
      assert Without(ids, id) == init;
    }
  }

  /** Taking off an ID that has no instance changes no sum. */
  lemma {:induction false} SumsWithoutMissing(m: map<Id, Instance>, ids: seq<Id>, id: Id)
    requires id !in m
    ensures CpuOf(m, Without(ids, id)) == CpuOf(m, ids) && MemOf(m, Without(ids, id)) == MemOf(m, ids)
  {
    if ids != [] {
      var init, last := ids[..|ids| - 1], ids[|ids| - 1];
      SumsWithoutMissing(m, init, id);
      if last != id {
        SumsWith(m, Without(init, id), last);
      } else {
        assert Without(ids, id) == Without(init, id);
      }
    }
  }

  // --- Adding an instance ---------------------------------------------------------

  function NewInstance(h: HostId, cpu: real, mem: real): Instance {
    Instance(h, cpu, mem, false, 0, 0, [], 0.0)
  }

  function Placed(s: State, sv: string, h: HostId, cpu: real, mem: real): State {
    var id := Id(sv, s.next);
    s.(instances := s.instances[id := NewInstance(h, cpu, mem)], byHost := s.byHost[h := On(s.byHost, h) + [id]], next := s.next + 1)
  }

  /** Also when the ID was taken, if the instance it belonged to reserved no less. */
  lemma PlaceKeepsCapacity(s: State, sv: string, h: HostId, cpu: real, mem: real)
    requires LooseOk(s.instances, s.byHost, s.next) && Roomy(s) && Room(s, h, cpu, mem) && cpu >= 0.0 && mem >= 0.0
    requires Id(sv, s.next) in s.instances ==> cpu <= s.instances[Id(sv, s.next)].cpu && mem <= s.instances[Id(sv, s.next)].mem
    ensures Roomy(Placed(s, sv, h, cpu, mem))
  {
    hide CpuOf, MemOf, Fits;
    var t, id := Placed(s, sv, h, cpu, mem), Id(sv, s.next);
    forall g | g in t.hosts ensures HostOk(t.hosts[g], t.instances, On(t.byHost, g)) {
      assert HostOk(s.hosts[g], s.instances, On(s.byHost, g));
      assert id in On(s.byHost, g) ==> id in s.instances;
      SumsAtMost(s.instances, t.instances, On(s.byHost, g));
      SumsWith(t.instances, On(s.byHost, h), id);
      LessFits(t.hosts[g], CpuOf(s.instances, On(s.byHost, g)), MemOf(s.instances, On(s.byHost, g)), CpuOf(t.instances, On(s.byHost, g)), MemOf(t.instances, On(s.byHost, g)));
      LessFits(t.hosts[g], CpuOf(s.instances, On(s.byHost, g)) + cpu, MemOf(s.instances, On(s.byHost, g)) + mem,
               CpuOf(t.instances, On(s.byHost, g)) + cpu, MemOf(t.instances, On(s.byHost, g)) + mem);
    }
  }

  lemma LessFits(h: Host, cpu: real, mem: real, cpu': real, mem': real)
    requires cpu' <= cpu && mem' <= mem
    ensures Fits(h, cpu, mem) ==> Fits(h, cpu', mem')
  {
  }

  lemma PlaceKeepsLoose(s: State, sv: string, h: HostId, cpu: real, mem: real)
    requires LooseOk(s.instances, s.byHost, s.next)
    ensures var t := Placed(s, sv, h, cpu, mem);
      LooseOk(t.instances, t.byHost, t.next)
  {
    var t := Placed(s, sv, h, cpu, mem);
    forall g, id | g in t.byHost && id in t.byHost[g] && id.n >= t.next ensures id in t.instances && t.instances[id].host == g {
      assert id in On(s.byHost, g);
    }
  }

  lemma PlaceKeepsUniform(m: map<Id, Instance>, id: Id, i: Instance)
    requires UniformOk(m) && SameAmounts(m, id.service, i.cpu, i.mem)
    ensures UniformOk(m[id := i]) && SameAmounts(m[id := i], id.service, i.cpu, i.mem)
  {
  }

  /** Also when the ID was taken, which a failed start makes possible. */
  lemma PlaceKeepsPlaces(s: State, sv: string, h: HostId, cpu: real, mem: real)
    requires PlacedOk(s.hosts, s.instances, s.byHost) && h in s.hosts
    ensures var t := Placed(s, sv, h, cpu, mem);
      PlacedOk(t.hosts, t.instances, t.byHost)
  {
    var t, added := Placed(s, sv, h, cpu, mem), Id(sv, s.next);
    forall id | id in t.instances ensures t.instances[id].host in t.hosts && id in On(t.byHost, t.instances[id].host) {
      if id != added {
        assert id in On(s.byHost, s.instances[id].host);
      }
    }
  }

  lemma PlaceKeepsTable(s: State, sv: string, h: HostId, cpu: real, mem: real)
    requires TableOk(s.instances, s.byHost) && Id(sv, s.next) !in s.instances
    ensures var t := Placed(s, sv, h, cpu, mem);
      TableOk(t.instances, t.byHost)
  {
    var t, added := Placed(s, sv, h, cpu, mem), Id(sv, s.next);
    assert added !in On(s.byHost, h);
    forall g | g in t.byHost ensures NoDuplicates(t.byHost[g]) {
    }
    forall g, id | g in t.byHost && id in t.byHost[g] ensures id in t.instances && t.instances[id].host == g {
      if id != added {
        assert id in On(s.byHost, g);
      }
    }
  }

  lemma PlaceKeepsServed(s: State, ever: set<string>, sv: string, h: HostId, cpu: real, mem: real)
    requires ServedOk(s.instances, ever)
    ensures ServedOk(Placed(s, sv, h, cpu, mem).instances, ever + {sv})
    ensures forall a :: IsActive(s.instances, a) ==> IsActive(Placed(s, sv, h, cpu, mem).instances, a)
  {
    hide Served;
    var t := Placed(s, sv, h, cpu, mem);
    ServedBy(t.instances, Id(sv, s.next));
    forall other | other in ever ensures Served(t.instances, other) {
      ServedStays(s.instances, t.instances, other);
    }
  }

  lemma ServedBy(m: map<Id, Instance>, a: Id)
    requires IsActive(m, a)
    ensures Served(m, a.service)
  {
  }

  /** Placing an instance where there is room keeps everything, if it reserves what the other
      instances of its service do. */
  lemma PlaceKeeps(s: State, past: Past, sv: string, h: HostId, cpu: real, mem: real)
    requires Base(s, past) && Room(s, h, cpu, mem)
    requires Fitting(past) ==> cpu >= 0.0 && mem >= 0.0
    requires past.mixed || SameAmounts(s.instances, sv, cpu, mem)
    ensures Base(Placed(s, sv, h, cpu, mem), past.(ever := past.ever + {sv}))
    ensures CacheOk(s.instances, s.cache, s.cursor) ==> CacheOk(Placed(s, sv, h, cpu, mem).instances, s.cache, s.cursor)
  {
    hide Roomy, PlacedOk, TableOk, ServedOk, Fits, NoDuplicates, LooseOk, UniformOk;
    PlaceKeepsPlaces(s, sv, h, cpu, mem);
    PlaceKeepsServed(s, past.ever, sv, h, cpu, mem);
    PlaceKeepsLoose(s, sv, h, cpu, mem);
    if !past.mixed {
      PlaceKeepsUniform(s.instances, Id(sv, s.next), NewInstance(h, cpu, mem));
    }
    if !past.startFailed {
      assert Id(sv, s.next) !in s.instances;
      PlaceKeepsTable(s, sv, h, cpu, mem);
    }
    if Fitting(past) {
      PlaceKeepsCapacity(s, sv, h, cpu, mem);
    }
  }

  // --- Removing a draining instance -----------------------------------------------

  function Removed(s: State, id: Id): State
    requires id in s.instances
  {
    var h := s.instances[id].host;
    s.(instances := s.instances - {id}, byHost := if h in s.byHost then s.byHost[h := Without(s.byHost[h], id)] else s.byHost)
  }

  /** The reservations left on the host of a removed instance. */
  lemma RemovedSums(s: State, id: Id)
    requires id in s.instances && TableOk(s.instances, s.byHost) && PlacedOk(s.hosts, s.instances, s.byHost)
    ensures var t, h := Removed(s, id), s.instances[id].host;
      && CpuOf(t.instances, On(t.byHost, h)) == CpuOf(s.instances, On(s.byHost, h)) - s.instances[id].cpu
      && MemOf(t.instances, On(t.byHost, h)) == MemOf(s.instances, On(s.byHost, h)) - s.instances[id].mem
  {
    hide CpuOf, MemOf;
    var t, h := Removed(s, id), s.instances[id].host;
    var ids := On(s.byHost, h);
    assert id in ids && NoDuplicates(ids);
    assert On(t.byHost, h) == Without(ids, id);
    SumsAgree(s.instances, t.instances, Without(ids, id));
    SumsWithout(s.instances, ids, id);
  }

  /** Also when other hosts list the ID. */
  lemma RemoveKeepsCapacity(s: State, id: Id)
    requires CapacityOk(s.hosts, s.instances, s.byHost)
    requires id in s.instances && s.instances[id].cpu >= 0.0 && s.instances[id].mem >= 0.0
    ensures var t := Removed(s, id);
      CapacityOk(t.hosts, t.instances, t.byHost)
  {
    hide CpuOf, MemOf, Fits;
    var t := Removed(s, id);
    forall g | g in t.hosts ensures HostOk(t.hosts[g], t.instances, On(t.byHost, g)) {
      var ids := On(s.byHost, g);
      assert HostOk(s.hosts[g], s.instances, ids);
      assert On(t.byHost, g) == ids || On(t.byHost, g) == Without(ids, id);
      SumsWithoutMissing(t.instances, ids, id);
      SumsAtMost(s.instances, t.instances, ids);
      LessFits(t.hosts[g], CpuOf(s.instances, ids), MemOf(s.instances, ids), CpuOf(t.instances, ids), MemOf(t.instances, ids));
    }
  }

  lemma RemoveKeepsLoose(s: State, id: Id)
    requires LooseOk(s.instances, s.byHost, s.next) && id in s.instances
    ensures var t := Removed(s, id);
      LooseOk(t.instances, t.byHost, t.next)
  {
    var t := Removed(s, id);
    forall g, x | g in t.byHost && x in t.byHost[g] && x.n >= t.next ensures x in t.instances && t.instances[x].host == g {
      assert x in s.byHost[g];
    }
  }

  lemma FewerUniform(m: map<Id, Instance>, id: Id)
    requires UniformOk(m)
    ensures UniformOk(m - {id})
  {
  }

  lemma RemoveKeepsPlaces(s: State, id: Id)
    requires PlacedOk(s.hosts, s.instances, s.byHost) && id in s.instances
    ensures var t := Removed(s, id);
      PlacedOk(t.hosts, t.instances, t.byHost)
  {
    var t := Removed(s, id);
    forall x | x in t.instances ensures t.instances[x].host in t.hosts && x in On(t.byHost, t.instances[x].host) {
      assert x in On(s.byHost, s.instances[x].host);
    }
  }

  lemma RemoveKeepsTable(s: State, id: Id)
    requires TableOk(s.instances, s.byHost) && id in s.instances
    ensures var t := Removed(s, id);
      TableOk(t.instances, t.byHost)
  {
    var t, h := Removed(s, id), s.instances[id].host;
    forall g | g in t.byHost ensures NoDuplicates(t.byHost[g]) {
      if g == h {
        WithoutKeepsOrder(s.byHost[h], id);
      }
    }
    forall g, x | g in t.byHost && x in t.byHost[g] ensures x in t.instances && t.instances[x].host == g {
      assert x in s.byHost[g];
    }
  }

  /** Only a draining instance is ever removed, so what is routable stays so. */
  lemma RemoveKeeps(s: State, past: Past, id: Id)
    requires Base(s, past) && id in s.instances && s.instances[id].draining
    ensures Base(Removed(s, id), past)
    ensures CacheOk(s.instances, s.cache, s.cursor) ==> CacheOk(Removed(s, id).instances, s.cache, s.cursor)
  {
    hide CapacityOk, TableOk, PlacedOk, Served, NoDuplicates, LooseOk, UniformOk;
    RemoveKeepsPlaces(s, id);
    RemoveKeepsLoose(s, id);
    var t := Removed(s, id);
    assert forall a :: IsActive(s.instances, a) ==> IsActive(t.instances, a);
    forall sv | sv in past.ever ensures Served(t.instances, sv) {
      ServedStays(s.instances, t.instances, sv);
    }
    if !past.mixed {
      FewerUniform(s.instances, id);
    }
    if !past.startFailed {
      RemoveKeepsTable(s, id);
    }
    if Fitting(past) {
      RemoveKeepsCapacity(s, id);
    }
  }

  /** Changes to instances that move none of them. */
  ghost predicate SameShape(m: map<Id, Instance>, m': map<Id, Instance>) {
    && (forall id :: id in m <==> id in m')
    && (forall id :: id in m ==> m'[id].host == m[id].host)
  }

  lemma ShapeKeepsLinks(s: State, m: map<Id, Instance>)
    requires SameShape(s.instances, m) && PlacedOk(s.hosts, s.instances, s.byHost)
    ensures PlacedOk(s.hosts, m, s.byHost) && (Tidy(s) ==> Tidy(s.(instances := m)))
    ensures LooseOk(s.instances, s.byHost, s.next) ==> LooseOk(m, s.byHost, s.next)
  {
    hide NoDuplicates;
    forall id | id in m ensures m[id].host in s.hosts && id in On(s.byHost, m[id].host) {
      assert id in s.instances;
    }
    if Tidy(s) {
      forall h, id | h in s.byHost && id in s.byHost[h] ensures id in m && m[id].host == h {
        assert id in s.instances;
      }
    }
  }

  /** Changes that touch no reservation. */
  lemma SameReserved(s: State, m: map<Id, Instance>)
    requires m.Keys == s.instances.Keys && forall id :: id in m ==> m[id].cpu == s.instances[id].cpu && m[id].mem == s.instances[id].mem
    ensures UniformOk(s.instances) ==> UniformOk(m)
    ensures Roomy(s) ==> Roomy(s.(instances := m))
  {
    hide CpuOf, MemOf, Fits;
    if UniformOk(s.instances) {
      forall a, b | a in m && b in m && a.service == b.service ensures m[b].cpu == m[a].cpu && m[b].mem == m[a].mem {
        assert SameAmounts(s.instances, a.service, s.instances[a].cpu, s.instances[a].mem);
      }
    }
    forall h | h in s.hosts && HostOk(s.hosts[h], s.instances, On(s.byHost, h)) ensures HostOk(s.hosts[h], m, On(s.byHost, h)) {
      SumsAgree(s.instances, m, On(s.byHost, h));
    }
  }

  // --- Draining -------------------------------------------------------------------

  function Drained(s: State, ids: set<Id>, deadline: int): State {
    s.(instances := map id | id in s.instances :: if id in ids then s.instances[id].(draining := true, deadline := deadline) else s.instances[id])
  }

  lemma DrainKeepsServed(s: State, ever: set<string>, sv: string, ids: set<Id>, deadline: int, left: Id)
    requires ServedOk(s.instances, ever) && IsActive(s.instances, left) && left !in ids && left.service == sv
    requires forall id :: id in ids ==> id.service == sv
    ensures ServedOk(Drained(s, ids, deadline).instances, ever)
  {
    hide Served;
    var t := Drained(s, ids, deadline);
    forall other | other in ever ensures Served(t.instances, other) {
      if other == sv {
        ServedBy(t.instances, left);
      } else {
        ServedElsewhere(s, ids, deadline, sv, other);
      }
    }
  }

  lemma ServedElsewhere(s: State, ids: set<Id>, deadline: int, sv: string, other: string)
    requires Served(s.instances, other) && other != sv && forall id :: id in ids ==> id.service == sv
    ensures Served(Drained(s, ids, deadline).instances, other)
  {
    var a :| IsActive(s.instances, a) && a.service == other;
    assert IsActive(Drained(s, ids, deadline).instances, a);
  }

  /** Draining instances of one service keeps everything but the cache, as long as an active
      instance of the service is left. */
  lemma DrainKeeps(s: State, past: Past, sv: string, ids: set<Id>, deadline: int, left: Id)
    requires Base(s, past) && IsActive(s.instances, left) && left !in ids && left.service == sv
    requires forall id :: id in ids ==> id.service == sv
    ensures Base(Drained(s, ids, deadline), past)
  {
    hide ServedOk, PlacedOk, Tidy, LooseOk, UniformOk, Roomy;
    var t := Drained(s, ids, deadline);
    ShapeKeepsLinks(s, t.instances);
    SameReserved(s, t.instances);
    DrainKeepsServed(s, past.ever, sv, ids, deadline, left);
  }

  // --- The routing cache ----------------------------------------------------------

  /** The cache lists, in the order of their names, the active instances of every service. */
  ghost predicate Lists(instances: map<Id, Instance>, cache: map<string, seq<Id>>) {
    && (forall sv :: sv in cache <==> ActiveOf(instances, sv) != {})
    && (forall sv :: sv in cache ==> IsSorted(cache[sv], ActiveOf(instances, sv), IdName))
  }

  ghost function ActiveOf(instances: map<Id, Instance>, sv: string): set<Id> {
    set id | id in instances && IsActive(instances, id) && id.service == sv
  }

  lemma RebuildKeeps(instances: map<Id, Instance>, ever: set<string>, cache: map<string, seq<Id>>, cursor: map<string, nat>)
    requires ServedOk(instances, ever) && Lists(instances, cache) && forall sv :: sv in cache ==> At(cursor, sv) < |cache[sv]|
    ensures CacheOk(instances, cache, cursor) && RoutableOk(cache, ever)
  {
    hide NoDuplicates, Sorted;
    forall sv | sv in ever ensures sv in cache {
      var a :| IsActive(instances, a) && a.service == sv;
      assert a in ActiveOf(instances, sv);
    }
    forall sv, id | sv in cache && id in cache[sv] ensures IsActive(instances, id) && id.service == sv {
      assert id in SetOf(cache[sv]);
    }
  }

  // --- Resizing instances and hosts -----------------------------------------------

  function Resized(i: Instance, cpu: real, mem: real): Instance {
    i.(cpu := if cpu > 0.0 then cpu else i.cpu, mem := if mem > 0.0 then mem else i.mem)
  }

  /** All instances of a service get the given amounts; zero leaves an amount as it is. */
  function ResizedAll(instances: map<Id, Instance>, sv: string, cpu: real, mem: real): map<Id, Instance> {
    map id | id in instances :: if id.service == sv then Resized(instances[id], cpu, mem) else instances[id]
  }

  lemma ActivesStay(m: map<Id, Instance>, m': map<Id, Instance>, ever: set<string>)
    requires ServedOk(m, ever) && m'.Keys == m.Keys && forall id :: id in m ==> m'[id].draining == m[id].draining
    ensures ServedOk(m', ever)
    ensures forall cache, cursor :: CacheOk(m, cache, cursor) ==> CacheOk(m', cache, cursor)
  {
    hide Served, NoDuplicates;
    assert forall a :: IsActive(m, a) <==> IsActive(m', a);
    forall sv | sv in ever ensures Served(m', sv) {
      ServedStays(m, m', sv);
    }
  }

  lemma ResizeKeepsUniform(m: map<Id, Instance>, sv: string, cpu: real, mem: real)
    ensures UniformOk(m) ==> UniformOk(ResizedAll(m, sv, cpu, mem))
  {
    if UniformOk(m) {
      var r := ResizedAll(m, sv, cpu, mem);
      forall a, b | a in r && b in r && a.service == b.service ensures r[b].cpu == r[a].cpu && r[b].mem == r[a].mem {
        assert SameAmounts(m, a.service, m[a].cpu, m[a].mem);
      }
    }
  }

  lemma ResizeKeeps(s: State, past: Past, sv: string, cpu: real, mem: real)
    requires Base(s, past)
    requires forall h :: h in s.hosts ==> HostOk(s.hosts[h], ResizedAll(s.instances, sv, cpu, mem), On(s.byHost, h))
    ensures var m := ResizedAll(s.instances, sv, cpu, mem);
      && Base(s.(instances := m), past)
      && (CacheOk(s.instances, s.cache, s.cursor) ==> CacheOk(m, s.cache, s.cursor))
  {
    hide ServedOk, HostOk, PlacedOk, Tidy, CacheOk, LooseOk, UniformOk;
    var m := ResizedAll(s.instances, sv, cpu, mem);
    ShapeKeepsLinks(s, m);
    ResizeKeepsUniform(s.instances, sv, cpu, mem);
    ActivesStay(s.instances, m, past.ever);
  }

  lemma SameTables(s: State, byHost: map<HostId, seq<Id>>)
    requires forall h :: h in byHost ==> h in s.byHost && byHost[h] == s.byHost[h]
    ensures Tidy(s) ==> Tidy(s.(byHost := byHost))
    ensures LooseOk(s.instances, s.byHost, s.next) ==> LooseOk(s.instances, byHost, s.next)
  {
    hide NoDuplicates;
  }

  /** Hosts may be added, removed when empty, or resized to what still fits. */
  lemma HostsKeep(s: State, past: Past, hosts: map<HostId, Host>, byHost: map<HostId, seq<Id>>)
    requires Base(s, past) && SizesOk(hosts)
    requires forall h :: h in byHost ==> h in hosts && h in s.byHost
    requires forall h :: On(byHost, h) == On(s.byHost, h)
    requires forall h :: h in s.hosts && On(s.byHost, h) != [] ==> h in hosts
    requires Fitting(past) ==> forall h :: h in hosts ==> HostOk(hosts[h], s.instances, On(byHost, h))
    ensures Base(s.(hosts := hosts, byHost := byHost), past)
  {
    hide ServedOk, HostOk, Tidy, LooseOk, SizesOk, UniformOk;
    forall h | h in byHost ensures byHost[h] == s.byHost[h] {
      assert On(byHost, h) == On(s.byHost, h);
    }
    SameTables(s, byHost);
    SameTidy(s.(byHost := byHost), hosts);
    forall id | id in s.instances ensures s.instances[id].host in hosts && id in On(byHost, s.instances[id].host) {
      assert id in On(s.byHost, s.instances[id].host);
    }
  }

  lemma SameTidy(s: State, hosts: map<HostId, Host>)
    ensures Tidy(s) <==> Tidy(s.(hosts := hosts))
  {
  }

  lemma LoadKeeps(s: State, past: Past, id: Id, active: nat, queue: seq<string>, activeMem: real)
    requires Sound(s, past) && id in s.instances
    ensures Sound(s.(instances := s.instances[id := s.instances[id].(active := active, queue := queue, activeMem := activeMem)]), past)
  {
    hide ServedOk, PlacedOk, Tidy, CacheOk, LooseOk, UniformOk, Roomy;
    var m := s.instances[id := s.instances[id].(active := active, queue := queue, activeMem := activeMem)];
    ShapeKeepsLinks(s, m);
    SameReserved(s, m);
    ActivesStay(s.instances, m, past.ever);
  }
}
