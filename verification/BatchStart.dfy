/** Which scenarios that pass the capacity check of the batch search the manager can start. */
module BatchStart {
  import opened Wrappers
  import opened Orders
  import opened Cluster
  import opened ClusterOps
  import opened BatchPlacement
  import BeamMoves

  /** Neither zones nor services keep a replica off a host. */
  ghost predicate Free(services: seq<ServiceConfig>) {
    forall i :: 0 <= i < |services| ==> services[i].requiredZones == [] && services[i].antiAffinity == []
  }

  /** If some host accepts a replica, one is chosen. */
  lemma PutExists(s: State, c: ServiceConfig, replica: nat) returns (h: HostId)
    requires !Stuck(s, c)
    ensures PutOn(s, c, replica, h) && Accepts(s, c, h)
  {
    hide Accepts, FirstOk;
    var x :| x in s.hosts && Accepts(s, c, x);
    var order := InOrder(s.hosts.Keys, HostName);
    assert x in SetOf(order);
    h := FirstOkExists(order, replica % |order|, y => Accepts(s, c, y), x);
  }

  // --- One host -------------------------------------------------------------------

  /** Does every replica in turn fit a host that has the given load? */
  ghost predicate AllFit(services: seq<ServiceConfig>, k: nat, replica: nat, host: Host, cpu: real, mem: real)
    decreases |services| - k, if k < |services| then services[k].replicas - replica else 0
  {
    if k >= |services| then true
    else if replica >= services[k].replicas then AllFit(services, k + 1, 0, host, cpu, mem)
    else
      var cpu', mem' := cpu + CpuFor(services[k]), mem + MemFor(services[k]);
      Fits(host, cpu', mem') && AllFit(services, k, replica + 1, host, cpu', mem')
  }

  ghost predicate OnOne(s: State, h: HostId, cpu: real, mem: real) {
    s.hosts.Keys == {h} && Tidy(s) && CpuOf(s.instances, On(s.byHost, h)) == cpu && MemOf(s.instances, On(s.byHost, h)) == mem
  }

  lemma OneMoreOnOne(s: State, h: HostId, cpu: real, mem: real, c: ServiceConfig)
    requires OnOne(s, h, cpu, mem)
    ensures OnOne(PlacedReplica(s, c, h), h, cpu + CpuFor(c), mem + MemFor(c)) && PlacedReplica(s, c, h).hosts == s.hosts
  {
    hide CpuOf, MemOf, TableOk, CpuFor, MemFor;
    PlaceKeepsTable(s, c.id, h, CpuFor(c), MemFor(c));
    LoadAfter(s, c.id, h, CpuFor(c), MemFor(c), h);
  }

  lemma AcceptsOnOne(s: State, h: HostId, cpu: real, mem: real, services: seq<ServiceConfig>, k: nat)
    requires OnOne(s, h, cpu, mem) && Free(services) && k < |services|
    ensures Accepts(s, services[k], h) <==> Fits(s.hosts[h], cpu + CpuFor(services[k]), mem + MemFor(services[k]))
    ensures Stuck(s, services[k]) <==> !Accepts(s, services[k], h)
  {
    hide CpuOf, MemOf, Fits, Tidy, CpuFor, MemFor;
  }

  lemma {:induction false} FitsOne(services: seq<ServiceConfig>, k: nat, replica: nat, s: State, h: HostId, cpu: real, mem: real) returns (t: State)
    requires Free(services) && OnOne(s, h, cpu, mem) && AllFit(services, k, replica, s.hosts[h], cpu, mem)
    ensures Starts(services, k, replica, s, t, true)
    decreases |services| - k, if k < |services| then services[k].replicas - replica else 0
  {
    hide OnOne, Free, Accepts, Stuck, PutOn, PlacedReplica, CpuFor, MemFor, Fits;
    assert s.hosts.Keys == {h} by { OneHost(s, h, cpu, mem); }
    if k >= |services| {
      t := s;
    } else if replica >= services[k].replicas {
      t := FitsOne(services, k + 1, 0, s, h, cpu, mem);
    } else {
      var c := services[k];
      AcceptsOnOne(s, h, cpu, mem, services, k);
      var x := PutExists(s, c, replica);
      PutAccepts(s, c, replica, x);
      OneMoreOnOne(s, h, cpu, mem, c);
      t := FitsOne(services, k, replica + 1, PlacedReplica(s, c, h), h, cpu + CpuFor(c), mem + MemFor(c));
    }
  }

  lemma OneHost(s: State, h: HostId, cpu: real, mem: real)
    requires OnOne(s, h, cpu, mem)
    ensures s.hosts.Keys == {h}
  {
  }

  lemma {:induction false} StartsOne(services: seq<ServiceConfig>, k: nat, replica: nat, s: State, h: HostId, cpu: real, mem: real, t: State)
    requires Free(services) && OnOne(s, h, cpu, mem) && Starts(services, k, replica, s, t, true)
    ensures AllFit(services, k, replica, s.hosts[h], cpu, mem)
    decreases |services| - k, if k < |services| then services[k].replicas - replica else 0
  {
    hide OnOne, Free, Accepts, Stuck, PutOn, PlacedReplica, CpuFor, MemFor, Fits;
    assert s.hosts.Keys == {h} by { OneHost(s, h, cpu, mem); }
    if k >= |services| {
    } else if replica >= services[k].replicas {
      StartsOne(services, k + 1, 0, s, h, cpu, mem, t);
    } else {
      var c := services[k];
      AcceptsOnOne(s, h, cpu, mem, services, k);
      var x :| PutOn(s, c, replica, x) && Starts(services, k, replica + 1, PlacedReplica(s, c, x), t, true);
      PutAccepts(s, c, replica, x);
      OneMoreOnOne(s, h, cpu, mem, c);
      StartsOne(services, k, replica + 1, PlacedReplica(s, c, h), h, cpu + CpuFor(c), mem + MemFor(c), t);
    }
  }

  /** With one host and no placement policy, the manager can start exactly the services whose
      replicas fit one after the other, whatever they reserve. */
  lemma OneHostInTurn(services: seq<ServiceConfig>, h: HostId, host: Host)
    requires Free(services)
    ensures CanStart(map[h := host], services) <==> AllFit(services, 0, 0, host, 0.0, 0.0)
  {
    hide Starts, AllFit, Free;
    var s := EmptyState(map[h := host]);
    assert OnOne(s, h, 0.0, 0.0);
    if AllFit(services, 0, 0, host, 0.0, 0.0) {
      var t := FitsOne(services, 0, 0, s, h, 0.0, 0.0);
    }
    if t :| Starts(services, 0, 0, s, t, true) {
      StartsOne(services, 0, 0, s, h, 0.0, 0.0, t);
    }
  }

  lemma {:induction false} LeftNotNegative(services: seq<ServiceConfig>, k: nat, replica: nat)
    requires !AnyNegative(services)
    ensures CpuLeft(services, k, replica) >= 0.0 && MemLeft(services, k, replica) >= 0.0
    decreases |services| - k, if k < |services| then services[k].replicas - replica else 0
  {
    if k >= |services| {
    } else if replica >= services[k].replicas {
      LeftNotNegative(services, k + 1, 0);
    } else {
      assert !IsNegative(services[k]);
      LeftNotNegative(services, k, replica + 1);
    }
  }

  /** If nothing is negative, the replicas fit in turn if and only if they fit altogether. */
  lemma {:induction false} AllFitTogether(services: seq<ServiceConfig>, k: nat, replica: nat, host: Host, cpu: real, mem: real)
    requires !AnyNegative(services) && Fits(host, cpu, mem)
    ensures AllFit(services, k, replica, host, cpu, mem) <==> Fits(host, cpu + CpuLeft(services, k, replica), mem + MemLeft(services, k, replica))
    decreases |services| - k, if k < |services| then services[k].replicas - replica else 0
  {
    hide CpuFor, MemFor, AnyNegative;
    if k >= |services| {
    } else if replica >= services[k].replicas {
      AllFitTogether(services, k + 1, 0, host, cpu, mem);
    } else {
      LeftNotNegative(services, k, replica + 1);
      if Fits(host, cpu + CpuFor(services[k]), mem + MemFor(services[k])) {
        AllFitTogether(services, k, replica + 1, host, cpu + CpuFor(services[k]), mem + MemFor(services[k]));
      }
    }
  }

  /** On one host, without placement policies and negative reservations, a scenario can be
      started if and only if what it needs is within the host's capacity and tolerances. */
  lemma OneHostExactly(s: BeamMoves.Scenario, c: HostConfig, configs: seq<ServiceConfig>)
    requires Loaded(s) && NonNegative(s.services) && Free(configs)
    requires SameHosts(s.hosts, [c]) && SameServices(s.services, configs)
    ensures Startable(s, [c], configs) <==>
      && BeamMoves.CpuNeed(s.services) <= s.hosts[0].cores as real + CPU_EPS
      && BeamMoves.MemNeed(s.services) <= BeamMoves.GB(s.hosts[0]) as real * BeamMoves.MB_PER_GB + MEM_EPS
  {
    hide CanStart, AllFit, HostsOf, Free, BeamMoves.CpuNeed, BeamMoves.MemNeed, CpuLeft, MemLeft;
    var host := Host(c.cores, if c.memGB <= 0 then DEFAULT_HOST_MEM else c.memGB, c.zone);
    assert HostsOf([c]) == map[c.id := host] by { OneConfig(c); }
    NoneNegative(s.services, configs);
    OneHostInTurn(configs, c.id, host);
    AllFitTogether(configs, 0, 0, host, 0.0, 0.0);
    AllLeft(s.services, configs, 0);
    assert s.services[..0] == [] && BeamMoves.CpuNeed([]) == 0.0 && BeamMoves.MemNeed([]) == 0.0 by { NoNeed(); }
    assert MemCapacity(host) == BeamMoves.GB(s.hosts[0]) as real * BeamMoves.MB_PER_GB;
  }

  lemma NoNeed()
    ensures BeamMoves.CpuNeed([]) == 0.0 && BeamMoves.MemNeed([]) == 0.0
  {
  }

  lemma OneConfig(c: HostConfig)
    ensures HostsOf([c]) == map[c.id := Host(c.cores, if c.memGB <= 0 then DEFAULT_HOST_MEM else c.memGB, c.zone)]
  {
    assert [c][..0] == [];
  }

  // --- What the check accepts -----------------------------------------------------

  /** The cores and gigabytes of the hosts from the given one on; unset memory is 16 gigabytes. */
  function CoresFrom(configs: seq<HostConfig>, k: nat): int
    decreases |configs| - k
  {
    if k >= |configs| then 0 else configs[k].cores + CoresFrom(configs, k + 1)
  }

  function GigabytesFrom(configs: seq<HostConfig>, k: nat): int
    decreases |configs| - k
  {
    if k >= |configs| then 0 else (if configs[k].memGB < 1 then 16 else configs[k].memGB) + GigabytesFrom(configs, k + 1)
  }

  lemma {:induction false} OfferedFrom(hosts: seq<BeamMoves.Host>, configs: seq<HostConfig>, k: nat)
    requires SameHosts(hosts, configs) && k <= |hosts|
    ensures CoresFrom(configs, k) as real == BeamMoves.Cores(hosts) - BeamMoves.Cores(hosts[..k])
    ensures GigabytesFrom(configs, k) as real * 1024.0 == BeamMoves.Memory(hosts) - BeamMoves.Memory(hosts[..k])
    decreases |hosts| - k
  {
    if k == |hosts| {
      assert hosts[..k] == hosts;
    } else {
      OfferedFrom(hosts, configs, k + 1);
      assert hosts[..k + 1][..k] == hosts[..k];
    }
  }

  /** The check passes a scenario, whatever the placement, if and only if all the replicas
      together reserve at most 0.1 percent more than all the hosts together have. */
  lemma AcceptedExactly(s: BeamMoves.Scenario, hostConfigs: seq<HostConfig>, configs: seq<ServiceConfig>)
    requires NonNegative(s.services) && SameHosts(s.hosts, hostConfigs) && SameServices(s.services, configs)
    requires (forall i :: 0 <= i < |s.hosts| ==> s.hosts[i].cores >= 1) && forall i :: 0 <= i < |s.services| ==> s.services[i].replicas >= 1
    ensures BeamMoves.Fits(s) <==>
      && configs != []
      && (hostConfigs != [] ==>
            && 1000.0 * CpuLeft(configs, 0, 0) <= 1001.0 * CoresFrom(hostConfigs, 0) as real
            && 1000.0 * MemLeft(configs, 0, 0) <= 1001.0 * (1024 * GigabytesFrom(hostConfigs, 0)) as real)
  {
    hide CpuLeft, MemLeft, BeamMoves.CpuNeed, BeamMoves.MemNeed;
    AllLeft(s.services, configs, 0);
    OfferedFrom(s.hosts, hostConfigs, 0);
    assert s.services[..0] == [] && s.hosts[..0] == [] && BeamMoves.CpuNeed([]) == 0.0 && BeamMoves.MemNeed([]) == 0.0 by { NoNeed(); }
    Positive(hostConfigs, 0);
    assert hostConfigs == [] <==> s.hosts == [];
  }

  lemma {:induction false} Positive(configs: seq<HostConfig>, k: nat)
    requires forall i :: 0 <= i < |configs| ==> configs[i].cores >= 1
    ensures CoresFrom(configs, k) >= 0 && GigabytesFrom(configs, k) >= 0
    ensures k < |configs| ==> CoresFrom(configs, k) > 0 && GigabytesFrom(configs, k) > 0
    decreases |configs| - k
  {
    if k < |configs| { Positive(configs, k + 1); }
  }

  /** Less than one replica counts as one. */
  lemma OneReplicaAtLeast(s: BeamMoves.Scenario, i: nat)
    requires i < |s.services| && s.services[i].replicas < 1
    ensures BeamMoves.Fits(s) <==> BeamMoves.Fits(s.(services := s.services[i := s.services[i].(replicas := 1)]))
  {
    SameNeeds(s.services, s.services[i := s.services[i].(replicas := 1)]);
  }

  lemma {:induction false} SameNeeds(a: seq<BeamMoves.Service>, b: seq<BeamMoves.Service>)
    requires |a| == |b| && forall i :: 0 <= i < |a| ==> a[i].cpu == b[i].cpu && a[i].mem == b[i].mem && BeamMoves.Replicas(a[i]) == BeamMoves.Replicas(b[i])
    ensures BeamMoves.CpuNeed(a) == BeamMoves.CpuNeed(b) && BeamMoves.MemNeed(a) == BeamMoves.MemNeed(b)
  {
    if a != [] { SameNeeds(a[..|a| - 1], b[..|b| - 1]); }
  }

  // --- Negative reservations ------------------------------------------------------

  /** One service of the scenario reserves the given amounts, and the others nothing negative. */
  ghost predicate HasAmounts(s: BeamMoves.Scenario, cpu: real, mem: real) {
    && Loaded(s)
    && exists k :: 0 <= k < |s.services| && s.services[k].cpu == cpu && s.services[k].mem == mem && NegativeOnly(s.services, k)
  }

  ghost predicate NegativeOnly(services: seq<BeamMoves.Service>, k: int) {
    forall i :: 0 <= i < |services| && i != k ==> services[i].cpu >= 0.0 && services[i].mem >= 0.0
  }

  /** The capacity check passes every scenario with the given amounts that the manager can start
      if and only if they are not negative: the check counts a negative amount as the default,
      the manager takes it as it is. */
  lemma AmountsExactly(cpu: real, mem: real)
    ensures (forall s, hostConfigs, configs :: HasAmounts(s, cpu, mem) && Startable(s, hostConfigs, configs) ==> BeamMoves.Fits(s))
      <==> cpu >= 0.0 && mem >= 0.0
  {
    hide BeamMoves.Fits, Startable, Loaded;
    if cpu >= 0.0 && mem >= 0.0 {
      forall s, hostConfigs, configs | HasAmounts(s, cpu, mem) && Startable(s, hostConfigs, configs) ensures BeamMoves.Fits(s) {
        PlaceableFits(s, hostConfigs, configs);
      }
    } else {
      var s, c, configs := RefusedThough(cpu, mem);
      assert HasAmounts(s, cpu, mem) && Startable(s, [c], configs) && !BeamMoves.Fits(s);
    }
  }

  /** Enough whole units for three times an amount, if it is positive. */
  ghost function UnitsFor3(x: real): (n: int)
    ensures n >= 1 && (x > 0.0 ==> 3.0 * x <= n as real)
  {
    if x <= 0.0 then 1 else (3.0 * x).Floor + 1
  }

  /** Three replicas on a host that is large enough for what is not negative. */
  lemma RefusedThough(cpu: real, mem: real) returns (s: BeamMoves.Scenario, c: HostConfig, configs: seq<ServiceConfig>)
    requires cpu < 0.0 || mem < 0.0
    ensures HasAmounts(s, cpu, mem) && Startable(s, [c], configs) && !BeamMoves.Fits(s)
  {
    hide CanStart, HostsOf, BeamMoves.Fits;
    var v, d := BeamMoves.Service("a", false, 3, cpu, mem, None, None, []), ServiceConfig("a", 3, cpu, mem, [], []);
    var cores := if cpu < 0.0 then 1 else UnitsFor3(CpuFor(d));
    var gb := if cpu < 0.0 then UnitsFor3(MemFor(d)) else 1;
    var h := BeamMoves.Host("h", cores, gb, "");
    s, c, configs := BeamMoves.Scenario([v], [h], [], None), HostConfig(Named("h"), cores, gb, ""), [d];
    assert s.services[0] == v && NegativeOnly(s.services, 0);
    ThreeFit(d, Host(cores, gb, ""));
    OneHostInTurn(configs, c.id, Host(cores, gb, ""));
    OneConfig(c);
    ThreeRefused(v, h);
  }

  lemma ThreeFit(d: ServiceConfig, host: Host)
    requires d.replicas == 3 && (CpuFor(d) > 0.0 ==> 3.0 * CpuFor(d) <= host.cores as real) && (MemFor(d) > 0.0 ==> 3.0 * MemFor(d) <= host.memGB as real)
    requires host.cores >= 1 && host.memGB >= 1
    ensures AllFit([d], 0, 0, host, 0.0, 0.0)
  {
    hide CpuFor, MemFor;
    var x, y := CpuFor(d), MemFor(d);
    assert AllFit([d], 1, 0, host, x + x + x, y + y + y);
    assert AllFit([d], 0, 3, host, x + x + x, y + y + y);
    assert AllFit([d], 0, 2, host, x + x, y + y);
    assert AllFit([d], 0, 1, host, x, y);
    assert 0.0 + x == x && 0.0 + y == y;
  }

  lemma ThreeRefused(v: BeamMoves.Service, h: BeamMoves.Host)
    requires v.replicas == 3 && h.cores >= 1 && h.memGB >= 1
    requires (v.cpu < 0.0 && h.cores == 1) || (v.mem < 0.0 && h.memGB == 1)
    ensures !BeamMoves.Fits(BeamMoves.Scenario([v], [h], [], None))
  {
    assert [v][..0] == [] && [h][..0] == [];
    assert BeamMoves.Cores([h]) == h.cores as real && BeamMoves.Memory([h]) == h.memGB as real * 1024.0;
    assert BeamMoves.Replicas(v) as real == 3.0;
    assert BeamMoves.CpuNeed([v][..0]) == 0.0 && BeamMoves.MemNeed([v][..0]) == 0.0;
    assert BeamMoves.CpuNeed([v]) == 0.0 + 3.0 * BeamMoves.Cpu(v);
    assert BeamMoves.MemNeed([v]) == 0.0 + 3.0 * BeamMoves.Mem(v);
  }

  // --- Several hosts --------------------------------------------------------------

  /** How many instances of the given size a host holds. */
  function Slots(h: Host, cpu: real, mem: real): nat
    requires cpu > 0.0 && mem > 0.0
  {
    var c, m := (h.cores as real / cpu).Floor, (MemCapacity(h) / mem).Floor;
    if c < 0 || m < 0 then 0 else if c < m then c else m
  }

  function SlotsOf(hosts: map<HostId, Host>, order: seq<HostId>, cpu: real, mem: real): nat
    requires cpu > 0.0 && mem > 0.0
  {
    if order == [] then 0
    else
      var h := order[|order| - 1];
      SlotsOf(hosts, order[..|order| - 1], cpu, mem) + if h in hosts then Slots(hosts[h], cpu, mem) else 0
  }

  ghost function ListedOn(s: State, order: seq<HostId>): nat {
    if order == [] then 0 else ListedOn(s, order[..|order| - 1]) + |On(s.byHost, order[|order| - 1])|
  }

  ghost function ReplicasLeft(services: seq<ServiceConfig>, k: nat, replica: nat): nat
    decreases |services| - k, if k < |services| then services[k].replicas - replica else 0
  {
    if k >= |services| then 0
    else if replica >= services[k].replicas then ReplicasLeft(services, k + 1, 0)
    else 1 + ReplicasLeft(services, k, replica + 1)
  }

  ghost predicate AtMostEach(m: map<Id, Instance>, cpu: real, mem: real) {
    forall id :: id in m ==> m[id].cpu <= cpu && m[id].mem <= mem
  }

  ghost predicate Sized(services: seq<ServiceConfig>, cpu: real, mem: real) {
    forall i :: 0 <= i < |services| ==> CpuFor(services[i]) <= cpu && MemFor(services[i]) <= mem
  }

  lemma {:induction false} LoadAtMost(m: map<Id, Instance>, ids: seq<Id>, cpu: real, mem: real)
    requires AtMostEach(m, cpu, mem) && cpu > 0.0 && mem > 0.0
    ensures CpuOf(m, ids) <= |ids| as real * cpu && MemOf(m, ids) <= |ids| as real * mem
  {
    if ids != [] {
      LoadAtMost(m, ids[..|ids| - 1], cpu, mem);
      OneTimeMore(|ids|, cpu);
      OneTimeMore(|ids|, mem);
    }
  }

  lemma SlotsHold(h: Host, cpu: real, mem: real, n: nat)
    requires cpu > 0.0 && mem > 0.0 && n < Slots(h, cpu, mem)
    ensures (n + 1) as real * cpu <= h.cores as real && (n + 1) as real * mem <= MemCapacity(h)
  {
    Whole(h.cores as real, cpu, n + 1);
    Whole(MemCapacity(h), mem, n + 1);
  }

  lemma Whole(x: real, y: real, n: nat)
    requires y > 0.0 && n <= (x / y).Floor
    ensures n as real * y <= x
  {
    var q := x / y;
    assert n as real <= q;
    assert n as real * y <= q * y;
    assert q * y == x;
  }

  /** A host with a free slot accepts the next replica. */
  lemma FreeSlot(s: State, services: seq<ServiceConfig>, k: nat, h: HostId, cpu: real, mem: real)
    requires Free(services) && Sized(services, cpu, mem) && k < |services| && AtMostEach(s.instances, cpu, mem) && cpu > 0.0 && mem > 0.0
    requires h in s.hosts && |On(s.byHost, h)| < Slots(s.hosts[h], cpu, mem)
    ensures Accepts(s, services[k], h)
  {
    hide CpuOf, MemOf, Slots, CpuFor, MemFor, On;
    var n := |On(s.byHost, h)|;
    LoadAtMost(s.instances, On(s.byHost, h), cpu, mem);
    SlotsHold(s.hosts[h], cpu, mem, n);
    OneTimeMore(n + 1, cpu);
    OneTimeMore(n + 1, mem);
  }

  /** While fewer instances are listed than there are slots, some host has a free one. */
  lemma {:induction false} SomeSlot(s: State, order: seq<HostId>, cpu: real, mem: real) returns (h: HostId)
    requires cpu > 0.0 && mem > 0.0 && ListedOn(s, order) < SlotsOf(s.hosts, order, cpu, mem)
    ensures h in s.hosts && |On(s.byHost, h)| < Slots(s.hosts[h], cpu, mem)
  {
    hide Slots;
    h := order[|order| - 1];
    if !(h in s.hosts && |On(s.byHost, h)| < Slots(s.hosts[h], cpu, mem)) {
      h := SomeSlot(s, order[..|order| - 1], cpu, mem);
    }
  }

  lemma {:induction false} ListedAfter(s: State, c: ServiceConfig, h: HostId, order: seq<HostId>)
    requires NoDuplicates(order)
    ensures ListedOn(PlacedReplica(s, c, h), order) == ListedOn(s, order) + if h in order then 1 else 0
  {
    if order != [] {
      var n := |order| - 1;
      ListedOnce(order, n);
      ListedAfter(s, c, h, order[..n]);
    }
  }

  lemma {:induction false} SlotsSuffice(services: seq<ServiceConfig>, k: nat, replica: nat, s: State, order: seq<HostId>, cpu: real, mem: real) returns (t: State)
    requires cpu > 0.0 && mem > 0.0 && Free(services) && Sized(services, cpu, mem) && AtMostEach(s.instances, cpu, mem)
    requires NoDuplicates(order) && SetOf(order) == s.hosts.Keys
    requires ListedOn(s, order) + ReplicasLeft(services, k, replica) <= SlotsOf(s.hosts, order, cpu, mem)
    ensures Starts(services, k, replica, s, t, true)
    decreases |services| - k, if k < |services| then services[k].replicas - replica else 0
  {
    hide Free, Accepts, Stuck, PutOn, PlacedReplica, SlotsOf, ListedOn, Slots, NoDuplicates;
    if k >= |services| {
      t := s;
    } else if replica >= services[k].replicas {
      t := SlotsSuffice(services, k + 1, 0, s, order, cpu, mem);
    } else {
      var c := services[k];
      var g := SomeSlot(s, order, cpu, mem);
      FreeSlot(s, services, k, g, cpu, mem);
      assert !Stuck(s, c) by { NotStuck(s, c, g); }
      var h := PutExists(s, c, replica);
      PutAccepts(s, c, replica, h);
      assert h in SetOf(order);
      ListedAfter(s, c, h, order);
      StillAtMost(s, c, h, cpu, mem);
      t := SlotsSuffice(services, k, replica + 1, PlacedReplica(s, c, h), order, cpu, mem);
    }
  }

  lemma NotStuck(s: State, c: ServiceConfig, h: HostId)
    requires h in s.hosts && Accepts(s, c, h)
    ensures !Stuck(s, c)
  {
    hide Accepts;
  }

  lemma StillAtMost(s: State, c: ServiceConfig, h: HostId, cpu: real, mem: real)
    requires AtMostEach(s.instances, cpu, mem) && CpuFor(c) <= cpu && MemFor(c) <= mem
    ensures AtMostEach(PlacedReplica(s, c, h).instances, cpu, mem) && PlacedReplica(s, c, h).hosts == s.hosts
  {
  }

  /** Without placement policies the manager starts every scenario for whose replicas the hosts
      have slots, a slot being as large as the largest reservation. */
  lemma SlotsStart(hosts: map<HostId, Host>, services: seq<ServiceConfig>, order: seq<HostId>, cpu: real, mem: real)
    requires cpu > 0.0 && mem > 0.0 && Free(services) && Sized(services, cpu, mem)
    requires NoDuplicates(order) && SetOf(order) == hosts.Keys && ReplicasLeft(services, 0, 0) <= SlotsOf(hosts, order, cpu, mem)
    ensures CanStart(hosts, services)
  {
    hide Starts, Free, SlotsOf, ReplicasLeft, Sized, NoDuplicates;
    NoneListed(hosts, order);
    var t := SlotsSuffice(services, 0, 0, EmptyState(hosts), order, cpu, mem);
  }

  lemma {:induction false} NoneListed(hosts: map<HostId, Host>, order: seq<HostId>)
    ensures ListedOn(EmptyState(hosts), order) == 0
  {
    if order != [] { NoneListed(hosts, order[..|order| - 1]); }
  }

  // --- The check is not sufficient ------------------------------------------------

  const WIDE := BeamMoves.Scenario(
    [BeamMoves.Service("a", false, 1, 2.0, 1.0, None, None, [])],
    [BeamMoves.Host("g", 1, 1, ""), BeamMoves.Host("h", 1, 1, "")], [], None)
  const WIDE_HOSTS := [HostConfig(Named("g"), 1, 1, ""), HostConfig(Named("h"), 1, 1, "")]
  const WIDE_SERVICES := [ServiceConfig("a", 1, 2.0, 1.0, [], [])]

  /** An instance of two cores passes the check on two hosts of one core, but fits neither. */
  lemma FitsNotPlaceable()
    ensures SameHosts(WIDE.hosts, WIDE_HOSTS) && SameServices(WIDE.services, WIDE_SERVICES) && BeamMoves.Fits(WIDE)
    ensures !Startable(WIDE, WIDE_HOSTS, WIDE_SERVICES)
  {
    hide HostsOf, Starts;
    WideFits();
    forall t ensures !Starts(WIDE_SERVICES, 0, 0, EmptyState(HostsOf(WIDE_HOSTS)), t, true) {
      WideStuck(t);
    }
  }

  lemma WideFits()
    ensures BeamMoves.Fits(WIDE)
  {
    assert WIDE.hosts[..1] == [WIDE.hosts[0]] && WIDE.hosts[..1][..0] == [] && WIDE.services[..0] == [];
    assert BeamMoves.Cores(WIDE.hosts[..1]) == 1.0 && BeamMoves.Memory(WIDE.hosts[..1]) == 1024.0;
    assert BeamMoves.Cores(WIDE.hosts) == 2.0 && BeamMoves.Memory(WIDE.hosts) == 2048.0;
    assert BeamMoves.Replicas(WIDE.services[0]) as real == 1.0 && BeamMoves.CpuNeed(WIDE.services[..0]) == 0.0 && BeamMoves.MemNeed(WIDE.services[..0]) == 0.0;
    assert BeamMoves.CpuNeed(WIDE.services) == 2.0 && BeamMoves.MemNeed(WIDE.services) == 1.0;
  }

  lemma WideStuck(t: State)
    ensures !Starts(WIDE_SERVICES, 0, 0, EmptyState(HostsOf(WIDE_HOSTS)), t, true)
  {
    hide HostsOf;
    var s, c := EmptyState(HostsOf(WIDE_HOSTS)), WIDE_SERVICES[0];
    WideHosts();
    forall h | h in s.hosts ensures !Accepts(s, c, h) {
      assert CpuOf(s.instances, On(s.byHost, h)) == 0.0;
      assert CpuFor(c) == 2.0 && s.hosts[h].cores == 1;
    }
    assert Stuck(s, c);
  }

  lemma WideHosts()
    ensures HostsOf(WIDE_HOSTS) == map[Named("g") := Host(1, 1, ""), Named("h") := Host(1, 1, "")]
  {
    assert WIDE_HOSTS[..1] == [WIDE_HOSTS[0]] && WIDE_HOSTS[..1][..0] == [];
  }
}
