/**
  The cheap capacity check of the batch search against the manager that has to place the
  scenario: when the check can refuse what the manager can start.
*/
module BatchPlacement {
  import opened Orders
  import opened Cluster
  import opened ClusterOps
  import BeamMoves

  // --- Loads and capacities of listed hosts ---------------------------------------

  function CpuOn(s: State, order: seq<HostId>): real {
    if order == [] then 0.0 else CpuOn(s, order[..|order| - 1]) + CpuOf(s.instances, On(s.byHost, order[|order| - 1]))
  }

  function MemOn(s: State, order: seq<HostId>): real {
    if order == [] then 0.0 else MemOn(s, order[..|order| - 1]) + MemOf(s.instances, On(s.byHost, order[|order| - 1]))
  }

  function CoresOf(hosts: map<HostId, Host>, order: seq<HostId>): real {
    if order == [] then 0.0
    else
      var h := order[|order| - 1];
      CoresOf(hosts, order[..|order| - 1]) + if h in hosts then hosts[h].cores as real else 0.0
  }

  function MemoryOf(hosts: map<HostId, Host>, order: seq<HostId>): real {
    if order == [] then 0.0
    else
      var h := order[|order| - 1];
      MemoryOf(hosts, order[..|order| - 1]) + if h in hosts then MemCapacity(hosts[h]) else 0.0
  }

  lemma {:induction false} InSomeOrder(keys: set<HostId>) returns (order: seq<HostId>)
    ensures NoDuplicates(order) && SetOf(order) == keys
    decreases |keys|
  {
    if keys == {} {
      order := [];
    } else {
      var h :| h in keys;
      var rest := InSomeOrder(keys - {h});
      order := rest + [h];
      assert h !in SetOf(rest);
      assert SetOf(order) == SetOf(rest) + {h};
    }
  }

  // --- What placing does to the loads ---------------------------------------------

  lemma LoadAfter(s: State, sv: string, h: HostId, cpu: real, mem: real, g: HostId)
    requires Tidy(s)
    ensures var t, more := Placed(s, sv, h, cpu, mem), g == h;
      && CpuOf(t.instances, On(t.byHost, g)) == CpuOf(s.instances, On(s.byHost, g)) + (if more then cpu else 0.0)
      && MemOf(t.instances, On(t.byHost, g)) == MemOf(s.instances, On(s.byHost, g)) + (if more then mem else 0.0)
  {
    hide CpuOf, MemOf, NoDuplicates;
    var t, id := Placed(s, sv, h, cpu, mem), Id(sv, s.next);
    assert id !in On(s.byHost, g);
    SumsAgree(s.instances, t.instances, On(s.byHost, g));
    SumsWith(t.instances, On(s.byHost, h), id);
  }

  lemma {:induction false} LoadsAfter(s: State, sv: string, h: HostId, cpu: real, mem: real, order: seq<HostId>)
    requires Tidy(s) && NoDuplicates(order)
    ensures var t, more := Placed(s, sv, h, cpu, mem), h in order;
      && CpuOn(t, order) == CpuOn(s, order) + (if more then cpu else 0.0)
      && MemOn(t, order) == MemOn(s, order) + (if more then mem else 0.0)
  {
    hide Tidy, Placed, CpuOf, MemOf;
    if order != [] {
      var n := |order| - 1;
      assert order[n] !in order[..n];
      LoadsAfter(s, sv, h, cpu, mem, order[..n]);
      LoadAfter(s, sv, h, cpu, mem, order[n]);
    }
  }

  /** What is still to be placed, from the given replica on. */
  ghost function CpuLeft(services: seq<ServiceConfig>, k: nat, replica: nat): real
    decreases |services| - k, if k < |services| then services[k].replicas - replica else 0
  {
    if k >= |services| then 0.0
    else if replica >= services[k].replicas then CpuLeft(services, k + 1, 0)
    else CpuFor(services[k]) + CpuLeft(services, k, replica + 1)
  }

  ghost function MemLeft(services: seq<ServiceConfig>, k: nat, replica: nat): real
    decreases |services| - k, if k < |services| then services[k].replicas - replica else 0
  {
    if k >= |services| then 0.0
    else if replica >= services[k].replicas then MemLeft(services, k + 1, 0)
    else MemFor(services[k]) + MemLeft(services, k, replica + 1)
  }

  /** A successful start puts everything on the hosts, without overcommitting one. */
  lemma {:induction false} StartLoads(services: seq<ServiceConfig>, k: nat, replica: nat, s: State, ever: set<string>, t: State, order: seq<HostId>)
    requires Starts(services, k, replica, s, t, true) && Base(s, Past(false, false, true, ever)) && !AnyNegative(services)
    requires NoDuplicates(order) && SetOf(order) == s.hosts.Keys
    ensures t.hosts == s.hosts && CapacityOk(t.hosts, t.instances, t.byHost)
    ensures CpuOn(t, order) == CpuOn(s, order) + CpuLeft(services, k, replica)
    ensures MemOn(t, order) == MemOn(s, order) + MemLeft(services, k, replica)
    decreases |services| - k, if k < |services| then services[k].replicas - replica else 0
  {
    hide Base, PutOn, Stuck, CpuOn, MemOn, NoDuplicates, PlacedReplica, Room;
    if k >= |services| {
      BaseFits(s, ever);
    } else if replica >= services[k].replicas {
      StartLoads(services, k + 1, 0, s, ever, t, order);
    } else {
      var c := services[k];
      var h :| PutOn(s, c, replica, h) && Starts(services, k, replica + 1, PlacedReplica(s, c, h), t, true);
      var u := OneMore(s, ever, c, replica, h, order, services);
      StartLoads(services, k, replica + 1, u, ever + {c.id}, t, order);
    }
  }

  lemma OneMore(s: State, ever: set<string>, c: ServiceConfig, replica: nat, h: HostId, order: seq<HostId>, services: seq<ServiceConfig>) returns (u: State)
    requires PutOn(s, c, replica, h) && Base(s, Past(false, false, true, ever)) && c in services && !AnyNegative(services)
    requires NoDuplicates(order) && SetOf(order) == s.hosts.Keys
    ensures u == PlacedReplica(s, c, h) && u.hosts == s.hosts && Base(u, Past(false, false, true, ever + {c.id}))
    ensures CpuOn(u, order) == CpuOn(s, order) + CpuFor(c) && MemOn(u, order) == MemOn(s, order) + MemFor(c)
  {
    hide Base, PutOn, Stuck, CpuOn, MemOn, NoDuplicates, Tidy, Allowed, Room;
    var past := Past(false, false, true, ever);
    PutAccepts(s, c, replica, h);
    BaseTidy(s, past);
    assert !IsNegative(c);
    PlaceKeeps(s, past, c.id, h, CpuFor(c), MemFor(c));
    assert h in SetOf(order);
    LoadsAfter(s, c.id, h, CpuFor(c), MemFor(c), order);
    u := PlacedReplica(s, c, h);
  }

  lemma BaseFits(s: State, ever: set<string>)
    requires Base(s, Past(false, false, true, ever))
    ensures CapacityOk(s.hosts, s.instances, s.byHost)
  {
    hide CapacityOk, PlacedOk, ServedOk, SizesOk, LooseOk;
  }

  // --- What the hosts offer -------------------------------------------------------

  /** Hosts within their capacity carry no more than the slack allows. */
  lemma {:induction false} LoadsFit(s: State, order: seq<HostId>)
    requires CapacityOk(s.hosts, s.instances, s.byHost) && SizesOk(s.hosts) && forall i :: 0 <= i < |order| ==> order[i] in s.hosts
    ensures CpuOn(s, order) <= CoresOf(s.hosts, order) * BeamMoves.SLACK
    ensures MemOn(s, order) <= MemoryOf(s.hosts, order) * BeamMoves.SLACK
  {
    hide CapacityOk, CpuOf, MemOf;
    if order != [] {
      var n := |order| - 1;
      LoadsFit(s, order[..n]);
      LoadFits(s, order[n]);
    }
  }

  lemma LoadFits(s: State, h: HostId)
    requires CapacityOk(s.hosts, s.instances, s.byHost) && SizesOk(s.hosts) && h in s.hosts
    ensures CpuOf(s.instances, On(s.byHost, h)) <= s.hosts[h].cores as real * BeamMoves.SLACK
    ensures MemOf(s.instances, On(s.byHost, h)) <= MemCapacity(s.hosts[h]) * BeamMoves.SLACK
  {
    hide CpuOf, MemOf;
    assert HostOk(s.hosts[h], s.instances, On(s.byHost, h));
  }

  /** The hosts of a scenario as the manager is given them. */
  ghost predicate SameHosts(hosts: seq<BeamMoves.Host>, configs: seq<HostConfig>) {
    |hosts| == |configs| && forall i :: 0 <= i < |hosts| ==> configs[i].cores == hosts[i].cores && configs[i].memGB == hosts[i].memGB
  }

  /** What the loader sees to: hosts have cores, and services replicas. */
  ghost predicate Loaded(s: BeamMoves.Scenario) {
    && s.services != []
    && (forall i :: 0 <= i < |s.hosts| ==> s.hosts[i].cores >= 1)
    && (forall i :: 0 <= i < |s.services| ==> s.services[i].replicas >= 1)
  }

  ghost predicate NonNegative(services: seq<BeamMoves.Service>) {
    forall i :: 0 <= i < |services| ==> services[i].cpu >= 0.0 && services[i].mem >= 0.0
  }

  function WithoutHost(order: seq<HostId>, h: HostId): (r: seq<HostId>)
    ensures forall x :: x in r <==> x in order && x != h
  {
    if order == [] then []
    else WithoutHost(order[..|order| - 1], h) + if order[|order| - 1] == h then [] else [order[|order| - 1]]
  }

  lemma {:induction false} WithoutHostOnce(order: seq<HostId>, h: HostId)
    requires NoDuplicates(order)
    ensures NoDuplicates(WithoutHost(order, h))
  {
    if order != [] {
      var n := |order| - 1;
      WithoutHostOnce(order[..n], h);
      assert order[n] !in order[..n];
      assert forall i :: 0 <= i < |WithoutHost(order[..n], h)| ==> WithoutHost(order[..n], h)[i] in WithoutHost(order[..n], h);
    }
  }

  /** Replacing one host changes what it offers and nothing else. */
  lemma {:induction false} OfferedWith(hosts: map<HostId, Host>, h: HostId, host: Host, order: seq<HostId>)
    requires NoDuplicates(order)
    ensures CoresOf(hosts[h := host], order) == CoresOf(hosts, WithoutHost(order, h)) + (if h in order then host.cores as real else 0.0)
    ensures MemoryOf(hosts[h := host], order) == MemoryOf(hosts, WithoutHost(order, h)) + (if h in order then MemCapacity(host) else 0.0)
  {
    hide CoresOf, MemoryOf, NoDuplicates;
    if order == [] {
      Unlisted(hosts, h, host);
    } else {
      var n := |order| - 1;
      var init, last := order[..n], order[n];
      ListedOnce(order, n);
      OfferedWith(hosts, h, host, init);
      assert init + [last] == order;
      OfferedLast(hosts[h := host], init, last);
      if last != h {
        assert WithoutHost(order, h) == WithoutHost(init, h) + [last];
        OfferedLast(hosts, WithoutHost(init, h), last);
      } else {
        assert WithoutHost(order, h) == WithoutHost(init, h);
      }
    }
  }

  lemma OfferedLast(hosts: map<HostId, Host>, order: seq<HostId>, h: HostId)
    ensures CoresOf(hosts, order + [h]) == CoresOf(hosts, order) + if h in hosts then hosts[h].cores as real else 0.0
    ensures MemoryOf(hosts, order + [h]) == MemoryOf(hosts, order) + if h in hosts then MemCapacity(hosts[h]) else 0.0
  {
    assert (order + [h])[..|order|] == order;
  }

  lemma Unlisted(hosts: map<HostId, Host>, h: HostId, host: Host)
    ensures CoresOf(hosts[h := host], []) == CoresOf(hosts, WithoutHost([], h)) == 0.0
    ensures MemoryOf(hosts[h := host], []) == MemoryOf(hosts, WithoutHost([], h)) == 0.0
  {
  }

  lemma ListedOnce(order: seq<HostId>, n: nat)
    requires NoDuplicates(order) && n + 1 == |order|
    ensures NoDuplicates(order[..n]) && order[n] !in order[..n]
  {
  }

  /** The hosts the manager keeps offer no more than the scenario lists: of two with the same
      name it keeps one. */
  lemma {:induction false} OfferedAtMost(hosts: seq<BeamMoves.Host>, configs: seq<HostConfig>, order: seq<HostId>)
    requires SameHosts(hosts, configs) && NoDuplicates(order) && forall i :: 0 <= i < |hosts| ==> hosts[i].cores >= 1
    ensures CoresOf(HostsOf(configs), order) <= BeamMoves.Cores(hosts)
    ensures MemoryOf(HostsOf(configs), order) <= BeamMoves.Memory(hosts)
  {
    if configs == [] {
      NothingOffered(order);
    } else {
      var n := |configs| - 1;
      var c, less := configs[n], WithoutHost(order, configs[n].id);
      WithoutHostOnce(order, c.id);
      OfferedAtMost(hosts[..n], configs[..n], less);
      OfferedWith(HostsOf(configs[..n]), c.id, Host(c.cores, if c.memGB <= 0 then DEFAULT_HOST_MEM else c.memGB, c.zone), order);
    }
  }

  lemma {:induction false} NothingOffered(order: seq<HostId>)
    ensures CoresOf(map[], order) == 0.0 && MemoryOf(map[], order) == 0.0
  {
    if order != [] { NothingOffered(order[..|order| - 1]); }
  }

  // --- What the services need -----------------------------------------------------

  /** The services of a scenario as the manager is given them, with any placement policy. */
  ghost predicate SameServices(services: seq<BeamMoves.Service>, configs: seq<ServiceConfig>) {
    |services| == |configs| && forall i :: 0 <= i < |services| ==>
      configs[i].replicas == services[i].replicas && configs[i].cpu == services[i].cpu && configs[i].mem == services[i].mem
  }

  lemma {:induction false} OneServiceLeft(configs: seq<ServiceConfig>, k: nat, replica: nat)
    requires k < |configs| && replica <= configs[k].replicas
    ensures CpuLeft(configs, k, replica) == (configs[k].replicas - replica) as real * CpuFor(configs[k]) + CpuLeft(configs, k + 1, 0)
    ensures MemLeft(configs, k, replica) == (configs[k].replicas - replica) as real * MemFor(configs[k]) + MemLeft(configs, k + 1, 0)
    decreases configs[k].replicas - replica
  {
    if replica < configs[k].replicas {
      OneServiceLeft(configs, k, replica + 1);
      OneTimeMore(configs[k].replicas - replica, CpuFor(configs[k]));
      OneTimeMore(configs[k].replicas - replica, MemFor(configs[k]));
    }
  }

  lemma OneTimeMore(n: int, x: real)
    ensures n as real * x == (n - 1) as real * x + x
  {
    assert (n - 1) as real * x == n as real * x - x;
  }

  lemma NeedsNext(services: seq<BeamMoves.Service>, k: nat)
    requires k < |services|
    ensures BeamMoves.CpuNeed(services[..k + 1]) == BeamMoves.CpuNeed(services[..k]) + BeamMoves.Replicas(services[k]) as real * BeamMoves.Cpu(services[k])
    ensures BeamMoves.MemNeed(services[..k + 1]) == BeamMoves.MemNeed(services[..k]) + BeamMoves.Replicas(services[k]) as real * BeamMoves.Mem(services[k])
  {
    assert services[..k + 1][..k] == services[..k];
  }

  lemma SameNeed(v: BeamMoves.Service, c: ServiceConfig)
    requires c.replicas == v.replicas >= 1 && c.cpu == v.cpu >= 0.0 && c.mem == v.mem >= 0.0
    ensures BeamMoves.Replicas(v) == c.replicas && BeamMoves.Cpu(v) == CpuFor(c) && BeamMoves.Mem(v) == MemFor(c)
  {
  }

  lemma NothingLeft(configs: seq<ServiceConfig>, k: nat)
    requires k >= |configs|
    ensures CpuLeft(configs, k, 0) == 0.0 && MemLeft(configs, k, 0) == 0.0
  {
  }

  lemma {:induction false} AllLeft(services: seq<BeamMoves.Service>, configs: seq<ServiceConfig>, k: nat)
    requires SameServices(services, configs) && NonNegative(services) && k <= |services|
    requires forall i :: 0 <= i < |services| ==> services[i].replicas >= 1
    ensures CpuLeft(configs, k, 0) == BeamMoves.CpuNeed(services) - BeamMoves.CpuNeed(services[..k])
    ensures MemLeft(configs, k, 0) == BeamMoves.MemNeed(services) - BeamMoves.MemNeed(services[..k])
    decreases |services| - k
  {
    hide CpuLeft, MemLeft, BeamMoves.CpuNeed, BeamMoves.MemNeed, BeamMoves.Cpu, BeamMoves.Mem, BeamMoves.Replicas, CpuFor, MemFor;
    if k < |services| {
      OneServiceLeft(configs, k, 0);
      AllLeft(services, configs, k + 1);
      NeedsNext(services, k);
      SameNeed(services[k], configs[k]);
    } else {
      NothingLeft(configs, k);
      assert services[..k] == services;
    }
  }

  // --- The check is necessary -----------------------------------------------------

  ghost predicate CanStart(hosts: map<HostId, Host>, configs: seq<ServiceConfig>) {
    exists t :: Starts(configs, 0, 0, EmptyState(hosts), t, true)
  }

  /** Can the manager start the scenario, with the placement policies of `configs`? */
  ghost predicate Startable(s: BeamMoves.Scenario, hostConfigs: seq<HostConfig>, configs: seq<ServiceConfig>) {
    SameHosts(s.hosts, hostConfigs) && SameServices(s.services, configs) && CanStart(HostsOf(hostConfigs), configs)
  }

  /** A scenario without negative reservations that the manager can start passes the capacity
      check. */
  lemma PlaceableFits(s: BeamMoves.Scenario, hostConfigs: seq<HostConfig>, configs: seq<ServiceConfig>)
    requires Loaded(s) && NonNegative(s.services) && Startable(s, hostConfigs, configs)
    ensures BeamMoves.Fits(s)
  {
    hide Starts, HostsOf, CpuOn, MemOn, CoresOf, MemoryOf, CapacityOk, Base, SizesOk, NoDuplicates;
    var hosts := HostsOf(hostConfigs);
    var first := EmptyState(hosts);
    var t :| Starts(configs, 0, 0, first, t, true);
    AllSized(s.hosts, hostConfigs);
    EmptyBase(hosts, false, true);
    NoneNegative(s.services, configs);
    var order := InSomeOrder(hosts.Keys);
    StartLoads(configs, 0, 0, first, {}, t, order);
    NothingLoaded(hosts, order);
    assert forall i :: 0 <= i < |order| ==> order[i] in SetOf(order);
    LoadsFit(t, order);
    OfferedAtMost(s.hosts, hostConfigs, order);
    AllLeft(s.services, configs, 0);
    assert s.services[..0] == [];
  }

  lemma AllSized(hosts: seq<BeamMoves.Host>, configs: seq<HostConfig>)
    requires SameHosts(hosts, configs) && forall i :: 0 <= i < |hosts| ==> hosts[i].cores >= 1
    ensures SizesOk(HostsOf(configs))
  {
    hide HostsOf;
    assert forall c :: c in configs ==> c.cores >= 1;
    HostsOfSizes(configs);
  }

  lemma NoneNegative(services: seq<BeamMoves.Service>, configs: seq<ServiceConfig>)
    requires SameServices(services, configs) && NonNegative(services)
    ensures !AnyNegative(configs)
  {
  }

  lemma {:induction false} NothingLoaded(hosts: map<HostId, Host>, order: seq<HostId>)
    ensures CpuOn(EmptyState(hosts), order) == 0.0 && MemOn(EmptyState(hosts), order) == 0.0
  {
    if order != [] {
      NothingLoaded(hosts, order[..|order| - 1]);
    }
  }
}
