/**
  A run in which a host is overcommitted although no reservation is negative: the scenario
  lists one service twice with different reservations, and its start fails.
*/
module ManagerMixed {
  import opened Orders
  import opened Cluster
  import opened ClusterOps
  import opened Manager
  import opened ManagerRuns

  const G := Named("g")
  const H := Named("h")
  const K := Named("k")
  const A0 := Id("a", 0)
  const A1 := Id("a", 1)
  const HOSTS := map[G := Host(2, 1, "x"), H := Host(1, 1, "y"), K := Host(4, 1, "")]
  const HOST_CONFIGS := [HostConfig(G, 2, 1, "x"), HostConfig(H, 1, 1, "y"), HostConfig(K, 4, 1, "")]
  const LARGE := ServiceConfig("a", 1, 2.0, 1.0, ["x"], [])
  const SMALL := ServiceConfig("a", 1, 1.0, 1.0, ["y"], [])
  const HUGE := ServiceConfig("b", 1, 100.0, 1.0, [], [])
  const SERVICES := [LARGE, SMALL, HUGE]

  function Tables(a0: HostId, a1: HostId, cpu1: real, onK: seq<Id>, next: nat): State {
    State(HOSTS, map[A0 := NewInstance(a0, 2.0, 1.0), A1 := NewInstance(a1, cpu1, 1.0)],
          if onK == [] then map[G := [A0], H := [A1]] else map[G := [A0], H := [A1], K := onK], map[], map[], next)
  }

  lemma HostsAre()
    ensures HostsOf(HOST_CONFIGS) == HOSTS
  {
    var c := HOST_CONFIGS;
    assert c[..2] == [c[0], c[1]] && c[..2][..1] == [c[0]] && c[..1][..0] == [];
    assert HostsOf(c[..2][..1]) == map[G := Host(2, 1, "x")];
  }

  lemma SumOfOne(m: map<Id, Instance>, id: Id)
    requires id in m
    ensures CpuOf(m, [id]) == m[id].cpu && MemOf(m, [id]) == m[id].mem
  {
    SumsWith(m, [], id);
    assert [] + [id] == [id];
  }

  // --- The start ------------------------------------------------------------------

  lemma LargeGoesToG(x: HostId)
    ensures !Stuck(EmptyState(HOSTS), LARGE) && (Accepts(EmptyState(HOSTS), LARGE, x) ==> x == G)
  {
    hide CpuOf, MemOf;
    NoSum(map[]);
    assert Accepts(EmptyState(HOSTS), LARGE, G);
  }

  lemma SmallGoesToH(x: HostId)
    ensures var s := PlacedReplica(EmptyState(HOSTS), LARGE, G);
      !Stuck(s, SMALL) && (Accepts(s, SMALL, x) ==> x == H)
  {
    hide CpuOf, MemOf;
    var s := PlacedReplica(EmptyState(HOSTS), LARGE, G);
    NoSum(s.instances);
    assert Accepts(s, SMALL, H);
  }

  lemma HugeGoesNowhere()
    ensures PlacedReplica(PlacedReplica(EmptyState(HOSTS), LARGE, G), SMALL, H) == Tables(G, H, 1.0, [], 2)
    ensures Stuck(Tables(G, H, 1.0, [], 2), HUGE)
  {
    hide CpuOf, MemOf;
    var s := Tables(G, H, 1.0, [], 2);
    var s1 := PlacedReplica(EmptyState(HOSTS), LARGE, G);
    assert s1.byHost == map[G := [A0]] && s1.instances == map[A0 := NewInstance(G, 2.0, 1.0)] by { assert [] + [A0] == [A0]; }
    assert PlacedReplica(s1, SMALL, H).byHost == s.byHost by { assert [] + [A1] == [A1]; }
    assert PlacedReplica(s1, SMALL, H).instances == s.instances;
    SumOfOne(s.instances, A0);
    SumOfOne(s.instances, A1);
    NoSum(s.instances);
  }

  lemma StartFails(t: State, ok: bool)
    requires Starts(SERVICES, 0, 0, EmptyState(HOSTS), t, ok)
    ensures !ok && t == Tables(G, H, 1.0, [], 2)
  {
    hide Starts, PutOn, Stuck, Accepts, PlacedReplica, Tables;
    var s := EmptyState(HOSTS);
    LargeGoesToG(G);
    var g := SomeHost(SERVICES, 0, 0, s, t, ok);
    PutAccepts(s, LARGE, 0, g);
    LargeGoesToG(g);
    var s1 := PlacedReplica(s, LARGE, G);
    NextService(SERVICES, 0, 1, s1, t, ok);
    SmallGoesToH(H);
    var h := SomeHost(SERVICES, 1, 0, s1, t, ok);
    PutAccepts(s1, SMALL, 0, h);
    SmallGoesToH(h);
    var s2 := PlacedReplica(s1, SMALL, H);
    NextService(SERVICES, 1, 1, s2, t, ok);
    HugeGoesNowhere();
    StuckEnds(SERVICES, 2, 0, s2, t, ok);
  }

  // --- Scaling --------------------------------------------------------------------

  lemma {:induction false} SamePrefix(p: string, a: string, b: string)
    ensures AtMost(p + a, p + b) <==> AtMost(a, b)
  {
    if p == "" {
      assert p + a == a && p + b == b;
    } else {
      SamePrefix(p[1..], a, b);
      assert (p + a)[1..] == p[1..] + a && (p + b)[1..] == p[1..] + b;
    }
  }

  /** The first instance by name is the large one. */
  lemma LargeFirst(active: seq<Id>)
    requires IsSorted(active, {A0, A1}, IdName)
    ensures |active| == 2 && active[0] == A0
  {
    hide AtMost;
    SizeOf(active);
    assert active[0] in SetOf(active) && active[1] in SetOf(active);
    if active[0] == A1 {
      assert AtMost(IdName(A1), IdName(A0));
      SamePrefix("a-instance-", "1", "0");
      assert IdName(A1) == "a-instance-" + "1" && IdName(A0) == "a-instance-" + "0";
      OneAfterZero();
    }
  }

  lemma OneAfterZero()
    ensures !AtMost("1", "0")
  {
  }

  lemma OnlyK(s: State, x: HostId)
    requires s == Tables(G, H, 1.0, [], 0) || s == Tables(K, H, 1.0, [A0], 1)
    ensures !NoRoom(s, 2.0, 1.0) && (Room(s, x, 2.0, 1.0) ==> x == K)
  {
    hide CpuOf, MemOf;
    SumOfOne(s.instances, A0);
    SumOfOne(s.instances, A1);
    NoSum(s.instances);
    assert Room(s, K, 2.0, 1.0);
  }

  lemma OneAdded(s: State, count: nat, t: State, ok: bool)
    requires s == Tables(G, H, 1.0, [], 0) || s == Tables(K, H, 1.0, [A0], 1)
    requires count > 0 && Adds(s, "a", 2.0, 1.0, count, t, ok)
    ensures Adds(Placed(s, "a", K, 2.0, 1.0), "a", 2.0, 1.0, count - 1, t, ok)
  {
    hide PickedFor, Room, Placed, Tables;
    OnlyK(s, K);
    var x :| PickedFor(s, "a", 2.0, 1.0, x) && Adds(Placed(s, "a", x, 2.0, 1.0), "a", 2.0, 1.0, count - 1, t, ok);
    PickedHasRoom(s, "a", 2.0, 1.0, x);
    OnlyK(s, x);
  }

  lemma BothReplaced()
    ensures Placed(Tables(G, H, 1.0, [], 0), "a", K, 2.0, 1.0) == Tables(K, H, 1.0, [A0], 1)
    ensures Placed(Tables(K, H, 1.0, [A0], 1), "a", K, 2.0, 1.0) == Tables(K, K, 2.0, [A0, A1], 2)
  {
    var s, t, u := Tables(G, H, 1.0, [], 0), Tables(K, H, 1.0, [A0], 1), Tables(K, K, 2.0, [A0, A1], 2);
    assert Placed(s, "a", K, 2.0, 1.0).byHost == t.byHost by { assert [] + [A0] == [A0]; }
    assert Placed(s, "a", K, 2.0, 1.0).instances == t.instances;
    assert Placed(t, "a", K, 2.0, 1.0).byHost == u.byHost by { assert [A0] + [A1] == [A0, A1]; }
    assert Placed(t, "a", K, 2.0, 1.0).instances == u.instances;
  }

  lemma ScaledToFour(t: State, ok: bool)
    requires Scales(Tables(G, H, 1.0, [], 0), "a", 4, 0, t, ok)
    ensures t == Tables(K, K, 2.0, [A0, A1], 2)
  {
    hide Adds, Placed, IsSorted, Drained;
    var s := Tables(G, H, 1.0, [], 0);
    var active :| IsSorted(active, ActiveOf(s.instances, "a"), IdName) && ScalesFrom(s, "a", active, 4, 0, t, ok);
    assert ActiveOf(s.instances, "a") == {A0, A1};
    LargeFirst(active);
    OneAdded(s, 2, t, ok);
    BothReplaced();
    OneAdded(Tables(K, H, 1.0, [A0], 1), 1, t, ok);
    NothingMore(Tables(K, K, 2.0, [A0, A1], 2), t, ok);
  }

  lemma NothingMore(s: State, t: State, ok: bool)
    requires Adds(s, "a", 2.0, 1.0, 0, t, ok)
    ensures t == s
  {
  }

  /** The start places `a` twice, with two cores and with one, and fails at `b`.  Scaling `a`
      then hands out both IDs again, each time with two cores, and the host of one core that
      still lists the second is charged with two. */
  method MixedStartRun() returns (load: real, cores: int)
    ensures load == 2.0 && cores == 1
  {
    hide Sound, Scales, Starts, Lists, HostsOf, Tables, CpuOf, MemOf;
    var m := new Manager();
    var ok := m.InitializeFromScenario(HOST_CONFIGS, SERVICES);
    HostsAre();
    assert G in m.hosts;
    ghost var t :| Starts(SERVICES, 0, 0, EmptyState(m.hosts), t, ok) && m.View() == AfterStart(t, m.View(), ok);
    StartFails(t, ok);
    TablesAre(G, H, 1.0, [], 2);
    ghost var s := m.View();
    assert s == Tables(G, H, 1.0, [], 0) by { TablesNext(); }
    assert A0 in InstancesOf(m.instances, "a");
    ok := m.ScaleServiceWithOptions("a", 4, 0);
    ScaledToFour(m.View().(cache := s.cache, cursor := s.cursor), ok);
    TablesAre(K, K, 2.0, [A0, A1], 2);
    SumOfOne(m.instances, A1);
    var mem;
    load, mem := m.HostLoad(H);
    cores := m.hosts[H].cores;
  }

  lemma TablesNext()
    ensures Tables(G, H, 1.0, [], 2).(next := 0) == Tables(G, H, 1.0, [], 0)
  {
  }

  lemma TablesAre(a0: HostId, a1: HostId, cpu1: real, onK: seq<Id>, next: nat)
    ensures var t := Tables(a0, a1, cpu1, onK, next);
      t.hosts == HOSTS && A0 in t.instances && A1 in t.instances && t.instances[A1].cpu == cpu1 && On(t.byHost, H) == [A1]
  {
  }
}
