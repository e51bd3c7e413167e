/** Consecutive selections, and two runs of the manager that go wrong. */
module ManagerRuns {
  import opened Wrappers
  import opened Orders
  import opened Cluster
  import opened ClusterOps
  import opened Routing
  import opened Manager

  // --- Rounds ---------------------------------------------------------------------

  lemma NextTurn(x: nat, n: nat)
    requires n > 0
    ensures (x % n + 1) % n == (x + 1) % n
  {
    NextRemainder(x, n, x / n, x % n);
  }

  lemma NextRemainder(x: nat, n: nat, q: nat, r: nat)
    requires n > 0 && x == n * q + r && r < n
    ensures (r + 1) % n == (x + 1) % n
  {
    if r + 1 == n {
      assert n * (q + 1) == n * q + n;
      RemainderIs(x + 1, n, q + 1, 0);
      RemainderIs(r + 1, n, 1, 0);
    } else {
      RemainderIs(x + 1, n, q, r + 1);
      RemainderIs(r + 1, n, 0, r + 1);
    }
  }

  lemma RemainderIs(x: nat, n: nat, q: nat, r: nat)
    requires n > 0 && x == n * q + r && r < n
    ensures x % n == r
  {
    var d := x / n - q;
    assert n * d == r - x % n;
    assert (d >= 1 ==> n * d >= n) && (d <= -1 ==> n * d <= -1 * n);
  }

  /** As many consecutive selections as a service has cached instances give each of them
      exactly once, wherever the cursor stands. */
  method PlainRound(m: Manager, sv: string) returns (picks: seq<Id>)
    requires m.Valid() && sv in m.cache
    modifies m`cursor
    ensures m.Valid() && multiset(picks) == multiset(m.cache[sv]) && NoDuplicates(m.cache[sv])
    ensures forall id :: id in m.cache[sv] ==> multiset(picks)[id] == 1
    ensures At(m.cursor, sv) == old(At(m.cursor, sv))
  {
    hide Sound, NoDuplicates, IsActive;
    SoundCached(m.View(), m.past, sv);
    var n := |m.cache[sv]|;
    ghost var start := At(m.cursor, sv);
    picks := [];
    for k := 0 to n
      invariant m.Valid() && |picks| == k && At(m.cursor, sv) == (start + k) % n
      invariant forall i :: 0 <= i < k ==> picks[i] == Turn(m.cache[sv], start, i)
    {
      assert m.cache[sv][At(m.cursor, sv)] == Turn(m.cache[sv], start, k);
      var r := m.SelectInstanceForService(sv);
      NextTurn(start + k, n);
      picks := picks + [r.value];
    }
    Rotation(m.cache[sv], start, picks);
    OnceEach(m.cache[sv]);
    RemainderIs(start + n, n, 1, start);
  }

  lemma {:induction false} OnceEach(s: seq<Id>)
    requires NoDuplicates(s)
    ensures forall x :: x in s ==> multiset(s)[x] == 1
  {
    if s != [] {
      var n := |s| - 1;
      OnceEach(s[..n]);
      assert s == s[..n] + [s[n]] && s[n] !in s[..n];
    }
  }

  method RoundRobinPick(m: Manager, sv: string, zone: Option<string>, among: seq<Id>) returns (r: Id)
    requires m.Valid() && sv in m.cache && among == Eligible(m.View(), sv, zone) && among != []
    modifies m`cursor, m`wheel
    ensures m.Valid() && Eligible(m.View(), sv, zone) == among
    ensures r == among[Standing(old(At(m.cursor, sv)), |among|)]
    ensures Standing(At(m.cursor, sv), |among|) == (Standing(old(At(m.cursor, sv)), |among|) + 1) % |among|
  {
    hide Sound, Eligible, Chooses, IsActive;
    ghost var before, turn := m.View(), At(m.wheel, sv);
    var picked := m.SelectInstanceForRequest(sv, zone, RoundRobin);
    r := picked.value;
    EligibleSame(before, m.View(), sv, zone);
    TakenInTurn(among, At(before.cursor, sv), turn, r);
  }

  /** The same among the instances eligible for a request. */
  method RoundRobinRound(m: Manager, sv: string, zone: Option<string>) returns (picks: seq<Id>)
    requires m.Valid() && sv in m.cache
    modifies m`cursor, m`wheel
    ensures m.Valid() && multiset(picks) == multiset(Eligible(old(m.View()), sv, zone))
    ensures forall id :: id in Eligible(old(m.View()), sv, zone) ==> multiset(picks)[id] == 1
  {
    hide Sound, NoDuplicates, Eligible;
    SoundEligible(m.View(), m.past, sv, zone);
    var among := m.ApplyLocalityPreference(sv, zone);
    var n := |among|;
    ghost var start := Standing(At(m.cursor, sv), n);
    picks := [];
    for k := 0 to n
      invariant m.Valid() && Eligible(m.View(), sv, zone) == among && |picks| == k
      invariant Standing(At(m.cursor, sv), n) == (start + k) % n
      invariant forall i :: 0 <= i < k ==> picks[i] == Turn(among, start, i)
    {
      var r := RoundRobinPick(m, sv, zone, among);
      NextTurn(start + k, n);
      picks := picks + [r];
    }
    Rotation(among, start, picks);
    OnceEach(among);
  }

  lemma TakenInTurn(among: seq<Id>, cursor: nat, turn: nat, r: Id)
    requires among != [] && Chooses(among, RoundRobin, cursor, turn, r)
    ensures r == among[Standing(cursor, |among|)]
  {
  }

  /** One weighted selection takes the slot the wheel stands at and turns it by one. */
  method WeightedPick(m: Manager, sv: string, zone: Option<string>, weights: map<Id, real>, among: seq<Id>, total: nat) returns (r: Id)
    requires m.Valid() && sv in m.cache && among == Eligible(m.View(), sv, zone) && total == Total(WheelOf(among, weights)) > 0
    modifies m`cursor, m`wheel
    ensures m.Valid() && Eligible(m.View(), sv, zone) == among
    ensures r == Unrolled(among, WheelOf(among, weights))[old(At(m.wheel, sv)) % total]
    ensures At(m.wheel, sv) % total == (old(At(m.wheel, sv)) + 1) % total
  {
    hide Sound, Eligible, Chooses, WheelOf, Total, Unrolled, IsActive;
    ghost var before, turn := m.View(), At(m.wheel, sv);
    var picked := m.SelectInstanceForRequest(sv, zone, Weighted(weights));
    r := picked.value;
    EligibleSame(before, m.View(), sv, zone);
    TakenByWheel(among, weights, At(before.cursor, sv), turn, r);
    NextTurn(turn, total);
    RemainderIs((turn + 1) % total, total, 0, (turn + 1) % total);
  }

  /** As many consecutive weighted selections as the wheel has slots choose each eligible
      instance exactly as often as it has slots, wherever the wheel stands. */
  method WeightedRound(m: Manager, sv: string, zone: Option<string>, weights: map<Id, real>) returns (picks: seq<Id>)
    requires m.Valid() && sv in m.cache
    modifies m`cursor, m`wheel
    ensures m.Valid()
    ensures var among := Eligible(old(m.View()), sv, zone);
      forall i :: 0 <= i < |among| ==> multiset(picks)[among[i]] == WheelOf(among, weights)[i]
    ensures forall id :: id in picks ==> id in Eligible(old(m.View()), sv, zone)
  {
    hide Sound, NoDuplicates, Eligible, WheelOf, Total, Unrolled;
    SoundEligible(m.View(), m.past, sv, zone);
    var among := m.ApplyLocalityPreference(sv, zone);
    ghost var wheel := Unrolled(among, WheelOf(among, weights));
    var total := Total(WheelOf(among, weights));
    ghost var start := if total == 0 then 0 else At(m.wheel, sv) % total;
    picks := [];
    for k := 0 to total
      invariant m.Valid() && Eligible(m.View(), sv, zone) == among && |picks| == k
      invariant total > 0 ==> At(m.wheel, sv) % total == (start + k) % total
      invariant forall i :: 0 <= i < k ==> picks[i] == Turn(wheel, start, i)
    {
      ghost var turn := At(m.wheel, sv);
      var r := WeightedPick(m, sv, zone, weights, among, total);
      NextTurn(turn, total);
      NextTurn(start + k, total);
      picks := picks + [r];
    }
    WheelTurned(among, WheelOf(among, weights), start, picks);
  }

  lemma SoundCached(s: State, past: Past, sv: string)
    requires Sound(s, past) && sv in s.cache
    ensures At(s.cursor, sv) < |s.cache[sv]| && NoDuplicates(s.cache[sv])
  {
    hide Base, RoutableOk, NoDuplicates;
  }

  lemma SoundEligible(s: State, past: Past, sv: string, zone: Option<string>)
    requires Sound(s, past) && sv in s.cache
    ensures NoDuplicates(Eligible(s, sv, zone)) && Eligible(s, sv, zone) != []
  {
    hide Base, RoutableOk, NoDuplicates, Eligible;
    EligibleOnce(s, sv, zone);
  }

  lemma TakenByWheel(among: seq<Id>, weights: map<Id, real>, cursor: nat, turn: nat, r: Id)
    requires among != [] && Chooses(among, Weighted(weights), cursor, turn, r) && Total(WheelOf(among, weights)) > 0
    ensures r == Unrolled(among, WheelOf(among, weights))[turn % Total(WheelOf(among, weights))]
  {
    hide Unrolled, WheelOf, Total;
    var slots := WheelOf(among, weights);
    var i :| 0 <= i < |among| && r == among[i] && Total(slots[..i]) <= turn % Total(slots) < Total(slots[..i + 1]);
    UnrolledAt(among, slots, i, turn % Total(slots));
  }

  lemma WheelTurned(among: seq<Id>, slots: seq<nat>, start: nat, picks: seq<Id>)
    requires |among| == |slots| && NoDuplicates(among) && |picks| == Total(slots) && (start < Total(slots) || picks == [])
    requires forall k :: 0 <= k < |picks| ==> picks[k] == Turn(Unrolled(among, slots), start, k)
    ensures forall i :: 0 <= i < |among| ==> multiset(picks)[among[i]] == slots[i]
    ensures forall id :: id in picks ==> id in among
  {
    hide Unrolled, Total;
    var wheel := Unrolled(among, slots);
    if picks == [] {
      assert wheel == picks;
    } else {
      Rotation(wheel, start, picks);
    }
    forall i | 0 <= i < |among| ensures multiset(picks)[among[i]] == slots[i] {
      UnrolledCount(among, slots, i);
    }
    forall id | id in picks ensures id in among {
      if id !in among { NotOnWheel(among, slots, id); }
      assert id in multiset(picks);
    }
  }

  // --- A start with one possible outcome ------------------------------------------

  lemma PlacedLoad(s: State, sv: string, h: HostId, cpu: real, mem: real)
    requires Id(sv, s.next) !in On(s.byHost, h)
    ensures var t := Placed(s, sv, h, cpu, mem);
      && CpuOf(t.instances, On(t.byHost, h)) == CpuOf(s.instances, On(s.byHost, h)) + cpu
      && MemOf(t.instances, On(t.byHost, h)) == MemOf(s.instances, On(s.byHost, h)) + mem
  {
    hide CpuOf, MemOf;
    var t := Placed(s, sv, h, cpu, mem);
    SumsAgree(s.instances, t.instances, On(s.byHost, h));
    SumsWith(t.instances, On(s.byHost, h), Id(sv, s.next));
  }

  /** With one host that accepts the replica, the replica goes there. */
  lemma OnlyHost(services: seq<ServiceConfig>, k: nat, replica: nat, s: State, t: State, ok: bool, h: HostId)
    requires k < |services| && replica < services[k].replicas && s.hosts.Keys == {h} && Accepts(s, services[k], h)
    requires Starts(services, k, replica, s, t, ok)
    ensures Starts(services, k, replica + 1, PlacedReplica(s, services[k], h), t, ok)
  {
    hide Accepts, PutOn;
    assert h in s.hosts && !Stuck(s, services[k]);
    var g :| PutOn(s, services[k], replica, g) && Starts(services, k, replica + 1, PlacedReplica(s, services[k], g), t, ok);
    PutAccepts(s, services[k], replica, g);
  }

  lemma NextService(services: seq<ServiceConfig>, k: nat, replica: nat, s: State, t: State, ok: bool)
    requires k < |services| && replica >= services[k].replicas && Starts(services, k, replica, s, t, ok)
    ensures Starts(services, k + 1, 0, s, t, ok)
  {
  }

  // --- A negative reservation -----------------------------------------------------

  function A(): ServiceConfig { ServiceConfig("a", 2, -5.0, 1.0, [], []) }

  function B(): ServiceConfig { ServiceConfig("b", 1, 11.0, 1.0, [], []) }

  function H(): HostId { Named("h") }

  function Started(): State {
    var s := EmptyState(map[H() := Host(1, 1, "")]);
    PlacedReplica(PlacedReplica(PlacedReplica(s, A(), H()), A(), H()), B(), H())
  }

  lemma NegativeStart(t: State, ok: bool)
    requires Starts([A(), B()], 0, 0, EmptyState(map[H() := Host(1, 1, "")]), t, ok)
    ensures ok && t == Started()
  {
    hide Starts, CpuOf, MemOf;
    var services, s := [A(), B()], EmptyState(map[H() := Host(1, 1, "")]);
    assert CpuOf(s.instances, []) == 0.0 && MemOf(s.instances, []) == 0.0 by { NoSum(s.instances); }
    OnlyHost(services, 0, 0, s, t, ok, H());
    var s1 := PlacedReplica(s, A(), H());
    PlacedLoad(s, "a", H(), -5.0, 1.0);
    OnlyHost(services, 0, 1, s1, t, ok, H());
    var s2 := PlacedReplica(s1, A(), H());
    PlacedLoad(s1, "a", H(), -5.0, 1.0);
    NextService(services, 0, 2, s2, t, ok);
    OnlyHost(services, 1, 0, s2, t, ok, H());
    var s3 := PlacedReplica(s2, B(), H());
    NextService(services, 1, 1, s3, t, ok);
    StartsEmpty(services, s3, t, ok);
  }

  lemma StartsEmpty(services: seq<ServiceConfig>, s: State, t: State, ok: bool)
    requires Starts(services, |services|, 0, s, t, ok)
    ensures ok && t == s
  {
  }

  lemma StartedIs()
    ensures Started().hosts == map[H() := Host(1, 1, "")]
    ensures Started().instances == map[Id("a", 0) := NewInstance(H(), -5.0, 1.0), Id("a", 1) := NewInstance(H(), -5.0, 1.0), Id("b", 2) := NewInstance(H(), 11.0, 1.0)]
  {
  }

  /** One of the two instances of `a` is drained. */
  lemma ScaledToOne(s: State, t: State, deadline: int, ok: bool) returns (x: Id)
    requires s.instances == Started().instances && Scales(s, "a", 1, deadline, t, ok)
    ensures x in {Id("a", 0), Id("a", 1)} && t == Drained(s, {x}, deadline)
  {
    hide Adds, Drained, Started;
    StartedIs();
    var active :| IsSorted(active, ActiveOf(s.instances, "a"), IdName) && ScalesFrom(s, "a", active, 1, deadline, t, ok);
    SizeOf(active);
    assert ActiveOf(s.instances, "a") == {Id("a", 0), Id("a", 1)};
    x := active[1];
    assert active[1..] == [x] && x in SetOf(active);
    assert SetOf(active[1..]) == {x};
  }

  lemma DrainedGoes(s: State, x: Id, deadline: int)
    requires s.instances == Started().instances && x in {Id("a", 0), Id("a", 1)}
    ensures Remaining(Drained(s, {x}, deadline).instances, 0) == s.instances - {x}
  {
    hide Started;
    StartedIs();
  }

  lemma TwoOnHost(s: State, h: HostId, a: Id, b: Id)
    requires PlacedOk(s.hosts, s.instances, s.byHost) && TableOk(s.instances, s.byHost)
    requires s.instances.Keys == {a, b} && a != b && s.instances[a].host == h && s.instances[b].host == h
    ensures CpuOf(s.instances, On(s.byHost, h)) == s.instances[a].cpu + s.instances[b].cpu
  {
    hide CpuOf, MemOf;
    var ids := On(s.byHost, h);
    assert a in ids && b in ids && h in s.byHost;
    forall id | id in ids ensures id in {a, b} {
      assert id in s.instances;
    }
    assert SetOf(ids) == {a, b};
    SizeOf(ids);
    assert ids == [a, b] || ids == [b, a];
    SumOfTwo(s.instances, a, b);
    SumOfTwo(s.instances, b, a);
  }

  /** The two instances left on the host reserve six cores. */
  lemma LoadLeft(s: State, past: Past, x: Id)
    requires Sound(s, past) && !past.startFailed && x in {Id("a", 0), Id("a", 1)} && s.instances == Started().instances - {x}
    ensures CpuOf(s.instances, On(s.byHost, H())) == 6.0
  {
    hide CpuOf, Started, Sound, PlacedOk, TableOk, On;
    StartedIs();
    SoundTables(s, past);
    var y := if x == Id("a", 0) then Id("a", 1) else Id("a", 0);
    assert s.instances.Keys == {y, Id("b", 2)};
    TwoOnHost(s, H(), y, Id("b", 2));
  }

  lemma SoundTables(s: State, past: Past)
    requires Sound(s, past) && !past.startFailed
    ensures PlacedOk(s.hosts, s.instances, s.byHost) && TableOk(s.instances, s.byHost)
  {
    hide PlacedOk, TableOk, CacheOk, ServedOk, SizesOk;
  }

  /** A host of one core on which two instances that reserve minus five cores make room for one
      that reserves eleven.  Scaling the first service down to one replica leaves the host with
      six cores reserved. */
  method NegativeReservationRun() returns (load: real, cores: int)
    ensures load == 6.0 && cores == 1
  {
    hide Sound, Started, Scales, Starts, Lists, HostsOf, ActiveOf, Remaining, Drained;
    var m := new Manager();
    var ok := m.InitializeFromScenario([HostConfig(H(), 1, 1, "")], [A(), B()]);
    OneHost();
    assert H() in m.hosts;
    ghost var t :| Starts([A(), B()], 0, 0, EmptyState(m.hosts), t, ok) && m.View() == AfterStart(t, m.View(), ok);
    NegativeStart(t, ok);
    ghost var s := m.View();
    StartedIs();
    assert Id("a", 0) in InstancesOf(m.instances, "a");
    ok := m.ScaleServiceWithOptions("a", 1, 1);
    ghost var x := ScaledToOne(s, m.View().(cache := s.cache, cursor := s.cursor), 1, ok);
    DrainedGoes(s, x, 1);
    var dropped := m.ProcessDrainingInstances(0);
    LoadLeft(m.View(), m.past, x);
    var mem;
    load, mem := m.HostLoad(H());
    cores := m.hosts[H()].cores;
  }

  lemma OneHost()
    ensures HostsOf([HostConfig(H(), 1, 1, "")]) == map[H() := Host(1, 1, "")]
  {
    assert [HostConfig(H(), 1, 1, "")][..0] == [];
  }

  // --- A failed start -------------------------------------------------------------

  function C(): ServiceConfig { ServiceConfig("a", 1, 1.0, 1.0, [], []) }

  function D(): ServiceConfig { ServiceConfig("b", 1, 2.0, 1.0, [], []) }

  function TwoHosts(): map<HostId, Host> { map[Named("g") := Host(1, 1, ""), Named("h") := Host(1, 1, "")] }

  /** The instance of `a` is placed, `b` fits nowhere. */
  lemma FailedStart(t: State, ok: bool) returns (g: HostId)
    requires Starts([C(), D()], 0, 0, EmptyState(TwoHosts()), t, ok)
    ensures !ok && g in TwoHosts() && t == PlacedReplica(EmptyState(TwoHosts()), C(), g)
  {
    hide Starts, PutOn, PlacedReplica;
    var services, s := [C(), D()], EmptyState(TwoHosts());
    assert !Stuck(s, C()) by { FitsEmpty(); }
    g := SomeHost(services, 0, 0, s, t, ok);
    PutAccepts(s, C(), 0, g);
    var s1 := PlacedReplica(s, C(), g);
    NextService(services, 0, 1, s1, t, ok);
    NothingFits(g);
    StuckEnds(services, 1, 0, s1, t, ok);
  }

  lemma FitsEmpty()
    ensures !Stuck(EmptyState(TwoHosts()), C())
  {
    hide CpuOf, MemOf;
    NoSum(map[]);
    assert Accepts(EmptyState(TwoHosts()), C(), Named("g"));
  }

  lemma NothingFits(g: HostId)
    requires g in TwoHosts()
    ensures Stuck(PlacedReplica(EmptyState(TwoHosts()), C(), g), D())
  {
    hide CpuOf, MemOf;
    var s := PlacedReplica(EmptyState(TwoHosts()), C(), g);
    NoSum(map[]);
    NoSum(s.instances);
    PlacedLoad(EmptyState(TwoHosts()), "a", g, 1.0, 1.0);
  }

  lemma SomeHost(services: seq<ServiceConfig>, k: nat, replica: nat, s: State, t: State, ok: bool) returns (h: HostId)
    requires k < |services| && replica < services[k].replicas && !Stuck(s, services[k]) && Starts(services, k, replica, s, t, ok)
    ensures PutOn(s, services[k], replica, h) && Starts(services, k, replica + 1, PlacedReplica(s, services[k], h), t, ok)
  {
    hide PutOn;
    h :| PutOn(s, services[k], replica, h) && Starts(services, k, replica + 1, PlacedReplica(s, services[k], h), t, ok);
  }

  lemma StuckEnds(services: seq<ServiceConfig>, k: nat, replica: nat, s: State, t: State, ok: bool)
    requires k < |services| && replica < services[k].replicas && Stuck(s, services[k]) && Starts(services, k, replica, s, t, ok)
    ensures !ok && t == s
  {
    hide Stuck;
  }

  /** The second instance of `a` goes to the other host, under the ID of the first. */
  lemma Reused(g: HostId, s: State, t: State, ok: bool) returns (h: HostId)
    requires g in TwoHosts() && s == PlacedReplica(EmptyState(TwoHosts()), C(), g).(next := 0) && Scales(s, "a", 2, 0, t, ok)
    ensures ok && h in TwoHosts() && h != g && t == Placed(s, "a", h, 1.0, 1.0)
  {
    hide CpuOf, MemOf, PickedFor;
    var a := Id("a", 0);
    var active :| IsSorted(active, ActiveOf(s.instances, "a"), IdName) && ScalesFrom(s, "a", active, 2, 0, t, ok);
    SizeOf(active);
    assert ActiveOf(s.instances, "a") == {a};
    NoSum(s.instances);
    PlacedLoad(EmptyState(TwoHosts()), "a", g, 1.0, 1.0);
    NoSum(map[]);
    var other := if g == Named("g") then Named("h") else Named("g");
    assert Room(s, other, 1.0, 1.0) && !NoRoom(s, 1.0, 1.0);
    h :| PickedFor(s, "a", 1.0, 1.0, h) && Adds(Placed(s, "a", h, 1.0, 1.0), "a", 1.0, 1.0, 0, t, ok);
    PickedHasRoom(s, "a", 1.0, 1.0, h);
  }

  /** A start that fails at its second service and is used all the same: scaling the first
      service to two replicas reports success, but there is one instance, which both hosts list. */
  method FailedStartRun() returns (ok: bool, replicas: nat, onG: seq<Id>, onH: seq<Id>)
    ensures ok && replicas == 1 && Id("a", 0) in onG && Id("a", 0) in onH
  {
    hide Sound, Scales, Starts, Lists, HostsOf, ActiveOf, Placed, On, IsSorted;
    var m := new Manager();
    ok := m.InitializeFromScenario([HostConfig(Named("g"), 1, 1, ""), HostConfig(Named("h"), 1, 1, "")], [C(), D()]);
    BothHosts();
    assert Named("g") in m.hosts;
    ghost var t :| Starts([C(), D()], 0, 0, EmptyState(m.hosts), t, ok) && m.View() == AfterStart(t, m.View(), ok);
    ghost var g := FailedStart(t, ok);
    ghost var s := m.View();
    assert Id("a", 0) in InstancesOf(m.instances, "a") by { PlacedThere(EmptyState(TwoHosts()), "a", g, 1.0, 1.0); }
    ok := m.ScaleServiceWithOptions("a", 2, 0);
    ghost var h := Reused(g, s, m.View().(cache := s.cache, cursor := s.cursor), ok);
    ListedTwice(g, h);
    var found, active := m.GetInstancesForService("a");
    OneActive(m.instances, active);
    replicas, onG, onH := |active|, On(m.byHost, Named("g")), On(m.byHost, Named("h"));
  }

  lemma PlacedThere(s: State, sv: string, h: HostId, cpu: real, mem: real)
    ensures Id(sv, s.next) in InstancesOf(Placed(s, sv, h, cpu, mem).instances, sv)
  {
  }

  lemma ListedTwice(g: HostId, h: HostId)
    requires g in TwoHosts() && h in TwoHosts() && g != h
    ensures var t := Placed(PlacedReplica(EmptyState(TwoHosts()), C(), g).(next := 0), "a", h, 1.0, 1.0);
      && t.instances == map[Id("a", 0) := NewInstance(h, 1.0, 1.0)]
      && On(t.byHost, Named("g")) == [Id("a", 0)] && On(t.byHost, Named("h")) == [Id("a", 0)]
  {
  }

  lemma OneActive(m: map<Id, Instance>, active: seq<Id>)
    requires m.Keys == {Id("a", 0)} && !m[Id("a", 0)].draining && IsSorted(active, ActiveOf(m, "a"), IdName)
    ensures |active| == 1
  {
    SizeOf(active);
    assert ActiveOf(m, "a") == {Id("a", 0)};
  }

  lemma BothHosts()
    ensures HostsOf([HostConfig(Named("g"), 1, 1, ""), HostConfig(Named("h"), 1, 1, "")]) == TwoHosts()
  {
    var configs := [HostConfig(Named("g"), 1, 1, ""), HostConfig(Named("h"), 1, 1, "")];
    assert configs[..1] == [configs[0]] && configs[..1][..0] == [];
  }
}
