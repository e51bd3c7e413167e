/** What the scenarios that a batch search evaluates have in common with its baseline. */
module BeamCandidates {
  import opened Wrappers
  import opened Orders
  import opened BeamScore
  import opened BeamSearch
  import opened BeamMoves

  // --- One move -------------------------------------------------------------------

  ghost predicate MovesService(l: Limits, z: Sizes, act: Action, s: Scenario, t: Scenario) {
    exists i, w :: 0 <= i < |s.services| && w in ServiceMoves(l, z, act, s.services[i]) && t == s.(services := s.services[i := w])
  }

  ghost predicate MovesRate(s: Scenario, t: Scenario) {
    |t.rates| == |s.rates| && exists i :: 0 <= i < |s.rates| && t.rates[i] >= MIN_RATE && t == s.(rates := s.rates[i := t.rates[i]])
  }

  /** The ways in which one step changes a scenario. */
  ghost predicate IsMove(b: Batch, z: Sizes, s: Scenario, t: Scenario) {
    || (exists act :: act in b.actions && !OnHosts(act) && MovesService(b.limits, z, act, s, t))
    || (exists act :: act in b.actions && OnHosts(act) && t in HostMoves(b.limits, z, act, s))
    || (!b.freezeWorkload && MovesRate(s, t))
    || (!b.freezePolicies && t in PolicyMoves(s))
  }

  lemma {:induction false} InMovesAt(l: Limits, z: Sizes, act: Action, s: Scenario, places: seq<nat>, t: Scenario)
    requires (forall k :: 0 <= k < |places| ==> places[k] < |s.services|) && t in MovesAt(l, z, act, s, places)
    ensures MovesService(l, z, act, s, t)
  {
    hide ServiceMoves;
    var n := |places| - 1;
    if t in MovesAt(l, z, act, s, places[..n]) {
      InMovesAt(l, z, act, s, places[..n], t);
    } else {
      var variants := ServiceMoves(l, z, act, s.services[places[n]]);
      var k :| 0 <= k < |variants| && Replaced(s, places[n], variants)[k] == t;
      assert variants[k] in variants;
    }
  }

  lemma {:induction false} InActionsMoves(l: Limits, z: Sizes, actions: seq<Action>, s: Scenario, hot: seq<nat>, t: Scenario)
    requires t in ActionsMoves(l, z, actions, s, hot)
    ensures exists act :: act in actions && t in ActionMoves(l, z, act, s, hot)
  {
    hide ActionMoves;
    var n := |actions| - 1;
    if t in ActionMoves(l, z, actions[n], s, hot) {
      assert actions[n] in actions;
    } else {
      InActionsMoves(l, z, actions[..n], s, hot, t);
    }
  }

  lemma {:induction false} InRateMoves(s: Scenario, n: nat, t: Scenario)
    requires n <= |s.rates| && t in RateMoves(s, n)
    ensures MovesRate(s, t)
  {
    if t in RateMoves(s, n - 1) {
      InRateMoves(s, n - 1, t);
    } else {
      assert t.rates[n - 1] >= MIN_RATE && t == s.(rates := s.rates[n - 1 := t.rates[n - 1]]);
    }
  }

  lemma MoveCases(b: Batch, refine: bool, s: Scenario, hot: seq<nat>, t: Scenario)
    requires t in Moves(b, refine, s, hot)
    ensures IsMove(b, SizesFor(b, refine), s, t)
  {
    hide ActionsMoves, RateMoves, PolicyMoves, HostMoves, MovesService, MovesRate;
    var z := SizesFor(b, refine);
    if t in ActionsMoves(b.limits, z, b.actions, s, hot) {
      InActionsMoves(b.limits, z, b.actions, s, hot, t);
      var act :| act in b.actions && t in ActionMoves(b.limits, z, act, s, hot);
      if !OnHosts(act) {
        InMovesAt(b.limits, z, act, s, Places(s, act, hot), t);
      }
    } else if !b.freezeWorkload && t in RateMoves(s, |s.rates|) {
      InRateMoves(s, |s.rates|, t);
    }
  }

  // --- What a service keeps -------------------------------------------------------

  predicate SameRange(c: Consumers, d: Consumers) { c.min == d.min && c.max == d.max }

  ghost predicate SameIdentity(v: Service, w: Service) {
    && w.id == v.id && w.database == v.database && w.scaling == v.scaling
    && (w.queue.Some? <==> v.queue.Some?) && (v.queue.Some? ==> SameRange(v.queue.value, w.queue.value))
    && |w.topic| == |v.topic| && forall j :: 0 <= j < |v.topic| ==> SameRange(v.topic[j], w.topic[j])
  }

  /** May a search with these actions change an amount that the two actions move? */
  predicate MayMove(actions: seq<Action>, v: Service, up: Action, down: Action) {
    (up in actions || down in actions) && Allows(v, up)
  }

  /** `w` is the service `v` after some moves. */
  ghost predicate ServiceFrom(actions: seq<Action>, v: Service, w: Service) {
    && SameIdentity(v, w)
    && (w.replicas != v.replicas ==> MayMove(actions, v, ServiceOut, ServiceIn))
    && (w.cpu != v.cpu ==> MayMove(actions, v, CpuUp, CpuDown))
    && (w.mem != v.mem ==> MayMove(actions, v, MemUp, MemDown))
    && (w.queue != v.queue ==> QueueUp in actions || QueueDown in actions)
    && (w.topic != v.topic ==> TopicUp in actions || TopicDown in actions)
  }

  lemma ServiceOn(actions: seq<Action>, v: Service, w: Service, x: Service)
    requires ServiceFrom(actions, v, w) && ServiceFrom(actions, w, x)
    ensures ServiceFrom(actions, v, x)
  {
  }

  lemma ServiceMoveFrom(l: Limits, z: Sizes, act: Action, actions: seq<Action>, v: Service, w: Service)
    requires act in actions && w in ServiceMoves(l, z, act, v)
    ensures ServiceFrom(actions, v, w)
  {
    match act {
      case TopicUp => TopicMoveFrom(l, z, v, true, |v.topic|, w);
      case TopicDown => TopicMoveFrom(l, z, v, false, |v.topic|, w);
      case _ =>
    }
  }

  lemma {:induction false} TopicMoveFrom(l: Limits, z: Sizes, v: Service, up: bool, n: nat, w: Service)
    requires n <= |v.topic| && w in TopicMoves(l, z, v, up, n)
    ensures SameIdentity(v, w) && w == v.(topic := w.topic)
  {
    if w in TopicMoves(l, z, v, up, n - 1) {
      TopicMoveFrom(l, z, v, up, n - 1, w);
    }
  }

  // --- What the hosts keep --------------------------------------------------------

  /** The first `p` hosts are those of the baseline; the others were added. */
  ghost predicate HostsAt(base: seq<Host>, hosts: seq<Host>, p: nat) {
    && p <= |base| && p <= |hosts|
    && (forall i :: 0 <= i < p ==> hosts[i].id == base[i].id && hosts[i].zone == base[i].zone)
    && (forall i :: p <= i < |hosts| ==> hosts[i].id == AddedName(i + 1) && hosts[i].zone == "")
  }

  ghost predicate HostsFrom(actions: seq<Action>, base: seq<Host>, hosts: seq<Host>) {
    && (exists p :: HostsAt(base, hosts, p))
    && (HostOut !in actions && HostIn !in actions ==> HostsAt(base, hosts, |base|) && |hosts| == |base|)
  }

  lemma HostMoveFrom(b: Batch, z: Sizes, act: Action, base: seq<Host>, s: Scenario, t: Scenario)
    requires HostsFrom(b.actions, base, s.hosts) && act in b.actions && OnHosts(act) && t in HostMoves(b.limits, z, act, s)
    ensures HostsFrom(b.actions, base, t.hosts) && t == s.(hosts := t.hosts)
  {
    hide AddedName;
    var p: nat :| HostsAt(base, s.hosts, p);
    if act.HostIn? {
      assert HostsAt(base, t.hosts, if p < |t.hosts| then p else |t.hosts|);
    } else {
      assert HostsAt(base, t.hosts, p);
    }
  }

  // --- Every candidate ------------------------------------------------------------

  ghost predicate RatesFrom(b: Batch, base: seq<real>, rates: seq<real>) {
    && |rates| == |base|
    && (forall i :: 0 <= i < |base| ==> rates[i] == base[i] || (!b.freezeWorkload && rates[i] >= MIN_RATE))
  }

  ghost predicate PolicyFrom(b: Batch, base: Option<bool>, policy: Option<bool>) {
    (policy.None? <==> base.None?) && (b.freezePolicies ==> policy == base)
  }

  ghost predicate ServicesFrom(actions: seq<Action>, base: seq<Service>, services: seq<Service>) {
    |services| == |base| && forall i :: 0 <= i < |base| ==> ServiceFrom(actions, base[i], services[i])
  }

  /** What a scenario reached from the baseline still shares with it. */
  ghost predicate From(b: Batch, base: Scenario, t: Scenario) {
    && ServicesFrom(b.actions, base.services, t.services) && HostsFrom(b.actions, base.hosts, t.hosts)
    && RatesFrom(b, base.rates, t.rates) && PolicyFrom(b, base.autoscaling, t.autoscaling)
  }

  lemma FromItself(b: Batch, s: Scenario)
    ensures From(b, s, s)
  {
    assert HostsAt(s.hosts, s.hosts, |s.hosts|);
  }

  lemma ServicesOn(b: Batch, z: Sizes, act: Action, base: seq<Service>, s: Scenario, t: Scenario)
    requires ServicesFrom(b.actions, base, s.services) && act in b.actions && MovesService(b.limits, z, act, s, t)
    ensures ServicesFrom(b.actions, base, t.services) && t == s.(services := t.services)
  {
    hide ServiceFrom, ServiceMoves;
    var i, w :| 0 <= i < |s.services| && w in ServiceMoves(b.limits, z, act, s.services[i]) && t == s.(services := s.services[i := w]);
    ServiceMoveFrom(b.limits, z, act, b.actions, s.services[i], w);
    ServiceOn(b.actions, base[i], s.services[i], w);
  }

  lemma MoveFrom(b: Batch, z: Sizes, base: Scenario, s: Scenario, t: Scenario)
    requires From(b, base, s) && IsMove(b, z, s, t)
    ensures From(b, base, t)
  {
    hide ServicesFrom, HostsFrom, HostMoves, MovesService;
    if act :| act in b.actions && !OnHosts(act) && MovesService(b.limits, z, act, s, t) {
      ServicesOn(b, z, act, base.services, s, t);
    } else if act :| act in b.actions && OnHosts(act) && t in HostMoves(b.limits, z, act, s) {
      HostMoveFrom(b, z, act, base.hosts, s, t);
    }
  }

  /** The search over scenarios; the hash, the evaluation, the services under stress and the
      orders come from outside. */
  function ProblemOf(b: Batch, hash: Scenario -> nat, evaluate: Scenario -> Evaluation, hot: Scenario -> seq<nat>,
                     arrange: (Scenario, seq<Scenario>) -> seq<Scenario>,
                     rank: seq<Candidate<Scenario>> -> seq<Candidate<Scenario>>): Problem<Scenario> {
    Problem(hash, evaluate, (s, refine) => Moves(b, refine, s, hot(s)), s => Admissible(b.limits, s), arrange, rank)
  }

  ghost predicate Searches(b: Batch, hot: Scenario -> seq<nat>, p: Problem<Scenario>) {
    && Permutes(p)
    && (forall s, refine :: p.moves(s, refine) == Moves(b, refine, s, hot(s)))
    && (forall s :: p.admissible(s) == Admissible(b.limits, s))
  }

  lemma ProblemSearches(b: Batch, hash: Scenario -> nat, evaluate: Scenario -> Evaluation, hot: Scenario -> seq<nat>,
                        arrange: (Scenario, seq<Scenario>) -> seq<Scenario>, rank: seq<Candidate<Scenario>> -> seq<Candidate<Scenario>>)
    requires forall s, moves :: multiset(arrange(s, moves)) == multiset(moves)
    requires forall all :: multiset(rank(all)) == multiset(all)
    ensures Searches(b, hot, ProblemOf(b, hash, evaluate, hot, arrange, rank))
  {
    hide Moves, Admissible;
  }

  /** Every scenario a search evaluates has the services of the baseline, with their policies
      and ranges; an amount changes only by an action that is allowed and that the service
      allows, so a database without a scaling policy keeps its replicas, CPU and memory.  The
      hosts are some first hosts of the baseline and added ones.  Rates and policies stay as
      they are when they are frozen. */
  lemma EveryCandidate(b: Batch, hot: Scenario -> seq<nat>, p: Problem<Scenario>, spec: Spec, base: Scenario, all: seq<Candidate<Scenario>>, i: nat)
    requires Searches(b, hot, p) && Grown(p, spec, base, all) && i < |all|
    ensures From(b, base, all[i].scenario)
  {
    hide From, Grown;
    var keeps := (t: Scenario) => From(b, base, t);
    FromItself(b, base);
    forall s, refine, t | keeps(s) && t in p.moves(s, refine) ensures keeps(t) {
      MoveCases(b, refine, s, hot(s), t);
      MoveFrom(b, SizesFor(b, refine), base, s, t);
    }
    AllKeep(p, spec, base, all, keeps, i);
  }

  /** Every scenario a search evaluates but the baseline is within the bounds and fits. */
  lemma EveryCandidateFits(b: Batch, hot: Scenario -> seq<nat>, p: Problem<Scenario>, spec: Spec, base: Scenario, all: seq<Candidate<Scenario>>, i: nat)
    requires Searches(b, hot, p) && Grown(p, spec, base, all) && 0 < i < |all|
    ensures InBounds(b.limits, all[i].scenario) && Fits(all[i].scenario)
  {
    hide Grown;
    AllAdmissible(p, spec, base, all, i);
  }

  /** A range of consumers that is set holds; an unset end, or an unset number, does not count. */
  predicate InRange(c: Consumers) {
    || c.concurrency <= 0
    || ((c.min <= 0 || c.concurrency >= c.min) && (c.max <= 0 || c.concurrency <= c.max))
  }

  /** In terms of the amounts: every scenario a search evaluates but the baseline has at least one
      service, and hosts, replicas, CPU, memory and consumers between their ends. */
  lemma EveryCandidateWithin(b: Batch, hot: Scenario -> seq<nat>, p: Problem<Scenario>, spec: Spec, base: Scenario, all: seq<Candidate<Scenario>>, i: nat)
    requires Searches(b, hot, p) && Grown(p, spec, base, all) && 0 < i < |all|
    ensures var l, s := b.limits, all[i].scenario;
      && s.services != [] && l.minHosts <= |s.hosts| <= l.maxHosts
      && (forall k :: 0 <= k < |s.services| ==>
            var v := s.services[k];
            && l.minReplicas <= v.replicas <= l.maxReplicas && l.minCpu <= v.cpu <= l.maxCpu && l.minMem <= v.mem <= l.maxMem
            && (v.queue.Some? ==> InRange(v.queue.value)) && (forall j :: 0 <= j < |v.topic| ==> InRange(v.topic[j])))
      && (forall k :: 0 <= k < |s.hosts| ==>
            var h := s.hosts[k];
            l.minCores <= h.cores <= l.maxCores && l.minGB <= (if h.memGB < 1 then 16 else h.memGB) <= l.maxGB)
  {
    hide Grown;
    EveryCandidateFits(b, hot, p, spec, base, all, i);
    var s := all[i].scenario;
    forall k | 0 <= k < |s.services| ensures ServiceOk(b.limits, s.services[k]) {}
    forall k | 0 <= k < |s.hosts| ensures HostOk(b.limits, s.hosts[k]) {}
  }

  /** Nothing within those ends is refused by the bounds. */
  lemma BoundsExactly(l: Limits, s: Scenario)
    requires l.minHosts <= |s.hosts| <= l.maxHosts
    requires forall k :: 0 <= k < |s.services| ==>
      var v := s.services[k];
      && l.minReplicas <= v.replicas <= l.maxReplicas && l.minCpu <= v.cpu <= l.maxCpu && l.minMem <= v.mem <= l.maxMem
      && (v.queue.Some? ==> InRange(v.queue.value)) && (forall j :: 0 <= j < |v.topic| ==> InRange(v.topic[j]))
    requires forall k :: 0 <= k < |s.hosts| ==>
      var h := s.hosts[k];
      l.minCores <= h.cores <= l.maxCores && l.minGB <= (if h.memGB < 1 then 16 else h.memGB) <= l.maxGB
    ensures InBounds(l, s)
  {
    forall k | 0 <= k < |s.services| ensures ServiceOk(l, s.services[k]) {
      var v := s.services[k];
      assert v.queue.Some? ==> InRange(v.queue.value);
      forall j | 0 <= j < |v.topic| ensures ConsumersOk(v.topic[j]) {
        assert InRange(v.topic[j]);
      }
    }
  }

  // --- Nowhere to go --------------------------------------------------------------

  /** A step changes at most one service, so a scenario with two services out of bounds has no
      neighbours: an amount that is not set counts as zero in the bounds check. */
  lemma TwoOutOfBounds(b: Batch, z: Sizes, s: Scenario, t: Scenario, i: nat, j: nat)
    requires i < j < |s.services| && !ServiceOk(b.limits, s.services[i]) && !ServiceOk(b.limits, s.services[j])
    requires IsMove(b, z, s, t)
    ensures !InBounds(b.limits, t)
  {
    hide ServiceOk, HostOk, ServiceMoves;
    if act :| act in b.actions && !OnHosts(act) && MovesService(b.limits, z, act, s, t) {
      var k, w :| 0 <= k < |s.services| && w in ServiceMoves(b.limits, z, act, s.services[k]) && t == s.(services := s.services[k := w]);
      assert t.services[if k == i then j else i] == s.services[if k == i then j else i];
    } else {
      assert t.services == s.services;
    }
  }

  /** Such a baseline is the only scenario the search evaluates. */
  lemma OnlyBaseline(b: Batch, hot: Scenario -> seq<nat>, p: Problem<Scenario>, spec: Spec, base: Scenario, all: seq<Candidate<Scenario>>, i: nat, j: nat)
    requires Searches(b, hot, p) && Grown(p, spec, base, all)
    requires i < j < |base.services| && !ServiceOk(b.limits, base.services[i]) && !ServiceOk(b.limits, base.services[j])
    ensures |all| <= 1
  {
    hide Neighbors, InBounds, IsMove;
    if |all| > 1 {
      assert Grows(p, spec, all, 1);
      var k, refine :| 0 <= k < 1 && all[1].scenario in Neighbors(p, spec, refine, all[k].scenario);
      NeighborsAdmissible(p, spec, refine, base, all[1].scenario);
      MoveCases(b, refine, base, hot(base), all[1].scenario);
      TwoOutOfBounds(b, SizesFor(b, refine), base, all[1].scenario, i, j);
    }
  }

  // --- Names of hosts -------------------------------------------------------------

  ghost function Names(hosts: seq<Host>): (r: seq<string>)
    ensures |r| == |hosts| && forall i :: 0 <= i < |r| ==> r[i] == hosts[i].id
  {
    seq(|hosts|, i requires 0 <= i < |hosts| => hosts[i].id)
  }

  lemma {:induction false} DigitsDiffer(a: nat, b: nat)
    requires Digits(a) == Digits(b)
    ensures a == b
  {
    var x, y := Digits(a), Digits(b);
    assert x[|x| - 1] == y[|y| - 1];
    if a >= 10 && b >= 10 {
      assert x[..|x| - 1] == Digits(a / 10) && y[..|y| - 1] == Digits(b / 10);
      DigitsDiffer(a / 10, b / 10);
    } else {
      DigitsLength(a / 10);
      DigitsLength(b / 10);
    }
  }

  lemma DigitsLength(n: nat)
    ensures |Digits(n)| > 0
  {
  }

  lemma AddedNamesDiffer(m: nat, n: nat)
    requires AddedName(m) == AddedName(n)
    ensures m == n
  {
    assert AddedName(m)[5..] == Digits(m) && AddedName(n)[5..] == Digits(n);
    DigitsDiffer(m, n);
  }

  /** Scaling out keeps the names of the hosts different if and only if the name it gives is new. */
  lemma HostOutExactly(l: Limits, z: Sizes, s: Scenario, t: Scenario)
    requires NoDuplicates(Names(s.hosts)) && t in HostMoves(l, z, HostOut, s)
    ensures NoDuplicates(Names(t.hosts)) <==> AddedName(|s.hosts| + 1) !in Names(s.hosts)
  {
    hide AddedName;
    var names, more := Names(s.hosts), Names(t.hosts);
    assert forall i :: 0 <= i < |names| ==> more[i] == names[i];
    assert more[|names|] == AddedName(|s.hosts| + 1);
  }

  const TIGHT := Limits(1, 2, 1, 1, 1.0, 2.0, 1.0, 2.0, 1, 1, 1, 1)
  const ONE_STEP := Sizes(1, 0.1, 0.1, 1, 1)
  const ADD_HOSTS := Batch(TIGHT, ONE_STEP, [HostOut], true, true)
  const SECOND := Host("host-2", 1, 1, "")

  function Running(hosts: seq<Host>): Scenario { Scenario([Service("a", false, 1, 1.0, 1.0, None, None, [])], hosts, [], None) }

  lemma SecondTwice()
    ensures HostMoves(TIGHT, ONE_STEP, HostOut, Running([SECOND])) == [Running([SECOND, SECOND])]
  {
    assert AddedName(2) == "host-2" by { assert Digits(2) == "2"; }
    assert [SECOND] + [Host(AddedName(2), 1, 1, "")] == [SECOND, SECOND];
  }

  lemma BothAdmissible()
    ensures Admissible(TIGHT, Running([SECOND])) && Admissible(TIGHT, Running([SECOND, SECOND]))
  {
    hide CpuNeed, MemNeed, Cores, Memory;
    OneService(Service("a", false, 1, 1.0, 1.0, None, None, []));
    Totals(SECOND);
  }

  /** A scenario of one host that is called "host-2" gets another of that name. */
  lemma SameNameTwice()
    ensures exists b, s, t ::
      && t in Moves(b, false, s, []) && Admissible(b.limits, s) && Admissible(b.limits, t)
      && NoDuplicates(Names(s.hosts)) && !NoDuplicates(Names(t.hosts))
  {
    hide HostMoves, Admissible, ActionsMoves;
    var s, t := Running([SECOND]), Running([SECOND, SECOND]);
    SecondTwice();
    BothAdmissible();
    OneAction(TIGHT, ONE_STEP, HostOut, s);
    assert t in Moves(ADD_HOSTS, false, s, []);
    assert Names(t.hosts)[0] == Names(t.hosts)[1];
    assert ADD_HOSTS.limits == TIGHT;
  }

  lemma OneAction(l: Limits, z: Sizes, act: Action, s: Scenario)
    ensures ActionsMoves(l, z, [act], s, []) == ActionMoves(l, z, act, s, [])
  {
    assert [act][..0] == [];
  }

  lemma OneService(v: Service)
    ensures CpuNeed([v]) == Replicas(v) as real * Cpu(v) && MemNeed([v]) == Replicas(v) as real * Mem(v)
  {
    assert [v][..0] == [];
  }

  lemma Totals(h: Host)
    ensures Cores([h]) == h.cores as real && Memory([h]) == GB(h) as real * MB_PER_GB
    ensures Cores([h, h]) == 2.0 * h.cores as real && Memory([h, h]) == 2.0 * (GB(h) as real * MB_PER_GB)
  {
    assert [h][..0] == [] && [h, h][..1] == [h];
  }

  /** No host of the baseline has the name that a search could give to a later one. */
  ghost predicate NamesClear(base: seq<Host>, max: int) {
    forall i, n :: 0 <= i < |base| && i + 1 < n <= max ==> base[i].id != AddedName(n)
  }

  /** Then the hosts of every candidate have different names. */
  lemma NamesDiffer(b: Batch, base: Scenario, t: Scenario)
    requires From(b, base, t) && InBounds(b.limits, t) && NoDuplicates(Names(base.hosts)) && NamesClear(base.hosts, b.limits.maxHosts)
    ensures NoDuplicates(Names(t.hosts))
  {
    hide AddedName, ServicesFrom, ServiceOk, HostOk;
    var p: nat :| HostsAt(base.hosts, t.hosts, p);
    forall i, j | 0 <= i < j < |t.hosts| ensures t.hosts[i].id != t.hosts[j].id {
      if j < p {
        assert Names(base.hosts)[i] != Names(base.hosts)[j];
      } else if i >= p && t.hosts[i].id == t.hosts[j].id {
        AddedNamesDiffer(i + 1, j + 1);
      }
    }
  }

  lemma EveryCandidateNamed(b: Batch, hot: Scenario -> seq<nat>, p: Problem<Scenario>, spec: Spec, base: Scenario, all: seq<Candidate<Scenario>>, i: nat)
    requires Searches(b, hot, p) && Grown(p, spec, base, all) && i < |all|
    requires NoDuplicates(Names(base.hosts)) && NamesClear(base.hosts, b.limits.maxHosts)
    ensures NoDuplicates(Names(all[i].scenario.hosts))
  {
    hide From, NamesClear, NoDuplicates, InBounds;
    if i > 0 {
      EveryCandidate(b, hot, p, spec, base, all, i);
      EveryCandidateFits(b, hot, p, spec, base, all, i);
      NamesDiffer(b, base, all[i].scenario);
    }
  }

  // --- Which way a move goes ------------------------------------------------------

  /** What ParseBatchSpec guarantees. */
  predicate Parsed(l: Limits, z: Sizes) {
    && 1 <= l.minReplicas <= l.maxReplicas && 0.0 < l.minCpu < l.maxCpu && 0.0 < l.minMem < l.maxMem
    && l.minCores <= l.maxCores && 1 <= l.minGB <= l.maxGB
    && z.replicas >= 1 && z.cpuRatio > 0.0 && z.memRatio > 0.0 && z.cores >= 1 && z.memGB >= 1
  }

  lemma RefinedParsed(l: Limits, z: Sizes)
    requires Parsed(l, z)
    ensures Parsed(l, Refined(z))
  {
  }

  lemma AmountStaysOk(x: real, ratio: real, lo: real, hi: real)
    requires 0.0 < lo <= x <= hi && ratio >= 0.0
    ensures lo <= Raised(x, ratio, hi) <= hi
    ensures lo <= Lowered(x, ratio, lo) <= hi
  {
    assert x * ratio >= 0.0;
    assert x * (1.0 + ratio) == x + x * ratio && x * (1.0 - ratio) == x - x * ratio;
  }

  /** May the consumers be raised?  An unset number counts as one there, whatever the least is. */
  predicate RaiseOk(l: Limits, z: Sizes, c: Consumers) {
    c.concurrency > 0 || MostConsumers(l, c) <= 1 || c.min <= Smaller(1 + z.replicas, MostConsumers(l, c))
  }

  lemma ConsumersStayOk(l: Limits, z: Sizes, c: Consumers)
    requires Parsed(l, z) && ConsumersOk(c)
    ensures (MoreConsumers(l, z, c).Some? ==> ConsumersOk(MoreConsumers(l, z, c).value)) <==> RaiseOk(l, z, c)
    ensures FewerConsumers(z, c).Some? ==> ConsumersOk(FewerConsumers(z, c).value)
  {
  }

  ghost predicate TopicRaiseOk(l: Limits, z: Sizes, v: Service) {
    forall j :: 0 <= j < |v.topic| ==> RaiseOk(l, z, v.topic[j])
  }

  lemma {:induction false} TopicStaysOk(l: Limits, z: Sizes, v: Service, up: bool, n: nat, w: Service)
    requires Parsed(l, z) && ServiceOk(l, v) && (up ==> TopicRaiseOk(l, z, v)) && n <= |v.topic| && w in TopicMoves(l, z, v, up, n)
    ensures ServiceOk(l, w)
  {
    hide MoreConsumers, FewerConsumers, ConsumersOk, RaiseOk;
    if w in TopicMoves(l, z, v, up, n - 1) {
      TopicStaysOk(l, z, v, up, n - 1, w);
    } else {
      ConsumersStayOk(l, z, v.topic[n - 1]);
    }
  }

  /** Does the action leave a service within the bounds? */
  ghost predicate ActionOk(l: Limits, z: Sizes, act: Action, v: Service) {
    (act.QueueUp? && v.queue.Some? ==> RaiseOk(l, z, v.queue.value)) && (act.TopicUp? ==> TopicRaiseOk(l, z, v))
  }

  lemma ServiceStaysOk(l: Limits, z: Sizes, act: Action, v: Service, w: Service)
    requires Parsed(l, z) && ServiceOk(l, v) && ActionOk(l, z, act, v) && w in ServiceMoves(l, z, act, v)
    ensures ServiceOk(l, w)
  {
    hide MoreConsumers, FewerConsumers, ConsumersOk, TopicMoves, Raised, Lowered, RaiseOk;
    AmountStaysOk(v.cpu, z.cpuRatio, l.minCpu, l.maxCpu);
    AmountStaysOk(v.mem, z.memRatio, l.minMem, l.maxMem);
    assert Cpu(v) == v.cpu && Mem(v) == v.mem;
    match act {
      case QueueUp => ConsumersStayOk(l, z, v.queue.value);
      case QueueDown => ConsumersStayOk(l, z, v.queue.value);
      case TopicUp => TopicStaysOk(l, z, v, true, |v.topic|, w);
      case TopicDown => TopicStaysOk(l, z, v, false, |v.topic|, w);
      case _ =>
    }
  }

  lemma {:induction false} TopicMoveAt(l: Limits, z: Sizes, v: Service, n: nat, j: nat)
    requires j < n <= |v.topic| && MoreConsumers(l, z, v.topic[j]).Some?
    ensures v.(topic := v.topic[j := MoreConsumers(l, z, v.topic[j]).value]) in TopicMoves(l, z, v, true, n)
  {
    if j < n - 1 { TopicMoveAt(l, z, v, n - 1, j); }
  }

  /** Otherwise it takes some service out of them. */
  lemma ServiceLeaves(l: Limits, z: Sizes, act: Action, v: Service) returns (w: Service)
    requires Parsed(l, z) && ServiceOk(l, v) && !ActionOk(l, z, act, v)
    ensures w in ServiceMoves(l, z, act, v) && !ServiceOk(l, w)
  {
    hide MoreConsumers, ConsumersOk, TopicMoves, RaiseOk;
    if act.QueueUp? {
      ConsumersStayOk(l, z, v.queue.value);
      w := v.(queue := MoreConsumers(l, z, v.queue.value));
    } else {
      var j :| 0 <= j < |v.topic| && !RaiseOk(l, z, v.topic[j]);
      ConsumersStayOk(l, z, v.topic[j]);
      TopicMoveAt(l, z, v, |v.topic|, j);
      w := v.(topic := v.topic[j := MoreConsumers(l, z, v.topic[j]).value]);
      assert w.topic[j] == MoreConsumers(l, z, v.topic[j]).value;
    }
  }

  /** The amount changed by the given part of it, or to the end that this would pass. */
  predicate ByPart(x: real, y: real, part: real, end: real) {
    var full := x + part * x;
    y == if (part > 0.0 && full > end) || (part <= 0.0 && full < end) then end else full
  }

  lemma AmountMoves(x: real, ratio: real, lo: real, hi: real)
    requires 0.0 < lo <= x <= hi && ratio > 0.0
    ensures x <= Raised(x, ratio, hi) && (x < hi ==> x < Raised(x, ratio, hi))
    ensures Lowered(x, ratio, lo) <= x && (lo < x ==> Lowered(x, ratio, lo) < x)
    ensures ByPart(x, Raised(x, ratio, hi), ratio, hi) && ByPart(x, Lowered(x, ratio, lo), -ratio, lo)
  {
    assert x * ratio > 0.0;
    assert x * (1.0 + ratio) == x + x * ratio && x * (1.0 - ratio) == x - x * ratio;
  }

  /** One subscriber has more consumers, or fewer. */
  ghost predicate TopicTurned(z: Sizes, v: Service, w: Service, up: bool) {
    && w == v.(topic := w.topic) && |w.topic| == |v.topic|
    && exists j :: 0 <= j < |v.topic| && w.topic == v.topic[j := w.topic[j]] && ConcurrencyMoved(z, v.topic[j], w.topic[j], up)
  }

  predicate ConcurrencyMoved(z: Sizes, c: Consumers, d: Consumers, up: bool) {
    var from := if c.concurrency <= 0 then 1 else c.concurrency;
    && d == c.(concurrency := d.concurrency)
    && if up then c.concurrency < d.concurrency <= from + z.replicas && (c.max > 0 && from + z.replicas <= c.max ==> d.concurrency == from + z.replicas)
       else d.concurrency < c.concurrency && d.concurrency == (if c.concurrency - z.replicas < 1 || c.concurrency - z.replicas < c.min then (if c.min <= 0 then 1 else c.min) else c.concurrency - z.replicas)
  }

  lemma {:induction false} TopicTurns(l: Limits, z: Sizes, v: Service, up: bool, n: nat, w: Service)
    requires z.replicas >= 1 && n <= |v.topic| && w in TopicMoves(l, z, v, up, n)
    ensures TopicTurned(z, v, w, up)
  {
    if w in TopicMoves(l, z, v, up, n - 1) {
      TopicTurns(l, z, v, up, n - 1, w);
    } else {
      assert w.topic == v.topic[n - 1 := w.topic[n - 1]] && ConcurrencyMoved(z, v.topic[n - 1], w.topic[n - 1], up);
    }
  }

  /** The action moved its amount, and only that, the way its name says: by the size of the step,
      or to the end of the bounds if that is nearer. */
  ghost predicate ItsWay(l: Limits, z: Sizes, act: Action, v: Service, w: Service) {
    match act
    case ServiceOut => w == v.(replicas := w.replicas) && v.replicas < w.replicas == Smaller(v.replicas + z.replicas, l.maxReplicas)
    case ServiceIn => w == v.(replicas := w.replicas) && w.replicas == v.replicas - z.replicas
    case CpuUp => w == v.(cpu := w.cpu) && v.cpu <= w.cpu && (v.cpu < l.maxCpu ==> v.cpu < w.cpu) && ByPart(v.cpu, w.cpu, z.cpuRatio, l.maxCpu)
    case CpuDown => w == v.(cpu := w.cpu) && w.cpu <= v.cpu && (l.minCpu < v.cpu ==> w.cpu < v.cpu) && ByPart(v.cpu, w.cpu, -z.cpuRatio, l.minCpu)
    case MemUp => w == v.(mem := w.mem) && v.mem <= w.mem && (v.mem < l.maxMem ==> v.mem < w.mem) && ByPart(v.mem, w.mem, z.memRatio, l.maxMem)
    case MemDown => w == v.(mem := w.mem) && w.mem <= v.mem && (l.minMem < v.mem ==> w.mem < v.mem) && ByPart(v.mem, w.mem, -z.memRatio, l.minMem)
    case QueueUp => v.queue.Some? && w.queue.Some? && w == v.(queue := w.queue) && ConcurrencyMoved(z, v.queue.value, w.queue.value, true)
    case QueueDown => v.queue.Some? && w.queue.Some? && w == v.(queue := w.queue) && ConcurrencyMoved(z, v.queue.value, w.queue.value, false)
    case TopicUp => TopicTurned(z, v, w, true)
    case TopicDown => TopicTurned(z, v, w, false)
    case _ => false
  }

  lemma MovesItsWay(l: Limits, z: Sizes, act: Action, v: Service, w: Service)
    requires Parsed(l, z) && ServiceOk(l, v) && w in ServiceMoves(l, z, act, v)
    ensures ItsWay(l, z, act, v, w)
  {
    hide TopicMoves, Raised, Lowered, ConsumersOk, TopicTurned, ByPart;
    AmountMoves(v.cpu, z.cpuRatio, l.minCpu, l.maxCpu);
    AmountMoves(v.mem, z.memRatio, l.minMem, l.maxMem);
    assert Cpu(v) == v.cpu && Mem(v) == v.mem;
    match act {
      case TopicUp => TopicTurns(l, z, v, true, |v.topic|, w);
      case TopicDown => TopicTurns(l, z, v, false, |v.topic|, w);
      case _ =>
    }
  }

  /** May the memory of the host be raised?  An unset memory counts as zero there. */
  predicate MemoryRaiseOk(l: Limits, z: Sizes, h: Host) {
    h.memGB >= 1 || h.memGB + z.memGB < 1 || l.minGB <= Smaller(h.memGB + z.memGB, l.maxGB)
  }

  lemma HostStaysOk(l: Limits, z: Sizes, act: Action, h: Host)
    requires Parsed(l, z) && HostOk(l, h)
    ensures HostOk(l, ResizedHost(l, z, act, h)) <==> (act.HostMemUp? ==> MemoryRaiseOk(l, z, h))
  {
  }

  /** Does nothing that an action of the batch raises start from a default? */
  ghost predicate RaisesOk(b: Batch, z: Sizes, s: Scenario) {
    && (forall act, i :: act in b.actions && 0 <= i < |s.services| ==> ActionOk(b.limits, z, act, s.services[i]))
    && (HostMemUp in b.actions ==> forall i :: 0 <= i < |s.hosts| ==> MemoryRaiseOk(b.limits, z, s.hosts[i]))
  }

  lemma StaysInBounds(b: Batch, z: Sizes, s: Scenario, t: Scenario)
    requires Parsed(b.limits, z) && InBounds(b.limits, s) && IsMove(b, z, s, t) && RaisesOk(b, z, s)
    ensures InBounds(b.limits, t)
  {
    hide ServiceOk, HostOk, ServiceMoves, Parsed, ActionOk, MemoryRaiseOk, ResizedHost;
    if act :| act in b.actions && !OnHosts(act) && MovesService(b.limits, z, act, s, t) {
      var i, w :| 0 <= i < |s.services| && w in ServiceMoves(b.limits, z, act, s.services[i]) && t == s.(services := s.services[i := w]);
      ServiceStaysOk(b.limits, z, act, s.services[i], w);
    } else if act :| act in b.actions && OnHosts(act) && t in HostMoves(b.limits, z, act, s) {
      HostsStayOk(b.limits, z, act, s, t);
    }
  }

  lemma HostsStayOk(l: Limits, z: Sizes, act: Action, s: Scenario, t: Scenario)
    requires Parsed(l, z) && InBounds(l, s) && OnHosts(act) && t in HostMoves(l, z, act, s)
    requires act.HostMemUp? ==> forall i :: 0 <= i < |s.hosts| ==> MemoryRaiseOk(l, z, s.hosts[i])
    ensures InBounds(l, t)
  {
    hide ServiceOk, Parsed, ResizedHost, AddedName, MemoryRaiseOk;
    if act.HostOut? {
      assert HostOk(l, s.hosts[0]);
    } else if !act.HostIn? {
      var i :| 0 <= i < |s.hosts| && t == s.(hosts := s.hosts[i := ResizedHost(l, z, act, s.hosts[i])]);
      HostStaysOk(l, z, act, s.hosts[i]);
    }
  }

  lemma LeavesBounds(b: Batch, z: Sizes, s: Scenario) returns (t: Scenario)
    requires Parsed(b.limits, z) && InBounds(b.limits, s) && !RaisesOk(b, z, s)
    ensures IsMove(b, z, s, t) && !InBounds(b.limits, t)
  {
    hide ServiceOk, HostOk, ServiceMoves, Parsed, ActionOk, MemoryRaiseOk, ResizedHost;
    if act, i :| act in b.actions && 0 <= i < |s.services| && !ActionOk(b.limits, z, act, s.services[i]) {
      var w := ServiceLeaves(b.limits, z, act, s.services[i]);
      t := s.(services := s.services[i := w]);
      assert t.services[i] == w;
      assert !OnHosts(act) by { NoHostAction(b.limits, z, act, s.services[i]); }
      assert MovesService(b.limits, z, act, s, t);
    } else {
      var i :| 0 <= i < |s.hosts| && !MemoryRaiseOk(b.limits, z, s.hosts[i]);
      HostStaysOk(b.limits, z, HostMemUp, s.hosts[i]);
      t := s.(hosts := s.hosts[i := ResizedHost(b.limits, z, HostMemUp, s.hosts[i])]);
      assert t.hosts[i] == ResizedHost(b.limits, z, HostMemUp, s.hosts[i]);
      assert HostMoves(b.limits, z, HostMemUp, s)[i] == t;
    }
  }

  lemma NoHostAction(l: Limits, z: Sizes, act: Action, v: Service)
    ensures OnHosts(act) ==> ActionOk(l, z, act, v)
  {
  }

  /** From a scenario within the bounds, every step stays within them, by its clamps alone, if
      and only if no action of the batch raises consumers or memory from a default too far
      below the bounds. */
  lemma StaysInBoundsExactly(b: Batch, z: Sizes, s: Scenario)
    requires Parsed(b.limits, z) && InBounds(b.limits, s)
    ensures (forall t :: IsMove(b, z, s, t) ==> InBounds(b.limits, t)) <==> RaisesOk(b, z, s)
  {
    hide InBounds, IsMove, RaisesOk, Parsed;
    if RaisesOk(b, z, s) {
      forall t | IsMove(b, z, s, t) ensures InBounds(b.limits, t) {
        StaysInBounds(b, z, s, t);
      }
    } else {
      var t := LeavesBounds(b, z, s);
    }
  }

  /** What a step of a search, or of its refinement, does to a scenario within the bounds. */
  lemma SearchStep(b: Batch, refine: bool, s: Scenario, hot: seq<nat>, t: Scenario)
    requires Parsed(b.limits, b.sizes) && InBounds(b.limits, s) && t in Moves(b, refine, s, hot)
    ensures RaisesOk(b, SizesFor(b, refine), s) ==> InBounds(b.limits, t)
    ensures t.services == s.services ||
      exists act, i, w :: act in b.actions && 0 <= i < |s.services| && t == s.(services := s.services[i := w]) && ItsWay(b.limits, SizesFor(b, refine), act, s.services[i], w)
  {
    hide ItsWay, RaisesOk, ServiceMoves, ServiceOk, HostOk, Parsed, HostMoves, Moves;
    var z := SizesFor(b, refine);
    RefinedParsed(b.limits, b.sizes);
    MoveCases(b, refine, s, hot, t);
    if RaisesOk(b, z, s) { StaysInBounds(b, z, s, t); }
    if act :| act in b.actions && !OnHosts(act) && MovesService(b.limits, z, act, s, t) {
      var i, w :| 0 <= i < |s.services| && w in ServiceMoves(b.limits, z, act, s.services[i]) && t == s.(services := s.services[i := w]);
      MovesItsWay(b.limits, z, act, s.services[i], w);
    } else if act :| act in b.actions && OnHosts(act) && t in HostMoves(b.limits, z, act, s) {
      HostMoveKeeps(b.limits, z, act, s, t);
    }
  }

  /** The amount changed by the step, or to the end that this would pass. */
  predicate ByStep(x: int, y: int, step: int, end: int) {
    y == if (step > 0 && x + step > end) || (step <= 0 && x + step < end) then end else x + step
  }

  /** What an action on hosts does: one host like the first comes at the end, the last goes, or
      one host changes one of its sizes. */
  ghost predicate HostsItsWay(l: Limits, z: Sizes, act: Action, s: Scenario, t: Scenario) {
    match act
    case HostOut => |t.hosts| == |s.hosts| + 1 && s.hosts <= t.hosts && s.hosts != [] && t.hosts[|s.hosts|].cores == s.hosts[0].cores && t.hosts[|s.hosts|].memGB == s.hosts[0].memGB
    case HostIn => |t.hosts| + 1 == |s.hosts| && t.hosts <= s.hosts
    case _ => |t.hosts| == |s.hosts| && exists i :: 0 <= i < |s.hosts| && t.hosts == s.hosts[i := t.hosts[i]] && HostItsWay(l, z, act, s.hosts[i], t.hosts[i])
  }

  predicate HostItsWay(l: Limits, z: Sizes, act: Action, h: Host, g: Host) {
    match act
    case HostCpuUp => g == h.(cores := g.cores) && ByStep(h.cores, g.cores, z.cores, l.maxCores)
    case HostCpuDown => g == h.(cores := g.cores) && ByStep(h.cores, g.cores, -z.cores, l.minCores)
    case HostMemUp => g == h.(memGB := g.memGB) && ByStep(h.memGB, g.memGB, z.memGB, l.maxGB)
    case HostMemDown => g == h.(memGB := g.memGB) && ByStep(h.memGB, g.memGB, -z.memGB, l.minGB)
    case _ => false
  }

  lemma HostsMoveTheirWay(l: Limits, z: Sizes, act: Action, s: Scenario, t: Scenario)
    requires z.cores >= 1 && z.memGB >= 1 && OnHosts(act) && t in HostMoves(l, z, act, s)
    ensures HostsItsWay(l, z, act, s, t) && t == s.(hosts := t.hosts)
  {
    if !act.HostOut? && !act.HostIn? {
      var i :| 0 <= i < |s.hosts| && t == s.(hosts := s.hosts[i := ResizedHost(l, z, act, s.hosts[i])]);
      assert HostItsWay(l, z, act, s.hosts[i], t.hosts[i]);
    }
  }

  /** One arrival rate goes up or down by a tenth, but not below a hundredth. */
  lemma {:induction false} RatesMove(s: Scenario, n: nat, t: Scenario)
    requires n <= |s.rates| && t in RateMoves(s, n)
    ensures |t.rates| == |s.rates|
    ensures exists k :: 0 <= k < n && t == s.(rates := s.rates[k := t.rates[k]]) && RateMoved(s.rates[k], t.rates[k])
  {
    if t in RateMoves(s, n - 1) {
      RatesMove(s, n - 1, t);
    } else {
      assert |t.rates| == |s.rates| && t == s.(rates := s.rates[n - 1 := t.rates[n - 1]]) && RateMoved(s.rates[n - 1], t.rates[n - 1]);
    }
  }

  predicate RateMoved(x: real, y: real) {
    (10.0 * y == 11.0 * x && y >= 0.01) || (10.0 * y == 9.0 * x && y >= 0.01) || (y == 0.01 && 9.0 * x < 0.1)
  }

  /** The polish takes half steps, of at least one replica and one percent. */
  lemma HalfSteps(z: Sizes)
    requires z.replicas >= 1 && z.cpuRatio > 0.0 && z.memRatio > 0.0 && z.cores >= 1 && z.memGB >= 1
    ensures var h := Refined(z);
      && 1 <= h.replicas <= z.replicas && z.replicas - 1 <= 2 * h.replicas && (z.replicas > 1 ==> 2 * h.replicas <= z.replicas)
      && 2.0 * h.cpuRatio == (if z.cpuRatio < 0.02 then 0.02 else z.cpuRatio) && 2.0 * h.memRatio == (if z.memRatio < 0.02 then 0.02 else z.memRatio)
      && 1 <= h.cores <= z.cores && z.cores - 1 <= 2 * h.cores && (z.cores > 1 ==> 2 * h.cores <= z.cores)
      && 1 <= h.memGB <= z.memGB && z.memGB - 1 <= 2 * h.memGB && (z.memGB > 1 ==> 2 * h.memGB <= z.memGB)
  {
  }

  lemma HostMoveKeeps(l: Limits, z: Sizes, act: Action, s: Scenario, t: Scenario)
    requires t in HostMoves(l, z, act, s)
    ensures t == s.(hosts := t.hosts)
  {
  }

  /** Scaling up the memory of a host leaves it with no less if and only if its memory is set
      or the step is no smaller than the default: an unset memory counts as the default in
      every check but as zero here. */
  lemma MemoryUpExactly(l: Limits, z: Sizes, h: Host)
    requires h.memGB >= 0 && z.memGB >= 1 && GB(h) <= l.maxGB
    ensures GB(ResizedHost(l, z, HostMemUp, h)) >= GB(h) <==> h.memGB >= 1 || z.memGB >= DEFAULT_GB
  {
  }

  const ADD_MEMORY := Batch(TIGHT.(maxGB := DEFAULT_GB), ONE_STEP, [HostMemUp], true, true)
  const UNSET := Host("h", 1, 0, "")

  /** An admissible step that scales a host up from the default to one gigabyte. */
  lemma MemoryUpLowers()
    ensures exists s, t ::
      && t in Moves(ADD_MEMORY, false, s, []) && Admissible(ADD_MEMORY.limits, s) && Admissible(ADD_MEMORY.limits, t)
      && |s.hosts| == |t.hosts| == 1 && GB(t.hosts[0]) < GB(s.hosts[0])
  {
    hide ActionsMoves, CpuNeed, MemNeed, Cores, Memory;
    var s, t := Running([UNSET]), Running([UNSET.(memGB := 1)]);
    assert [UNSET][0 := UNSET.(memGB := 1)] == [UNSET.(memGB := 1)];
    assert HostMoves(ADD_MEMORY.limits, ONE_STEP, HostMemUp, s) == [t];
    OneAction(ADD_MEMORY.limits, ONE_STEP, HostMemUp, s);
    assert t in Moves(ADD_MEMORY, false, s, []);
    OneService(s.services[0]);
    Totals(UNSET);
    Totals(UNSET.(memGB := 1));
  }

  // --- The methods ----------------------------------------------------------------

  lemma AdmittedLast(p: Problem<Scenario>, moves: seq<Scenario>, t: Scenario)
    ensures Admitted(p, moves + [t]) == Admitted(p, moves) + if p.admissible(t) then [t] else []
  {
    assert (moves + [t])[..|moves|] == moves;
  }

  lemma {:induction false} AdmittedPlus(p: Problem<Scenario>, a: seq<Scenario>, b: seq<Scenario>)
    ensures Admitted(p, a + b) == Admitted(p, a) + Admitted(p, b)
  {
    hide Admitted;
    if b == [] {
      NothingAdmitted(p);
      assert a + b == a;
    } else {
      var n := |b| - 1;
      AdmittedPlus(p, a, b[..n]);
      AdmittedLast(p, a + b[..n], b[n]);
      AdmittedLast(p, b[..n], b[n]);
      assert b == b[..n] + [b[n]] && a + b == a + b[..n] + [b[n]];
    }
  }

  /** Appends the moves that pass the checks. */
  method Add(b: Batch, hot: Scenario -> seq<nat>, p: Problem<Scenario>, out: seq<Scenario>, moves: seq<Scenario>) returns (r: seq<Scenario>)
    requires Searches(b, hot, p)
    ensures r == out + Admitted(p, moves)
  {
    r := out;
    for i := 0 to |moves|
      invariant r == out + Admitted(p, moves[..i])
    {
      assert moves[..i + 1][..i] == moves[..i];
      var fits := StaticCapacityOK(moves[i]);
      var within := WithinBatchBounds(b.limits, moves[i]);
      if fits && within { r := r + [moves[i]]; }
    }
    assert moves[..|moves|] == moves;
  }

  method GenerateBatchNeighbors(b: Batch, hot: Scenario -> seq<nat>, p: Problem<Scenario>, spec: Spec, refine: bool, s: Scenario) returns (out: seq<Scenario>)
    requires Searches(b, hot, p)
    ensures out == Neighbors(p, spec, refine, s)
  {
    hide Searches, ActionMoves, RateMoves, PolicyMoves, Admissible, Admitted;
    var z := SizesFor(b, refine);
    out := [];
    NothingAdmitted(p);
    var moves := [];
    for k := 0 to |b.actions|
      invariant moves == ActionsMoves(b.limits, z, b.actions[..k], s, hot(s)) && out == Admitted(p, moves)
    {
      assert b.actions[..k + 1][..k] == b.actions[..k];
      var more := ActionMoves(b.limits, z, b.actions[k], s, hot(s));
      out := Add(b, hot, p, out, more);
      AdmittedPlus(p, moves, more);
      moves := moves + more;
    }
    assert b.actions[..|b.actions|] == b.actions;
    if !b.freezeWorkload {
      out := Add(b, hot, p, out, RateMoves(s, |s.rates|));
      AdmittedPlus(p, moves, RateMoves(s, |s.rates|));
      moves := moves + RateMoves(s, |s.rates|);
    }
    if !b.freezePolicies {
      out := Add(b, hot, p, out, PolicyMoves(s));
      AdmittedPlus(p, moves, PolicyMoves(s));
      moves := moves + PolicyMoves(s);
    }
    assert moves == Moves(b, refine, s, hot(s));
    assert p.moves(s, refine) == moves by { SearchMoves(b, hot, p, s, refine); }
    out := Capped(p.arrange(s, out), NeighborCap(spec, refine));
  }

  lemma NothingAdmitted(p: Problem<Scenario>)
    ensures Admitted(p, []) == []
  {
  }

  lemma SearchMoves(b: Batch, hot: Scenario -> seq<nat>, p: Problem<Scenario>, s: Scenario, refine: bool)
    requires Searches(b, hot, p)
    ensures p.moves(s, refine) == Moves(b, refine, s, hot(s))
  {
  }

  /** The result of a search is the baseline, or a scenario within the bounds that fits, and
      it keeps what every candidate keeps. */
  method RunBatchBeamSearch(b: Batch, hash: Scenario -> nat, evaluate: Scenario -> Evaluation, hot: Scenario -> seq<nat>,
                            arrange: (Scenario, seq<Scenario>) -> seq<Scenario>, rank: seq<Candidate<Scenario>> -> seq<Candidate<Scenario>>,
                            spec: Spec, base: Scenario) returns (r: Outcome<Scenario>)
    requires forall s, moves :: multiset(arrange(s, moves)) == multiset(moves)
    requires forall all :: multiset(rank(all)) == multiset(all)
    ensures r.Done? ==> From(b, base, r.best.scenario) && (r.best.scenario == base || Admissible(b.limits, r.best.scenario))
  {
    hide From, Grown, Admissible, Distinct, InBudget, Tracks, ProblemOf;
    var p := ProblemOf(b, hash, evaluate, hot, arrange, rank);
    ProblemSearches(b, hash, evaluate, hot, arrange, rank);
    var search := new Search(p, spec, base);
    r := search.Run();
    if r.Done? {
      ghost var all := search.evaluated;
      ghost var i :| 0 <= i < |all| && all[i] == r.best;
      EveryCandidate(b, hot, p, spec, base, all, i);
      BaseFirst(p, spec, base, all);
      if i > 0 { AllAdmissible(p, spec, base, all, i); }
    }
  }
}
