/**
  What one step of the batch search may change in a scenario, and the checks a changed
  scenario has to pass.
*/
module BeamMoves {
  import opened Wrappers
  import opened Orders

  const DEFAULT_CPU := 1.0
  const DEFAULT_MEM := 512.0
  const DEFAULT_GB := 16
  const DEFAULT_CONSUMERS := 64
  const MB_PER_GB := 1024.0
  const SLACK := 1.001
  const MIN_RATE := 0.01

  // --- Scenarios ------------------------------------------------------------------

  datatype Scaling = Scaling(horizontal: bool, verticalCpu: bool, verticalMem: bool)

  datatype Consumers = Consumers(concurrency: int, min: int, max: int)

  datatype Service = Service(
    id: string,
    database: bool,
    replicas: int,
    cpu: real,
    mem: real,
    scaling: Option<Scaling>,
    queue: Option<Consumers>,
    topic: seq<Consumers>)

  datatype Host = Host(id: string, cores: int, memGB: int, zone: string)

  /** `rates` are the arrival rates of the workload; `autoscaling` says whether it is on, if
      it is configured. */
  datatype Scenario = Scenario(services: seq<Service>, hosts: seq<Host>, rates: seq<real>, autoscaling: Option<bool>)

  datatype Action =
    | ServiceOut | ServiceIn | CpuUp | CpuDown | MemUp | MemDown
    | HostOut | HostIn | HostCpuUp | HostCpuDown | HostMemUp | HostMemDown
    | QueueUp | QueueDown | TopicUp | TopicDown

  datatype Limits = Limits(
    minHosts: int, maxHosts: int,
    minReplicas: int, maxReplicas: int,
    minCpu: real, maxCpu: real,
    minMem: real, maxMem: real,
    minCores: int, maxCores: int,
    minGB: int, maxGB: int)

  datatype Sizes = Sizes(replicas: int, cpuRatio: real, memRatio: real, cores: int, memGB: int)

  datatype Batch = Batch(limits: Limits, sizes: Sizes, actions: seq<Action>, freezeWorkload: bool, freezePolicies: bool)

  // --- The checks -----------------------------------------------------------------

  function Cpu(v: Service): real { if v.cpu <= 0.0 then DEFAULT_CPU else v.cpu }

  function Mem(v: Service): real { if v.mem <= 0.0 then DEFAULT_MEM else v.mem }

  function Replicas(v: Service): int { if v.replicas < 1 then 1 else v.replicas }

  function GB(h: Host): int { if h.memGB < 1 then DEFAULT_GB else h.memGB }

  function CpuNeed(services: seq<Service>): real {
    if services == [] then 0.0
    else
      var v := services[|services| - 1];
      CpuNeed(services[..|services| - 1]) + Replicas(v) as real * Cpu(v)
  }

  function MemNeed(services: seq<Service>): real {
    if services == [] then 0.0
    else
      var v := services[|services| - 1];
      MemNeed(services[..|services| - 1]) + Replicas(v) as real * Mem(v)
  }

  function Cores(hosts: seq<Host>): real {
    if hosts == [] then 0.0 else Cores(hosts[..|hosts| - 1]) + hosts[|hosts| - 1].cores as real
  }

  function Memory(hosts: seq<Host>): real {
    if hosts == [] then 0.0 else Memory(hosts[..|hosts| - 1]) + GB(hosts[|hosts| - 1]) as real * MB_PER_GB
  }

  /** What the services need altogether fits the hosts altogether, up to a slack; hosts
      without any capacity count as large enough. */
  predicate Fits(s: Scenario) {
    && s.services != []
    && (Cores(s.hosts) > 0.0 ==> CpuNeed(s.services) <= Cores(s.hosts) * SLACK)
    && (Memory(s.hosts) > 0.0 ==> MemNeed(s.services) <= Memory(s.hosts) * SLACK)
  }

  lemma {:induction false} NeedsSomething(services: seq<Service>)
    ensures CpuNeed(services) >= 0.0 && MemNeed(services) >= 0.0
  {
    if services != [] {
      var n := |services| - 1;
      NeedsSomething(services[..n]);
      NotNegative(Replicas(services[n]), Cpu(services[n]));
      NotNegative(Replicas(services[n]), Mem(services[n]));
    }
  }

  lemma NotNegative(n: int, x: real)
    requires n >= 0 && x >= 0.0
    ensures n as real * x >= 0.0
  {
  }

  method StaticCapacityOK(s: Scenario) returns (ok: bool)
    ensures ok <==> Fits(s)
  {
    if |s.services| == 0 { return false; }
    var needCpu, needMem := 0.0, 0.0;
    for i := 0 to |s.services|
      invariant needCpu == CpuNeed(s.services[..i]) && needMem == MemNeed(s.services[..i])
    {
      assert s.services[..i + 1][..i] == s.services[..i];
      var v := s.services[i];
      var r := v.replicas as real;
      if r < 1.0 { r := 1.0; }
      var cpu := v.cpu;
      if cpu <= 0.0 { cpu := DEFAULT_CPU; }
      var mb := v.mem;
      if mb <= 0.0 { mb := DEFAULT_MEM; }
      needCpu := needCpu + r * cpu;
      needMem := needMem + r * mb;
    }
    assert s.services[..|s.services|] == s.services;
    var capCpu, capMem := 0.0, 0.0;
    for i := 0 to |s.hosts|
      invariant capCpu == Cores(s.hosts[..i]) && capMem == Memory(s.hosts[..i])
    {
      assert s.hosts[..i + 1][..i] == s.hosts[..i];
      capCpu := capCpu + s.hosts[i].cores as real;
      var gb := s.hosts[i].memGB;
      if gb < 1 { gb := DEFAULT_GB; }
      capMem := capMem + gb as real * MB_PER_GB;
    }
    assert s.hosts[..|s.hosts|] == s.hosts;
    NeedsSomething(s.services);
    if capCpu <= 0.0 { capCpu := needCpu; }
    if capMem <= 0.0 { capMem := needMem; }
    return needCpu <= capCpu * SLACK && needMem <= capMem * SLACK;
  }

  predicate ConsumersOk(c: Consumers) {
    c.concurrency > 0 ==> (c.min > 0 ==> c.min <= c.concurrency) && (c.max > 0 ==> c.concurrency <= c.max)
  }

  predicate ServiceOk(l: Limits, v: Service) {
    && l.minReplicas <= v.replicas <= l.maxReplicas
    && l.minCpu <= v.cpu <= l.maxCpu && l.minMem <= v.mem <= l.maxMem
    && (v.queue.Some? ==> ConsumersOk(v.queue.value))
    && (forall j :: 0 <= j < |v.topic| ==> ConsumersOk(v.topic[j]))
  }

  predicate HostOk(l: Limits, h: Host) {
    l.minCores <= h.cores <= l.maxCores && l.minGB <= GB(h) <= l.maxGB
  }

  predicate InBounds(l: Limits, s: Scenario) {
    && l.minHosts <= |s.hosts| <= l.maxHosts
    && (forall i :: 0 <= i < |s.services| ==> ServiceOk(l, s.services[i]))
    && (forall i :: 0 <= i < |s.hosts| ==> HostOk(l, s.hosts[i]))
  }

  method WithinBatchBounds(l: Limits, s: Scenario) returns (ok: bool)
    ensures ok <==> InBounds(l, s)
  {
    if |s.hosts| < l.minHosts || |s.hosts| > l.maxHosts { return false; }
    for i := 0 to |s.services|
      invariant forall k :: 0 <= k < i ==> ServiceOk(l, s.services[k])
    {
      var v := s.services[i];
      if v.replicas < l.minReplicas || v.replicas > l.maxReplicas { return false; }
      if v.cpu < l.minCpu || v.cpu > l.maxCpu { return false; }
      if v.mem < l.minMem || v.mem > l.maxMem { return false; }
      if v.queue.Some? && !ConsumersOk(v.queue.value) { return false; }
      for j := 0 to |v.topic|
        invariant forall k :: 0 <= k < j ==> ConsumersOk(v.topic[k])
      {
        if !ConsumersOk(v.topic[j]) { return false; }
      }
    }
    for i := 0 to |s.hosts|
      invariant forall k :: 0 <= k < i ==> HostOk(l, s.hosts[k])
    {
      var h := s.hosts[i];
      if h.cores < l.minCores || h.cores > l.maxCores { return false; }
      var gb := h.memGB;
      if gb < 1 { gb := DEFAULT_GB; }
      if gb < l.minGB || gb > l.maxGB { return false; }
    }
    return true;
  }

  predicate Admissible(l: Limits, s: Scenario) { Fits(s) && InBounds(l, s) }

  // --- Moves of a service ---------------------------------------------------------

  function Smaller(x: int, y: int): int { if x > y then y else x }

  function Greater(x: int, y: int): int { if x < y then y else x }

  function NoLess(x: real, y: real): real { if x < y then y else x }

  function Raised(x: real, ratio: real, limit: real): real { if x * (1.0 + ratio) > limit then limit else x * (1.0 + ratio) }

  function Lowered(x: real, ratio: real, limit: real): real { NoLess(x * (1.0 - ratio), limit) }

  /** Does the service allow the action?  A database without a policy allows none. */
  predicate Allows(v: Service, act: Action) {
    if v.scaling.None? then !v.database
    else
      match act
      case ServiceOut => v.scaling.value.horizontal
      case ServiceIn => v.scaling.value.horizontal
      case CpuUp => v.scaling.value.verticalCpu
      case CpuDown => v.scaling.value.verticalCpu
      case MemUp => v.scaling.value.verticalMem
      case MemDown => v.scaling.value.verticalMem
      case _ => true
  }

  function MostConsumers(l: Limits, c: Consumers): int {
    if c.max > 0 then c.max else if l.maxReplicas < 1 then DEFAULT_CONSUMERS else l.maxReplicas
  }

  function MoreConsumers(l: Limits, z: Sizes, c: Consumers): Option<Consumers> {
    var cur := if c.concurrency <= 0 then 1 else c.concurrency;
    if cur >= MostConsumers(l, c) then None else Some(c.(concurrency := Smaller(cur + z.replicas, MostConsumers(l, c))))
  }

  function FewerConsumers(z: Sizes, c: Consumers): Option<Consumers> {
    var cur := if c.concurrency <= 0 then 1 else c.concurrency;
    var min := if c.min <= 0 then 1 else c.min;
    if cur <= min then None else Some(c.(concurrency := Greater(cur - z.replicas, min)))
  }

  function Just<T>(x: Option<T>): seq<T> { if x.None? then [] else [x.value] }

  /** The first `n` subscribers changed one at a time. */
  function TopicMoves(l: Limits, z: Sizes, v: Service, up: bool, n: nat): seq<Service>
    requires n <= |v.topic|
  {
    if n == 0 then []
    else
      var c := if up then MoreConsumers(l, z, v.topic[n - 1]) else FewerConsumers(z, v.topic[n - 1]);
      TopicMoves(l, z, v, up, n - 1) + if c.None? then [] else [v.(topic := v.topic[n - 1 := c.value])]
  }

  /** What an action can make of a service. */
  function ServiceMoves(l: Limits, z: Sizes, act: Action, v: Service): seq<Service> {
    match act
    case ServiceOut => if Allows(v, act) && v.replicas < l.maxReplicas then [v.(replicas := Smaller(v.replicas + z.replicas, l.maxReplicas))] else []
    case ServiceIn => if Allows(v, act) && v.replicas - z.replicas >= l.minReplicas then [v.(replicas := v.replicas - z.replicas)] else []
    case CpuUp => if Allows(v, act) then [v.(cpu := Raised(Cpu(v), z.cpuRatio, l.maxCpu))] else []
    case CpuDown => if Allows(v, act) then [v.(cpu := Lowered(Cpu(v), z.cpuRatio, l.minCpu))] else []
    case MemUp => if Allows(v, act) then [v.(mem := Raised(Mem(v), z.memRatio, l.maxMem))] else []
    case MemDown => if Allows(v, act) then [v.(mem := Lowered(Mem(v), z.memRatio, l.minMem))] else []
    case QueueUp => if v.queue.None? then [] else Just(WithQueue(v, MoreConsumers(l, z, v.queue.value)))
    case QueueDown => if v.queue.None? then [] else Just(WithQueue(v, FewerConsumers(z, v.queue.value)))
    case TopicUp => TopicMoves(l, z, v, true, |v.topic|)
    case TopicDown => TopicMoves(l, z, v, false, |v.topic|)
    case _ => []
  }

  function WithQueue(v: Service, c: Option<Consumers>): Option<Service> {
    if c.None? then None else Some(v.(queue := c))
  }

  /** The moves of the services at the given places. */
  function MovesAt(l: Limits, z: Sizes, act: Action, s: Scenario, places: seq<nat>): seq<Scenario>
    requires forall k :: 0 <= k < |places| ==> places[k] < |s.services|
  {
    if places == [] then []
    else
      var n := |places| - 1;
      MovesAt(l, z, act, s, places[..n]) + Replaced(s, places[n], ServiceMoves(l, z, act, s.services[places[n]]))
  }

  function Replaced(s: Scenario, i: nat, variants: seq<Service>): (r: seq<Scenario>)
    requires i < |s.services|
    ensures |r| == |variants| && forall k :: 0 <= k < |r| ==> r[k] == s.(services := s.services[i := variants[k]])
  {
    seq(|variants|, k requires 0 <= k < |variants| => s.(services := s.services[i := variants[k]]))
  }

  /** All places, or under stress those of the services that consume from brokers, if any;
      `hot` are the latter. */
  function Places(s: Scenario, act: Action, hot: seq<nat>): (r: seq<nat>)
    ensures forall k :: 0 <= k < |r| ==> r[k] < |s.services|
  {
    var valid := Valid(s, hot);
    if (act.ServiceOut? || act.CpuUp? || act.MemUp?) && valid != [] then valid else seq(|s.services|, i => i)
  }

  function Valid(s: Scenario, hot: seq<nat>): (r: seq<nat>)
    ensures forall k :: 0 <= k < |r| ==> r[k] in hot && r[k] < |s.services|
  {
    if hot == [] then []
    else Valid(s, hot[..|hot| - 1]) + if hot[|hot| - 1] < |s.services| then [hot[|hot| - 1]] else []
  }

  // --- Moves of hosts, workload and policies --------------------------------------

  /** The name of an added host is the number it makes. */
  function AddedName(n: nat): string { "host-" + Digits(n) }

  function ResizedHost(l: Limits, z: Sizes, act: Action, h: Host): Host {
    match act
    case HostCpuUp => h.(cores := Smaller(h.cores + z.cores, l.maxCores))
    case HostCpuDown => h.(cores := Greater(h.cores - z.cores, l.minCores))
    case HostMemUp => h.(memGB := Smaller(h.memGB + z.memGB, l.maxGB))
    case HostMemDown => h.(memGB := Greater(h.memGB - z.memGB, l.minGB))
    case _ => h
  }

  function HostMoves(l: Limits, z: Sizes, act: Action, s: Scenario): seq<Scenario> {
    match act
    case HostOut =>
      if s.hosts == [] || |s.hosts| >= l.maxHosts then []
      else [s.(hosts := s.hosts + [Host(AddedName(|s.hosts| + 1), s.hosts[0].cores, s.hosts[0].memGB, "")])]
    case HostIn =>
      if |s.hosts| <= l.minHosts || s.hosts == [] then [] else [s.(hosts := s.hosts[..|s.hosts| - 1])]
    case _ =>
      seq(|s.hosts|, i requires 0 <= i < |s.hosts| => s.(hosts := s.hosts[i := ResizedHost(l, z, act, s.hosts[i])]))
  }

  predicate OnHosts(act: Action) {
    act.HostOut? || act.HostIn? || act.HostCpuUp? || act.HostCpuDown? || act.HostMemUp? || act.HostMemDown?
  }

  function ActionMoves(l: Limits, z: Sizes, act: Action, s: Scenario, hot: seq<nat>): seq<Scenario> {
    if OnHosts(act) then HostMoves(l, z, act, s) else MovesAt(l, z, act, s, Places(s, act, hot))
  }

  function ActionsMoves(l: Limits, z: Sizes, actions: seq<Action>, s: Scenario, hot: seq<nat>): seq<Scenario> {
    if actions == [] then []
    else
      var n := |actions| - 1;
      ActionsMoves(l, z, actions[..n], s, hot) + ActionMoves(l, z, actions[n], s, hot)
  }

  function Rescaled(rate: real, factor: real): real {
    if rate * factor < MIN_RATE then MIN_RATE else rate * factor
  }

  /** Every arrival rate up and down, one at a time, for the first `n`. */
  function RateMoves(s: Scenario, n: nat): seq<Scenario>
    requires n <= |s.rates|
  {
    if n == 0 then []
    else RateMoves(s, n - 1) + [s.(rates := s.rates[n - 1 := Rescaled(s.rates[n - 1], 1.1)]),
                                s.(rates := s.rates[n - 1 := Rescaled(s.rates[n - 1], 0.9)])]
  }

  function PolicyMoves(s: Scenario): seq<Scenario> {
    if s.autoscaling.None? then [] else [s.(autoscaling := Some(!s.autoscaling.value))]
  }

  /** Smaller steps for the polish after the search. */
  function Refined(z: Sizes): Sizes {
    Sizes(Greater(z.replicas / 2, 1), NoLess(z.cpuRatio * 0.5, 0.01), NoLess(z.memRatio * 0.5, 0.01),
          if z.cores > 1 then z.cores / 2 else z.cores, if z.memGB > 1 then z.memGB / 2 else z.memGB)
  }

  function SizesFor(b: Batch, refine: bool): Sizes { if refine then Refined(b.sizes) else b.sizes }

  /** Everything one step may lead to, before it is checked. */
  function Moves(b: Batch, refine: bool, s: Scenario, hot: seq<nat>): seq<Scenario> {
    ActionsMoves(b.limits, SizesFor(b, refine), b.actions, s, hot)
    + (if b.freezeWorkload then [] else RateMoves(s, |s.rates|))
    + (if b.freezePolicies then [] else PolicyMoves(s))
  }
}
