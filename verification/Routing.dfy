/** How a request is routed to one of the active instances of its service. */
module Routing {
  import opened Wrappers
  import opened Orders
  import opened Cluster

  /** `Sticky(None)` stands for a request without the sticky key. */
  datatype Strategy =
    | RoundRobin
    | Random(draw: nat)
    | Least(load: Id -> real)
    | Weighted(weights: map<Id, real>)
    | Sticky(hash: Option<nat>)
    | Unsupported

  predicate InZone(s: State, id: Id, zone: string) {
    id in s.instances && s.instances[id].host in s.hosts && s.hosts[s.instances[id].host].zone == zone
  }

  /** The host of the instance is in the zone. */
  predicate IsIn(instances: map<Id, Instance>, hosts: map<HostId, Host>, id: Id, zone: string) {
    id in instances && instances[id].host in hosts && hosts[instances[id].host].zone == zone
  }

  /** The instances of a list that are in the zone. */
  function Nearby(s: State, ids: seq<Id>, zone: string): (r: seq<Id>)
    ensures |r| <= |ids| && forall id :: id in r <==> id in ids && InZone(s, id, zone)
  {
    if ids == [] then []
    else
      var last := ids[|ids| - 1];
      Nearby(s, ids[..|ids| - 1], zone) + if InZone(s, last, zone) then [last] else []
  }

  /** The cached instances a request may go to: those in its zone, or all if there is none. */
  function Eligible(s: State, sv: string, zone: Option<string>): (r: seq<Id>)
    requires sv in s.cache
    ensures |r| <= |s.cache[sv]| && (s.cache[sv] != [] ==> r != []) && forall id :: id in r ==> id in s.cache[sv]
    ensures zone.Some? && (exists id :: id in s.cache[sv] && InZone(s, id, zone.value)) ==> forall id :: id in r ==> InZone(s, id, zone.value)
  {
    if zone.None? || Nearby(s, s.cache[sv], zone.value) == [] then s.cache[sv] else Nearby(s, s.cache[sv], zone.value)
  }

  /** Those in the zone are eligible if there are any, and all are otherwise. */
  lemma EligibleIn(s: State, sv: string, zone: Option<string>)
    requires sv in s.cache
    ensures zone.Some? && (exists id :: id in s.cache[sv] && IsIn(s.instances, s.hosts, id, zone.value)) ==>
      forall id :: id in Eligible(s, sv, zone) <==> id in s.cache[sv] && IsIn(s.instances, s.hosts, id, zone.value)
    ensures zone.None? || (forall id :: id in s.cache[sv] ==> !IsIn(s.instances, s.hosts, id, zone.value)) ==> Eligible(s, sv, zone) == s.cache[sv]
  {
    if zone.Some? {
      var near := Nearby(s, s.cache[sv], zone.value);
      forall id ensures InZone(s, id, zone.value) <==> IsIn(s.instances, s.hosts, id, zone.value) {}
      if near != [] { assert near[0] in near; }
    }
  }

  /** Where round robin stands in a list that may be shorter than the cached one. */
  function Standing(cursor: nat, n: nat): (i: nat)
    requires n > 0
    ensures i < n
  {
    if cursor >= n then 0 else cursor
  }

  function WheelOf(among: seq<Id>, weights: map<Id, real>): (slots: seq<nat>)
    ensures |slots| == |among|
  {
    seq<nat>(|among|, i requires 0 <= i < |among| => WheelSlots(if among[i] in weights then weights[among[i]] else 1.0))
  }

  /** The wheel cursors after a selection among `total` slots. */
  function WheelAfter(wheel: map<string, nat>, sv: string, total: nat): map<string, nat> {
    if total == 0 then wheel else wheel[sv := (At(wheel, sv) % total + 1) % total]
  }

  /** Does the strategy choose `r`?  `cursor` and `turn` are the round-robin and wheel cursors before. */
  ghost predicate Chooses(among: seq<Id>, strategy: Strategy, cursor: nat, turn: nat, r: Id)
    requires among != []
  {
    match strategy
    case RoundRobin => r == among[Standing(cursor, |among|)]
    case Random(draw) => r == among[draw % |among|]
    case Least(load) => exists b :: 0 <= b < |among| && r == among[b] && FirstLeast(among, load, b)
    case Weighted(weights) =>
      var slots := WheelOf(among, weights);
      if Total(slots) == 0 then r == among[Standing(cursor, |among|)]
      else exists i :: 0 <= i < |among| && r == among[i] && Total(slots[..i]) <= turn % Total(slots) < Total(slots[..i + 1])
    case Sticky(hash) => r == if hash.None? then among[Standing(cursor, |among|)] else among[hash.value % |among|]
    case Unsupported => false
  }

  /** Does the strategy take instances in turn?  The others leave the round-robin cursor alone. */
  predicate InTurn(among: seq<Id>, strategy: Strategy) {
    match strategy
    case RoundRobin => true
    case Weighted(weights) => Total(WheelOf(among, weights)) == 0
    case Sticky(hash) => hash.None?
    case _ => false
  }

  function CursorAfter(cursor: map<string, nat>, sv: string, n: nat): map<string, nat>
    requires n > 0
  {
    cursor[sv := (Standing(At(cursor, sv), n) + 1) % n]
  }

  ghost predicate FirstLeast(among: seq<Id>, load: Id -> real, b: nat)
    requires b < |among|
  {
    && (forall i :: 0 <= i < |among| ==> load(among[b]) <= load(among[i]))
    && (forall i :: 0 <= i < b ==> load(among[b]) < load(among[i]))
  }

  lemma CursorMoves(m: map<Id, Instance>, cache: map<string, seq<Id>>, cursor: map<string, nat>, sv: string, to: nat)
    requires CacheOk(m, cache, cursor) && sv in cache && to < |cache[sv]|
    ensures CacheOk(m, cache, cursor[sv := to])
  {
  }

  lemma CacheFacts(s: State, sv: string)
    requires CacheOk(s.instances, s.cache, s.cursor) && sv in s.cache
    ensures |s.cache[sv]| > 0 && NoDuplicates(s.cache[sv]) && forall id :: id in s.cache[sv] ==> IsActive(s.instances, id) && id.service == sv
    ensures forall zone :: 0 < |Eligible(s, sv, zone)| <= |s.cache[sv]| && forall id :: id in Eligible(s, sv, zone) ==> id in s.cache[sv]
  {
  }

  lemma ChosenInTurn(among: seq<Id>, strategy: Strategy, cursor: nat, turn: nat)
    requires among != []
    requires InTurn(among, strategy)
    ensures Chooses(among, strategy, cursor, turn, among[Standing(cursor, |among|)])
  {
  }

  lemma ChosenAt(among: seq<Id>, strategy: Strategy, cursor: nat, turn: nat, n: nat)
    requires among != [] && (strategy == Random(n) || strategy == Sticky(Some(n)))
    ensures Chooses(among, strategy, cursor, turn, among[n % |among|])
  {
  }

  lemma ChosenLeast(among: seq<Id>, load: Id -> real, cursor: nat, turn: nat, i: nat)
    requires i < |among| && FirstLeast(among, load, i)
    ensures Chooses(among, Least(load), cursor, turn, among[i])
  {
  }

  lemma ChosenByWheel(among: seq<Id>, weights: map<Id, real>, cursor: nat, turn: nat, i: nat)
    requires i < |among| && Total(WheelOf(among, weights)) > 0
    requires var slots := WheelOf(among, weights);
      Total(slots[..i]) <= turn % Total(slots) < Total(slots[..i + 1])
    ensures Chooses(among, Weighted(weights), cursor, turn, among[i])
  {
  }

  /** The first instance with the least load. */
  method LeastLoaded(among: seq<Id>, load: Id -> real) returns (best: nat)
    requires |among| > 0
    ensures best < |among| && FirstLeast(among, load, best)
  {
    best := 0;
    var bestVal := load(among[0]);
    for i := 1 to |among|
      invariant best < i && bestVal == load(among[best])
      invariant forall k :: 0 <= k < i ==> bestVal <= load(among[k])
      invariant forall k :: 0 <= k < best ==> bestVal < load(among[k])
    {
      var v := load(among[i]);
      if v < bestVal { best, bestVal := i, v; }
    }
  }

  const WHEEL_SCALE := 1000.0

  /** A positive weight gets its share of the wheel, and at least one slot. */
  function WheelSlots(w: real): nat {
    if w <= 0.0 then 0
    else
      var slots := (w * WHEEL_SCALE + 0.5).Floor;
      if slots < 1 then 1 else slots
  }

  /** The slots are a thousand times the weight to the nearest whole number, and at least one
      for a positive weight; a larger weight never has fewer. */
  lemma SlotsFollowWeights(w: real, v: real)
    ensures w <= 0.0 <==> WheelSlots(w) == 0
    ensures 2.0 * WHEEL_SCALE * w >= 1.0 ==>
      2.0 * WHEEL_SCALE * w - 1.0 < 2.0 * WheelSlots(w) as real <= 2.0 * WHEEL_SCALE * w + 1.0
    ensures 0.0 < w && 2.0 * WHEEL_SCALE * w < 1.0 ==> WheelSlots(w) == 1
    ensures w <= v ==> WheelSlots(w) <= WheelSlots(v)
  {
    if 0.0 < w <= v {
      assert (w * WHEEL_SCALE + 0.5).Floor <= (v * WHEEL_SCALE + 0.5).Floor;
    }
  }

  /** An instance without a weight of its own counts like one of weight 1. */
  lemma UnlistedWeight(among: seq<Id>, weights: map<Id, real>, i: nat)
    requires i < |among|
    ensures WheelOf(among, weights)[i] == WheelSlots(if among[i] in weights then weights[among[i]] else 1.0)
    ensures among[i] !in weights ==> WheelOf(among, weights)[i] == 1000
  {
  }

  function Total(slots: seq<nat>): nat {
    if slots == [] then 0 else Total(slots[..|slots| - 1]) + slots[|slots| - 1]
  }

  /** The instance whose stretch of the wheel contains `turn`. */
  method TurnWheel(slots: seq<nat>, turn: nat) returns (i: nat)
    requires turn < Total(slots)
    ensures i < |slots| && Total(slots[..i]) <= turn < Total(slots[..i + 1])
  {
    assert slots[..|slots|] == slots;
    i := 0;
    var cum := 0;
    while i < |slots|
      invariant i <= |slots| && cum == Total(slots[..i]) <= turn
    {
      assert slots[..i + 1][..i] == slots[..i];
      cum := cum + slots[i];
      if turn < cum { return; }
      i := i + 1;
    }
  }

  /** Stretches of different instances do not overlap. */
  lemma {:induction false} TotalGrows(slots: seq<nat>, i: nat, j: nat)
    requires i <= j <= |slots|
    ensures Total(slots[..i]) <= Total(slots[..j])
    decreases j - i
  {
    if i < j {
      assert slots[..i + 1][..i] == slots[..i];
      TotalGrows(slots, i + 1, j);
    }
  }

  // --- Rounds ---------------------------------------------------------------------

  lemma {:induction false} NearbyOnce(s: State, ids: seq<Id>, zone: string)
    requires NoDuplicates(ids)
    ensures NoDuplicates(Nearby(s, ids, zone))
  {
    if ids != [] {
      var n := |ids| - 1;
      NearbyOnce(s, ids[..n], zone);
      assert ids[n] !in ids[..n];
      assert forall i :: 0 <= i < |Nearby(s, ids[..n], zone)| ==> Nearby(s, ids[..n], zone)[i] in Nearby(s, ids[..n], zone);
    }
  }

  lemma EligibleOnce(s: State, sv: string, zone: Option<string>)
    requires CacheOk(s.instances, s.cache, s.cursor) && sv in s.cache
    ensures NoDuplicates(Eligible(s, sv, zone)) && Eligible(s, sv, zone) != []
  {
    hide NoDuplicates;
    if zone.Some? { NearbyOnce(s, s.cache[sv], zone.value); }
  }

  /** The cursors do not matter for who is eligible. */
  lemma {:induction false} NearbySame(s: State, t: State, ids: seq<Id>, zone: string)
    requires t == s.(cursor := t.cursor)
    ensures Nearby(t, ids, zone) == Nearby(s, ids, zone)
  {
    if ids != [] { NearbySame(s, t, ids[..|ids| - 1], zone); }
  }

  lemma EligibleSame(s: State, t: State, sv: string, zone: Option<string>)
    requires t == s.(cursor := t.cursor) && sv in s.cache
    ensures Eligible(t, sv, zone) == Eligible(s, sv, zone)
  {
    if zone.Some? { NearbySame(s, t, s.cache[sv], zone.value); }
  }

  /** The wheel slot by slot: who is chosen at which position. */
  function Unrolled(among: seq<Id>, slots: seq<nat>): (r: seq<Id>)
    requires |among| == |slots|
    ensures |r| == Total(slots)
  {
    if among == [] then []
    else
      var n := |among| - 1;
      Unrolled(among[..n], slots[..n]) + seq(slots[n], _ => among[n])
  }

  lemma {:induction false} UnrolledAt(among: seq<Id>, slots: seq<nat>, i: nat, turn: nat)
    requires |among| == |slots| && i < |among| && Total(slots[..i]) <= turn < Total(slots[..i + 1])
    ensures turn < Total(slots) && Unrolled(among, slots)[turn] == among[i]
  {
    var n := |among| - 1;
    TotalGrows(slots, i + 1, |slots|);
    assert slots[..|slots|] == slots;
    if i < n {
      assert slots[..n][..i] == slots[..i] && slots[..n][..i + 1] == slots[..i + 1];
      UnrolledAt(among[..n], slots[..n], i, turn);
    }
  }

  lemma {:induction false} Repeated(x: Id, n: nat, y: Id)
    ensures multiset(seq(n, _ => x))[y] == if y == x then n else 0
  {
    if n > 0 {
      Repeated(x, n - 1, y);
      assert seq(n, _ => x) == seq(n - 1, _ => x) + [x];
    }
  }

  /** An instance has its number of slots on the wheel. */
  lemma {:induction false} UnrolledCount(among: seq<Id>, slots: seq<nat>, i: nat)
    requires |among| == |slots| && i < |among| && NoDuplicates(among)
    ensures multiset(Unrolled(among, slots))[among[i]] == slots[i]
  {
    var n := |among| - 1;
    Repeated(among[n], slots[n], among[i]);
    if i < n {
      UnrolledCount(among[..n], slots[..n], i);
    } else {
      NotOnWheel(among[..n], slots[..n], among[n]);
    }
  }

  lemma {:induction false} NotOnWheel(among: seq<Id>, slots: seq<nat>, x: Id)
    requires |among| == |slots| && x !in among
    ensures multiset(Unrolled(among, slots))[x] == 0
  {
    if among != [] {
      var n := |among| - 1;
      NotOnWheel(among[..n], slots[..n], x);
      Repeated(among[n], slots[n], x);
    }
  }
}
