/**
  What a start of the manager and a scale-up promise in terms of the configuration: zones,
  anti-affinity, reservations and the spreading over hosts.
*/
module ClusterPolicies {
  import opened Orders
  import opened Cluster
  import opened ClusterOps

  /** The instance runs where, and with what, the configuration says: unset amounts are one core
      and 512 megabytes. */
  ghost predicate AsWanted(s: State, id: Id, c: ServiceConfig)
    requires id in s.instances
  {
    var i := s.instances[id];
    && id.service == c.id && i.host in s.hosts && !i.draining
    && (c.requiredZones != [] ==> s.hosts[i.host].zone in c.requiredZones)
    && i.cpu == (if c.cpu == 0.0 then 1.0 else c.cpu) && i.mem == (if c.mem == 0.0 then 512.0 else c.mem)
  }

  /** Nobody that the configuration keeps away was on the host before. */
  ghost predicate CameBefore(s: State, id: Id, c: ServiceConfig)
    requires id in s.instances
  {
    forall other :: other in s.instances && s.instances[other].host == s.instances[id].host && other.service in c.antiAffinity ==> other.n >= id.n
  }

  ghost predicate Wanted(services: seq<ServiceConfig>, s: State, id: Id, k: nat)
    requires id in s.instances
  {
    k < |services| && AsWanted(s, id, services[k]) && CameBefore(s, id, services[k])
  }

  /** No two IDs have one number, and an instance is listed on its host. */
  ghost predicate InSequence(s: State) {
    && (forall id :: id in s.instances ==> id.n < s.next && id in On(s.byHost, s.instances[id].host))
    && (forall a, b :: a in s.instances && b in s.instances && a.n == b.n ==> a == b)
  }

  ghost predicate AllWanted(services: seq<ServiceConfig>, s: State) {
    InSequence(s) && forall id :: id in s.instances ==> exists k: nat :: Wanted(services, s, id, k)
  }

  lemma StillWanted(services: seq<ServiceConfig>, s: State, c: ServiceConfig, h: HostId, id: Id, j: nat)
    requires InSequence(s) && id in s.instances && id.n < s.next && Wanted(services, s, id, j)
    ensures var t := PlacedReplica(s, c, h); id in t.instances && Wanted(services, t, id, j)
  {
  }

  lemma OneMoreWanted(services: seq<ServiceConfig>, s: State, k: nat, h: HostId)
    requires AllWanted(services, s) && k < |services| && Accepts(s, services[k], h)
    ensures AllWanted(services, PlacedReplica(s, services[k], h))
  {
    hide Room, AsWanted, CameBefore;
    var c, t, id0 := services[k], PlacedReplica(s, services[k], h), Id(services[k].id, s.next);
    assert id0 !in s.instances;
    forall id | id in t.instances ensures id.n < t.next && id in On(t.byHost, t.instances[id].host) {}
    forall id | id in t.instances ensures exists j: nat :: Wanted(services, t, id, j) {
      if id == id0 {
        NowWanted(services, s, k, h);
      } else {
        var j: nat :| Wanted(services, s, id, j);
        StillWanted(services, s, services[k], h, id, j);
      }
    }
  }

  lemma NowWanted(services: seq<ServiceConfig>, s: State, k: nat, h: HostId)
    requires InSequence(s) && k < |services| && Accepts(s, services[k], h)
    ensures var t, id := PlacedReplica(s, services[k], h), Id(services[k].id, s.next); id in t.instances && Wanted(services, t, id, k)
  {
    hide Room;
    NoneKeptAway(s, services[k], h);
  }

  lemma NoneKeptAway(s: State, c: ServiceConfig, h: HostId)
    requires InSequence(s) && h in s.hosts && Allowed(s, c, h)
    ensures forall other :: other in s.instances && s.instances[other].host == h ==> other.service !in c.antiAffinity
  {
    forall other | other in s.instances && s.instances[other].host == h ensures other.service !in c.antiAffinity {
      var i :| 0 <= i < |On(s.byHost, h)| && On(s.byHost, h)[i] == other;
    }
  }

  lemma {:induction false} StartWanted(services: seq<ServiceConfig>, k: nat, replica: nat, s: State, t: State, ok: bool)
    requires AllWanted(services, s) && Starts(services, k, replica, s, t, ok)
    ensures AllWanted(services, t)
    decreases |services| - k, if k < |services| then services[k].replicas - replica else 0
  {
    hide AllWanted, Accepts, PutOn, Stuck, PlacedReplica;
    if k >= |services| {
    } else if replica >= services[k].replicas {
      StartWanted(services, k + 1, 0, s, t, ok);
    } else if !Stuck(s, services[k]) {
      var h :| PutOn(s, services[k], replica, h) && Starts(services, k, replica + 1, PlacedReplica(s, services[k], h), t, ok);
      PutAccepts(s, services[k], replica, h);
      OneMoreWanted(services, s, k, h);
      StartWanted(services, k, replica + 1, PlacedReplica(s, services[k], h), t, ok);
    }
  }

  /** Whatever a start has placed, whether it succeeded or not, is placed as a configuration of
      its service wants: in a required zone, with the reserved amounts, and on a host where
      nothing it keeps away from was before. */
  lemma StartRespects(hosts: map<HostId, Host>, services: seq<ServiceConfig>, t: State, ok: bool, id: Id)
    requires Starts(services, 0, 0, EmptyState(hosts), t, ok) && id in t.instances
    ensures exists k: nat :: Wanted(services, t, id, k)
  {
    hide Starts;
    StartWanted(services, 0, 0, EmptyState(hosts), t, ok);
  }

  /** Services that keep away from each other share no host. */
  lemma KeptApart(hosts: map<HostId, Host>, services: seq<ServiceConfig>, t: State, ok: bool, a: Id, b: Id)
    requires Starts(services, 0, 0, EmptyState(hosts), t, ok) && a in t.instances && b in t.instances && a.service != b.service
    requires forall i :: 0 <= i < |services| && services[i].id == a.service ==> b.service in services[i].antiAffinity
    requires forall i :: 0 <= i < |services| && services[i].id == b.service ==> a.service in services[i].antiAffinity
    ensures t.instances[a].host != t.instances[b].host
  {
    hide Starts;
    StartWanted(services, 0, 0, EmptyState(hosts), t, ok);
    var i: nat :| Wanted(services, t, a, i);
    var j: nat :| Wanted(services, t, b, j);
  }

  // --- Spreading ------------------------------------------------------------------

  /** While every host accepts it, replica number r goes to host number r, round all hosts by
      name. */
  lemma ReplicasSpread(s: State, c: ServiceConfig, replica: nat, h: HostId) returns (order: seq<HostId>)
    requires (forall x :: x in s.hosts ==> Accepts(s, c, x)) && PutOn(s, c, replica, h)
    ensures IsSorted(order, s.hosts.Keys, HostName) && order != [] && h == order[replica % |order|]
  {
    hide Accepts, NoDuplicates, Sorted;
    order :| IsSorted(order, s.hosts.Keys, HostName) && order != [] && FirstOk(order, replica % |order|, x => Accepts(s, c, x), h);
    assert forall x :: x in order ==> x in SetOf(order);
    FirstInTurn(order, replica % |order|, x => Accepts(s, c, x), h);
  }

  /** So does a further instance, counted from those the service has. */
  lemma InstancesSpread(s: State, sv: string, cpu: real, mem: real, h: HostId) returns (order: seq<HostId>)
    requires (forall x :: x in s.hosts ==> Room(s, x, cpu, mem)) && PickedFor(s, sv, cpu, mem, h)
    ensures IsSorted(order, s.hosts.Keys, HostName) && order != []
    ensures h == order[|set id | id in s.instances && id.service == sv| % |order|]
  {
    hide Room, NoDuplicates, Sorted;
    var n := |InstancesOf(s.instances, sv)|;
    order :| IsSorted(order, s.hosts.Keys, HostName) && order != [] && FirstOk(order, n % |order|, x => Room(s, x, cpu, mem), h);
    assert forall x :: x in order ==> x in SetOf(order);
    FirstInTurn(order, n % |order|, x => Room(s, x, cpu, mem), h);
  }

  lemma FirstInTurn(order: seq<HostId>, start: nat, ok: HostId -> bool, h: HostId)
    requires start < |order| && (forall x :: x in order ==> ok(x)) && FirstOk(order, start, ok, h)
    ensures h == order[start]
  {
    assert Turn(order, start, 0) == order[start];
  }
}
