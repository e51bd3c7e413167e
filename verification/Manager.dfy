/**
  The resource manager object.

  The source ranges over maps in an arbitrary order and sorts by ID where the order matters;
  so does the model.
*/
module Manager {
  import opened Wrappers
  import opened Orders
  import opened Cluster
  import opened ClusterOps
  import opened Routing

  class Manager {
    var hosts: map<HostId, Host>
    var instances: map<Id, Instance>
    var byHost: map<HostId, seq<Id>>
    var cache: map<string, seq<Id>>
    var cursor: map<string, nat>
    var next: nat
    var wheel: map<string, nat>
    ghost var past: Past

    ghost function View(): State
      reads this
    {
      State(hosts, instances, byHost, cache, cursor, next)
    }

    ghost predicate Valid()
      reads this
    {
      Sound(View(), past)
    }

    constructor ()
      ensures Valid() && View() == EmptyState(map[]) && past == Past(false, false, false, {})
    {
      hosts, instances, byHost, cache, cursor, next, wheel := map[], map[], map[], map[], map[], 0, map[];
      past := Past(false, false, false, {});
    }

    /** What the instances of a host reserve. */
    method HostLoad(h: HostId) returns (cpu: real, mem: real)
      ensures cpu == CpuOf(instances, On(byHost, h)) && mem == MemOf(instances, On(byHost, h))
    {
      cpu, mem := 0.0, 0.0;
      var ids := On(byHost, h);
      for i := 0 to |ids|
        invariant cpu == CpuOf(instances, ids[..i]) && mem == MemOf(instances, ids[..i])
      {
        SumsWith(instances, ids[..i], ids[i]);
        assert ids[..i + 1] == ids[..i] + [ids[i]];
        if ids[i] in instances {
          cpu := cpu + instances[ids[i]].cpu;
          mem := mem + instances[ids[i]].mem;
        }
      }
      assert ids[..|ids|] == ids;
    }

    /** The number of instances of a service, draining ones included. */
    method CountInstances(sv: string) returns (n: nat)
      ensures n == |InstancesOf(instances, sv)|
    {
      n := 0;
      ghost var seen: set<Id> := {};
      var todo := instances.Keys;
      while todo != {}
        invariant todo <= instances.Keys && n == |seen|
        invariant seen == set id | id in instances && id !in todo && id.service == sv
      {
        var id :| id in todo;
        todo := todo - {id};
        if id.service == sv {
          n := n + 1;
          seen := seen + {id};
        }
      }
      assert seen == InstancesOf(instances, sv);
    }

    /** The first host with room, by name and round from the number of instances the service
        has, so that instances spread over the hosts. */
    method PickHostForNewInstance(sv: string, cpu: real, mem: real) returns (r: Option<HostId>)
      ensures r.Some? ==> PickedFor(View(), sv, cpu, mem, r.value)
      ensures r.None? ==> NoRoom(View(), cpu, mem)
    {
      hide IsSorted;
      var order := SortByName(hosts.Keys, HostName);
      SortedHosts(order, hosts);
      if |order| == 0 { return None; }
      var existing := CountInstances(sv);
      var start := existing % |order|;
      var j := 0;
      while j < |order|
        invariant j <= |order| && forall i :: 0 <= i < j ==> !Room(View(), Turn(order, start, i), cpu, mem)
      {
        var h := Turn(order, start, j);
        assert h in order;
        var usedCpu, usedMem := HostLoad(h);
        if Fits(hosts[h], usedCpu + cpu, usedMem + mem) {
          Picked(View(), sv, cpu, mem, order, j);
          return Some(h);
        }
        j := j + 1;
      }
      forall h | h in hosts ensures !Room(View(), h, cpu, mem) {
        AllTaken(order, start, h);
      }
      return None;
    }

    /** Lists the active instances of every service in the order of their names and puts back
        cursors that are no longer indices. */
    method RebuildSortedInstanceCache()
      requires Base(View(), past)
      modifies this`cache, this`cursor
      ensures Valid() && Lists(instances, cache) && RoutableOk(cache, past.ever)
      ensures forall sv :: At(cursor, sv) == if sv in cache && old(At(cursor, sv)) >= |cache[sv]| then 0 else old(At(cursor, sv))
    {
      hide Base, Lists, ListsBut;
      ghost var before := View();
      var listing: map<string, seq<Id>> := map[];
      NothingListed(instances);
      var todo := instances.Keys;
      while todo != {}
        invariant todo <= instances.Keys && ListsBut(instances, listing, todo) && cursor == before.cursor
      {
        var id :| id in todo;
        ghost var rest := todo;
        todo := todo - {id};
        assert todo + {id} == rest;
        ListOne(instances, listing, todo, id);
        if instances[id].draining { continue; }
        listing := Listed(listing, id);
      }
      SortNone(instances, listing);
      SortListing(listing);
      ServedAll(before, past);
      RebuildKeeps(instances, past.ever, cache, cursor);
      SameBase(before, past, View());
    }

    method SortListing(listing: map<string, seq<Id>>)
      requires SortedBut(instances, listing, listing.Keys)
      modifies this`cache, this`cursor
      ensures Lists(instances, cache) && forall sv :: sv in cache ==> At(cursor, sv) < |cache[sv]|
      ensures forall sv :: At(cursor, sv) == if sv in cache && old(At(cursor, sv)) >= |cache[sv]| then 0 else old(At(cursor, sv))
    {
      hide SortedBut, IsSorted, Lists;
      var next := listing;
      var todo := listing.Keys;
      while todo != {}
        invariant todo <= next.Keys && SortedBut(instances, next, todo)
        invariant forall sv :: sv in next && sv !in todo ==> |next[sv]| > 0
        invariant forall sv :: At(cursor, sv) == if sv in next && sv !in todo && old(At(cursor, sv)) >= |next[sv]| then 0 else old(At(cursor, sv))
      {
        var sv :| sv in todo;
        var ids := SortByName((set id | id in next[sv]), IdName);
        SortOne(instances, next, todo, sv, ids);
        todo := todo - {sv};
        next := next[sv := ids];
        if At(cursor, sv) >= |ids| { cursor := cursor[sv := 0]; }
      }
      SortedAll(instances, next);
      cache := next;
    }

    // --- Replicas -----------------------------------------------------------------

    method AddInstance(sv: string, h: HostId, cpu: real, mem: real)
      requires Base(View(), past) && Room(View(), h, cpu, mem)
      requires Fitting(past) ==> cpu >= 0.0 && mem >= 0.0
      requires past.mixed || SameAmounts(instances, sv, cpu, mem)
      modifies this`instances, this`byHost, this`next, this`past
      ensures View() == Placed(old(View()), sv, h, cpu, mem) && past == old(past).(ever := old(past).ever + {sv}) && Base(View(), past)
      ensures CacheOk(old(instances), cache, cursor) ==> CacheOk(instances, cache, cursor)
      ensures past.mixed || SameAmounts(instances, sv, cpu, mem)
    {
      hide Base, CacheOk, Fits, SameAmounts;
      if !past.mixed { PlacedSame(View(), sv, h, cpu, mem); }
      PlaceKeeps(View(), past, sv, h, cpu, mem);
      var id := Id(sv, next);
      next := next + 1;
      instances := instances[id := NewInstance(h, cpu, mem)];
      byHost := byHost[h := On(byHost, h) + [id]];
      past := past.(ever := past.ever + {sv});
    }

    /** The instances of a service: is there one, and the active ones by name. */
    method GetInstancesForService(sv: string) returns (found: bool, active: seq<Id>)
      ensures found <==> InstancesOf(instances, sv) != {}
      ensures IsSorted(active, ActiveOf(instances, sv), IdName)
    {
      hide IsSorted;
      var all, running: set<Id> := {}, {};
      var todo := instances.Keys;
      while todo != {}
        invariant todo <= instances.Keys
        invariant all == set id | id in instances && id !in todo && id.service == sv
        invariant running == set id | id in instances && id !in todo && id.service == sv && !instances[id].draining
      {
        var id :| id in todo;
        todo := todo - {id};
        if id.service == sv {
          all := all + {id};
          if !instances[id].draining { running := running + {id}; }
        }
      }
      assert all == InstancesOf(instances, sv) && running == ActiveOf(instances, sv);
      active := SortByName(running, IdName);
      found := all != {};
    }

    /** Adds instances one by one until one cannot be placed; then the cache is left as it was. */
    method ScaleUp(sv: string, template: Id, count: nat) returns (ok: bool)
      requires Valid() && IsActive(instances, template) && template.service == sv
      modifies this
      ensures Valid() && past == old(past) && wheel == old(wheel)
      ensures Adds(old(View()), sv, old(instances)[template].cpu, old(instances)[template].mem, count, View().(cache := old(cache), cursor := old(cursor)), ok)
      ensures if ok then Lists(instances, cache) else cache == old(cache) && cursor == old(cursor)
    {
      hide Base, CacheOk, RoutableOk, Lists, Adds, PickedFor, Room, Placed, SameAmounts;
      var cpu, mem := instances[template].cpu, instances[template].mem;
      TemplateOk(View(), past, template);
      ghost var first := View();
      var i := 0;
      while i < count
        invariant i <= count && Base(View(), past) && CacheOk(instances, cache, cursor)
        invariant past == old(past) && wheel == old(wheel) && cache == first.cache && cursor == first.cursor
        invariant AddsOn(first, count, View(), count - i, sv, cpu, mem) && (past.mixed || SameAmounts(instances, sv, cpu, mem))
      {
        var h := PickHostForNewInstance(sv, cpu, mem);
        if h.None? {
          AddsNot(first, count, View(), count - i, sv, cpu, mem);
          return false;
        }
        PickedHasRoom(View(), sv, cpu, mem, h.value);
        AddOne(first, count, View(), count - i, sv, cpu, mem, h.value);
        AddInstance(sv, h.value, cpu, mem);
        assert past.ever == old(past).ever;
        i := i + 1;
      }
      AddsAll(first, count, View(), sv, cpu, mem);
      RebuildSortedInstanceCache();
      return true;
    }

    /** Marks all but the first `keep` of the active instances as draining. */
    method ScaleDown(sv: string, active: seq<Id>, keep: nat, deadline: int)
      requires Valid() && 1 <= keep < |active| && IsSorted(active, ActiveOf(instances, sv), IdName)
      modifies this
      ensures Valid() && past == old(past) && wheel == old(wheel) && Lists(instances, cache)
      ensures View().(cache := old(cache), cursor := old(cursor)) == Drained(old(View()), SetOf(active[keep..]), deadline)
      ensures ActiveOf(instances, sv) == SetOf(active[..keep])
      ensures forall i :: keep <= i < |active| ==> active[i] in instances && instances[active[i]].draining && instances[active[i]].deadline == deadline
    {
      hide Base, CacheOk, RoutableOk, Lists, IsSorted, Drained, ActiveOf;
      ghost var before := View();
      DrainNone(before, deadline);
      DrainsAll(before, past, sv, active, keep, deadline);
      var i := keep;
      assert active[keep..i] == [];
      while i < |active|
        invariant keep <= i <= |active| && past == old(past) && wheel == old(wheel)
        invariant View() == Drained(before, SetOf(active[keep..i]), deadline)
      {
        DrainOne(before, active[keep..i], active[i], deadline);
        assert active[keep..i] + [active[i]] == active[keep..i + 1];
        instances := instances[active[i] := instances[active[i]].(draining := true, deadline := deadline)];
        i := i + 1;
      }
      assert active[keep..i] == active[keep..];
      RebuildSortedInstanceCache();
    }

    /** A call that reports success leaves exactly `newReplicas` active instances, and a failed
        one has at most added some, unless the start of the manager had failed. */
    method ScaleServiceWithOptions(sv: string, newReplicas: int, deadline: int) returns (ok: bool)
      requires Valid()
      modifies this
      ensures Valid() && past == old(past) && hosts == old(hosts) && OthersKept(old(instances), instances, sv)
      ensures if newReplicas < 1 || InstancesOf(old(instances), sv) == {} then !ok && View() == old(View())
        else Scales(old(View()), sv, newReplicas, deadline, View().(cache := old(cache), cursor := old(cursor)), ok)
      ensures ok && !past.startFailed ==> |ActiveOf(instances, sv)| == newReplicas
      ensures !ok && !past.startFailed ==> Grew(old(instances), instances, sv)
    {
      hide Sound, Grew, OthersKept, Lists, IsSorted, Adds, AddedTo, Drained, Scales, InstancesOf;
      UnchangedGrew(View(), sv);
      if newReplicas < 1 { return false; }
      var found, active := GetInstancesForService(sv);
      if !found { return false; }
      SomeActive(View(), past, sv, active, deadline);
      ghost var before := View();
      if newReplicas > |active| {
        ok := ScaleUp(sv, active[0], newReplicas - |active|);
        ScaledUp(before, past, sv, active, newReplicas, deadline, View().(cache := before.cache, cursor := before.cursor), ok);
      } else if newReplicas < |active| {
        ScaleDown(sv, active, newReplicas, deadline);
        ScaledDown(before, sv, active, newReplicas, deadline, View().(cache := before.cache, cursor := before.cursor));
        ok := true;
      } else {
        ok := true;
      }
    }

    // --- Draining instances -------------------------------------------------------

    method RemoveInstance(id: Id)
      requires id in instances
      modifies this`instances, this`byHost
      ensures View() == Removed(old(View()), id)
    {
      var h := instances[id].host;
      instances := instances - {id};
      if h in byHost {
        var ids, out := byHost[h], [];
        for i := 0 to |ids|
          invariant out == Without(ids[..i], id)
        {
          assert ids[..i + 1][..i] == ids[..i];
          if ids[i] != id { out := out + [ids[i]]; }
        }
        assert ids[..|ids|] == ids;
        byHost := byHost[h := out];
      }
    }

    /** Removes exactly the draining instances that are idle or past their deadline, and
        reports exactly the requests queued at those that were not idle. */
    method ProcessDrainingInstances(simTime: int) returns (dropped: seq<string>)
      requires Valid()
      modifies this
      ensures Valid() && past == old(past) && hosts == old(hosts) && instances == Remaining(old(instances), simTime)
      ensures forall id :: id in old(instances) ==>
        var i := old(instances)[id];
        if i.draining && ((i.active == 0 && i.queue == []) || (i.deadline != 0 && simTime >= i.deadline)) then id !in instances
        else id in instances && instances[id] == i
      ensures forall q :: q in dropped <==> q != "" && exists id :: id in old(instances) && Evicted(old(instances)[id], simTime) && q in old(instances)[id].queue
    {
      hide Sound, Gone, Removed, Remaining, IsEvictedQueue, TimedOut;
      ghost var start := View();
      var removeIds, evictIds := {}, {};
      var todo := instances.Keys;
      while todo != {}
        invariant todo <= instances.Keys && View() == old(View()) && past == old(past)
        invariant forall id :: id in evictIds <==> id in instances && id !in todo && Evicted(instances[id], simTime)
        invariant forall id :: id in removeIds <==> id in instances && id !in todo && instances[id].draining && Idle(instances[id])
      {
        var id :| id in todo;
        todo := todo - {id};
        if instances[id].draining {
          if Idle(instances[id]) {
            removeIds := removeIds + {id};
          } else if TimedOut(instances[id], simTime) {
            evictIds := evictIds + {id};
          }
        }
      }
      dropped := [];
      NoneGone(start, past);
      var evict, remove := evictIds, removeIds;
      assert evictIds - evict == {};
      while evict != {}
        invariant past == old(past) && evict <= evictIds && Gone(start, past, View(), evictIds - evict)
        invariant forall q :: q in dropped <==> IsEvictedQueue(start.instances, evictIds - evict, q)
      {
        var id :| id in evict;
        ghost var done := evictIds - evict;
        evict := evict - {id};
        assert evictIds - evict == done + {id};
        EvictOne(start.instances, done, id);
        GoneOne(start, past, View(), done, id);
        dropped := dropped + NonEmpty(instances[id].queue);
        RemoveInstance(id);
      }
      assert evictIds - evict == evictIds && evictIds + (removeIds - remove) == evictIds;
      while remove != {}
        invariant past == old(past) && remove <= removeIds && Gone(start, past, View(), evictIds + (removeIds - remove))
      {
        var id :| id in remove;
        ghost var done := evictIds + (removeIds - remove);
        remove := remove - {id};
        assert evictIds + (removeIds - remove) == done + {id};
        GoneOne(start, past, View(), done, id);
        RemoveInstance(id);
      }
      AllGone(start, past, View(), evictIds + (removeIds - remove), simTime);
      RemainingAre(start.instances, simTime);
      EvictedQueues(start.instances, evictIds, simTime);
      if removeIds + evictIds != {} { RebuildSortedInstanceCache(); }
    }

    // --- Hosts --------------------------------------------------------------------

    /** Adds hosts like an existing one until there are `target`. */
    method ScaleOutHosts(target: int) returns (ok: bool)
      requires Valid()
      modifies this`hosts
      ensures Valid() && (ok <==> target <= |old(hosts)| || old(hosts) != map[])
      ensures ok ==> |hosts| == if target <= |old(hosts)| then |old(hosts)| else target
      ensures !ok ==> hosts == old(hosts)
      ensures forall h :: h in old(hosts) ==> h in hosts && hosts[h] == old(hosts)[h]
      ensures forall h :: h in hosts && h !in old(hosts) ==> h.Auto? && exists g :: g in old(hosts) && SameSize(hosts[h], old(hosts)[g])
    {
      hide Sound;
      if target <= |hosts| { return true; }
      if |hosts| == 0 { return false; }
      var t :| t in hosts.Keys;
      var template := Host(hosts[t].cores, hosts[t].memGB, "");
      HostSizes(View(), past, t);
      var nextIndex: nat := |hosts| + 1;
      while |hosts| < target
        invariant |hosts| <= target && Valid()
        invariant forall h :: h in old(hosts) ==> h in hosts && hosts[h] == old(hosts)[h]
        invariant forall h :: h in hosts && h !in old(hosts) ==> h.Auto? && SameSize(hosts[h], old(hosts)[t])
        decreases target - |hosts|, |AutosFrom(hosts.Keys, nextIndex)|
      {
        var id := Auto(nextIndex);
        ghost var before := AutosFrom(hosts.Keys, nextIndex);
        nextIndex := nextIndex + 1;
        if id in hosts {
          assert AutosFrom(hosts.Keys, nextIndex) == before - {id};
          continue;
        }
        AddHostKeeps(View(), past, id, template);
        hosts := hosts[id := template];
      }
      return true;
    }

    method IncreaseHostCapacity(cpuDelta: int, memDelta: int)
      requires Valid()
      modifies this`hosts
      ensures Valid() && hosts.Keys == old(hosts).Keys
      ensures forall h :: h in hosts ==>
        && hosts[h].cores == old(hosts)[h].cores + (if cpuDelta > 0 then cpuDelta else 0)
        && hosts[h].memGB == old(hosts)[h].memGB + (if memDelta > 0 then memDelta else 0)
        && hosts[h].zone == old(hosts)[h].zone
    {
      hide Sound, Enlarged;
      ghost var before := View();
      EnlargedBy(hosts, cpuDelta, memDelta);
      if cpuDelta <= 0 && memDelta <= 0 {
        EnlargedNot(hosts, cpuDelta, memDelta);
        return;
      }
      EnlargeKeeps(before, past, cpuDelta, memDelta);
      hosts := map h | h in hosts :: Enlarged(hosts[h], cpuDelta, memDelta);
    }

    /** Shrinks all hosts if and only if what they have reserved fits the new sizes. */
    method DecreaseHostCapacity(cpuDelta: int, memDelta: int) returns (ok: bool)
      requires Valid()
      modifies this`hosts
      ensures Valid()
      ensures ok <==> (cpuDelta >= 0 && memDelta >= 0) || AllFit(old(View()), cpuDelta, memDelta)
      ensures hosts == if ok then ShrunkHosts(old(hosts), cpuDelta, memDelta) else old(hosts)
      ensures ok ==> hosts.Keys == old(hosts).Keys && forall h :: h in hosts ==> SmallerBy(old(hosts)[h], hosts[h], cpuDelta, memDelta)
      ensures !ok ==> exists h :: h in hosts && TooSmall(View(), h, cpuDelta, memDelta)
    {
      hide Sound, Fits, Checked, Shrunk, SmallerBy, TooSmall;
      ghost var before := View();
      ShrunkBy(before, cpuDelta, memDelta);
      if cpuDelta >= 0 && memDelta >= 0 {
        ShrunkNot(hosts, cpuDelta, memDelta);
        return true;
      }
      var todo := hosts.Keys;
      while todo != {}
        invariant todo <= hosts.Keys && View() == before
        invariant forall h :: h in before.hosts && h !in todo ==> FitsChecked(before, h, cpuDelta, memDelta)
      {
        var h :| h in todo;
        todo := todo - {h};
        var cpu, mem := HostLoad(h);
        if !Fits(Checked(hosts[h], cpuDelta, memDelta), cpu, mem) { return false; }
      }
      ShrinkKeeps(before, past, cpuDelta, memDelta);
      hosts := map h | h in hosts :: Shrunk(hosts[h], cpuDelta, memDelta);
      return true;
    }

    /** Removes empty hosts, added ones first and the latest of them first, down to `target`;
        changes nothing if there are too few empty ones. */
    method ScaleInHosts(target: int) returns (ok: bool)
      requires Valid()
      modifies this`hosts, this`byHost
      ensures Valid()
      ensures !ok ==> View() == old(View())
      ensures ok ==> |hosts| == if target >= |old(hosts)| || |old(hosts)| <= 1 then |old(hosts)| else if target < 1 then 1 else target
      ensures forall h :: h in hosts ==> h in old(hosts) && hosts[h] == old(hosts)[h]
      ensures forall h :: h in old(hosts) && h !in hosts ==> On(old(byHost), h) == []
      ensures forall h, g :: h in old(hosts) && h !in hosts && g in hosts && On(old(byHost), g) == [] ==> !GoesBefore(g, h)
    {
      hide Sound, Thinned, GoesBefore, On;
      if target >= |hosts| { return true; }
      var goal := if target < 1 then 1 else target;
      if |hosts| <= 1 { return true; }
      var empty := set h | h in hosts.Keys && On(byHost, h) == [];
      var toRemove := |hosts| - goal;
      if |empty| < toRemove { return false; }
      ghost var before := View();
      NotThinned(before, past, empty);
      while |hosts| > goal
        invariant |hosts| >= goal && |empty| >= |hosts| - goal && Thinned(before, past, View(), empty)
      {
        FirstToGo(empty);
        var h :| h in empty && forall g :: g in empty ==> !GoesBefore(g, h);
        ThinOne(before, past, View(), empty, h);
        hosts := hosts - {h};
        byHost := byHost - {h};
        empty := empty - {h};
      }
      ThinnedMeans(before, past, View(), empty);
      return true;
    }

    // --- Resizing a service -------------------------------------------------------

    method ResizedLoad(h: HostId, sv: string, cpu: real, mem: real) returns (totalCpu: real, totalMem: real)
      ensures var m := ResizedAll(instances, sv, cpu, mem);
        totalCpu == CpuOf(m, On(byHost, h)) && totalMem == MemOf(m, On(byHost, h))
    {
      totalCpu, totalMem := 0.0, 0.0;
      var ids := On(byHost, h);
      ghost var m := ResizedAll(instances, sv, cpu, mem);
      for i := 0 to |ids|
        invariant totalCpu == CpuOf(m, ids[..i]) && totalMem == MemOf(m, ids[..i])
      {
        SumsWith(m, ids[..i], ids[i]);
        assert ids[..i + 1] == ids[..i] + [ids[i]];
        if ids[i] in instances {
          var inst := instances[ids[i]];
          if ids[i].service == sv {
            if cpu > 0.0 { inst := inst.(cpu := cpu); }
            if mem > 0.0 { inst := inst.(mem := mem); }
          }
          totalCpu := totalCpu + inst.cpu;
          totalMem := totalMem + inst.mem;
        }
      }
      assert ids[..|ids|] == ids;
    }

    /** Resizes all instances of a service if and only if no busy instance is cut and every
        host still fits; changes nothing otherwise. */
    method UpdateServiceResourcesWithHeadroom(sv: string, cpu: real, mem: real, headroomMB: real) returns (ok: bool)
      requires Valid()
      modifies this`instances
      ensures Valid()
      ensures ok ==> HaveAmounts(old(instances), instances, sv, cpu, mem)
      ensures ok ==> cpu >= 0.0 && mem >= 0.0 && exists id :: id in old(instances) && id.service == sv
      ensures ok ==> forall id :: id in old(instances) && id.service == sv ==> NothingLost(old(instances)[id], instances[id], Headroom(headroomMB))
      ensures ok ==> forall h :: h in hosts ==> WithinHost(hosts[h], CpuOf(instances, On(byHost, h)), MemOf(instances, On(byHost, h)))
      ensures !ok ==> instances == old(instances)
      ensures !ok ==> forall got :: HaveAmounts(instances, got, sv, cpu, mem) ==>
        || cpu < 0.0 || mem < 0.0 || (forall id :: id in instances ==> id.service != sv)
        || (exists id :: id in instances && id.service == sv && !NothingLost(instances[id], got[id], Headroom(headroomMB)))
        || (exists h :: h in hosts && !WithinHost(hosts[h], CpuOf(got, On(byHost, h)), MemOf(got, On(byHost, h))))
    {
      hide Sound, HostOk, Cuts, ResizedAll, NothingLost, WithinHost, HaveAmounts, CpuOf, MemOf;
      ghost var before := View();
      forall got | HaveAmounts(instances, got, sv, cpu, mem) {
        ResizeExactly(before, past, sv, cpu, mem, Headroom(headroomMB), got);
      }
      AmountsGiven(instances, sv, cpu, mem);
      if cpu < 0.0 || mem < 0.0 { return false; }
      var headroom := Headroom(headroomMB);
      var found, todo := false, instances.Keys;
      while todo != {}
        invariant todo <= instances.Keys && View() == before
        invariant found <==> exists id :: id in InstancesOf(before.instances, sv) && id !in todo
        invariant forall id :: id in before.instances && id !in todo && id.service == sv ==> !Cuts(before.instances[id], cpu, mem, headroom)
      {
        var id :| id in todo;
        todo := todo - {id};
        if id.service == sv {
          found := true;
          if Cuts(instances[id], cpu, mem, headroom) { return false; }
        }
      }
      if !found { return false; }
      var hostsLeft := hosts.Keys;
      while hostsLeft != {}
        invariant hostsLeft <= hosts.Keys && View() == before
        invariant forall h :: h in before.hosts && h !in hostsLeft ==> StillFits(before, h, sv, cpu, mem)
      {
        var h :| h in hostsLeft;
        hostsLeft := hostsLeft - {h};
        var totalCpu, totalMem := ResizedLoad(h, sv, cpu, mem);
        FitsMeans(before, past, h, sv, cpu, mem);
        if On(byHost, h) == [] { continue; }
        if hosts[h].cores > 0 && totalCpu > hosts[h].cores as real + CPU_EPS { return false; }
        if hosts[h].memGB > 0 && totalMem > hosts[h].memGB as real * 1024.0 + MEM_EPS { return false; }
      }
      ResizeSound(before, past, sv, cpu, mem);
      instances := ResizedAll(instances, sv, cpu, mem);
      return true;
    }

    // --- Routing ------------------------------------------------------------------

    /** Round robin over the cached instances: the cursor is always an index. */
    method SelectInstanceForService(sv: string) returns (r: Option<Id>)
      requires Valid()
      modifies this`cursor
      ensures Valid() && (r.Some? <==> sv in cache)
      ensures r.Some? ==> r.value == cache[sv][old(At(cursor, sv))] && IsActive(instances, r.value) && r.value.service == sv
      ensures r.Some? ==> cursor == old(cursor)[sv := (old(At(cursor, sv)) + 1) % |cache[sv]|]
      ensures r.None? ==> cursor == old(cursor)
    {
      hide Base, RoutableOk;
      if sv !in cache { return None; }
      var idx := At(cursor, sv);
      CursorMoves(instances, cache, cursor, sv, (idx + 1) % |cache[sv]|);
      ghost var before := View();
      cursor := cursor[sv := (idx + 1) % |cache[sv]|];
      SameBase(before, past, View());
      return Some(cache[sv][idx]);
    }

    method ApplyLocalityPreference(sv: string, zone: Option<string>) returns (r: seq<Id>)
      requires sv in cache
      ensures r == Eligible(View(), sv, zone)
      ensures forall id :: id in r ==> id in cache[sv]
      ensures zone.Some? && (exists id :: id in cache[sv] && IsIn(instances, hosts, id, zone.value)) ==>
        forall id :: id in r <==> id in cache[sv] && IsIn(instances, hosts, id, zone.value)
      ensures zone.None? || (forall id :: id in cache[sv] ==> !IsIn(instances, hosts, id, zone.value)) ==> r == cache[sv]
    {
      EligibleIn(View(), sv, zone);
      var all := cache[sv];
      if zone.None? { return all; }
      var preferred := [];
      for i := 0 to |all|
        invariant preferred == Nearby(View(), all[..i], zone.value)
      {
        assert all[..i + 1][..i] == all[..i];
        if all[i] in instances && instances[all[i]].host in hosts && hosts[instances[all[i]].host].zone == zone.value {
          preferred := preferred + [all[i]];
        }
      }
      assert all[..|all|] == all;
      return if |preferred| > 0 then preferred else all;
    }

    method SelectRoundRobin(sv: string, among: seq<Id>) returns (r: Id)
      requires Valid() && sv in cache && 0 < |among| <= |cache[sv]|
      modifies this`cursor
      ensures Valid() && r == among[Standing(old(At(cursor, sv)), |among|)]
      ensures cursor == CursorAfter(old(cursor), sv, |among|)
    {
      hide Base, RoutableOk;
      var idx := At(cursor, sv);
      if idx >= |among| { idx := 0; }
      r := among[idx];
      CursorMoves(instances, cache, cursor, sv, (idx + 1) % |among|);
      ghost var before := View();
      cursor := cursor[sv := (idx + 1) % |among|];
      SameBase(before, past, View());
    }

    /** The weighted wheel, or round robin when no weight is positive. */
    method SelectWeighted(sv: string, among: seq<Id>, weights: map<Id, real>) returns (r: Id)
      requires Valid() && sv in cache && 0 < |among| <= |cache[sv]|
      modifies this`cursor, this`wheel
      ensures Valid() && r in among && Chooses(among, Weighted(weights), old(At(cursor, sv)), old(At(wheel, sv)), r)
      ensures wheel == WheelAfter(old(wheel), sv, Total(WheelOf(among, weights)))
      ensures cursor == if InTurn(among, Weighted(weights)) then CursorAfter(old(cursor), sv, |among|) else old(cursor)
    {
      hide Sound, Chooses, Total, WheelOf;
      ghost var rr, turn := At(cursor, sv), At(wheel, sv);
      var slots := WheelOf(among, weights);
      var total := Total(slots);
      if total == 0 {
        ChosenInTurn(among, Weighted(weights), rr, turn);
        r := SelectRoundRobin(sv, among);
        return;
      }
      var at := At(wheel, sv) % total;
      wheel := wheel[sv := (at + 1) % total];
      var i := TurnWheel(slots, at);
      ChosenByWheel(among, weights, rr, turn, i);
      r := among[i];
    }

    /** Whatever the strategy, the instance chosen is an active one of the service, and one
        in the preferred zone if there is any. */
    method SelectInstanceForRequest(sv: string, zone: Option<string>, strategy: Strategy) returns (r: Option<Id>)
      requires Valid()
      modifies this`cursor, this`wheel
      ensures Valid() && (r.None? <==> sv !in cache || strategy.Unsupported?)
      ensures r.Some? ==> r.value in cache[sv] && IsActive(instances, r.value) && r.value.service == sv
      ensures r.Some? ==> r.value in Eligible(old(View()), sv, zone) && Chooses(Eligible(old(View()), sv, zone), strategy, old(At(cursor, sv)), old(At(wheel, sv)), r.value)
      ensures r.None? ==> cursor == old(cursor)
      ensures r.Some? ==> var among := Eligible(old(View()), sv, zone);
        among != [] && cursor == if InTurn(among, strategy) then CursorAfter(old(cursor), sv, |among|) else old(cursor)
      ensures r.Some? && strategy.Weighted? ==> wheel == WheelAfter(old(wheel), sv, Total(WheelOf(Eligible(old(View()), sv, zone), strategy.weights)))
      ensures r.None? || !strategy.Weighted? ==> wheel == old(wheel)
    {
      hide Base, RoutableOk, InZone, Chooses, Eligible;
      if sv !in cache { return None; }
      CacheFacts(View(), sv);
      var among := ApplyLocalityPreference(sv, zone);
      ghost var rr, turn := At(cursor, sv), At(wheel, sv);
      match strategy {
        case RoundRobin =>
          var id := SelectRoundRobin(sv, among);
          ChosenInTurn(among, strategy, rr, turn);
          return Some(id);
        case Random(draw) =>
          ChosenAt(among, strategy, rr, turn, draw);
          return Some(among[draw % |among|]);
        case Least(load) =>
          var i := LeastLoaded(among, load);
          ChosenLeast(among, load, rr, turn, i);
          return Some(among[i]);
        case Weighted(weights) =>
          var id := SelectWeighted(sv, among, weights);
          return Some(id);
        case Sticky(hash) =>
          if hash.None? {
            var id := SelectRoundRobin(sv, among);
            ChosenInTurn(among, strategy, rr, turn);
            return Some(id);
          }
          ChosenAt(among, strategy, rr, turn, hash.value);
          return Some(among[hash.value % |among|]);
        case Unsupported => return None;
      }
    }

    // --- Start --------------------------------------------------------------------

    /** Does the placement of the service allow the host? */
    method Allows(c: ServiceConfig, h: HostId) returns (ok: bool)
      requires h in hosts
      ensures ok <==> Allowed(View(), c, h)
    {
      if |c.requiredZones| > 0 && hosts[h].zone !in c.requiredZones { return false; }
      if |c.antiAffinity| > 0 {
        var ids := On(byHost, h);
        for i := 0 to |ids|
          invariant forall k :: 0 <= k < i && ids[k] in instances ==> ids[k].service !in c.antiAffinity
        {
          if ids[i] in instances && ids[i].service in c.antiAffinity { return false; }
        }
      }
      return true;
    }

    /** Places one replica on the first host, by name and round from its number, that allows
        and takes it. */
    method PlaceReplica(c: ServiceConfig, replica: nat) returns (r: Option<HostId>)
      requires Base(View(), past) && (IsNegative(c) ==> past.negative)
      requires past.mixed || SameAmounts(instances, c.id, CpuFor(c), MemFor(c))
      modifies this`instances, this`byHost, this`next, this`past
      ensures Base(View(), past)
      ensures r.None? ==> View() == old(View()) && past == old(past) && Stuck(View(), c)
      ensures r.Some? ==> PutOn(old(View()), c, replica, r.value) && View() == PlacedReplica(old(View()), c, r.value)
      ensures r.Some? ==> past == old(past).(ever := old(past).ever + {c.id})
    {
      hide Base, Allowed, IsSorted, Room, SameAmounts;
      var order := SortByName(hosts.Keys, HostName);
      SortedHosts(order, hosts);
      if |order| == 0 { return None; }
      var start := replica % |order|;
      var j := 0;
      while j < |order|
        invariant j <= |order| && View() == old(View()) && past == old(past)
        invariant forall i :: 0 <= i < j ==> !Accepts(View(), c, Turn(order, start, i))
      {
        var h := Turn(order, start, j);
        assert h in order;
        var allowed := Allows(c, h);
        var cpu, mem := HostLoad(h);
        RoomMeans(View(), h, CpuFor(c), MemFor(c));
        if allowed && Fits(hosts[h], cpu + CpuFor(c), mem + MemFor(c)) {
          Put(View(), c, replica, order, j);
          AddInstance(c.id, h, CpuFor(c), MemFor(c));
          return Some(h);
        }
        j := j + 1;
      }
      forall h | h in hosts ensures !Accepts(View(), c, h) {
        AllTaken(order, start, h);
      }
      return None;
    }

    /** Success gives every service its replicas.  After a failure the instances placed so
        far stay, but the instance counter is still zero and nothing is cached. */
    method InitializeFromScenario(hostConfigs: seq<HostConfig>, services: seq<ServiceConfig>) returns (ok: bool)
      requires Valid() && View() == EmptyState(map[])
      requires forall c :: c in hostConfigs ==> c.cores >= 1
      modifies this
      ensures Valid() && past.startFailed == !ok && past.negative == AnyNegative(services) && past.mixed == AnyMixed(services)
      ensures hosts == HostsOf(hostConfigs) && (hosts == map[] ==> !ok && View() == EmptyState(map[]))
      ensures hosts != map[] ==> StartLeaves(services, hosts, View(), ok)
      ensures ok ==> Lists(instances, cache) && forall sv :: |ActiveOf(instances, sv)| == Wanted(services, sv)
    {
      hide Base, Placing, Starts, Lists, ActiveOf, Wanted, HostsOf, PlacedReplica, PutOn, Stuck, IsNegative, AnyMixed, SameAmounts;
      AddHosts(hostConfigs);
      HostsOfSizes(hostConfigs);
      PlacingFirst(services, hosts);
      past := Past(false, AnyNegative(services), AnyMixed(services), {});
      ghost var first := View();
      if |hosts| == 0 {
        NoHosts(past.negative, past.mixed);
        past := past.(startFailed := true);
        return false;
      }
      var k := 0;
      while k < |services|
        invariant k <= |services| && Placing(services, first, k, 0, View(), past)
      {
        var replica := 0;
        while replica < services[k].replicas
          invariant 0 <= replica <= (if services[k].replicas < 0 then 0 else services[k].replicas)
          invariant Placing(services, first, k, replica, View(), past)
        {
          PlacingMeans(services, first, k, replica, View(), past);
          ghost var before, was := View(), past;
          var placed := PlaceReplica(services[k], replica);
          if placed.None? {
            PlacingFails(services, first, k, replica, before, was);
            next := 0;  // the counter is kept in a local variable until everything is placed
            past := past.(startFailed := true);
            return false;
          }
          PlacingReplica(services, first, k, replica, before, was, placed.value);
          replica := replica + 1;
        }
        PlacingService(services, first, k, replica, View(), past);
        k := k + 1;
      }
      PlacingMeans(services, first, k, 0, View(), past);
      PlacingDone(services, first, View(), past);
      RebuildSortedInstanceCache();
      return true;
    }

    method AddHosts(hostConfigs: seq<HostConfig>)
      requires hosts == map[]
      modifies this`hosts
      ensures hosts == HostsOf(hostConfigs)
    {
      for i := 0 to |hostConfigs|
        invariant hosts == HostsOf(hostConfigs[..i])
      {
        var c := hostConfigs[i];
        assert hostConfigs[..i + 1][..i] == hostConfigs[..i];
        hosts := hosts[c.id := Host(c.cores, if c.memGB <= 0 then DEFAULT_HOST_MEM else c.memGB, c.zone)];
      }
      assert hostConfigs[..|hostConfigs|] == hostConfigs;
    }

    // --- Load ---------------------------------------------------------------------

    /** Request handlers change what an instance has in progress, queued and in use. */
    method SetLoad(id: Id, active: nat, queue: seq<string>, activeMem: real)
      requires Valid() && id in instances
      modifies this`instances
      ensures Valid() && instances == old(instances)[id := old(instances)[id].(active := active, queue := queue, activeMem := activeMem)]
    {
      hide Sound;
      LoadKeeps(View(), past, id, active, queue, activeMem);
      instances := instances[id := instances[id].(active := active, queue := queue, activeMem := activeMem)];
    }
  }
}
