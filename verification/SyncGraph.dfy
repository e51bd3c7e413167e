/** The service graph: edges of a scenario, and the search for synchronous cycles. */
module SyncGraph {
  import opened Wrappers

  type Key = string

  datatype Edge = Edge(to: Key, async: bool)

  /** `endpoints` are the declared endpoints; a call may also name a path that is not declared. */
  datatype Graph = Graph(endpoints: set<Key>, edges: map<Key, seq<Edge>>)

  function EdgesFrom(g: Graph, k: Key): seq<Edge> {
    if k in g.edges then g.edges[k] else []
  }

  ghost predicate Calls(g: Graph, a: Key, b: Key) {
    Edge(b, false) in EdgesFrom(g, a)
  }

  /** A walk along synchronous edges. */
  ghost predicate IsPath(g: Graph, p: seq<Key>) {
    |p| > 0 && forall i :: 0 <= i < |p| - 1 ==> Calls(g, p[i], p[i + 1])
  }

  ghost predicate IsCycle(g: Graph, p: seq<Key>) {
    IsPath(g, p) && |p| > 1 && p[0] == p[|p| - 1]
  }

  ghost predicate Acyclic(g: Graph) {
    forall p :: !IsCycle(g, p)
  }

  ghost predicate Reaches(g: Graph, a: Key, b: Key) {
    exists p :: IsPath(g, p) && p[0] == a && p[|p| - 1] == b
  }

  ghost predicate OnNoCycle(g: Graph, k: Key) {
    forall p :: IsCycle(g, p) ==> p[0] != k
  }

  /** Every key the graph mentions. */
  ghost function Nodes(g: Graph): set<Key> {
    g.endpoints + g.edges.Keys + (set k, e | k in g.edges && e in g.edges[k] :: e.to)
  }

  lemma TargetIsNode(g: Graph, a: Key, i: nat)
    requires i < |EdgesFrom(g, a)|
    ensures EdgesFrom(g, a)[i].to in Nodes(g)
  {
    assert EdgesFrom(g, a)[i] in g.edges[a];
  }

  // --- Facts about walks ----------------------------------------------------------

  lemma ReachesItself(g: Graph, a: Key)
    ensures Reaches(g, a, a)
  {
    assert IsPath(g, [a]);
  }

  lemma ReachesOn(g: Graph, a: Key, b: Key, c: Key)
    requires Reaches(g, a, b) && Calls(g, b, c)
    ensures Reaches(g, a, c)
    ensures a == c ==> !Acyclic(g)
  {
    var p :| IsPath(g, p) && p[0] == a && p[|p| - 1] == b;
    var q := p + [c];
    assert IsPath(g, q) && q[0] == a && q[|q| - 1] == c;
    assert a == c ==> IsCycle(g, q);
  }

  lemma PartOfPath(g: Graph, p: seq<Key>, i: nat, j: nat)
    requires IsPath(g, p) && i < j <= |p|
    ensures IsPath(g, p[i..j])
  {
    forall n | 0 <= n < j - i - 1 ensures Calls(g, p[i..j][n], p[i..j][n + 1]) {
      assert Calls(g, p[i + n], p[i + n + 1]);
    }
  }

  /** A walk that starts in a set closed under calls stays in it. */
  lemma {:induction false} StaysIn(g: Graph, done: set<Key>, p: seq<Key>, i: nat)
    requires forall a, b :: a in done && Calls(g, a, b) ==> b in done
    requires IsPath(g, p) && i < |p| && p[0] in done
    ensures p[i] in done
  {
    if i > 0 {
      StaysIn(g, done, p, i - 1);
      assert Calls(g, p[i - 1], p[i]);
    }
  }

  /** A key whose callees all lie in a closed set without the key is on no cycle. */
  lemma FinishesClean(g: Graph, done: set<Key>, k: Key)
    requires forall a, b :: a in done && Calls(g, a, b) ==> b in done
    requires k !in done && forall b :: Calls(g, k, b) ==> b in done
    ensures OnNoCycle(g, k)
  {
    forall p | IsCycle(g, p) ensures p[0] != k {
      if p[0] == k {
        assert Calls(g, p[0], p[1]);
        PartOfPath(g, p, 1, |p|);
        StaysIn(g, done, p[1..|p|], |p| - 2);
      }
    }
  }

  // --- Depth-first search ---------------------------------------------------------

  /** Finished keys call only finished keys and lie on no cycle. */
  ghost predicate Finished(g: Graph, done: set<Key>) {
    && (forall a, b :: a in done && Calls(g, a, b) ==> b in done)
    && (forall a :: a in done ==> OnNoCycle(g, a))
  }

  /** Every key on the stack leads to the key being searched. */
  ghost predicate Stacked(g: Graph, recStack: set<Key>, k: Key) {
    forall r :: r in recStack ==> Reaches(g, r, k)
  }

  lemma Finish(g: Graph, done: set<Key>, k: Key)
    requires Finished(g, done) && k !in done
    requires forall i :: 0 <= i < |EdgesFrom(g, k)| && !EdgesFrom(g, k)[i].async ==> EdgesFrom(g, k)[i].to in done
    ensures Finished(g, done + {k})
  {
    forall b | Calls(g, k, b) ensures b in done {
      var i :| 0 <= i < |EdgesFrom(g, k)| && EdgesFrom(g, k)[i] == Edge(b, false);
    }
    FinishesClean(g, done, k);
  }

  lemma StackedOn(g: Graph, recStack: set<Key>, k: Key, b: Key)
    requires Stacked(g, recStack, k) && Calls(g, k, b)
    ensures Stacked(g, recStack + {b}, b)
    ensures b in recStack ==> !Acyclic(g)
  {
    ReachesItself(g, b);
    forall r | r in recStack ensures Reaches(g, r, b) && (r == b ==> !Acyclic(g)) {
      ReachesOn(g, r, k, b);
    }
  }

  /** The two maps of validateSyncAcyclic; a key is in a set when the map holds true for it. */
  class Search {
    const g: Graph
    var visited: set<Key>
    var recStack: set<Key>

    constructor (g: Graph)
      ensures this.g == g && visited == {} && recStack == {}
    {
      this.g, visited, recStack := g, {}, {};
    }

    /** Reports an error only if there is a cycle; otherwise `key` is finished and the
        stack is what it was. */
    method Dfs(key: Key) returns (cyclic: bool)
      requires key !in visited && key in Nodes(g)
      requires recStack <= visited <= Nodes(g)
      requires Finished(g, visited - recStack) && Stacked(g, recStack + {key}, key)
      modifies this
      ensures cyclic ==> !Acyclic(g)
      ensures old(visited) + {key} <= visited <= Nodes(g)
      ensures !cyclic ==> recStack == old(recStack) && Finished(g, visited - recStack)
      decreases Nodes(g) - visited
    {
      hide Finished, Stacked, Acyclic, Nodes;
      visited := visited + {key};
      recStack := recStack + {key};
      assert visited - recStack == old(visited) - old(recStack);
      var out := EdgesFrom(g, key);
      for i := 0 to |out|
        invariant old(visited) + {key} <= visited <= Nodes(g)
        invariant recStack == old(recStack) + {key}
        invariant Finished(g, visited - recStack)
        invariant forall j :: 0 <= j < i && !out[j].async ==> out[j].to in visited - recStack
      {
        if out[i].async { continue; }
        var to := out[i].to;
        TargetIsNode(g, key, i);
        assert out[i] == Edge(to, false);
        StackedOn(g, recStack, key, to);
        if to !in visited {
          var nested := Dfs(to);
          if nested { return true; }
        } else if to in recStack {
          return true;
        }
      }
      Finish(g, visited - recStack, key);
      assert visited - recStack + {key} == visited - old(recStack);
      recStack := recStack - {key};
      return false;
    }

    /** Nil exactly on graphs without a synchronous cycle. */
    method ValidateSyncAcyclic() returns (cyclic: bool)
      requires visited == {} && recStack == {} && g.edges.Keys <= g.endpoints
      modifies this
      ensures cyclic <==> !Acyclic(g)
    {
      var todo := g.endpoints;
      while todo != {}
        invariant todo <= g.endpoints && g.endpoints - todo <= visited <= Nodes(g) && recStack == {}
        invariant Finished(g, visited)
      {
        var key :| key in todo;
        todo := todo - {key};
        if key !in visited {
          ReachesItself(g, key);
          assert visited - recStack == visited;
          var found := Dfs(key);
          if found { return true; }
          assert visited - recStack == visited;
        }
      }
      AllFinished(g, visited);
      return false;
    }
  }

  lemma AllFinished(g: Graph, done: set<Key>)
    requires Finished(g, done) && g.edges.Keys <= g.endpoints <= done
    ensures Acyclic(g)
  {
    forall p ensures !IsCycle(g, p) {
      if IsPath(g, p) && |p| > 1 {
        assert Calls(g, p[0], p[1]);
        assert OnNoCycle(g, p[0]);
      }
    }
  }

  // --- Call depth -----------------------------------------------------------------

  lemma {:induction false} DistinctFit(p: seq<Key>, s: set<Key>)
    requires forall i :: 0 <= i < |p| ==> p[i] in s
    requires forall i, j :: 0 <= i < j < |p| ==> p[i] != p[j]
    ensures |p| <= |s|
  {
    if |p| > 0 {
      var n := |p| - 1;
      DistinctFit(p[..n], s - {p[n]});
    }
  }

  lemma PathInNodes(g: Graph, p: seq<Key>, i: nat)
    requires IsPath(g, p) && p[0] in Nodes(g) && i < |p|
    ensures p[i] in Nodes(g)
  {
    if i > 0 {
      assert Calls(g, p[i - 1], p[i]);
      var n :| 0 <= n < |EdgesFrom(g, p[i - 1])| && EdgesFrom(g, p[i - 1])[n] == Edge(p[i], false);
      TargetIsNode(g, p[i - 1], n);
    }
  }

  /** On an accepted graph no chain of synchronous calls is longer than the number of keys. */
  lemma CallDepth(g: Graph, p: seq<Key>)
    requires Acyclic(g) && IsPath(g, p) && p[0] in Nodes(g)
    ensures |p| <= |Nodes(g)|
  {
    forall i | 0 <= i < |p| ensures p[i] in Nodes(g) {
      PathInNodes(g, p, i);
    }
    forall i, j | 0 <= i < j < |p| ensures p[i] != p[j] {
      PartOfPath(g, p, i, j + 1);
      assert !IsCycle(g, p[i..j + 1]);
    }
    DistinctFit(p, Nodes(g));
  }

  // --- Building the graph ---------------------------------------------------------

  /** A downstream call; `target` is None when the target string does not parse. */
  datatype Call = Call(target: Option<(string, string)>, async: bool)

  datatype Endpoint = Endpoint(service: string, path: string, downstream: seq<Call>)

  datatype Scenario = Scenario(services: set<string>, endpoints: seq<Endpoint>)

  function EndpointKey(service: string, path: string): Key {
    service + ":" + path
  }

  function KeyOf(e: Endpoint): Key { EndpointKey(e.service, e.path) }

  predicate TargetOk(services: set<string>, c: Call) {
    c.target.Some? && c.target.value.0 in services
  }

  ghost predicate TargetsOk(sc: Scenario) {
    forall i, k :: 0 <= i < |sc.endpoints| && 0 <= k < |sc.endpoints[i].downstream| ==> TargetOk(sc.services, sc.endpoints[i].downstream[k])
  }

  /** The scenario declares a synchronous call from `a` to `b`. */
  ghost predicate Declares(sc: Scenario, a: Key, b: Key) {
    exists i :: 0 <= i < |sc.endpoints| && EndpointDeclares(sc.endpoints[i], a, b)
  }

  ghost predicate EndpointDeclares(e: Endpoint, a: Key, b: Key) {
    KeyOf(e) == a && exists k :: 0 <= k < |e.downstream| && CallDeclares(e.downstream[k], b)
  }

  ghost predicate CallDeclares(c: Call, b: Key) {
    c.target.Some? && !c.async && EndpointKey(c.target.value.0, c.target.value.1) == b
  }

  ghost predicate DeclaredCycle(sc: Scenario, p: seq<Key>) {
    && |p| > 1 && p[0] == p[|p| - 1]
    && forall i :: 0 <= i < |p| - 1 ==> Declares(sc, p[i], p[i + 1])
  }

  /** The edges of the first `n` endpoints and of the first `k` calls of the next one. */
  ghost predicate Built(sc: Scenario, n: nat, k: nat, g: Graph)
    requires n <= |sc.endpoints|
  {
    forall a, b :: Calls(g, a, b) <==>
      || (exists i :: 0 <= i < n && EndpointDeclares(sc.endpoints[i], a, b))
      || (n < |sc.endpoints| && a == KeyOf(sc.endpoints[n]) && exists c :: 0 <= c < k && c < |sc.endpoints[n].downstream| && CallDeclares(sc.endpoints[n].downstream[c], b))
  }

  lemma NextEndpoint(sc: Scenario, n: nat, g: Graph)
    requires n < |sc.endpoints| && Built(sc, n, |sc.endpoints[n].downstream|, g)
    ensures Built(sc, n + 1, 0, g)
  {
    forall a, b ensures Calls(g, a, b) <==> exists i :: 0 <= i < n + 1 && EndpointDeclares(sc.endpoints[i], a, b) {
      if Calls(g, a, b) && !(exists i :: 0 <= i < n && EndpointDeclares(sc.endpoints[i], a, b)) {
        assert EndpointDeclares(sc.endpoints[n], a, b);
      }
    }
  }

  function AddEdge(g: Graph, a: Key, e: Edge): Graph {
    g.(edges := g.edges[a := EdgesFrom(g, a) + [e]])
  }

  lemma NextCall(sc: Scenario, n: nat, k: nat, g: Graph)
    requires n < |sc.endpoints| && k < |sc.endpoints[n].downstream| && Built(sc, n, k, g)
    requires TargetOk(sc.services, sc.endpoints[n].downstream[k])
    ensures var c := sc.endpoints[n].downstream[k];
      Built(sc, n, k + 1, AddEdge(g, KeyOf(sc.endpoints[n]), Edge(EndpointKey(c.target.value.0, c.target.value.1), c.async)))
  {
    var key, c := KeyOf(sc.endpoints[n]), sc.endpoints[n].downstream[k];
    var h := AddEdge(g, key, Edge(EndpointKey(c.target.value.0, c.target.value.1), c.async));
    forall a, b ensures Calls(h, a, b) <==> Calls(g, a, b) || (a == key && CallDeclares(c, b)) {
    }
  }

  method NewGraph(sc: Scenario) returns (r: Option<Graph>)
    ensures r.Some? <==> TargetsOk(sc) && forall p :: !DeclaredCycle(sc, p)
    ensures r.Some? ==> Acyclic(r.value) && (forall a, b :: Calls(r.value, a, b) <==> Declares(sc, a, b))
    ensures r.Some? ==> r.value.endpoints == set e | e in sc.endpoints :: KeyOf(e)
  {
    hide Built, Acyclic;
    var g := Graph({}, map[]);
    for n := 0 to |sc.endpoints|
      invariant g.endpoints == (set e | e in sc.endpoints[..n] :: KeyOf(e)) && g.edges == map[]
    {
      assert sc.endpoints[..n + 1] == sc.endpoints[..n] + [sc.endpoints[n]];
      g := g.(endpoints := g.endpoints + {KeyOf(sc.endpoints[n])});
    }
    assert sc.endpoints[..|sc.endpoints|] == sc.endpoints;
    EmptyBuilt(sc, g);
    for n := 0 to |sc.endpoints|
      invariant g.endpoints == (set e | e in sc.endpoints :: KeyOf(e)) && g.edges.Keys <= g.endpoints
      invariant Built(sc, n, 0, g)
      invariant forall i, k :: 0 <= i < n && 0 <= k < |sc.endpoints[i].downstream| ==> TargetOk(sc.services, sc.endpoints[i].downstream[k])
    {
      var ep := sc.endpoints[n];
      for k := 0 to |ep.downstream|
        invariant g.endpoints == (set e | e in sc.endpoints :: KeyOf(e)) && g.edges.Keys <= g.endpoints
        invariant Built(sc, n, k, g)
        invariant forall j :: 0 <= j < k ==> TargetOk(sc.services, ep.downstream[j])
      {
        var c := ep.downstream[k];
        if !TargetOk(sc.services, c) { return None; }
        NextCall(sc, n, k, g);
        g := AddEdge(g, KeyOf(ep), Edge(EndpointKey(c.target.value.0, c.target.value.1), c.async));
      }
      NextEndpoint(sc, n, g);
    }
    BuiltAll(sc, g);
    var search := new Search(g);
    var cyclic := search.ValidateSyncAcyclic();
    r := if cyclic then None else Some(g);
  }

  lemma EmptyBuilt(sc: Scenario, g: Graph)
    requires g.edges == map[]
    ensures Built(sc, 0, 0, g)
  {
  }

  /** The cycles of the finished graph are those that the scenario declares. */
  lemma BuiltAll(sc: Scenario, g: Graph)
    requires Built(sc, |sc.endpoints|, 0, g)
    ensures forall a, b :: Calls(g, a, b) <==> Declares(sc, a, b)
    ensures Acyclic(g) <==> forall p :: !DeclaredCycle(sc, p)
  {
    assert forall a, b :: Calls(g, a, b) <==> Declares(sc, a, b);
    forall p ensures IsCycle(g, p) <==> DeclaredCycle(sc, p) {
    }
  }
}
