/**
  The budgeted beam search over scenarios.

  Scenarios, their hash, their evaluation and the single moves from one scenario to the
  next are parameters.  The ranking inside a layer is any permutation: the comparison it
  sorts by is not transitive, so nothing more can be said about its result.
*/
module BeamSearch {
  import opened Wrappers
  import opened BeamScore

  /** `cost` is the number of simulations an evaluation took. */
  datatype Evaluation = Failure | Measured(score: Score, cost: nat)

  datatype Candidate<S> = Candidate(scenario: S, score: Score, hash: nat, cost: nat)

  datatype Problem<!S> = Problem(
    hash: S -> nat,
    evaluate: S -> Evaluation,
    moves: (S, bool) -> seq<S>,
    admissible: S -> bool,
    arrange: (S, seq<S>) -> seq<S>,
    rank: seq<Candidate<S>> -> seq<Candidate<S>>)

  datatype Spec = Spec(
    reevaluations: int,
    maxDepth: int,
    beamWidth: int,
    infeasibleBeamWidth: int,
    maxNeighbors: int,
    refine: bool,
    maxEvaluations: int)

  ghost predicate Permutes<S(!new)>(p: Problem<S>) {
    && (forall s, moves :: multiset(p.arrange(s, moves)) == multiset(moves))
    && (forall s :: multiset(p.rank(s)) == multiset(s))
  }

  function AtLeastOne(x: int): nat { if x < 1 then 1 else x }

  function BeamWidth(spec: Spec): nat { if spec.beamWidth < 1 then 8 else spec.beamWidth }

  function InfeasibleWidth(spec: Spec): nat { if spec.infeasibleBeamWidth < 1 then 4 else spec.infeasibleBeamWidth }

  /** MaxNeighborsPerState of the specification or of its refinement. */
  function NeighborLimit(spec: Spec, refine: bool): int {
    if !refine then spec.maxNeighbors
    else
      var half := if spec.maxNeighbors > 8 then spec.maxNeighbors / 2 else spec.maxNeighbors;
      if half < 8 then 8 else half
  }

  function NeighborCap(spec: Spec, refine: bool): nat {
    if NeighborLimit(spec, refine) <= 0 then 24 else NeighborLimit(spec, refine)
  }

  function Admitted<S(!new)>(p: Problem<S>, moves: seq<S>): (r: seq<S>)
    ensures forall s :: s in r <==> s in moves && p.admissible(s)
  {
    if moves == [] then []
    else Admitted(p, moves[..|moves| - 1]) + if p.admissible(moves[|moves| - 1]) then [moves[|moves| - 1]] else []
  }

  function Capped<T>(s: seq<T>, n: nat): (r: seq<T>)
    ensures |r| <= n && (forall x :: x in r ==> x in s) && (|s| <= n ==> r == s)
  {
    if |s| > n then s[..n] else s
  }

  /** GenerateBatchNeighbors: the admissible moves, arranged and capped. */
  function Neighbors<S(!new)>(p: Problem<S>, spec: Spec, refine: bool, s: S): (r: seq<S>)
    ensures |r| <= NeighborCap(spec, refine)
  {
    Capped(p.arrange(s, Admitted(p, p.moves(s, refine))), NeighborCap(spec, refine))
  }

  lemma NeighborsAdmissible<S(!new)>(p: Problem<S>, spec: Spec, refine: bool, s: S, t: S)
    requires Permutes(p) && t in Neighbors(p, spec, refine, s)
    ensures p.admissible(t) && t in p.moves(s, refine)
  {
    var a := Admitted(p, p.moves(s, refine));
    assert t in p.arrange(s, a) && multiset(p.arrange(s, a)) == multiset(a);
    assert t in multiset(p.arrange(s, a));
    assert t in multiset(a);
  }

  /** The candidates of a layer that are, or are not, feasible. */
  function Only<S>(layer: seq<Candidate<S>>, feasible: bool): (r: seq<Candidate<S>>)
    ensures forall i :: 0 <= i < |r| ==> r[i] in layer && r[i].score.feasible == feasible
  {
    if layer == [] then []
    else
      var last := layer[|layer| - 1];
      Only(layer[..|layer| - 1], feasible) + if last.score.feasible == feasible then [last] else []
  }

  // --- What a search has evaluated ------------------------------------------------

  function Rate<S>(c: Candidate<S>): Rated { Rated(c.score, c.hash) }

  function Ratings<S>(all: seq<Candidate<S>>): (r: seq<Rated>)
    ensures |r| == |all| && forall i :: 0 <= i < |all| ==> r[i] == Rate(all[i])
  {
    seq(|all|, i requires 0 <= i < |all| => Rate(all[i]))
  }

  function Cost<S>(all: seq<Candidate<S>>): nat {
    if all == [] then 0 else Cost(all[..|all| - 1]) + all[|all| - 1].cost
  }

  /** Hashes are not repeated, and each candidate carries its own hash, score and cost. */
  ghost predicate Distinct<S>(p: Problem<S>, all: seq<Candidate<S>>) {
    && (forall i :: 0 <= i < |all| ==>
          all[i].hash == p.hash(all[i].scenario) && p.evaluate(all[i].scenario) == Measured(all[i].score, all[i].cost))
    && (forall i, j :: 0 <= i < j < |all| ==> all[i].hash != all[j].hash)
  }

  ghost predicate Grows<S(!new)>(p: Problem<S>, spec: Spec, all: seq<Candidate<S>>, i: nat)
    requires i < |all|
  {
    exists j, refine :: 0 <= j < i && all[i].scenario in Neighbors(p, spec, refine, all[j].scenario)
  }

  /** The baseline comes first and everything else is a neighbour of something before it. */
  ghost predicate Grown<S(!new)>(p: Problem<S>, spec: Spec, base: S, all: seq<Candidate<S>>) {
    && (all != [] ==> all[0].scenario == base)
    && (forall i :: 0 < i < |all| ==> Grows(p, spec, all, i))
  }

  /** Evaluations stop before the budget would be exceeded by an evaluation of the usual cost. */
  ghost predicate InBudget<S>(spec: Spec, all: seq<Candidate<S>>) {
    (forall i :: 0 <= i < |all| ==> all[i].cost <= AtLeastOne(spec.reevaluations)) && spec.maxEvaluations > 0 ==>
      Cost(all) <= spec.maxEvaluations
  }

  ghost predicate History<S(!new)>(p: Problem<S>, spec: Spec, base: S, all: seq<Candidate<S>>) {
    Distinct(p, all) && Grown(p, spec, base, all) && InBudget(spec, all)
  }

  /** The state of the search agrees with its history. */
  ghost predicate Tracks<S>(all: seq<Candidate<S>>, visited: set<nat>, evalCount: nat, best: Option<Candidate<S>>) {
    && (forall h :: h in visited <==> exists i :: 0 <= i < |all| && all[i].hash == h)
    && evalCount == Cost(all)
    && (best.None? <==> all == [])
    && (best.Some? ==> best.value in all && Rate(best.value) == Best(Ratings(all)))
  }

  /** May `sc` be the next scenario to evaluate? */
  ghost predicate Next<S(!new)>(p: Problem<S>, spec: Spec, base: S, all: seq<Candidate<S>>, sc: S) {
    if all == [] then sc == base
    else exists j, refine :: 0 <= j < |all| && sc in Neighbors(p, spec, refine, all[j].scenario)
  }

  lemma Extends<S(!new)>(p: Problem<S>, spec: Spec, base: S, all: seq<Candidate<S>>, c: Candidate<S>)
    requires History(p, spec, base, all) && Next(p, spec, base, all, c.scenario)
    requires c.hash == p.hash(c.scenario) && p.evaluate(c.scenario) == Measured(c.score, c.cost)
    requires forall i :: 0 <= i < |all| ==> all[i].hash != c.hash
    requires spec.maxEvaluations > 0 ==> Cost(all) + AtLeastOne(spec.reevaluations) <= spec.maxEvaluations
    ensures History(p, spec, base, all + [c])
  {
    hide Neighbors;
    var t := all + [c];
    assert t[..|all|] == all;
    forall i | 0 < i < |t| ensures Grows(p, spec, t, i) {
      if i < |all| {
        assert Grows(p, spec, all, i);
        var j, refine :| 0 <= j < i && all[i].scenario in Neighbors(p, spec, refine, all[j].scenario);
        assert t[i].scenario in Neighbors(p, spec, refine, t[j].scenario);
      } else {
        var j, refine :| 0 <= j < |all| && c.scenario in Neighbors(p, spec, refine, all[j].scenario);
        assert t[i].scenario in Neighbors(p, spec, refine, t[j].scenario);
      }
    }
  }

  lemma Tracked<S>(all: seq<Candidate<S>>, visited: set<nat>, evalCount: nat, best: Option<Candidate<S>>, c: Candidate<S>)
    requires Tracks(all, visited, evalCount, best)
    ensures Tracks(all + [c], visited + {c.hash}, evalCount + c.cost,
                   Some(if best.None? || Better(Rate(c), Rate(best.value)) then c else best.value))
  {
    hide Better;
    var t := all + [c];
    assert t[..|all|] == all;
    assert Ratings(t)[..|all|] == Ratings(all);
    forall h ensures h in visited + {c.hash} <==> exists i :: 0 <= i < |t| && t[i].hash == h {
      if h in visited {
        var i :| 0 <= i < |all| && all[i].hash == h;
        assert t[i].hash == h;
      }
      if h == c.hash {
        assert t[|all|].hash == h;
      }
    }
    assert c in t && forall x :: x in all ==> x in t;
  }

  // --- The search -----------------------------------------------------------------

  datatype Attempt<S> = Fresh(candidate: Candidate<S>) | Seen | Exhausted | Broken

  datatype Stop = Continue | OutOfBudget | Error

  datatype Outcome<S> =
    | Failed
    | Done(best: Candidate<S>, evaluations: nat, refinementEvaluations: nat, exhausted: bool)

  /** How many candidates can have been evaluated when `depth` layers are expanded. */
  function LayerBound(spec: Spec, depth: nat): nat {
    if depth == 0 then 1
    else if depth == 1 then 1 + NeighborCap(spec, false)
    else LayerBound(spec, depth - 1) + (BeamWidth(spec) + InfeasibleWidth(spec)) * NeighborCap(spec, false)
  }

  lemma {:induction false} LayerBoundClosed(spec: Spec, depth: nat)
    requires depth > 0
    ensures LayerBound(spec, depth) == 1 + NeighborCap(spec, false) * (1 + (depth - 1) * (BeamWidth(spec) + InfeasibleWidth(spec)))
  {
    if depth > 1 {
      LayerBoundClosed(spec, depth - 1);
      OneLayerMore(NeighborCap(spec, false), depth - 1, BeamWidth(spec) + InfeasibleWidth(spec));
    }
  }

  lemma OneLayerMore(n: nat, d: nat, b: nat)
    requires d > 0
    ensures n * (1 + d * b) == n * (1 + (d - 1) * b) + b * n
  {
    assert d * b == (d - 1) * b + b;
    assert n * (1 + (d - 1) * b + b) == n * (1 + (d - 1) * b) + n * b;
  }

  lemma RefinementCap(spec: Spec)
    ensures var half := NeighborCap(spec, false) / 2;
      NeighborCap(spec, true) <= if half < 8 then 8 else half
  {
  }

  /** Every neighbour of `s` has been evaluated. */
  ghost predicate Expanded<S(!new)>(p: Problem<S>, spec: Spec, visited: set<nat>, s: S) {
    forall t :: t in Neighbors(p, spec, false, s) ==> p.hash(t) in visited
  }

  ghost predicate AllExpanded<S(!new)>(p: Problem<S>, spec: Spec, visited: set<nat>, from: seq<Candidate<S>>) {
    forall c :: c in from ==> Expanded(p, spec, visited, c.scenario)
  }

  lemma ExpandedStays<S(!new)>(p: Problem<S>, spec: Spec, visited: set<nat>, more: set<nat>, s: S)
    requires Expanded(p, spec, visited, s) && visited <= more
    ensures Expanded(p, spec, more, s)
  {
  }

  lemma OneMoreExpanded<S(!new)>(p: Problem<S>, spec: Spec, visited: set<nat>, more: set<nat>, from: seq<Candidate<S>>, i: nat)
    requires i < |from| && AllExpanded(p, spec, visited, from[..i]) && visited <= more && Expanded(p, spec, more, from[i].scenario)
    ensures AllExpanded(p, spec, more, from[..i + 1])
  {
    hide Expanded;
    forall c | c in from[..i + 1] ensures Expanded(p, spec, more, c.scenario) {
      if c in from[..i] {
        ExpandedStays(p, spec, visited, more, c.scenario);
      }
    }
  }

  class Search<S(==, !new)> {
    const p: Problem<S>
    const spec: Spec
    const base: S
    var visited: set<nat>
    var evalCount: nat
    var best: Option<Candidate<S>>
    ghost var evaluated: seq<Candidate<S>>

    ghost predicate Valid()
      reads this
    {
      Permutes(p) && History(p, spec, base, evaluated) && Tracks(evaluated, visited, evalCount, best)
    }

    predicate OverBudget()
      reads this
    {
      spec.maxEvaluations > 0 && evalCount + AtLeastOne(spec.reevaluations) > spec.maxEvaluations
    }

    constructor (p: Problem<S>, spec: Spec, base: S)
      requires Permutes(p)
      ensures Valid() && evaluated == [] && this.p == p && this.spec == spec && this.base == base
    {
      this.p, this.spec, this.base := p, spec, base;
      visited, evalCount, best, evaluated := {}, 0, None, [];
    }

    method TryEval(sc: S) returns (r: Attempt<S>)
      requires Valid() && Next(p, spec, base, evaluated, sc)
      modifies this
      ensures Valid() && old(visited) <= visited && old(evalCount) <= evalCount
      ensures r.Fresh? ==> evaluated == old(evaluated) + [r.candidate]
      ensures !r.Fresh? ==> evaluated == old(evaluated) && evalCount == old(evalCount)
      ensures r.Fresh? || r.Seen? ==> p.hash(sc) in visited
      ensures r.Seen? ==> old(evaluated) != []
      ensures r.Exhausted? ==> OverBudget()
    {
      hide History, Next, Tracks;
      var h := p.hash(sc);
      ghost var all := evaluated;
      Known(all, visited, evalCount, best, h);
      if h in visited { return Seen; }
      if OverBudget() { return Exhausted; }
      match p.evaluate(sc) {
        case Failure => return Broken;
        case Measured(score, cost) =>
          var c := Candidate(sc, score, h, cost);
          Extends(p, spec, base, all, c);
          Tracked(all, visited, evalCount, best, c);
          evalCount := evalCount + cost;
          visited := visited + {h};
          if best.None? || Better(Rate(c), Rate(best.value)) { best := Some(c); }
          evaluated := evaluated + [c];
          return Fresh(c);
      }
    }

    /** Evaluates the unseen neighbours of one candidate. */
    method ExpandOne(from: Candidate<S>, refine: bool) returns (layer: seq<Candidate<S>>, stop: Stop)
      requires Valid() && from in evaluated
      modifies this
      ensures Valid() && old(evaluated) <= evaluated && old(visited) <= visited && old(evalCount) <= evalCount
      ensures |evaluated| <= |old(evaluated)| + NeighborCap(spec, refine)
      ensures forall c :: c in layer ==> c in evaluated
      ensures stop.Continue? && !refine ==> Expanded(p, spec, visited, from.scenario)
      ensures stop.OutOfBudget? ==> OverBudget()
    {
      hide Valid, OverBudget, Next, Neighbors;
      layer := [];
      var neighbors := Neighbors(p, spec, refine, from.scenario);
      var k := 0;
      while k < |neighbors|
        invariant k <= |neighbors| && Valid() && old(evaluated) <= evaluated && old(visited) <= visited && old(evalCount) <= evalCount
        invariant |evaluated| <= |old(evaluated)| + k
        invariant forall c :: c in layer ==> c in evaluated
        invariant forall n :: 0 <= n < k ==> p.hash(neighbors[n]) in visited
      {
        Reached(p, spec, base, evaluated, from, refine, neighbors[k]);
        var r := TryEval(neighbors[k]);
        match r {
          case Fresh(c) => layer := layer + [c];
          case Seen =>
          case Exhausted => return layer, OutOfBudget;
          case Broken => return layer, Error;
        }
        k := k + 1;
      }
      return layer, Continue;
    }

    /** Evaluates the unseen neighbours of a layer. */
    method Expand(frontier: seq<Candidate<S>>) returns (layer: seq<Candidate<S>>, stop: Stop)
      requires Valid() && forall c :: c in frontier ==> c in evaluated
      modifies this
      ensures Valid() && old(evaluated) <= evaluated && old(visited) <= visited
      ensures |evaluated| <= |old(evaluated)| + |frontier| * NeighborCap(spec, false)
      ensures forall c :: c in layer ==> c in evaluated
      ensures stop.Continue? ==> AllExpanded(p, spec, visited, frontier)
      ensures stop.OutOfBudget? ==> OverBudget()
    {
      hide Valid, OverBudget, AllExpanded, Expanded;
      layer := [];
      ghost var cap := NeighborCap(spec, false);
      EmptyExpanded(p, spec, visited, frontier);
      var i := 0;
      while i < |frontier|
        invariant i <= |frontier| && Valid() && old(evaluated) <= evaluated && old(visited) <= visited
        invariant |evaluated| <= |old(evaluated)| + i * cap
        invariant forall c :: c in layer ==> c in evaluated
        invariant AllExpanded(p, spec, visited, frontier[..i])
      {
        ghost var before := visited;
        ProductStep(i, |frontier|, cap);
        assert frontier[i] in old(evaluated);
        var more;
        more, stop := ExpandOne(frontier[i], false);
        layer := layer + more;
        if !stop.Continue? { return layer, stop; }
        OneMoreExpanded(p, spec, before, visited, frontier, i);
        i := i + 1;
      }
      assert frontier[..i] == frontier;
      return layer, Continue;
    }

    /** The next frontier: the first feasible and then the first infeasible candidates, as ranked. */
    method Trim(layer: seq<Candidate<S>>) returns (frontier: seq<Candidate<S>>)
      requires Permutes(p)
      ensures frontier == Capped(p.rank(Only(layer, true)), BeamWidth(spec)) + Capped(p.rank(Only(layer, false)), InfeasibleWidth(spec))
      ensures |frontier| <= (if spec.beamWidth < 1 then 8 else spec.beamWidth) + (if spec.infeasibleBeamWidth < 1 then 4 else spec.infeasibleBeamWidth)
      ensures forall c :: c in frontier ==> c in layer
    {
      var feasible, infeasible := [], [];
      for i := 0 to |layer|
        invariant feasible == Only(layer[..i], true) && infeasible == Only(layer[..i], false)
      {
        assert layer[..i + 1][..i] == layer[..i];
        if layer[i].score.feasible { feasible := feasible + [layer[i]]; } else { infeasible := infeasible + [layer[i]]; }
      }
      assert layer[..|layer|] == layer;
      var f, g := p.rank(feasible), p.rank(infeasible);
      frontier := Capped(f, BeamWidth(spec)) + Capped(g, InfeasibleWidth(spec));
      forall c | c in frontier ensures c in layer {
        assert c in multiset(f) || c in multiset(g);
        assert c in multiset(feasible) || c in multiset(infeasible);
      }
    }

    /** The layers of the search, from the baseline on. */
    method Beam(first: Candidate<S>) returns (stop: Stop)
      requires Valid() && evaluated == [first] && first.scenario == base
      modifies this
      ensures Valid() && old(evaluated) <= evaluated
      ensures |evaluated| <= LayerBound(spec, AtLeastOne(spec.maxDepth))
      ensures stop.Continue? ==> Expanded(p, spec, visited, base)
      ensures stop.OutOfBudget? ==> OverBudget()
    {
      hide History, Tracks, OverBudget, LayerBound, Expanded;
      LayerBoundStarts(spec);
      var frontier, depth := [first], 0;
      var limit := AtLeastOne(spec.maxDepth);
      while depth < limit
        invariant depth <= limit && Valid() && old(evaluated) <= evaluated
        invariant |evaluated| <= LayerBound(spec, depth)
        invariant forall c :: c in frontier ==> c in evaluated
        invariant if depth == 0 then frontier == [first] else |frontier| <= BeamWidth(spec) + InfeasibleWidth(spec)
        invariant depth > 0 ==> Expanded(p, spec, visited, base)
      {
        ghost var before := visited;
        LayerBoundStep(spec, depth, |frontier|);
        LayerBoundGrows(spec, depth + 1, limit);
        var layer;
        layer, stop := Expand(frontier);
        if !stop.Continue? { return stop; }
        if depth == 0 {
          assert first in frontier;
        } else {
          ExpandedStays(p, spec, before, visited, base);
        }
        if |layer| == 0 { return Continue; }
        frontier := Trim(layer);
        depth := depth + 1;
      }
      return Continue;
    }

    method Run() returns (r: Outcome<S>)
      requires Valid() && evaluated == []
      modifies this
      ensures Valid()
      ensures |evaluated| <= LayerBound(spec, AtLeastOne(spec.maxDepth)) + NeighborCap(spec, true)
      ensures r.Done? ==> evaluated != [] && r.best in evaluated && Rate(r.best) == Best(Ratings(evaluated))
      ensures r.Done? ==> r.evaluations == Cost(evaluated)
      ensures r.Done? ==> if r.exhausted then OverBudget() else Expanded(p, spec, visited, base)
      ensures r.Done? && r.exhausted ==>
        spec.maxEvaluations > 0 && r.evaluations + (if spec.reevaluations < 1 then 1 else spec.reevaluations) > spec.maxEvaluations
    {
      hide History, Tracks, Permutes, LayerBound, Expanded;
      LayerBoundStarts(spec);
      LayerBoundGrows(spec, 0, AtLeastOne(spec.maxDepth));
      var first := TryEval(base);
      if !first.Fresh? { return Failed; }
      BaseFirst(p, spec, base, evaluated);
      var stop := Beam(first.candidate);
      if stop.Error? { return Failed; }
      var exhausted := stop.OutOfBudget?;
      var beamEvalCount := evalCount;
      Kept(evaluated, visited, evalCount, best);
      if spec.refine {
        ghost var before := visited;
        var _, polish := ExpandOne(best.value, true);
        if polish.Error? { return Failed; }
        if !exhausted { ExpandedStays(p, spec, before, visited, base); }
        if polish.OutOfBudget? { exhausted := true; }
      }
      Kept(evaluated, visited, evalCount, best);
      r := Done(best.value, evalCount, evalCount - beamEvalCount, exhausted);
    }
  }

  lemma EmptyExpanded<S(!new)>(p: Problem<S>, spec: Spec, visited: set<nat>, from: seq<Candidate<S>>)
    ensures AllExpanded(p, spec, visited, from[..0])
  {
  }

  lemma ProductStep(i: nat, n: nat, cap: nat)
    requires i < n
    ensures (i + 1) * cap == i * cap + cap <= n * cap
  {
    assert n * cap == (i + 1) * cap + (n - i - 1) * cap;
  }

  lemma Known<S>(all: seq<Candidate<S>>, visited: set<nat>, evalCount: nat, best: Option<Candidate<S>>, h: nat)
    requires Tracks(all, visited, evalCount, best)
    ensures evalCount == Cost(all)
    ensures h in visited ==> all != []
    ensures h !in visited ==> forall i :: 0 <= i < |all| ==> all[i].hash != h
  {
  }

  lemma Kept<S>(all: seq<Candidate<S>>, visited: set<nat>, evalCount: nat, best: Option<Candidate<S>>)
    requires Tracks(all, visited, evalCount, best)
    ensures evalCount == Cost(all) && (best.None? <==> all == [])
    ensures best.Some? ==> best.value in all && Rate(best.value) == Best(Ratings(all))
  {
  }

  lemma Reached<S(!new)>(p: Problem<S>, spec: Spec, base: S, all: seq<Candidate<S>>, from: Candidate<S>, refine: bool, sc: S)
    requires from in all && sc in Neighbors(p, spec, refine, from.scenario)
    ensures Next(p, spec, base, all, sc)
  {
    hide Neighbors;
    var j :| 0 <= j < |all| && all[j] == from;
    assert sc in Neighbors(p, spec, refine, all[j].scenario);
  }

  lemma BaseFirst<S(!new)>(p: Problem<S>, spec: Spec, base: S, all: seq<Candidate<S>>)
    requires History(p, spec, base, all) && all != []
    ensures all[0].scenario == base
  {
  }

  lemma LayerBoundStarts(spec: Spec)
    ensures LayerBound(spec, 0) == 1
  {
  }

  lemma LayerBoundStep(spec: Spec, depth: nat, width: nat)
    requires if depth == 0 then width == 1 else width <= BeamWidth(spec) + InfeasibleWidth(spec)
    ensures LayerBound(spec, depth) + width * NeighborCap(spec, false) <= LayerBound(spec, depth + 1)
  {
    if depth > 0 {
      var b := BeamWidth(spec) + InfeasibleWidth(spec);
      assert width * NeighborCap(spec, false) <= b * NeighborCap(spec, false);
    }
  }

  lemma {:induction false} LayerBoundGrows(spec: Spec, a: nat, b: nat)
    requires a <= b
    ensures LayerBound(spec, a) <= LayerBound(spec, b)
    decreases b - a
  {
    if a < b {
      LayerBoundStep(spec, a, if a == 0 then 1 else 0);
      LayerBoundGrows(spec, a + 1, b);
    }
  }

  // --- What every search guarantees -----------------------------------------------

  /** A score computed without a negative weight for an objective that can be missed. */
  ghost predicate Weighed(s: Score) {
    exists terms: seq<Term>, efficiency: real :: WellWeighed(terms) && s == Scored(terms, efficiency)
  }

  lemma WeighedSound(s: Score)
    requires Weighed(s)
    ensures Sound(s)
  {
    var terms: seq<Term>, efficiency: real :| WellWeighed(terms) && s == Scored(terms, efficiency);
    ScoredSound(terms, efficiency);
  }

  /** The result is feasible if any evaluated candidate is, and its efficiency is within
      (n - 1) tolerances of every feasible candidate, n being the number evaluated. */
  lemma ResultQuality<S(!new)>(p: Problem<S>, all: seq<Candidate<S>>, best: Candidate<S>, i: nat)
    requires Distinct(p, all) && i < |all| && Rate(best) == Best(Ratings(all)) && all[i].score.feasible
    requires forall s :: p.evaluate(s).Measured? ==> Weighed(p.evaluate(s).score)
    ensures best.score.feasible
    ensures best.score.efficiency <= all[i].score.efficiency + (|all| - 1) as real * SCORE_EPS
  {
    var r := Ratings(all);
    forall n | 0 <= n < |r| ensures Sound(r[n].score) {
      assert p.evaluate(all[n].scenario).score == r[n].score;
      WeighedSound(r[n].score);
    }
    FeasibleFirst(r, i);
    Regret(r, i);
  }

  /** Every evaluated candidate but the baseline passes the static capacity and bounds checks. */
  lemma AllAdmissible<S(!new)>(p: Problem<S>, spec: Spec, base: S, all: seq<Candidate<S>>, i: nat)
    requires Permutes(p) && Grown(p, spec, base, all) && 0 < i < |all|
    ensures p.admissible(all[i].scenario)
  {
    hide Neighbors;
    assert Grows(p, spec, all, i);
    var j, refine :| 0 <= j < i && all[i].scenario in Neighbors(p, spec, refine, all[j].scenario);
    NeighborsAdmissible(p, spec, refine, all[j].scenario, all[i].scenario);
  }

  /** Whatever the single moves keep, such as a frozen workload, every candidate keeps. */
  lemma {:induction false} AllKeep<S(!new)>(p: Problem<S>, spec: Spec, base: S, all: seq<Candidate<S>>, keeps: S -> bool, i: nat)
    requires Permutes(p) && Grown(p, spec, base, all) && i < |all|
    requires keeps(base) && forall s, refine, t :: keeps(s) && t in p.moves(s, refine) ==> keeps(t)
    ensures keeps(all[i].scenario)
  {
    hide Neighbors;
    if i > 0 {
      assert Grows(p, spec, all, i);
      var j, refine :| 0 <= j < i && all[i].scenario in Neighbors(p, spec, refine, all[j].scenario);
      AllKeep(p, spec, base, all, keeps, j);
      NeighborsAdmissible(p, spec, refine, all[j].scenario, all[i].scenario);
    }
  }

  /** Evaluations of the usual cost never exceed a positive budget. */
  lemma BudgetKept<S(!new)>(p: Problem<S>, spec: Spec, base: S, all: seq<Candidate<S>>)
    requires History(p, spec, base, all) && spec.maxEvaluations > 0
    requires forall i :: 0 <= i < |all| ==> all[i].cost == if spec.reevaluations < 1 then 1 else spec.reevaluations
    ensures |all| * (if spec.reevaluations < 1 then 1 else spec.reevaluations) == Cost(all) <= spec.maxEvaluations
  {
    UniformCost(all, AtLeastOne(spec.reevaluations));
  }

  lemma {:induction false} UniformCost<S>(all: seq<Candidate<S>>, cost: nat)
    requires forall i :: 0 <= i < |all| ==> all[i].cost == cost
    ensures Cost(all) == |all| * cost
  {
    if all != [] {
      var n := |all| - 1;
      UniformCost(all[..n], cost);
      assert (n + 1) * cost == n * cost + cost;
    }
  }

  /** The number of evaluated candidates, for N neighbours, depth D and beams b and ib, is at
      most 1 + N * (1 + (D - 1) * (b + ib)) + max(8, N / 2); unset, these are 24, 1, 8 and 4. */
  lemma EvaluationBound(spec: Spec, evaluated: nat)
    requires evaluated <= LayerBound(spec, AtLeastOne(spec.maxDepth)) + NeighborCap(spec, true)
    ensures var n, d := if spec.maxNeighbors < 1 then 24 else spec.maxNeighbors, if spec.maxDepth < 1 then 1 else spec.maxDepth;
      var b, ib := if spec.beamWidth < 1 then 8 else spec.beamWidth, if spec.infeasibleBeamWidth < 1 then 4 else spec.infeasibleBeamWidth;
      evaluated <= 1 + n * (1 + (d - 1) * (b + ib)) + if n / 2 < 8 then 8 else n / 2
  {
    hide LayerBound;
    LayerBoundClosed(spec, AtLeastOne(spec.maxDepth));
    RefinementCap(spec);
  }
}
