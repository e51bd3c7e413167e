/** The ranking of candidates: feasibility first, then violation and efficiency up to a tolerance. */
module BeamScore {
  const SCORE_EPS := 0.000000001

  datatype Score = Score(feasible: bool, violation: real, efficiency: real)

  datatype Rated = Rated(score: Score, hash: nat)

  function Abs(x: real): real { if x < 0.0 then -x else x }

  /** CompareBatchScores: is `a` better than `b`? */
  predicate Better(a: Rated, b: Rated) {
    if a.score.feasible != b.score.feasible then a.score.feasible
    else if Abs(a.score.violation - b.score.violation) > SCORE_EPS then a.score.violation < b.score.violation
    else if Abs(a.score.efficiency - b.score.efficiency) > SCORE_EPS then a.score.efficiency < b.score.efficiency
    else a.hash < b.hash
  }

  /** The scores the ranking is made for. */
  predicate Sound(s: Score) {
    s.violation >= 0.0 && (s.feasible <==> s.violation <= SCORE_EPS)
  }

  // --- The score ------------------------------------------------------------------

  /** A service objective; one whose bound is not positive does not count. */
  datatype Limit = AtMost(bound: real) | AtLeast(bound: real)

  datatype Term = Term(limit: Limit, value: real, weight: real)

  function Larger(a: real, b: real): real { if a < b then b else a }

  /** By which part of the bound the objective is missed. */
  function Missed(limit: Limit, value: real): (r: real)
    ensures r >= 0.0
  {
    if limit.bound <= 0.0 then 0.0
    else
      match limit
      case AtMost(bound) => Larger(0.0, value / bound - 1.0)
      case AtLeast(bound) => Larger(0.0, bound / Larger(value, SCORE_EPS) - 1.0)
  }

  function Violation(terms: seq<Term>): real {
    if terms == [] then 0.0
    else
      var last := terms[|terms| - 1];
      Violation(terms[..|terms| - 1]) + last.weight * Missed(last.limit, last.value)
  }

  /** ComputeBatchScore, with the efficiency as it comes out. */
  method ComputeBatchScore(terms: seq<Term>, efficiency: real) returns (s: Score)
    ensures s == Scored(terms, efficiency)
  {
    var violation := 0.0;
    for i := 0 to |terms|
      invariant violation == Violation(terms[..i])
    {
      assert terms[..i + 1][..i] == terms[..i];
      violation := violation + terms[i].weight * Missed(terms[i].limit, terms[i].value);
    }
    assert terms[..|terms|] == terms;
    s := Score(violation <= SCORE_EPS, violation, efficiency);
  }

  function Scored(terms: seq<Term>, efficiency: real): Score {
    Score(Violation(terms) <= SCORE_EPS, Violation(terms), efficiency)
  }

  lemma Product(w: real, x: real)
    requires x >= 0.0
    ensures w >= 0.0 ==> w * x >= 0.0
    ensures w < 0.0 && x > 0.0 ==> w * x < 0.0
  {
  }

  /** Can the objective be missed at all? */
  predicate Missable(limit: Limit) {
    match limit
    case AtMost(bound) => bound > 0.0
    case AtLeast(bound) => bound > SCORE_EPS
  }

  /** The weights that matter are those of objectives that can be missed. */
  ghost predicate WellWeighed(terms: seq<Term>) {
    forall i :: 0 <= i < |terms| && Missable(terms[i].limit) ==> terms[i].weight >= 0.0
  }

  lemma {:induction false} ScoredSound(terms: seq<Term>, efficiency: real)
    requires WellWeighed(terms)
    ensures Sound(Scored(terms, efficiency))
  {
    if terms != [] {
      var n := |terms| - 1;
      ScoredSound(terms[..n], efficiency);
      if Missable(terms[n].limit) {
        Product(terms[n].weight, Missed(terms[n].limit, terms[n].value));
      } else {
        NeverMissed(terms[n].limit, terms[n].value);
      }
    }
  }

  /** An objective that is not set, or asks for next to nothing, is never missed. */
  lemma NeverMissed(limit: Limit, value: real)
    requires !Missable(limit)
    ensures Missed(limit, value) == 0.0
  {
    if limit.AtLeast? && limit.bound > 0.0 {
      Ratio(limit.bound, Larger(value, SCORE_EPS));
    }
  }

  /** What the penalty measures: for an upper bound the excess over it, as a part of the bound,
      and for a lower bound the shortfall, as a part of the value. */
  lemma MissedExactly(limit: Limit, value: real)
    ensures limit.bound <= 0.0 ==> Missed(limit, value) == 0.0
    ensures limit.bound > 0.0 && limit.AtMost? ==> Missed(limit, value) * limit.bound == if value > limit.bound then value - limit.bound else 0.0
    ensures limit.bound > 0.0 && limit.AtLeast? ==>
      var v := Larger(value, SCORE_EPS);
      Missed(limit, value) * v == if v < limit.bound then limit.bound - v else 0.0
  {
    if limit.bound > 0.0 {
      var a, b := if limit.AtMost? then value else limit.bound, if limit.AtMost? then limit.bound else Larger(value, SCORE_EPS);
      Part(a, b);
      Ratio(a, b);
    }
  }

  lemma Part(a: real, b: real)
    requires b > 0.0
    ensures (a / b - 1.0) * b == a - b
  {
  }

  /** Is the objective met?  One that is not set always is. */
  predicate Met(limit: Limit, value: real) {
    match limit
    case AtMost(bound) => bound > 0.0 ==> value <= bound
    case AtLeast(bound) => bound > SCORE_EPS ==> value >= bound
  }

  lemma MissedOrMet(limit: Limit, value: real)
    ensures Missed(limit, value) == 0.0 <==> Met(limit, value)
  {
    MissedExactly(limit, value);
    if !Missable(limit) { NeverMissed(limit, value); }
  }

  /** With positive weights the violation is zero if and only if every objective is met. */
  lemma {:induction false} NoViolationExactly(terms: seq<Term>)
    requires forall i :: 0 <= i < |terms| ==> terms[i].weight > 0.0
    ensures Violation(terms) >= 0.0
    ensures Violation(terms) == 0.0 <==> forall i :: 0 <= i < |terms| ==> Met(terms[i].limit, terms[i].value)
  {
    if terms != [] {
      var n := |terms| - 1;
      var init, last := terms[..n], terms[n];
      NoViolationExactly(init);
      MissedOrMet(last.limit, last.value);
      PositiveProduct(last.weight, Missed(last.limit, last.value));
      hide Missed, Met;
      assert (forall i :: 0 <= i < |terms| ==> Met(terms[i].limit, terms[i].value)) <==>
        (forall i :: 0 <= i < |init| ==> Met(init[i].limit, init[i].value)) && Met(last.limit, last.value) by {
        assert forall i :: 0 <= i < n ==> init[i] == terms[i];
      }
    }
  }

  lemma PositiveProduct(w: real, x: real)
    requires w > 0.0 && x >= 0.0
    ensures w * x >= 0.0 && (w * x == 0.0 <==> x == 0.0)
  {
  }

  /** The violation is the weighted sum: an objective more adds its weight times what it is
      missed by. */
  lemma {:induction false} ViolationSum(a: seq<Term>, b: seq<Term>)
    ensures Violation(a + b) == Violation(a) + Violation(b)
  {
    if b == [] {
      assert a + b == a;
    } else {
      var n := |b| - 1;
      ViolationSum(a, b[..n]);
      assert (a + b)[..|a + b| - 1] == a + b[..n];
    }
  }

  function TermsOf(limits: seq<Limit>, weights: seq<real>, values: seq<real>): (terms: seq<Term>)
    requires |limits| == |weights| == |values|
    ensures |terms| == |limits| && forall i :: 0 <= i < |terms| ==> terms[i] == Term(limits[i], values[i], weights[i])
  {
    seq(|limits|, i requires 0 <= i < |limits| => Term(limits[i], values[i], weights[i]))
  }

  ghost predicate SoundFor(limits: seq<Limit>, weights: seq<real>, values: seq<real>)
    requires |limits| == |weights|
  {
    |values| == |limits| ==> Sound(Scored(TermsOf(limits, weights, values), 0.0))
  }

  /** Scores are sound whatever is measured if and only if no objective that can be missed has
      a negative weight. */
  lemma SoundExactly(limits: seq<Limit>, weights: seq<real>)
    requires |limits| == |weights|
    ensures (forall values :: SoundFor(limits, weights, values)) <==> (forall i :: 0 <= i < |weights| && Missable(limits[i]) ==> weights[i] >= 0.0)
  {
    if forall i :: 0 <= i < |weights| && Missable(limits[i]) ==> weights[i] >= 0.0 {
      forall values ensures SoundFor(limits, weights, values) {
        if |values| == |limits| { ScoredSound(TermsOf(limits, weights, values), 0.0); }
      }
    } else {
      var k :| 0 <= k < |weights| && Missable(limits[k]) && weights[k] < 0.0;
      var values := seq(|limits|, i requires 0 <= i < |limits| => if i != k then limits[i].bound else if limits[i].AtMost? then 2.0 * limits[i].bound else 0.0);
      OneMissed(TermsOf(limits, weights, values), k);
      assert !SoundFor(limits, weights, values);
    }
  }

  lemma {:induction false} OneMissed(terms: seq<Term>, k: nat)
    requires forall i :: 0 <= i < |terms| && i != k ==> terms[i].value == terms[i].limit.bound
    requires k < |terms| ==> Missable(terms[k].limit) && terms[k].weight < 0.0 && terms[k].value == if terms[k].limit.AtMost? then 2.0 * terms[k].limit.bound else 0.0
    ensures if k < |terms| then Violation(terms) < 0.0 else Violation(terms) == 0.0
  {
    if terms != [] {
      var n := |terms| - 1;
      OneMissed(terms[..n], k);
      if n == k {
        MissedTwice(terms[k].limit, terms[k].value);
        Product(terms[k].weight, Missed(terms[k].limit, terms[k].value));
      } else {
        NotMissed(terms[n].limit);
      }
    }
  }

  lemma MissedTwice(limit: Limit, value: real)
    requires Missable(limit) && value == if limit.AtMost? then 2.0 * limit.bound else 0.0
    ensures Missed(limit, value) > 0.0
  {
    Ratio(limit.bound, if limit.AtMost? then limit.bound else SCORE_EPS);
    if limit.AtMost? { assert value / limit.bound == 2.0; }
  }

  lemma NotMissed(limit: Limit)
    ensures Missed(limit, limit.bound) == 0.0
  {
    if Missable(limit) {
      Ratio(limit.bound, limit.bound);
    } else {
      NeverMissed(limit, limit.bound);
    }
  }

  lemma Ratio(a: real, b: real)
    requires b > 0.0
    ensures a > b ==> a / b > 1.0
    ensures a <= b ==> a / b <= 1.0
    ensures a == b ==> a / b == 1.0
  {
  }

  /** Two candidates are never ranked both ways, and with different hashes they are ranked. */
  lemma Decides(a: Rated, b: Rated)
    ensures !(Better(a, b) && Better(b, a))
    ensures a.hash != b.hash ==> Better(a, b) || Better(b, a)
  {
  }

  lemma NotTransitive()
    ensures exists a, b, c :: Better(a, b) && Better(b, c) && Better(c, a) && Sound(a.score) && Sound(b.score) && Sound(c.score)
  {
    var a := Rated(Score(true, 0.0, 2.0 * SCORE_EPS), 1);
    var b := Rated(Score(true, 0.0, SCORE_EPS), 2);
    var c := Rated(Score(true, 0.0, 0.0), 3);
    assert Better(a, b) && Better(b, c) && Better(c, a);
  }

  // --- The running best -----------------------------------------------------------

  /** The candidate kept when `all` are evaluated in order. */
  function Best(all: seq<Rated>): Rated
    requires all != []
  {
    var last := all[|all| - 1];
    if |all| == 1 then last
    else
      var b := Best(all[..|all| - 1]);
      if Better(last, b) then last else b
  }

  lemma {:induction false} BestIsOne(all: seq<Rated>)
    requires all != []
    ensures Best(all) in all
  {
    if |all| > 1 {
      BestIsOne(all[..|all| - 1]);
    }
  }

  ghost predicate AllSound(all: seq<Rated>) {
    forall i :: 0 <= i < |all| ==> Sound(all[i].score)
  }

  /** The kept candidate is feasible if any candidate is. */
  lemma {:induction false} FeasibleFirst(all: seq<Rated>, i: nat)
    requires i < |all| && all[i].score.feasible
    ensures Best(all).score.feasible
  {
    if |all| > 1 {
      var n := |all| - 1;
      if i < n {
        FeasibleFirst(all[..n], i);
      }
    }
  }

  /** Each comparison may give away one tolerance: among equally feasible candidates the
      violation of the kept one is within (n - 1) tolerances of the least, and among
      feasible ones so is its efficiency. */
  lemma {:induction false} Regret(all: seq<Rated>, i: nat)
    requires i < |all| && AllSound(all) && all[i].score.feasible == Best(all).score.feasible
    ensures Best(all).score.violation <= all[i].score.violation + (|all| - 1) as real * SCORE_EPS
    ensures all[i].score.feasible ==> Best(all).score.efficiency <= all[i].score.efficiency + (|all| - 1) as real * SCORE_EPS
  {
    var n := |all| - 1;
    if n > 0 {
      var init := all[..n];
      var kept := Best(init);
      BestIsOne(init);
      assert Sound(kept.score) && Sound(all[n].score);
      if i < n && kept.score.feasible == all[i].score.feasible {
        Regret(init, i);
      } else if i < n && all[i].score.feasible {
        FeasibleFirst(init, i);
      }
    }
  }

  /** The bound is attained: for every number of candidates some evaluation order keeps a
      candidate that is (n - 1) tolerances worse than the first. */
  lemma RegretAttained(n: nat)
    requires n > 0
    ensures exists all: seq<Rated> ::
      && |all| == n && AllSound(all) && (forall i :: 0 <= i < n ==> all[i].score.feasible)
      && (forall i, j :: 0 <= i < j < n ==> all[i].hash != all[j].hash)
      && Best(all).score.efficiency == all[0].score.efficiency + (n - 1) as real * SCORE_EPS
  {
    DriftKeepsLast(n, n);
    var all := Drift(n, n);
    assert |all| == n;
  }

  /** Efficiencies rise by one tolerance while hashes fall. */
  function Drift(n: nat, top: nat): (all: seq<Rated>)
    requires n <= top
    ensures |all| == n
    ensures forall i :: 0 <= i < n ==> all[i] == Rated(Score(true, 0.0, i as real * SCORE_EPS), top - i)
  {
    seq(n, i requires 0 <= i < n => Rated(Score(true, 0.0, i as real * SCORE_EPS), top - i))
  }

  lemma {:induction false} DriftKeepsLast(n: nat, top: nat)
    requires 0 < n <= top
    ensures Best(Drift(n, top)) == Drift(n, top)[n - 1]
  {
    if n > 1 {
      DriftKeepsLast(n - 1, top);
      assert Drift(n, top)[..n - 1] == Drift(n - 1, top);
      var step := (n - 1) as real * SCORE_EPS - (n - 2) as real * SCORE_EPS;
      assert step == SCORE_EPS;
    }
  }
}
