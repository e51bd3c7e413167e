/**
  The bounded reservoir of recorded values.  A full reservoir overwrites the slot that the
  count of values, multiplied by a constant, gives modulo the size.  Counts are unbounded.
*/
module Reservoir {
  const MULTIPLIER: nat := 1_103_515_245

  function SlotOf(seen: nat, size: nat): (slot: nat)
    requires size > 0
    ensures slot < size
  {
    seen * MULTIPLIER % size
  }

  /** The reservoir after `value`, the `seen`-th one, was recorded. */
  function Recorded(reservoir: seq<real>, size: nat, seen: nat, value: real): (r: seq<real>)
    requires |reservoir| <= size
    ensures |r| <= size
  {
    if |reservoir| < size then reservoir + [value]
    else if size > 0 then reservoir[SlotOf(seen, size) := value]
    else reservoir
  }

  function RecordedAll(values: seq<real>, size: nat): (r: seq<real>)
    ensures |r| == if |values| < size then |values| else size
  {
    if values == [] then []
    else Recorded(RecordedAll(values[..|values| - 1], size), size, |values|, values[|values| - 1])
  }

  // --- Common divisors ------------------------------------------------------------

  ghost predicate Divides(d: nat, n: int) { exists k :: n == d * k }

  ghost predicate Coprime(a: nat, b: nat) {
    forall d: nat :: Divides(d, a) && Divides(d, b) ==> d == 1
  }

  lemma DividesSum(d: nat, a: int, b: int, x: int, y: int)
    requires Divides(d, a) && Divides(d, b)
    ensures Divides(d, a * x + b * y)
  {
    var i :| a == d * i;
    var j :| b == d * j;
    assert a * x + b * y == d * (i * x + j * y) by {
      assert a * x == d * (i * x) && b * y == d * (j * y);
    }
  }

  /** Euclid: some common divisor is a combination of the two numbers. */
  lemma {:induction false} Bezout(a: nat, b: nat) returns (d: nat, x: int, y: int)
    ensures a * x + b * y == d && Divides(d, a) && Divides(d, b)
    decreases b
  {
    if b == 0 {
      d, x, y := a, 1, 0;
      assert a == d * 1 && b == d * 0;
    } else {
      var q, r := a / b, a % b;
      assert a == b * q + r;
      var u, v;
      d, u, v := Bezout(b, r);
      x, y := v, u - q * v;
      assert a * x + b * y == b * u + r * v by {
        assert (b * q + r) * v == b * (q * v) + r * v;
        assert b * (u - q * v) == b * u - b * (q * v);
      }
      DividesSum(d, b, r, q, 1);
    }
  }

  lemma CoprimeCombination(a: nat, b: nat) returns (x: int, y: int)
    requires Coprime(a, b)
    ensures a * x + b * y == 1
  {
    var d;
    d, x, y := Bezout(a, b);
  }

  lemma NotMultiple(d: nat, k: nat)
    requires 0 < k < d
    ensures !Divides(d, k)
  {
    forall n: int ensures k != d * n {
      if n >= 1 {
        assert d * n >= d;
      }
    }
  }

  /** Two counts less than a full size apart fall into different slots. */
  lemma DifferentSlots(size: nat, a: nat, b: nat)
    requires size > 0 && Coprime(size, MULTIPLIER) && a < b < a + size
    ensures SlotOf(a, size) != SlotOf(b, size)
  {
    if SlotOf(a, size) == SlotOf(b, size) {
      var m, k := MULTIPLIER, b - a;
      var qa, qb := a * m / size, b * m / size;
      assert a * m == size * qa + SlotOf(a, size) && b * m == size * qb + SlotOf(b, size);
      assert k * m == size * (qb - qa);
      var x, y := CoprimeCombination(size, m);
      NotMultiple(size, k);
      Euclid(size, m, k, qb - qa, x, y);
    }
  }

  lemma Euclid(size: nat, m: nat, k: int, q: int, x: int, y: int)
    requires size * x + m * y == 1 && k * m == size * q
    ensures Divides(size, k)
  {
    calc {
      k;
      k * (size * x + m * y);
      size * (k * x) + (k * m) * y;
      size * (k * x) + size * (q * y);
      size * (k * x + q * y);
    }
  }

  // --- Which values are kept ------------------------------------------------------

  /** Each of the last `size` values sits in its slot. */
  lemma {:induction false} SlotHolds(values: seq<real>, size: nat, n: nat)
    requires size > 0 && Coprime(size, MULTIPLIER) && size < n <= |values| < n + size
    ensures SlotOf(n, size) < |RecordedAll(values, size)| && RecordedAll(values, size)[SlotOf(n, size)] == values[n - 1]
  {
    hide Coprime;
    if n < |values| {
      SlotHolds(values[..|values| - 1], size, n);
      DifferentSlots(size, n, |values|);
    }
  }

  ghost predicate Injective(p: seq<nat>) {
    forall i, j :: 0 <= i < j < |p| ==> p[i] != p[j]
  }

  /** Sequences that agree along an injective renumbering have the same elements. */
  lemma {:induction false} SameElements(a: seq<real>, b: seq<real>, p: seq<nat>)
    requires |a| == |b| == |p| && Injective(p) && forall i :: 0 <= i < |p| ==> p[i] < |a| && a[p[i]] == b[i]
    ensures multiset(a) == multiset(b)
  {
    if a != [] {
      var n := |a| - 1;
      var j := p[n];
      var a' := a[..j] + a[j + 1..];
      var p' := seq(n, i requires 0 <= i < n => if p[i] > j then p[i] - 1 else p[i]);
      forall i | 0 <= i < n ensures p'[i] < n && a'[p'[i]] == b[i] {
        assert p[i] != j;
      }
      forall i, k | 0 <= i < k < n ensures p'[i] != p'[k] {
        assert p[i] != p[k] && p[i] != j && p[k] != j;
      }
      SameElements(a', b[..n], p');
      assert a == a[..j] + [a[j]] + a[j + 1..] && b == b[..n] + [b[n]];
    }
  }

  /** The slots of the `size` values after the first `from`. */
  function Slots(from: nat, size: nat): (p: seq<nat>)
    requires size > 0
    ensures |p| == size && forall i :: 0 <= i < size ==> p[i] == SlotOf(from + i + 1, size)
  {
    seq<nat>(size, i requires 0 <= i < size => SlotOf(from + i + 1, size))
  }

  /** For a size coprime with the multiplier, once twice the size was recorded, the reservoir
      holds exactly the last values. */
  lemma LastValues(values: seq<real>, size: nat)
    requires size > 0 && Coprime(size, MULTIPLIER) && |values| >= 2 * size
    ensures multiset(RecordedAll(values, size)) == multiset(values[|values| - size..])
  {
    hide RecordedAll, SlotOf, Coprime;
    var from := |values| - size;
    var p := Slots(from, size);
    forall i, j | 0 <= i < j < size ensures p[i] != p[j] {
      DifferentSlots(size, from + i + 1, from + j + 1);
    }
    forall i | 0 <= i < size ensures p[i] < size && RecordedAll(values, size)[p[i]] == values[from..][i] {
      SlotHolds(values, size, from + i + 1);
    }
    SameElements(RecordedAll(values, size), values[from..], p);
  }

  // --- Sizes with a common divisor ------------------------------------------------

  lemma SlotOneUntouched(size: nat, d: nat, n: nat)
    requires size > 1 && d > 1 && Divides(d, size) && Divides(d, MULTIPLIER)
    ensures SlotOf(n, size) != 1
  {
    if SlotOf(n, size) == 1 {
      var q := n * MULTIPLIER / size;
      assert MULTIPLIER * n + size * (-q) == 1;
      NotMultiple(d, 1);
      DividesSum(d, MULTIPLIER, size, n, -q);
    }
  }

  lemma {:induction false} SlotOneStays(values: seq<real>, size: nat, d: nat)
    requires size > 1 && d > 1 && Divides(d, size) && Divides(d, MULTIPLIER) && |values| >= 2
    ensures RecordedAll(values, size)[1] == values[1]
  {
    hide Divides;
    var init := values[..|values| - 1];
    if |init| >= 2 {
      SlotOneStays(init, size, d);
      SlotOneUntouched(size, d, |values|);
    } else {
      assert |RecordedAll(init, size)| == 1;
    }
  }

  /** With a common divisor the second value is never overwritten. */
  lemma KeptForever(size: nat) returns (values: seq<real>)
    requires size > 0 && !Coprime(size, MULTIPLIER)
    ensures |values| >= 2 * size && multiset(RecordedAll(values, size)) != multiset(values[|values| - size..])
  {
    hide RecordedAll, SlotOf;
    var d: nat :| Divides(d, size) && Divides(d, MULTIPLIER) && d != 1;
    NotUnit(size, d);
    values := seq(2 * size, i requires 0 <= i < 2 * size => i as real);
    SlotOneStays(values, size, d);
    KeepsEarly(values, size);
  }

  /** The reservoir always ends up with the last values if and only if its size is coprime
      with the multiplier. */
  lemma LastValuesExactlyIf(size: nat)
    requires size > 0
    ensures (forall values: seq<real> :: |values| >= 2 * size ==> multiset(RecordedAll(values, size)) == multiset(values[|values| - size..]))
       <==> Coprime(size, MULTIPLIER)
  {
    hide RecordedAll, Coprime;
    if Coprime(size, MULTIPLIER) {
      forall values: seq<real> | |values| >= 2 * size ensures multiset(RecordedAll(values, size)) == multiset(values[|values| - size..]) {
        LastValues(values, size);
      }
    } else {
      var values := KeptForever(size);
    }
  }

  lemma NotUnit(size: nat, d: nat)
    requires size > 0 && Divides(d, size) && d != 1
    ensures size > 1 && d > 1
  {
    var k :| size == d * k;
  }

  lemma KeepsEarly(values: seq<real>, size: nat)
    requires size > 1 && |values| == 2 * size && RecordedAll(values, size)[1] == values[1]
    requires forall i :: 0 <= i < 2 * size ==> values[i] == i as real
    ensures multiset(RecordedAll(values, size)) != multiset(values[|values| - size..])
  {
    var last := values[|values| - size..];
    assert values[1] in RecordedAll(values, size);
    assert forall i :: 0 <= i < size ==> last[i] == values[size + i];
    assert values[1] !in last;
    assert values[1] !in multiset(last);
  }

  // --- Powers of two --------------------------------------------------------------

  function Power(k: nat): nat { if k == 0 then 1 else 2 * Power(k - 1) }

  lemma CombinationCoprime(a: nat, b: nat, x: int, y: int)
    requires a * x + b * y == 1
    ensures Coprime(a, b)
  {
    forall d: nat | Divides(d, a) && Divides(d, b) ensures d == 1 {
      DividesSum(d, a, b, x, y);
      var k :| 1 == d * k;
    }
  }

  lemma {:induction false} PowerCombination(k: nat) returns (x: int, y: int)
    ensures Power(k) * x + MULTIPLIER * y == 1
  {
    if k == 0 {
      x, y := 1, 0;
    } else {
      var u, v := PowerCombination(k - 1);
      x, y := Doubled(Power(k - 1), MULTIPLIER, u, v);
    }
  }

  /** A number coprime with an odd one stays so when doubled. */
  lemma Doubled(p: nat, m: nat, u: int, v: int) returns (x: int, y: int)
    requires p * u + m * v == 1 && m % 2 == 1
    ensures 2 * p * x + m * y == 1
  {
    var w := if u % 2 == 0 then u else u - m;
    y := if u % 2 == 0 then v else v + p;
    assert p * w + m * y == 1 by {
      assert p * (u - m) + m * (v + p) == p * u - p * m + (m * v + m * p);
    }
    x := w / 2;
    assert w == 2 * x;
    assert 2 * p * x == p * (2 * x);
  }

  /** In particular every power of two, such as the default sizes, is. */
  lemma PowersOfTwo(k: nat)
    ensures Power(k) > 0 && Coprime(Power(k), MULTIPLIER)
  {
    var x, y := PowerCombination(k);
    CombinationCoprime(Power(k), MULTIPLIER, x, y);
    if Power(k) == 0 {
      assert false;
    }
  }

  // --- The series -----------------------------------------------------------------

  function Sum(values: seq<real>): real {
    if values == [] then 0.0 else Sum(values[..|values| - 1]) + values[|values| - 1]
  }

  /** The running summary of a series; `values` is what was added so far. */
  class MetricSeries {
    const maxSize: nat
    var seen: nat
    var reservoir: seq<real>
    var count: nat
    var sum: real
    var mean: real
    var least: real
    var greatest: real
    ghost var values: seq<real>

    ghost predicate Valid()
      reads this
    {
      && seen == count == |values| && sum == Sum(values) && reservoir == RecordedAll(values, maxSize)
      && (values != [] ==> mean == sum / count as real && least in values && greatest in values)
      && (forall i :: 0 <= i < |values| ==> least <= values[i] <= greatest)
    }

    constructor (maxSize: nat)
      ensures Valid() && values == [] && this.maxSize == maxSize
    {
      this.maxSize := maxSize;
      seen, reservoir, count, sum, mean, least, greatest := 0, [], 0, 0.0, 0.0, 0.0, 0.0;
      values := [];
    }

    method AddValue(value: real)
      requires Valid()
      modifies this
      ensures Valid() && values == old(values) + [value]
    {
      ghost var all := values + [value];
      assert all[..|values|] == values;
      seen := seen + 1;
      if count == 0 {
        least, greatest := value, value;
      } else {
        if value < least { least := value; }
        if value > greatest { greatest := value; }
      }
      count := count + 1;
      sum := sum + value;
      mean := sum / count as real;
      if |reservoir| < maxSize {
        reservoir := reservoir + [value];
      } else if maxSize > 0 {
        var idx := SlotOf(seen, maxSize);
        reservoir := reservoir[idx := value];
      }
      values := all;
    }
  }
}
