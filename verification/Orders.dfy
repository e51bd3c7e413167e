/** Sorting by name, and going round a list. */
module Orders {
  ghost predicate NoDuplicates<T(!new)>(s: seq<T>) {
    forall i, j :: 0 <= i < j < |s| ==> s[i] != s[j]
  }

  ghost function SetOf<T(!new)>(s: seq<T>): set<T> { set x | x in s }

  lemma {:induction false} SizeOf<T(!new)>(s: seq<T>)
    requires NoDuplicates(s)
    ensures |SetOf(s)| == |s|
  {
    if s != [] {
      var n := |s| - 1;
      SizeOf(s[..n]);
      assert SetOf(s) == SetOf(s[..n]) + {s[n]} && s[n] !in s[..n];
    }
  }

  // --- Names ----------------------------------------------------------------------

  /** The decimal digits of a number. */
  function Digits(n: nat): string {
    if n < 10 then [Digit(n)] else Digits(n / 10) + [Digit(n % 10)]
  }

  function Digit(n: nat): char
    requires n < 10
  {
    '0' + n as char
  }

  /** The byte order of strings. */
  predicate AtMost(a: string, b: string) {
    a == "" || (b != "" && (a[0] < b[0] || (a[0] == b[0] && AtMost(a[1..], b[1..]))))
  }

  lemma {:induction false} AtMostTotal(a: string, b: string)
    ensures AtMost(a, b) || AtMost(b, a)
  {
    if a != "" && b != "" && a[0] == b[0] {
      AtMostTotal(a[1..], b[1..]);
    }
  }

  lemma {:induction false} AtMostTransitive(a: string, b: string, c: string)
    requires AtMost(a, b) && AtMost(b, c)
    ensures AtMost(a, c)
  {
    if a != "" && a[0] == b[0] == c[0] {
      AtMostTransitive(a[1..], b[1..], c[1..]);
    }
  }

  ghost predicate Sorted<T(!new)>(s: seq<T>, name: T -> string) {
    forall i, j :: 0 <= i < j < |s| ==> AtMost(name(s[i]), name(s[j]))
  }

  /** The elements of a set in the order of their names. */
  ghost predicate IsSorted<T(!new)>(s: seq<T>, elements: set<T>, name: T -> string) {
    NoDuplicates(s) && SetOf(s) == elements && Sorted(s, name)
  }

  method SortByName<T(==, !new)>(elements: set<T>, name: T -> string) returns (s: seq<T>)
    ensures IsSorted(s, elements, name)
  {
    s := [];
    var todo := elements;
    while todo != {}
      invariant todo <= elements && IsSorted(s, elements - todo, name)
    {
      var x :| x in todo;
      ghost var done := elements - todo;
      assert x !in SetOf(s);
      s := Insert(s, x, name);
      todo := todo - {x};
      assert elements - todo == done + {x};
    }
    assert elements - todo == elements;
  }

  method Insert<T(!new)>(s: seq<T>, x: T, name: T -> string) returns (r: seq<T>)
    requires NoDuplicates(s) && Sorted(s, name) && x !in s
    ensures IsSorted(r, SetOf(s) + {x}, name)
  {
    hide AtMost;
    var i := 0;
    while i < |s| && AtMost(name(s[i]), name(x))
      invariant i <= |s| && forall k :: 0 <= k < i ==> AtMost(name(s[k]), name(x))
    {
      i := i + 1;
    }
    r := s[..i] + [x] + s[i..];
    forall k | i <= k < |s| ensures AtMost(name(x), name(s[k])) {
      AtMostTotal(name(x), name(s[i]));
      if i < k { AtMostTransitive(name(x), name(s[i]), name(s[k])); }
    }
    assert SetOf(r) == SetOf(s) + {x};
  }

  /** Every finite set can be put in the order of its names. */
  lemma {:induction false} InOrder<T(!new)>(elements: set<T>, name: T -> string) returns (s: seq<T>)
    ensures IsSorted(s, elements, name)
    decreases |elements|
  {
    if elements == {} {
      s := [];
    } else {
      var x :| x in elements;
      var rest := InOrder(elements - {x}, name);
      assert x !in SetOf(rest);
      s := Inserted(rest, x, name);
      assert elements - {x} + {x} == elements;
    }
  }

  lemma {:induction false} Inserted<T(!new)>(s: seq<T>, x: T, name: T -> string) returns (r: seq<T>)
    requires NoDuplicates(s) && Sorted(s, name) && x !in s
    ensures IsSorted(r, SetOf(s) + {x}, name)
  {
    hide AtMost;
    if s == [] || AtMost(name(s[|s| - 1]), name(x)) {
      r := s + [x];
      forall k | 0 <= k < |s| ensures AtMost(name(s[k]), name(x)) {
        if k < |s| - 1 { AtMostTransitive(name(s[k]), name(s[|s| - 1]), name(x)); }
      }
    } else {
      var n := |s| - 1;
      var init := Inserted(s[..n], x, name);
      r := init + [s[n]];
      AtMostTotal(name(s[n]), name(x));
      forall k | 0 <= k < |init| ensures init[k] != s[n] && AtMost(name(init[k]), name(s[n])) {
        assert init[k] in SetOf(init);
      }
    }
    assert SetOf(r) == SetOf(s) + {x};
  }

  // --- Going round ----------------------------------------------------------------

  /** The `k`-th element counted from `start`, round the list. */
  function Turn<T>(s: seq<T>, start: nat, k: nat): T
    requires s != []
  {
    s[(start + k) % |s|]
  }

  lemma TurnIs<T>(s: seq<T>, start: nat, k: nat)
    requires start < |s| && k < |s|
    ensures Turn(s, start, k) == if start + k < |s| then s[start + k] else s[start + k - |s|]
  {
    if start + k >= |s| { WrapsOnce(start + k, |s|); }
  }

  lemma WrapsOnce(x: nat, n: nat)
    requires n <= x < 2 * n
    ensures x % n == x - n
  {
    assert x == 1 * n + (x - n);
  }

  /** As many elements as the list has, taken in turn from anywhere, are the list rotated. */
  lemma Rotation<T>(s: seq<T>, start: nat, taken: seq<T>)
    requires start < |s| && |taken| == |s| && forall k :: 0 <= k < |s| ==> taken[k] == Turn(s, start, k)
    ensures taken == s[start..] + s[..start] && multiset(taken) == multiset(s)
  {
    forall k | 0 <= k < |s| ensures taken[k] == (s[start..] + s[..start])[k] {
      TurnIs(s, start, k);
    }
    assert taken == s[start..] + s[..start];
    assert s == s[..start] + s[start..];
  }

  /** So nothing is left out on the way round. */
  lemma AllTaken<T(!new)>(s: seq<T>, start: nat, x: T)
    requires x in s && start < |s|
    ensures exists k :: 0 <= k < |s| && Turn(s, start, k) == x
  {
    var i :| 0 <= i < |s| && s[i] == x;
    var k := if i >= start then i - start else i - start + |s|;
    TurnIs(s, start, k);
  }

  /** `r` is the first element from `start` on, round the list, that `ok` accepts. */
  ghost predicate FirstOk<T(!new)>(s: seq<T>, start: nat, ok: T -> bool, r: T)
    requires s != []
  {
    exists k :: 0 <= k < |s| && r == Turn(s, start, k) && ok(r) && forall i :: 0 <= i < k ==> !ok(Turn(s, start, i))
  }

  lemma FirstOkExists<T(!new)>(s: seq<T>, start: nat, ok: T -> bool, x: T) returns (r: T)
    requires x in s && start < |s| && ok(x)
    ensures FirstOk(s, start, ok, r) && r in s && ok(r)
  {
    AllTaken(s, start, x);
    var k :| 0 <= k < |s| && Turn(s, start, k) == x;
    var i := 0;
    while !ok(Turn(s, start, i))
      invariant i <= k && forall j :: 0 <= j < i ==> !ok(Turn(s, start, j))
      decreases k - i
    {
      i := i + 1;
    }
    r := Turn(s, start, i);
  }
}
