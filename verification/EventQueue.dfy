/** The event queue: a binary heap ordered by time, then priority, then sequence. */
module EventQueue {
  import opened Wrappers

  datatype Kind = SimulationEnd | Handled(name: string) | Unhandled

  datatype Event = Event(kind: Kind, time: int, priority: int, sequence: int)

  predicate Less(a: Event, b: Event) {
    if a.time != b.time then a.time < b.time
    else if a.priority != b.priority then a.priority < b.priority
    else a.sequence < b.sequence
  }

  /** No event of the queue comes before `e`. */
  ghost predicate IsFirst(queue: multiset<Event>, e: Event) {
    e in queue && forall x :: x in queue ==> !Less(x, e)
  }

  /** No later, then no higher a priority number, then no higher a sequence number. */
  predicate ByTimePriorityNumber(a: Event, b: Event) {
    && a.time <= b.time
    && (a.time == b.time ==> a.priority <= b.priority)
    && (a.time == b.time && a.priority == b.priority ==> a.sequence <= b.sequence)
  }

  function Parent(k: nat): nat { if k == 0 then 0 else (k - 1) / 2 }

  ghost predicate InOrder(s: seq<Event>, k: nat)
    requires k < |s|
  {
    k == 0 || !Less(s[k], s[Parent(k)])
  }

  ghost predicate IsHeap(s: seq<Event>, n: nat)
    requires n <= |s|
  {
    forall k: nat :: k < n ==> InOrder(s, k)
  }

  /** Only `j` may be before its parent, and its children are not before its parent. */
  ghost predicate HeapAbove(s: seq<Event>, j: nat)
    requires j < |s|
  {
    && (forall k: nat :: k < |s| && k != j ==> InOrder(s, k))
    && (forall k: nat :: 0 < k < |s| && Parent(k) == j ==> !Less(s[k], s[Parent(j)]) || j == 0)
  }

  /** Only children of `i` may be before their parent, and they are not before its parent. */
  ghost predicate HeapBelow(s: seq<Event>, n: nat, i: nat)
    requires n <= |s|
  {
    && (forall k: nat :: 0 < k < n && Parent(k) != i ==> InOrder(s, k))
    && (forall k: nat :: 0 < k < n && Parent(k) == i ==> !Less(s[k], s[Parent(i)]) || i == 0)
  }

  lemma NotLessTransitive(a: Event, b: Event, c: Event)
    requires !Less(a, b) && !Less(b, c)
    ensures !Less(a, c)
  {
  }

  function Swapped(s: seq<Event>, i: nat, j: nat): (t: seq<Event>)
    requires i < |s| && j < |s|
    ensures |t| == |s| && t[i] == s[j] && t[j] == s[i]
    ensures forall k :: 0 <= k < |s| && k != i && k != j ==> t[k] == s[k]
  {
    s[i := s[j]][j := s[i]]
  }

  lemma SwapKeepsContents(s: seq<Event>, i: nat, j: nat)
    requires i < |s| && j < |s|
    ensures multiset(Swapped(s, i, j)) == multiset(s)
  {
    var t := Swapped(s, i, j);
    if i == j {
      assert t == s;
    } else {
      assert multiset(s[i := s[j]]) == multiset(s) - multiset{s[i]} + multiset{s[j]};
      assert multiset(t) == multiset(s[i := s[j]]) - multiset{s[j]} + multiset{s[i]};
    }
  }

  /** The root of a heap is first. */
  lemma {:induction false} RootIsFirst(s: seq<Event>, k: nat)
    requires k < |s| && IsHeap(s, |s|)
    ensures !Less(s[k], s[0])
  {
    if k > 0 {
      RootIsFirst(s, Parent(k));
      assert InOrder(s, k);
      NotLessTransitive(s[k], s[Parent(k)], s[0]);
    }
  }

  lemma RisesOne(s: seq<Event>, j: nat)
    requires 0 < j < |s| && HeapAbove(s, j) && Less(s[j], s[Parent(j)])
    ensures HeapAbove(Swapped(s, Parent(j), j), Parent(j))
  {
    var i := Parent(j);
    var t := Swapped(s, i, j);
    forall k: nat | k < |t| && k != i ensures InOrder(t, k) {
      assert k != j ==> InOrder(s, k);
      if k > 0 && k != j && Parent(k) == i { NotLessTransitive(s[k], s[i], s[j]); }
    }
    forall k: nat | 0 < k < |t| && Parent(k) == i && i != 0 ensures !Less(t[k], t[Parent(i)]) {
      assert InOrder(s, i);
      assert k != j ==> InOrder(s, k);
      if k != j { NotLessTransitive(s[k], s[i], s[Parent(i)]); }
    }
  }

  /** `j` is the first of the children of `i`. */
  ghost predicate IsFirstChild(s: seq<Event>, n: nat, i: nat, j: nat)
    requires n <= |s|
  {
    && 0 < j < n && Parent(j) == i
    && forall k: nat :: 0 < k < n && Parent(k) == i ==> !Less(s[k], s[j])
  }

  lemma SinksOne(s: seq<Event>, n: nat, i: nat, j: nat)
    requires n <= |s| && HeapBelow(s, n, i) && IsFirstChild(s, n, i, j) && Less(s[j], s[i])
    ensures HeapBelow(Swapped(s, i, j), n, j)
  {
    var t := Swapped(s, i, j);
    forall k: nat | 0 < k < n && Parent(k) != j ensures InOrder(t, k) {
      assert Parent(k) != i ==> InOrder(s, k);
    }
    forall k: nat | 0 < k < n && Parent(k) == j ensures !Less(t[k], t[i]) {
      assert InOrder(s, k);
    }
  }

  lemma Settles(s: seq<Event>, n: nat, i: nat, j: nat)
    requires n <= |s| && HeapBelow(s, n, i) && IsFirstChild(s, n, i, j) && !Less(s[j], s[i])
    ensures IsHeap(s, n)
  {
    forall k: nat | k < n ensures InOrder(s, k) {
      if k > 0 && Parent(k) == i { NotLessTransitive(s[k], s[j], s[i]); }
    }
  }

  lemma IsLeaf(s: seq<Event>, n: nat, i: nat)
    requires n <= |s| && HeapBelow(s, n, i) && 2 * i + 1 >= n
    ensures IsHeap(s, n)
  {
    forall k: nat | k < n ensures InOrder(s, k) {
      assert 0 < k ==> Parent(k) != i;
    }
  }

  lemma ChooseChild(s: seq<Event>, n: nat, i: nat, j: nat)
    requires n <= |s| && 2 * i + 1 < n
    requires j == if 2 * i + 2 < n && Less(s[2 * i + 2], s[2 * i + 1]) then 2 * i + 2 else 2 * i + 1
    ensures IsFirstChild(s, n, i, j)
  {
    forall k: nat | 0 < k < n && Parent(k) == i ensures !Less(s[k], s[j]) {
      assert k == 2 * i + 1 || k == 2 * i + 2;
    }
  }

  lemma AppendRises(s: seq<Event>, e: Event)
    requires IsHeap(s, |s|)
    ensures HeapAbove(s + [e], |s|)
  {
    forall k: nat | k < |s| ensures InOrder(s + [e], k) {
      assert InOrder(s, k);
    }
  }

  lemma RootSinks(s: seq<Event>)
    requires |s| > 0 && IsHeap(s, |s|)
    ensures HeapBelow(Swapped(s, 0, |s| - 1), |s| - 1, 0)
  {
    var t := Swapped(s, 0, |s| - 1);
    forall k: nat | 0 < k < |s| - 1 && Parent(k) != 0 ensures InOrder(t, k) {
      assert InOrder(s, k);
    }
  }

  lemma PrefixHeap(s: seq<Event>, n: nat)
    requires n <= |s| && IsHeap(s, n)
    ensures IsHeap(s[..n], n)
  {
    forall k: nat | k < n ensures InOrder(s[..n], k) {
      assert InOrder(s, k);
    }
  }

  class Queue {
    var events: seq<Event>

    ghost predicate Valid()
      reads this
    {
      IsHeap(events, |events|)
    }

    ghost function Contents(): multiset<Event>
      reads this
    {
      multiset(events)
    }

    constructor ()
      ensures Valid() && Contents() == multiset{}
    {
      events := [];
    }

    /** heap.up */
    method Up(start: nat)
      requires start < |events| && HeapAbove(events, start)
      modifies this
      ensures Valid() && Contents() == old(Contents())
    {
      var j: nat := start;
      while true
        invariant j < |events| && HeapAbove(events, j)
        invariant multiset(events) == old(multiset(events))
        decreases j
      {
        var i := Parent(j);
        if i == j || !Less(events[j], events[i]) { break; }
        SwapKeepsContents(events, i, j);
        RisesOne(events, j);
        events := Swapped(events, i, j);
        j := i;
      }
    }

    /** heap.down from the root, on the first n elements */
    method Down(n: nat)
      requires n <= |events| && HeapBelow(events, n, 0)
      modifies this
      ensures |events| == old(|events|) && IsHeap(events, n)
      ensures Contents() == old(Contents())
      ensures forall k :: n <= k < |events| ==> events[k] == old(events)[k]
    {
      hide HeapBelow, IsHeap, IsFirstChild;
      var i: nat := 0;
      while true
        invariant |events| == old(|events|) && HeapBelow(events, n, i)
        invariant multiset(events) == old(multiset(events))
        invariant forall k :: n <= k < |events| ==> events[k] == old(events)[k]
        decreases n - i
      {
        var j1 := 2 * i + 1;
        if j1 >= n {
          IsLeaf(events, n, i);
          break;
        }
        var j := j1;
        if j1 + 1 < n && Less(events[j1 + 1], events[j1]) { j := j1 + 1; }
        ChooseChild(events, n, i, j);
        if !Less(events[j], events[i]) {
          Settles(events, n, i, j);
          break;
        }
        SwapKeepsContents(events, i, j);
        SinksOne(events, n, i, j);
        events := Swapped(events, i, j);
        i := j;
      }
    }

    method Schedule(e: Event)
      requires Valid()
      modifies this
      ensures Valid() && Contents() == old(Contents()) + multiset{e}
    {
      AppendRises(events, e);
      events := events + [e];
      Up(|events| - 1);
    }

    method Next() returns (r: Option<Event>)
      requires Valid()
      modifies this
      ensures Valid()
      ensures r.None? <==> old(Contents()) == multiset{}
      ensures r.None? ==> Contents() == old(Contents())
      ensures r.Some? ==> IsFirst(old(Contents()), r.value) && Contents() == old(Contents()) - multiset{r.value}
      ensures r.Some? ==> forall x :: x in old(Contents()) ==> ByTimePriorityNumber(r.value, x)
    {
      hide IsHeap, HeapBelow, IsFirst;
      if |events| == 0 { return None; }
      var n := |events| - 1;
      FirstOf(events);
      RootSinks(events);
      SwapKeepsContents(events, 0, n);
      events := Swapped(events, 0, n);
      Down(n);
      var e := events[n];
      assert events == events[..n] + [e];
      PrefixHeap(events, n);
      events := events[..n];
      return Some(e);
    }

    method Peek() returns (r: Option<Event>)
      requires Valid()
      ensures r.None? <==> Contents() == multiset{}
      ensures r.Some? ==> IsFirst(Contents(), r.value)
    {
      if |events| == 0 { return None; }
      FirstOf(events);
      return Some(events[0]);
    }

    method Size() returns (n: nat)
      ensures n == |Contents()|
    {
      n := |events|;
    }

    method Clear()
      modifies this
      ensures Valid() && Contents() == multiset{}
    {
      events := [];
    }
  }

  /** The root is earliest; among the earliest it has the lowest priority number, and among
      those the lowest sequence number. */
  lemma FirstOf(s: seq<Event>)
    requires |s| > 0 && IsHeap(s, |s|)
    ensures IsFirst(multiset(s), s[0])
    ensures forall x :: x in s ==> ByTimePriorityNumber(s[0], x)
  {
    forall x | x in multiset(s) ensures !Less(x, s[0]) {
      var k :| 0 <= k < |s| && s[k] == x;
      RootIsFirst(s, k);
    }
    forall x | x in s ensures ByTimePriorityNumber(s[0], x) {
      assert x in multiset(s);
    }
  }
}
