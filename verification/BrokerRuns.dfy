/**
  Whole runs of a shard whose callers finish or redeliver only messages they were handed.

  `flying` holds the messages handed out and not given back, in the order of dispatch;
  the other fields of a ledger are history.
*/
module BrokerRuns {
  import opened Wrappers
  import opened Broker

  datatype Ledger = Ledger(
    shard: Shard,
    flying: seq<Message>,
    accepted: seq<Message>,
    rejected: nat,
    finished: multiset<Message>,
    evicted: multiset<Message>,
    expired: multiset<Message>,
    delivered: seq<Message>)

  const EMPTY := Ledger(Shard([], 0, 0), [], [], 0, multiset{}, multiset{}, multiset{}, [])

  datatype Step =
    | Publish(m: Message)
    | Dispatch
    | Complete(i: nat)
    | Redeliver(i: nat)
    | Retain(now: int, retentionMs: int)

  predicate Enabled(l: Ledger, step: Step) {
    match step
    case Complete(i) => i < |l.flying|
    case Redeliver(i) => i < |l.flying|
    case _ => true
  }

  function Without(s: seq<Message>, i: nat): seq<Message>
    requires i < |s|
  {
    s[..i] + s[i + 1..]
  }

  function Published(cfg: Config, l: Ledger, m: Message): Ledger {
    var (s, r) := Enqueue(cfg, l.shard, m);
    match r
    case Accepted => l.(shard := s, accepted := l.accepted + [m])
    case AcceptedEvicting(_) =>
      l.(shard := s, accepted := l.accepted + [m], evicted := l.evicted + multiset(l.shard.messages[..1]))
    case Refused(_) => l.(shard := s, rejected := l.rejected + 1)
  }

  function Dispatched(cfg: Config, l: Ledger): Ledger {
    var (s, r) := TryPop(cfg, l.shard);
    if r.None? then l.(shard := s)
    else l.(shard := s, flying := l.flying + [r.value], delivered := l.delivered + [r.value])
  }

  function Apply(cfg: Config, l: Ledger, step: Step): Ledger
    requires Enabled(l, step)
  {
    match step
    case Publish(m) => Published(cfg, l, m)
    case Dispatch => Dispatched(cfg, l)
    case Complete(i) => l.(shard := Finish(l.shard), flying := Without(l.flying, i), finished := l.finished + multiset{l.flying[i]})
    case Redeliver(i) => l.(shard := Requeue(l.shard, l.flying[i]), flying := Without(l.flying, i))
    case Retain(now, retentionMs) =>
      var (s, removed) := Expire(l.shard, now, retentionMs);
      l.(shard := s, expired := l.expired + multiset(removed))
  }

  ghost predicate IsRun(cfg: Config, states: seq<Ledger>, steps: seq<Step>) {
    && |states| == |steps| + 1
    && states[0] == EMPTY
    && forall n :: 0 <= n < |steps| ==> Enabled(states[n], steps[n]) && states[n + 1] == Apply(cfg, states[n], steps[n])
  }

  // --- Conservation ---------------------------------------------------------------

  /** Every accepted message is in exactly one place. */
  ghost predicate Conserved(l: Ledger) {
    multiset(l.accepted) == multiset(l.shard.messages) + (multiset(l.flying) + l.finished) + l.evicted + l.expired
  }

  ghost predicate Counted(cfg: Config, l: Ledger) {
    && l.shard.inFlight == |l.flying|
    && l.shard.dropCount == l.rejected + |l.evicted| + |l.expired|
    && (cfg.maxConcurrency > 0 ==> |l.flying| <= cfg.maxConcurrency)
  }

  /** The bound of the configuration on what is queued or in flight. */
  predicate Bounded(cfg: Config, l: Ledger) {
    |l.shard.messages| + l.shard.inFlight <= cfg.capacity + cfg.maxConcurrency
  }

  lemma TakeOut(s: seq<Message>, i: nat)
    requires i < |s|
    ensures multiset(s) == multiset(Without(s, i)) + multiset{s[i]}
  {
    assert s == s[..i] + [s[i]] + s[i + 1..];
  }

  lemma Cut(s: seq<Message>, n: nat)
    requires n <= |s|
    ensures multiset(s) == multiset(s[..n]) + multiset(s[n..])
    ensures |multiset(s[..n])| == n
  {
    assert s == s[..n] + s[n..];
  }

  /** A publish is admitted while there is capacity; a full shard refuses it, or under
      drop-oldest admits it in place of the head. */
  lemma PublishCases(cfg: Config, l: Ledger, m: Message)
    ensures var t, q := Published(cfg, l, m), l.shard.messages;
      && t.flying == l.flying && t.finished == l.finished && t.expired == l.expired && t.delivered == l.delivered && t.shard.inFlight == l.shard.inFlight
      && if cfg.capacity <= 0 || |q| < cfg.capacity then
           t.shard.messages == q + [m] && t.accepted == l.accepted + [m] && t.evicted == l.evicted
         else if cfg.policy.DropOldest? then
           t.shard.messages == q[1..] + [m] && t.accepted == l.accepted + [m] && t.evicted == l.evicted + multiset(q[..1])
         else t.shard.messages == q && t.accepted == l.accepted && t.evicted == l.evicted
  {
  }

  /** The offset that an admission reports as evicted is that of the message that left the
      queue, which was at its head. */
  lemma EvictedIsReported(cfg: Config, l: Ledger, m: Message)
    ensures var r, t := Enqueue(cfg, l.shard, m).1, Published(cfg, l, m);
      && (r.AcceptedEvicting? <==> t.evicted != l.evicted)
      && (r.AcceptedEvicting? ==>
            && l.shard.messages != []
            && var x := l.shard.messages[0];
               && multiset(l.shard.messages) + multiset{m} == multiset(t.shard.messages) + multiset{x}
               && t.evicted == l.evicted + multiset{x} && r.evicted == x.offset)
  {
    var r, t, q := Enqueue(cfg, l.shard, m).1, Published(cfg, l, m), l.shard.messages;
    if r.AcceptedEvicting? {
      assert q == [q[0]] + q[1..] && q[..1] == [q[0]];
      assert t.shard.messages == q[1..] + [m];
      assert t.evicted[q[0]] == l.evicted[q[0]] + 1;
    }
  }

  lemma PublishConserves(cfg: Config, l: Ledger, m: Message)
    requires Conserved(l)
    ensures Conserved(Published(cfg, l, m))
  {
    hide Published, Enqueue;
    PublishCases(cfg, l, m);
    var q := l.shard.messages;
    if CapacityReached(cfg, l.shard) {
      Cut(q, 1);
      Evict(multiset(l.accepted), multiset(q[..1]), multiset(q[1..]), multiset(l.flying) + l.finished, l.evicted, l.expired, m);
      assert multiset(q[1..] + [m]) == multiset(q[1..]) + multiset{m};
    }
  }

  lemma Evict(all: multiset<Message>, head: multiset<Message>, tail: multiset<Message>,
              out: multiset<Message>, evicted: multiset<Message>, expired: multiset<Message>, m: Message)
    requires all == head + tail + out + evicted + expired
    ensures all + multiset{m} == tail + multiset{m} + out + (evicted + head) + expired
  {
  }

  /** In every run a dispatch hands out the head of the queue if and only if there is one and
      fewer messages are in flight than the consumers can take. */
  lemma DispatchExactly(cfg: Config, states: seq<Ledger>, steps: seq<Step>, n: nat)
    requires IsRun(cfg, states, steps) && n < |steps| && steps[n] == Dispatch
    ensures var l, t := states[n], states[n + 1];
      if l.shard.messages != [] && (cfg.maxConcurrency <= 0 || |l.flying| < cfg.maxConcurrency) then
        && t.delivered == l.delivered + [l.shard.messages[0]] && t.flying == l.flying + [l.shard.messages[0]]
        && t.shard.messages == l.shard.messages[1..]
      else t == l
  {
    Conservation(cfg, states, steps, n);
  }

  lemma DispatchConserves(cfg: Config, l: Ledger)
    requires Conserved(l)
    ensures Conserved(Dispatched(cfg, l))
  {
    if CanPop(cfg, l.shard) {
      Cut(l.shard.messages, 1);
      assert l.shard.messages[..1] == [l.shard.messages[0]];
    }
  }

  lemma StepConserves(cfg: Config, l: Ledger, step: Step)
    requires Enabled(l, step) && Conserved(l)
    ensures Conserved(Apply(cfg, l, step))
  {
    hide Published, Dispatched;
    match step {
      case Publish(m) => PublishConserves(cfg, l, m);
      case Dispatch => DispatchConserves(cfg, l);
      case Complete(i) => TakeOut(l.flying, i);
      case Redeliver(i) => TakeOut(l.flying, i);
      case Retain(now, retentionMs) =>
        Cut(l.shard.messages, AgedPrefix(l.shard.messages, now, retentionMs));
    }
  }

  lemma StepCounts(cfg: Config, l: Ledger, step: Step)
    requires Enabled(l, step) && Counted(cfg, l)
    ensures var t := Apply(cfg, l, step);
      Counted(cfg, t) && (cfg.capacity > 0 && cfg.maxConcurrency > 0 && Bounded(cfg, l) ==> Bounded(cfg, t))
  {
    match step {
      case Publish(m) =>
        if CapacityReached(cfg, l.shard) {
          Cut(l.shard.messages, 1);
        }
      case Retain(now, retentionMs) =>
        Cut(l.shard.messages, AgedPrefix(l.shard.messages, now, retentionMs));
      case _ =>
    }
  }

  /** Over every run: accepted = queued + in flight + finished + evicted + expired, and the
      drop counter is rejected + evicted + expired. */
  lemma {:induction false} Conservation(cfg: Config, states: seq<Ledger>, steps: seq<Step>, n: nat)
    requires IsRun(cfg, states, steps) && n < |states|
    ensures Conserved(states[n]) && Counted(cfg, states[n])
    ensures cfg.capacity > 0 && cfg.maxConcurrency > 0 ==> Bounded(cfg, states[n])
  {
    if n > 0 {
      Conservation(cfg, states, steps, n - 1);
      StepConserves(cfg, states[n - 1], steps[n - 1]);
      StepCounts(cfg, states[n - 1], steps[n - 1]);
    }
  }

  /** With a capacity and no limit on consumers the sum of backlog and in-flight messages
      exceeds the configured numbers in some run. */
  lemma BoundedExactlyIf(cfg: Config)
    requires cfg.capacity > 0
    ensures (forall states, steps, n :: IsRun(cfg, states, steps) && 0 <= n < |states| ==> Bounded(cfg, states[n])) <==> cfg.maxConcurrency > 0
  {
    if cfg.maxConcurrency > 0 {
      forall states, steps, n | IsRun(cfg, states, steps) && 0 <= n < |states| ensures Bounded(cfg, states[n]) {
        Conservation(cfg, states, steps, n);
      }
    } else {
      var states, steps := Flood(cfg, cfg.capacity + 1);
      assert !Bounded(cfg, states[|steps|]);
    }
  }

  lemma {:induction false} Flood(cfg: Config, k: nat) returns (states: seq<Ledger>, steps: seq<Step>)
    requires cfg.capacity > 0 && cfg.maxConcurrency <= 0
    ensures IsRun(cfg, states, steps)
    ensures states[|steps|].shard.messages == [] && states[|steps|].shard.inFlight == k
  {
    if k == 0 {
      return [EMPTY], [];
    }
    states, steps := Flood(cfg, k - 1);
    var publish := Publish(Message("m", 0, k));
    var l := states[|steps|];
    var t := Apply(cfg, l, publish);
    var u := Apply(cfg, t, Dispatch);
    Continue(cfg, states, steps, publish);
    Continue(cfg, states + [t], steps + [publish], Dispatch);
    states, steps := states + [t] + [u], steps + [publish] + [Dispatch];
  }

  lemma Continue(cfg: Config, states: seq<Ledger>, steps: seq<Step>, step: Step)
    requires IsRun(cfg, states, steps) && Enabled(states[|steps|], step)
    ensures IsRun(cfg, states + [Apply(cfg, states[|steps|], step)], steps + [step])
  {
    hide Apply;
  }

  // --- Order ----------------------------------------------------------------------

  /** The messages in flight followed by the backlog. */
  function Line(l: Ledger): seq<Message> { l.flying + l.shard.messages }

  predicate Later(a: Message, b: Message) { a.offset < b.offset && a.time <= b.time }

  ghost predicate Sorted(s: seq<Message>) {
    forall i, j :: 0 <= i < j < |s| ==> Later(s[i], s[j])
  }

  /** A publisher that numbers and stamps its messages in order. */
  ghost predicate InOrder(states: seq<Ledger>, steps: seq<Step>)
    requires |states| == |steps| + 1
  {
    forall n, x :: 0 <= n < |steps| && steps[n].Publish? && x in states[n].accepted ==> Later(x, steps[n].m)
  }

  /** Nothing was delivered that comes after what is still waiting or in flight, and
      nothing was delivered after something later. */
  ghost predicate Ordered(l: Ledger) {
    && |l.flying| <= 1 && l.shard.inFlight == |l.flying|
    && Sorted(Line(l))
    && (forall x :: x in Line(l) || x in l.delivered ==> x in l.accepted)
    && (forall d, x :: d in l.delivered && x in Line(l) ==> d == x || Later(d, x))
    && (forall i, j :: 0 <= i < j < |l.delivered| ==> l.delivered[i] == l.delivered[j] || Later(l.delivered[i], l.delivered[j]))
  }

  lemma CutSorted(s: seq<Message>, a: nat, b: nat)
    requires Sorted(s) && a <= b <= |s|
    ensures Sorted(s[..a] + s[b..])
    ensures forall x :: x in s[..a] + s[b..] ==> x in s
  {
    var t := s[..a] + s[b..];
    forall i, j | 0 <= i < j < |t| ensures Later(t[i], t[j]) {
      var i', j' := if i < a then i else i - a + b, if j < a then j else j - a + b;
      assert Later(s[i'], s[j']);
    }
  }

  lemma OrderedWith(l: Ledger, t: Ledger, a: nat, b: nat)
    requires Ordered(l) && a <= b <= |Line(l)| && Line(t) == Line(l)[..a] + Line(l)[b..]
    requires t.delivered == l.delivered && t.accepted == l.accepted && |t.flying| <= 1 && t.shard.inFlight == |t.flying|
    ensures Ordered(t)
  {
    CutSorted(Line(l), a, b);
  }

  lemma OrderedPlus(l: Ledger, t: Ledger, m: Message)
    requires Ordered(l) && Line(t) == Line(l) + [m] && forall x :: x in l.accepted ==> Later(x, m)
    requires t.delivered == l.delivered && t.accepted == l.accepted + [m] && |t.flying| <= 1 && t.shard.inFlight == |t.flying|
    ensures Ordered(t)
  {
    forall i, j | 0 <= i < j < |Line(t)| ensures Later(Line(t)[i], Line(t)[j]) {
      assert Line(t)[i] in Line(l);
    }
  }

  lemma CutLine(f: seq<Message>, q: seq<Message>, n: nat)
    requires n <= |q|
    ensures f + q[n..] == (f + q)[..|f|] + (f + q)[|f| + n..]
  {
  }

  lemma PublishOrdered(cfg: Config, l: Ledger, m: Message)
    requires Ordered(l) && forall x :: x in l.accepted ==> Later(x, m)
    ensures Ordered(Published(cfg, l, m))
  {
    hide Ordered, Sorted, Later, Published, Enqueue;
    OrderedShort(l);
    PublishCases(cfg, l, m);
    var t, f, q := Published(cfg, l, m), l.flying, l.shard.messages;
    if !CapacityReached(cfg, l.shard) {
      assert f + (q + [m]) == (f + q) + [m];
      OrderedPlus(l, t, m);
    } else if cfg.policy.DropOldest? {
      var mid := l.(shard := l.shard.(messages := q[1..]));
      CutLine(f, q, 1);
      OrderedWith(l, mid, |f|, |f| + 1);
      assert f + (q[1..] + [m]) == (f + q[1..]) + [m];
      OrderedPlus(mid, t, m);
    } else {
      CutLine(f, q, 0);
      OrderedWith(l, t, |f|, |f|);
    }
  }

  lemma OrderedShort(l: Ledger)
    requires Ordered(l)
    ensures |l.flying| <= 1 && l.shard.inFlight == |l.flying|
  {
  }

  lemma DispatchOrdered(cfg: Config, l: Ledger)
    requires cfg.maxConcurrency == 1 && Ordered(l)
    ensures Ordered(Dispatched(cfg, l))
  {
    if CanPop(cfg, l.shard) {
      var t := Dispatched(cfg, l);
      assert Line(t) == Line(l);
      assert forall x :: x in Line(t) ==> x == Line(l)[0] || Later(Line(l)[0], x);
    }
  }

  lemma ExpiresFirst(s: Shard, now: int, retentionMs: int) returns (n: nat)
    ensures n <= |s.messages| && Expire(s, now, retentionMs).0.messages == s.messages[n..] && Expire(s, now, retentionMs).0.inFlight == s.inFlight
  {
    n := if retentionMs <= 0 then 0 else AgedPrefix(s.messages, now, retentionMs);
  }

  lemma RetainOrdered(cfg: Config, l: Ledger, now: int, retentionMs: int)
    requires Ordered(l)
    ensures Ordered(Apply(cfg, l, Retain(now, retentionMs)))
  {
    hide Ordered, Expire;
    OrderedShort(l);
    var t := Apply(cfg, l, Retain(now, retentionMs));
    var n := ExpiresFirst(l.shard, now, retentionMs);
    CutLine(l.flying, l.shard.messages, n);
    OrderedWith(l, t, |l.flying|, |l.flying| + n);
  }

  lemma StepOrdered(cfg: Config, l: Ledger, step: Step)
    requires cfg.maxConcurrency == 1 && Enabled(l, step) && Ordered(l)
    requires step.Publish? ==> forall x :: x in l.accepted ==> Later(x, step.m)
    ensures Ordered(Apply(cfg, l, step))
  {
    hide Ordered, Published, Dispatched, Expire;
    OrderedShort(l);
    match step {
      case Publish(m) => PublishOrdered(cfg, l, m);
      case Dispatch => DispatchOrdered(cfg, l);
      case Complete(i) => GiveBack(l, Apply(cfg, l, step));
      case Redeliver(i) => GiveBack(l, Apply(cfg, l, step));
      case Retain(now, retentionMs) => RetainOrdered(cfg, l, now, retentionMs);
    }
  }

  lemma GiveBack(l: Ledger, t: Ledger)
    requires Ordered(l) && |l.flying| == 1 && t.flying == [] && t.shard.inFlight == 0
    requires t.delivered == l.delivered && t.accepted == l.accepted
    requires t.shard.messages == l.shard.messages || t.shard.messages == l.flying + l.shard.messages
    ensures Ordered(t)
  {
    hide Ordered;
    var n := |l.flying| + |l.shard.messages| - |t.shard.messages|;
    assert Line(t) == Line(l)[..0] + Line(l)[n..];
    OrderedWith(l, t, 0, n);
  }

  /** With one consumer and messages published in order, what is in flight followed by the
      backlog stays strictly increasing in offset, and deliveries are in offset order with
      repetitions only of the same message. */
  lemma {:induction false} OrderKept(cfg: Config, states: seq<Ledger>, steps: seq<Step>, n: nat)
    requires cfg.maxConcurrency == 1 && IsRun(cfg, states, steps) && InOrder(states, steps) && n < |states|
    ensures Ordered(states[n])
  {
    hide Ordered;
    if n > 0 {
      OrderKept(cfg, states, steps, n - 1);
      StepOrdered(cfg, states[n - 1], steps[n - 1]);
    } else {
      assert Ordered(EMPTY) by { EmptyOrdered(); }
    }
  }

  lemma EmptyOrdered()
    ensures Ordered(EMPTY)
  {
  }

  // --- Retention ------------------------------------------------------------------

  /** No message of the retention age waits behind a younger one. */
  ghost predicate AgedFirst(q: seq<Message>, now: int, retentionMs: int) {
    forall i, j :: 0 <= i < j < |q| && Aged(q[j], now, retentionMs) ==> Aged(q[i], now, retentionMs)
  }

  lemma AgedTail(q: seq<Message>, now: int, retentionMs: int)
    ensures var n := AgedPrefix(q, now, retentionMs);
      (forall j :: n <= j < |q| ==> !Aged(q[j], now, retentionMs)) <==> AgedFirst(q, now, retentionMs)
  {
    hide Aged, AgedPrefix;
    var n := AgedPrefix(q, now, retentionMs);
    if n < |q| && AgedFirst(q, now, retentionMs) {
      forall j | n <= j < |q| ensures !Aged(q[j], now, retentionMs) {
        assert !Aged(q[n], now, retentionMs);
      }
    }
  }

  /** What expires is at least as old as the retention, a million nanoseconds a millisecond, and
      the message left at the head is younger; without a retention nothing expires. */
  lemma ExpiredByAge(s: Shard, now: int, retentionMs: int)
    ensures var (t, removed) := Expire(s, now, retentionMs);
      && s.messages == removed + t.messages && t.dropCount == s.dropCount + |removed| && t.inFlight == s.inFlight
      && (retentionMs <= 0 ==> removed == [])
      && (forall i :: 0 <= i < |removed| ==> now - removed[i].time >= 1_000_000 * retentionMs)
      && (retentionMs > 0 && t.messages != [] ==> now - t.messages[0].time < 1_000_000 * retentionMs)
  {
    hide AgedPrefix;
  }

  /** Expiry removes only aged messages, and all of them if and only if none waits behind
      a younger one. */
  lemma RetentionExact(s: Shard, now: int, retentionMs: int)
    requires retentionMs > 0
    ensures var (t, removed) := Expire(s, now, retentionMs);
      && s.messages == removed + t.messages
      && (forall i :: 0 <= i < |removed| ==> Aged(removed[i], now, retentionMs))
      && ((forall i :: 0 <= i < |t.messages| ==> !Aged(t.messages[i], now, retentionMs)) <==> AgedFirst(s.messages, now, retentionMs))
  {
    hide Aged, AgedPrefix, AgedFirst;
    var q, n := s.messages, AgedPrefix(s.messages, now, retentionMs);
    AgedTail(q, now, retentionMs);
    if forall i :: 0 <= i < |q[n..]| ==> !Aged(q[n..][i], now, retentionMs) {
      forall j | n <= j < |q| ensures !Aged(q[j], now, retentionMs) {
        assert q[n..][j - n] == q[j];
      }
    }
  }

  /** In an ordered shard expiry therefore removes exactly the aged messages. */
  lemma RetentionInOrder(l: Ledger, now: int, retentionMs: int)
    requires Ordered(l)
    ensures AgedFirst(l.shard.messages, now, retentionMs)
  {
    var q, f := l.shard.messages, |l.flying|;
    forall i, j | 0 <= i < j < |q| && Aged(q[j], now, retentionMs) ensures Aged(q[i], now, retentionMs) {
      assert Line(l)[f + i] == q[i] && Line(l)[f + j] == q[j];
    }
  }

  /** Redelivery may fill the backlog above the capacity. */
  lemma RedeliveryOverfills()
    ensures exists cfg, states: seq<Ledger>, steps :: IsRun(cfg, states, steps) && |steps| == 4 && cfg.capacity == 1 && |states[4].shard.messages| == 2
  {
    var cfg, a, b := Config(1, 1, Block), Message("a", 0, 0), Message("b", 0, 1);
    var steps := [Publish(a), Dispatch, Publish(b), Redeliver(0)];
    var s1 := Apply(cfg, EMPTY, steps[0]);
    var s2 := Apply(cfg, s1, steps[1]);
    var s3 := Apply(cfg, s2, steps[2]);
    var s4 := Apply(cfg, s3, steps[3]);
    assert IsRun(cfg, [EMPTY, s1, s2, s3, s4], steps);
    assert |[EMPTY, s1, s2, s3, s4][4].shard.messages| == 2;
  }

  const OLD := Message("a", 0, 0)
  const YOUNG := Message("b", 2 * NANOS_PER_MS, 1)
  const TWO_CONSUMERS := Config(0, 2, Block)

  function Holding(queued: seq<Message>, flying: seq<Message>, accepted: seq<Message>, delivered: seq<Message>): Ledger {
    Ledger(Shard(queued, |flying|, 0), flying, accepted, 0, multiset{}, multiset{}, multiset{}, delivered)
  }

  lemma BothOut()
    ensures Apply(TWO_CONSUMERS, EMPTY, Publish(OLD)) == Holding([OLD], [], [OLD], [])
    ensures Apply(TWO_CONSUMERS, Holding([OLD], [], [OLD], []), Publish(YOUNG)) == Holding([OLD, YOUNG], [], [OLD, YOUNG], [])
    ensures Apply(TWO_CONSUMERS, Holding([OLD, YOUNG], [], [OLD, YOUNG], []), Dispatch) == Holding([YOUNG], [OLD], [OLD, YOUNG], [OLD])
    ensures Apply(TWO_CONSUMERS, Holding([YOUNG], [OLD], [OLD, YOUNG], [OLD]), Dispatch) == Holding([], [OLD, YOUNG], [OLD, YOUNG], [OLD, YOUNG])
  {
  }

  lemma BothBack(accepted: seq<Message>, delivered: seq<Message>)
    ensures Apply(TWO_CONSUMERS, Holding([], [OLD, YOUNG], accepted, delivered), Redeliver(0)) == Holding([OLD], [YOUNG], accepted, delivered)
    ensures Apply(TWO_CONSUMERS, Holding([OLD], [YOUNG], accepted, delivered), Redeliver(0)) == Holding([YOUNG, OLD], [], accepted, delivered)
    ensures Apply(TWO_CONSUMERS, Holding([YOUNG, OLD], [], accepted, delivered), Retain(2 * NANOS_PER_MS, 1)) == Holding([YOUNG, OLD], [], accepted, delivered)
  {
  }

  /** With two consumers redelivery can put an aged message behind a younger one, where
      expiry does not find it. */
  lemma RetentionMisses()
    ensures exists states: seq<Ledger>, steps ::
      && IsRun(TWO_CONSUMERS, states, steps) && |steps| == 7 && steps[6] == Retain(2 * NANOS_PER_MS, 1)
      && OLD in states[7].shard.messages && Aged(OLD, 2 * NANOS_PER_MS, 1)
  {
    hide Apply;
    var steps := [Publish(OLD), Publish(YOUNG), Dispatch, Dispatch, Redeliver(0), Redeliver(0), Retain(2 * NANOS_PER_MS, 1)];
    var both := [OLD, YOUNG];
    var states := [EMPTY, Holding([OLD], [], [OLD], []), Holding(both, [], both, []), Holding([YOUNG], [OLD], both, [OLD]),
                   Holding([], both, both, both), Holding([OLD], [YOUNG], both, both), Holding([YOUNG, OLD], [], both, both), Holding([YOUNG, OLD], [], both, both)];
    BothOut();
    BothBack(both, both);
    assert IsRun(TWO_CONSUMERS, states, steps);
    assert OLD in states[7].shard.messages;
  }
}
