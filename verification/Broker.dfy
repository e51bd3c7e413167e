/**
  One broker shard: a bounded FIFO with drop policies, in-flight consumers, redelivery to
  the front, retention expiry and a contiguous commit frontier.

  Times are nanoseconds; offsets are unbounded.
*/
module Broker {
  import opened Wrappers

  datatype Message = Message(id: string, time: int, offset: int)

  /** `Other` stands for every unknown policy name; the empty name means `Block`. */
  datatype Policy = Block | Reject | DropNewest | DropOldest | Other

  /** Non-positive values mean unlimited. */
  datatype Config = Config(capacity: int, maxConcurrency: int, policy: Policy)

  datatype Shard = Shard(messages: seq<Message>, inFlight: nat, dropCount: nat)

  datatype Enqueued = Accepted | AcceptedEvicting(evicted: int) | Refused(reason: string)

  predicate CapacityReached(cfg: Config, s: Shard) {
    cfg.capacity > 0 && |s.messages| >= cfg.capacity
  }

  function Enqueue(cfg: Config, s: Shard, m: Message): (Shard, Enqueued) {
    if !CapacityReached(cfg, s) then (s.(messages := s.messages + [m]), Accepted)
    else
      match cfg.policy
      case DropOldest =>  // a full shard is not empty, so the source's branch for an empty one is dead
        (s.(messages := s.messages[1..] + [m], dropCount := s.dropCount + 1), AcceptedEvicting(s.messages[0].offset))
      case Block => (s.(dropCount := s.dropCount + 1), Refused("block_full"))
      case DropNewest => (s.(dropCount := s.dropCount + 1), Refused("drop_newest"))
      case _ => (s.(dropCount := s.dropCount + 1), Refused("reject"))
  }

  predicate CanPop(cfg: Config, s: Shard) {
    !(cfg.maxConcurrency > 0 && s.inFlight >= cfg.maxConcurrency) && s.messages != []
  }

  function TryPop(cfg: Config, s: Shard): (Shard, Option<Message>) {
    if CanPop(cfg, s) then (s.(messages := s.messages[1..], inFlight := s.inFlight + 1), Some(s.messages[0]))
    else (s, None)
  }

  function Finish(s: Shard): Shard {
    if s.inFlight > 0 then s.(inFlight := s.inFlight - 1) else s
  }

  function Requeue(s: Shard, m: Message): Shard {
    Finish(s).(messages := [m] + s.messages)
  }

  const NANOS_PER_MS := 1_000_000

  /** Age at least the retention at `now`. */
  predicate Aged(m: Message, now: int, retentionMs: int) {
    m.time <= now - retentionMs * NANOS_PER_MS
  }

  /** The number of leading messages that are aged. */
  function AgedPrefix(q: seq<Message>, now: int, retentionMs: int): (n: nat)
    ensures n <= |q|
    ensures forall i :: 0 <= i < n ==> Aged(q[i], now, retentionMs)
    ensures n < |q| ==> !Aged(q[n], now, retentionMs)
  {
    if q == [] || !Aged(q[0], now, retentionMs) then 0 else 1 + AgedPrefix(q[1..], now, retentionMs)
  }

  function Expire(s: Shard, now: int, retentionMs: int): (Shard, seq<Message>) {
    if retentionMs <= 0 then (s, [])
    else
      var n := AgedPrefix(s.messages, now, retentionMs);
      (s.(messages := s.messages[n..], dropCount := s.dropCount + n), s.messages[..n])
  }

  // --- Commit frontier ------------------------------------------------------------

  datatype Commits = Commits(next: int, pending: set<int>)

  function Advance(c: Commits): Commits
    decreases |c.pending|
  {
    if c.next in c.pending then
      Advance(Commits(c.next + 1, c.pending - {c.next}))
    else c
  }

  function Record(c: Commits, o: int): Commits {
    if o < c.next then c else Advance(c.(pending := c.pending + {o}))
  }

  function RecordAll(offsets: seq<int>): Commits {
    if offsets == [] then Commits(0, {}) else Record(RecordAll(offsets[..|offsets| - 1]), offsets[|offsets| - 1])
  }

  /** `next` is the least offset outside `recorded`, and what lies beyond is pending. */
  ghost predicate Frontier(c: Commits, recorded: set<int>) {
    && 0 <= c.next && c.next !in recorded
    && (forall o :: 0 <= o < c.next ==> o in recorded)
    && (forall o :: o in c.pending <==> o in recorded && o > c.next)
  }

  lemma {:induction false} AdvanceReaches(c: Commits, recorded: set<int>)
    requires 0 <= c.next && (forall o :: 0 <= o < c.next ==> o in recorded)
    requires forall o :: o in c.pending <==> o in recorded && o >= c.next
    ensures Frontier(Advance(c), recorded) && c.next <= Advance(c).next
    decreases |c.pending|
  {
    if c.next in c.pending {
      AdvanceReaches(Commits(c.next + 1, c.pending - {c.next}), recorded);
    }
  }

  ghost function Recorded(offsets: seq<int>): set<int> { set o | o in offsets }

  /** Whatever the order and the repetitions, the frontier is the least offset never recorded. */
  lemma {:induction false} LeastUnrecorded(offsets: seq<int>)
    ensures Frontier(RecordAll(offsets), Recorded(offsets))
  {
    if offsets != [] {
      var init, o := offsets[..|offsets| - 1], offsets[|offsets| - 1];
      LeastUnrecorded(init);
      RecordKeeps(RecordAll(init), Recorded(init), o);
      assert Recorded(offsets) == Recorded(init) + {o};
    }
  }

  lemma RecordKeeps(c: Commits, recorded: set<int>, o: int)
    requires Frontier(c, recorded)
    ensures Frontier(Record(c, o), recorded + {o}) && c.next <= Record(c, o).next
  {
    if o >= c.next {
      AdvanceReaches(c.(pending := c.pending + {o}), recorded + {o});
    }
  }

  lemma FrontierUnique(c: Commits, d: Commits, r: set<int>, s: set<int>)
    requires Frontier(c, r) && Frontier(d, s)
    requires forall o :: o >= 0 ==> (o in r <==> o in s)
    ensures c == d
  {
    assert c.next == d.next;
    forall o ensures o in c.pending <==> o in d.pending {
      if o >= 0 {
        assert o in r <==> o in s;
      }
    }
  }

  lemma OrderIndependent(a: seq<int>, b: seq<int>)
    requires Recorded(a) == Recorded(b)
    ensures RecordAll(a) == RecordAll(b)
  {
    LeastUnrecorded(a);
    LeastUnrecorded(b);
    FrontierUnique(RecordAll(a), RecordAll(b), Recorded(a), Recorded(b));
  }

  lemma {:induction false} FrontierMonotone(a: seq<int>, b: seq<int>)
    ensures RecordAll(a).next <= RecordAll(a + b).next
  {
    if b == [] {
      assert a + b == a;
    } else {
      var init := b[..|b| - 1];
      FrontierMonotone(a, init);
      assert (a + b)[..|a + b| - 1] == a + init;
      LeastUnrecorded(a + init);
      RecordKeeps(RecordAll(a + init), Recorded(a + init), b[|b| - 1]);
    }
  }

  function Lag(highWatermark: int, committed: int): int {
    if highWatermark - committed < 0 then 0 else highWatermark - committed
  }

  predicate Behind(o: int, committed: nat, highWatermark: nat) { committed <= o < highWatermark }

  ghost function Uncommitted(committed: nat, highWatermark: nat): set<int> {
    set o | committed <= o < highWatermark && Behind(o, committed, highWatermark)
  }

  /** Lag is the number of assigned offsets at or past the frontier. */
  lemma {:induction false} LagCounts(highWatermark: nat, committed: nat)
    ensures Lag(highWatermark, committed) == |Uncommitted(committed, highWatermark)|
    decreases highWatermark
  {
    if highWatermark > committed {
      LagCounts(highWatermark - 1, committed);
      assert Behind(highWatermark - 1, committed, highWatermark);
      forall o ensures Behind(o, committed, highWatermark) <==> Behind(o, committed, highWatermark - 1) || o == highWatermark - 1 {}
      assert Uncommitted(committed, highWatermark) == Uncommitted(committed, highWatermark - 1) + {highWatermark - 1};
    } else {
      assert Uncommitted(committed, highWatermark) == {};
    }
  }

  /** Lag is zero exactly when every assigned offset was recorded; recording assigned
      offsets only never takes the frontier past the high watermark. */
  lemma LagZero(offsets: seq<int>, highWatermark: nat)
    ensures Lag(highWatermark, RecordAll(offsets).next) == 0 <==> forall o :: 0 <= o < highWatermark ==> o in offsets
    ensures (forall o :: o in offsets ==> o < highWatermark) ==> RecordAll(offsets).next <= highWatermark
  {
    var c := RecordAll(offsets);
    LeastUnrecorded(offsets);
    assert forall o :: o in Recorded(offsets) <==> o in offsets;
    if c.next < highWatermark {
      assert c.next !in offsets;
    }
    if c.next > highWatermark {
      assert highWatermark in offsets;
    }
  }

  /** The logs of the topic partitions: the next offset to assign, by key. */
  class BrokerQueues {
    var topicPartitionHW: map<string, nat>

    function HighWatermarkExclusive(key: string): nat
      reads this
    {
      if key in topicPartitionHW then topicPartitionHW[key] else 0
    }

    constructor ()
      ensures forall key :: HighWatermarkExclusive(key) == 0
    {
      topicPartitionHW := map[];
    }

    /** Assigns the offsets of a log one after the other, without touching other logs. */
    method NextTopicPartitionOffset(key: string) returns (o: nat)
      modifies this
      ensures o == old(HighWatermarkExclusive(key)) && HighWatermarkExclusive(key) == o + 1
      ensures forall other :: other != key ==> HighWatermarkExclusive(other) == old(HighWatermarkExclusive(other))
    {
      o := HighWatermarkExclusive(key);
      topicPartitionHW := topicPartitionHW[key := o + 1];
    }
  }

  // --- The shard object -----------------------------------------------------------

  class BrokerQueueShard {
    const cfg: Config
    var messages: seq<Message>
    var inFlight: nat
    var dropCount: nat
    var nextCommitExclusive: int
    var pendingCommit: set<int>

    ghost function View(): Shard
      reads this
    {
      Shard(messages, inFlight, dropCount)
    }

    ghost function Committed(): Commits
      reads this
    {
      Commits(nextCommitExclusive, pendingCommit)
    }

    constructor (cfg: Config)
      ensures this.cfg == cfg && View() == Shard([], 0, 0) && Committed() == RecordAll([])
    {
      this.cfg := cfg;
      messages, inFlight, dropCount := [], 0, 0;
      nextCommitExclusive, pendingCommit := 0, {};
    }

    method EnqueueMessage(m: Message) returns (r: Enqueued)
      modifies this`messages, this`dropCount
      ensures (View(), r) == Enqueue(cfg, old(View()), m)
    {
      var atCap := cfg.capacity > 0 && |messages| >= cfg.capacity;
      if !atCap {
        messages := messages + [m];
        return Accepted;
      }
      match cfg.policy {
        case DropOldest =>
          dropCount := dropCount + 1;
          var evicted := messages[0].offset;
          messages := messages[1..];
          messages := messages + [m];
          return AcceptedEvicting(evicted);
        case Block =>
          dropCount := dropCount + 1;
          return Refused("block_full");
        case DropNewest =>
          dropCount := dropCount + 1;
          return Refused("drop_newest");
        case _ =>
          dropCount := dropCount + 1;
          return Refused("reject");
      }
    }

    method TryPopForDispatch() returns (r: Option<Message>)
      modifies this`messages, this`inFlight
      ensures (View(), r) == TryPop(cfg, old(View()))
    {
      if cfg.maxConcurrency > 0 && inFlight >= cfg.maxConcurrency { return None; }
      if |messages| == 0 { return None; }
      var m := messages[0];
      messages := messages[1..];
      inFlight := inFlight + 1;
      return Some(m);
    }

    method ConsumerFinished()
      modifies this`inFlight
      ensures View() == Finish(old(View()))
    {
      if inFlight > 0 { inFlight := inFlight - 1; }
    }

    method RequeueFront(m: Message)
      modifies this`messages, this`inFlight
      ensures View() == Requeue(old(View()), m)
    {
      if inFlight > 0 { inFlight := inFlight - 1; }
      messages := [m] + messages;
    }

    method ExpireQueuedByRetention(now: int, retentionMs: int) returns (removed: seq<int>)
      modifies this`messages, this`dropCount
      ensures View() == Expire(old(View()), now, retentionMs).0
      ensures |removed| == |Expire(old(View()), now, retentionMs).1|
      ensures forall i :: 0 <= i < |removed| ==> removed[i] == Expire(old(View()), now, retentionMs).1[i].offset
    {
      removed := [];
      if retentionMs <= 0 { return; }
      var threshold := now - retentionMs * NANOS_PER_MS;
      ghost var all := messages;
      while |messages| > 0
        invariant |removed| <= |all| && messages == all[|removed|..]
        invariant AgedPrefix(all, now, retentionMs) == |removed| + AgedPrefix(messages, now, retentionMs)
        invariant dropCount == old(dropCount) + |removed|
        invariant forall i :: 0 <= i < |removed| ==> removed[i] == all[i].offset
        decreases |messages|
      {
        var m := messages[0];
        if m.time > threshold { break; }
        removed := removed + [m.offset];
        messages := messages[1..];
        dropCount := dropCount + 1;
      }
    }

    method RecordTopicOffsetProcessed(o: int)
      modifies this`nextCommitExclusive, this`pendingCommit
      ensures Committed() == Record(old(Committed()), o)
    {
      if o < nextCommitExclusive { return; }
      pendingCommit := pendingCommit + {o};
      while nextCommitExclusive in pendingCommit
        invariant Advance(Committed()) == Record(old(Committed()), o)
        decreases |pendingCommit|
      {
        pendingCommit := pendingCommit - {nextCommitExclusive};
        nextCommitExclusive := nextCommitExclusive + 1;
      }
    }
  }
}
