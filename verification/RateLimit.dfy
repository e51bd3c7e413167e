/**
  The token bucket of the rate limiter.  Times are nanoseconds; the fraction of a token that
  has accrued is computed exactly.
*/
module RateLimit {
  import opened Wrappers

  const SECOND := 1_000_000_000

  datatype Bucket = Bucket(tokens: int, lastRefill: int)

  /** Whole tokens accrued, cut off towards zero. */
  function Accrued(elapsed: int, rate: int): int {
    if elapsed * rate >= 0 then elapsed * rate / SECOND else -(-(elapsed * rate) / SECOND)
  }

  function Refilled(rate: int, b: Bucket, time: int): Bucket {
    var add := Accrued(time - b.lastRefill, rate);
    if add > 0 then Bucket(if b.tokens + add > rate then rate else b.tokens + add, time) else b
  }

  /** A call for one key: a request for a token or a look at the quota. */
  datatype Call = Call(time: int, request: bool)

  /** The bucket a call works on: only a request creates one. */
  function Opened(rate: int, b: Option<Bucket>, c: Call): Option<Bucket> {
    if b.None? && c.request then Some(Bucket(rate, c.time)) else b
  }

  predicate Grants(rate: int, b: Option<Bucket>, c: Call) {
    c.request && Refilled(rate, Opened(rate, b, c).value, c.time).tokens > 0
  }

  function After(rate: int, b: Option<Bucket>, c: Call): Option<Bucket> {
    match Opened(rate, b, c)
    case None => None
    case Some(open) =>
      var full := Refilled(rate, open, c.time);
      Some(if Grants(rate, b, c) then full.(tokens := full.tokens - 1) else full)
  }

  function AfterAll(rate: int, b: Option<Bucket>, calls: seq<Call>): Option<Bucket> {
    if calls == [] then b else After(rate, AfterAll(rate, b, calls[..|calls| - 1]), calls[|calls| - 1])
  }

  /** How many of the calls are granted a token. */
  function Granted(rate: int, b: Option<Bucket>, calls: seq<Call>): nat {
    if calls == [] then 0
    else
      var n := |calls| - 1;
      Granted(rate, b, calls[..n]) + if Grants(rate, AfterAll(rate, b, calls[..n]), calls[n]) then 1 else 0
  }

  ghost predicate InOrder(calls: seq<Call>) {
    forall i, j :: 0 <= i < j < |calls| ==> calls[i].time <= calls[j].time
  }

  // --- Tokens ---------------------------------------------------------------------

  ghost predicate BucketOk(rate: int, b: Option<Bucket>) {
    b.Some? ==> b.value.tokens <= rate && (rate >= 0 ==> b.value.tokens >= 0)
  }

  lemma AfterKeeps(rate: int, b: Option<Bucket>, c: Call)
    requires BucketOk(rate, b)
    ensures BucketOk(rate, After(rate, b, c))
  {
    hide Accrued;
  }

  /** Tokens stay between zero and the capacity, whatever the times. */
  lemma {:induction false} TokensInRange(rate: int, b: Option<Bucket>, calls: seq<Call>)
    requires BucketOk(rate, b)
    ensures BucketOk(rate, AfterAll(rate, b, calls))
  {
    if calls != [] {
      TokensInRange(rate, b, calls[..|calls| - 1]);
      AfterKeeps(rate, AfterAll(rate, b, calls[..|calls| - 1]), calls[|calls| - 1]);
    }
  }

  /** A rate that is not positive grants nothing. */
  lemma {:induction false} NothingGranted(rate: int, b: Option<Bucket>, calls: seq<Call>)
    requires rate <= 0 && BucketOk(rate, b)
    ensures Granted(rate, b, calls) == 0
  {
    hide Accrued;
    if calls != [] {
      var n := |calls| - 1;
      NothingGranted(rate, b, calls[..n]);
      TokensInRange(rate, b, calls[..n]);
    }
  }

  // --- The window bound -----------------------------------------------------------

  /** What the bucket is worth at `time`, in fractions of a token. */
  function Worth(rate: int, b: Bucket, time: int): int {
    b.tokens * SECOND + rate * (time - b.lastRefill)
  }

  lemma AccruedBound(elapsed: int, rate: int)
    requires elapsed >= 0 && rate >= 0
    ensures elapsed * rate >= 0
    ensures Accrued(elapsed, rate) * SECOND <= elapsed * rate
    ensures Accrued(elapsed, rate) <= 0 ==> elapsed * rate < SECOND
  {
    Whole(elapsed * rate);
  }

  lemma Whole(x: int)
    ensures x / SECOND * SECOND <= x < (x / SECOND + 1) * SECOND
  {
  }

  /** A refill never raises the worth of a bucket, and leaves less than one token unaccounted. */
  lemma RefillWorth(rate: int, b: Bucket, time: int)
    requires rate >= 0 && b.lastRefill <= time && b.tokens <= rate
    ensures var f := Refilled(rate, b, time);
      && Worth(rate, f, time) <= Worth(rate, b, time)
      && Worth(rate, f, time) < rate * SECOND + SECOND
      && f.lastRefill <= time
  {
    AccruedBound(time - b.lastRefill, rate);
    assert rate * (time - b.lastRefill) == (time - b.lastRefill) * rate;
    hide Accrued;
  }

  /** A refill adds the whole tokens that accrued since the last one and no more than fit: below
      the capacity less than one token's worth of time is lost. */
  lemma RefillExactly(rate: int, b: Bucket, time: int)
    requires rate >= 0 && b.tokens <= rate
    ensures var f, due := Refilled(rate, b, time), rate * (time - b.lastRefill);
      && (time < b.lastRefill || due < SECOND ==> f == b)
      && (due >= SECOND ==> f.lastRefill == time)
      && b.tokens <= f.tokens <= rate && (time >= b.lastRefill ==> (f.tokens - b.tokens) * SECOND <= due)
      && (f.tokens < rate ==> due < (f.tokens - b.tokens + 1) * SECOND)
  {
    var elapsed := time - b.lastRefill;
    assert rate * elapsed == elapsed * rate;
    Whole(elapsed * rate);
    if elapsed >= 0 {
      AccruedBound(elapsed, rate);
    } else {
      NoneAccrued(elapsed, rate);
      hide Accrued;
    }
  }

  lemma NoneAccrued(elapsed: int, rate: int)
    requires elapsed < 0 && rate >= 0
    ensures elapsed * rate <= 0 && Accrued(elapsed, rate) <= 0
  {
    var x := elapsed * rate;
    assert x <= 0;
    Whole(-x);
  }

  /** Between calls a bucket gains worth at the rate. */
  lemma TimePasses(rate: int, b: Bucket, from: int, to: int)
    ensures Worth(rate, b, to) == Worth(rate, b, from) + rate * (to - from)
  {
    assert rate * (to - b.lastRefill) == rate * (from - b.lastRefill) + rate * (to - from);
  }

  /** A call takes one token's worth for a grant and never adds any. */
  lemma CallWorth(rate: int, b: Bucket, c: Call)
    requires rate >= 0 && b.lastRefill <= c.time && BucketOk(rate, Some(b))
    ensures var t := After(rate, Some(b), c);
      && t.Some? && t.value.lastRefill <= c.time
      && Worth(rate, t.value, c.time) + (if Grants(rate, Some(b), c) then SECOND else 0) <= Worth(rate, b, c.time)
      && Worth(rate, t.value, c.time) + (if Grants(rate, Some(b), c) then SECOND else 0) < rate * SECOND + SECOND
  {
    RefillWorth(rate, b, c.time);
    hide Refilled;
  }

  /** The calls after the first are paid for by what the bucket is worth at its end and the
      time since. */
  lemma {:induction false} Paid(rate: int, b: Bucket, calls: seq<Call>)
    requires rate >= 0 && calls != [] && InOrder(calls) && b.lastRefill <= calls[0].time && BucketOk(rate, Some(b))
    ensures var t, last := AfterAll(rate, Some(b), calls), calls[|calls| - 1].time;
      && t.Some? && t.value.lastRefill <= last && BucketOk(rate, t)
      && Granted(rate, Some(b), calls) * SECOND + Worth(rate, t.value, last) < rate * SECOND + SECOND + rate * (last - calls[0].time)
  {
    hide Worth, After, Grants, BucketOk;
    var n := |calls| - 1;
    var init := calls[..n];
    if n == 0 {
      assert init == [] && rate * (calls[n].time - calls[0].time) == 0;
      CallWorth(rate, b, calls[0]);
      AfterKeeps(rate, Some(b), calls[0]);
    } else {
      Paid(rate, b, init);
      var mid := AfterAll(rate, Some(b), init).value;
      var before, now := calls[n - 1].time, calls[n].time;
      TimePasses(rate, mid, before, now);
      CallWorth(rate, mid, calls[n]);
      AfterKeeps(rate, Some(mid), calls[n]);
      assert rate * (now - calls[0].time) == rate * (before - calls[0].time) + rate * (now - before);
    }
  }

  lemma WorthPositive(rate: int, b: Bucket, time: int)
    requires rate >= 0 && b.lastRefill <= time && BucketOk(rate, Some(b))
    ensures Worth(rate, b, time) >= 0
  {
    assert rate * (time - b.lastRefill) >= 0;
  }

  /** In any window of T nanoseconds, with looks at the quota in between, fewer than
      rate + rate * T / SECOND + 1 requests are granted. */
  lemma WindowBound(rate: int, b: Bucket, calls: seq<Call>)
    requires rate >= 0 && calls != [] && InOrder(calls) && b.lastRefill <= calls[0].time && BucketOk(rate, Some(b))
    ensures Granted(rate, Some(b), calls) * SECOND < rate * SECOND + rate * (calls[|calls| - 1].time - calls[0].time) + SECOND
  {
    Paid(rate, b, calls);
    hide Worth, Granted;
    WorthPositive(rate, AfterAll(rate, Some(b), calls).value, calls[|calls| - 1].time);
  }

  // --- Windows of a whole history -------------------------------------------------

  lemma {:induction false} Splits(rate: int, b: Option<Bucket>, p: seq<Call>, q: seq<Call>)
    ensures AfterAll(rate, b, p + q) == AfterAll(rate, AfterAll(rate, b, p), q)
    ensures Granted(rate, b, p + q) == Granted(rate, b, p) + Granted(rate, AfterAll(rate, b, p), q)
  {
    hide After, Grants;
    if q == [] {
      assert p + q == p;
    } else {
      var n := |q| - 1;
      Splits(rate, b, p, q[..n]);
      assert (p + q)[..|p| + n] == p + q[..n];
    }
  }

  /** A bucket was last refilled at the time of some call. */
  lemma {:induction false} RefilledBefore(rate: int, calls: seq<Call>, time: int)
    requires forall i :: 0 <= i < |calls| ==> calls[i].time <= time
    ensures var b := AfterAll(rate, None, calls);
      BucketOk(rate, b) && (b.Some? ==> b.value.lastRefill <= time)
  {
    hide Accrued;
    if calls != [] {
      RefilledBefore(rate, calls[..|calls| - 1], time);
    }
  }

  /** Without a bucket a request works on a full one and a look changes nothing. */
  lemma OpensFull(rate: int, c: Call)
    ensures var b := if c.request then Some(Bucket(rate, c.time)) else None;
      After(rate, None, c) == After(rate, b, c) && Grants(rate, None, c) == Grants(rate, b, c)
    ensures !c.request ==> After(rate, None, c) == None && !Grants(rate, None, c)
  {
    hide Refilled;
  }

  /** The bound also holds where the bucket is opened inside the window. */
  lemma {:induction false} FreshWindow(rate: int, calls: seq<Call>)
    requires rate >= 0 && calls != [] && InOrder(calls)
    ensures Granted(rate, None, calls) * SECOND < rate * SECOND + rate * (calls[|calls| - 1].time - calls[0].time) + SECOND
    decreases |calls|
  {
    hide After, Grants;
    var first, rest := calls[..1], calls[1..];
    assert calls == first + rest && first[..0] == [];
    OpensFull(rate, calls[0]);
    Splits(rate, None, first, rest);
    if first[0].request {
      var b := Some(Bucket(rate, calls[0].time));
      Splits(rate, b, first, rest);
      WindowBound(rate, b.value, calls);
    } else if rest != [] {
      FreshWindow(rate, rest);
      var from, mid, to := calls[0].time, rest[0].time, calls[|calls| - 1].time;
      SpanGrows(rate, from, mid, to);
    } else {
      assert rate * (calls[|calls| - 1].time - calls[0].time) == 0;
    }
  }

  lemma SpanGrows(rate: int, from: int, mid: int, to: int)
    requires rate >= 0 && from <= mid
    ensures rate * (to - mid) <= rate * (to - from)
  {
  }

  /** For calls in the order of time, any stretch i..j of them is granted at most
      rate + rate * T + 1 tokens, T being the seconds it spans. */
  lemma AnyWindow(rate: int, calls: seq<Call>, i: nat, j: nat)
    requires rate >= 0 && InOrder(calls) && i < j <= |calls|
    ensures (Granted(rate, None, calls[..j]) - Granted(rate, None, calls[..i])) * SECOND
         < rate * SECOND + rate * (calls[j - 1].time - calls[i].time) + SECOND
  {
    hide Granted, After, AfterAll;
    var p, q := calls[..i], calls[i..j];
    assert calls[..j] == p + q;
    Splits(rate, None, p, q);
    RefilledBefore(rate, p, calls[i].time);
    match AfterAll(rate, None, p) {
      case None => FreshWindow(rate, q);
      case Some(b) => WindowBound(rate, b, q);
    }
  }

  // --- The bound is reached -------------------------------------------------------

  function Burst(time: int, n: nat): seq<Call> {
    seq(n, _ => Call(time, true))
  }

  /** Nothing more is due at that time, whatever is taken from the bucket. */
  ghost predicate Settled(rate: int, b: Bucket, time: int) {
    forall k :: Refilled(rate, b.(tokens := k), time) == b.(tokens := k)
  }

  /** A bucket that holds at least n tokens once refilled grants n requests at one time. */
  lemma {:induction false} BurstGranted(rate: int, b: Bucket, time: int, n: nat)
    requires 1 <= n <= Refilled(rate, b, time).tokens && Settled(rate, Refilled(rate, b, time), time)
    ensures var full := Refilled(rate, b, time);
      && AfterAll(rate, Some(b), Burst(time, n)) == Some(full.(tokens := full.tokens - n))
      && Granted(rate, Some(b), Burst(time, n)) == n
  {
    hide Refilled;
    assert Burst(time, n)[..n - 1] == Burst(time, n - 1);
    if n > 1 {
      BurstGranted(rate, b, time, n - 1);
    }
  }

  /** A full bucket earns nothing within `Pause` nanoseconds and one token a nanosecond later. */
  function Pause(rate: int): int
    requires rate > 0
  {
    (SECOND - 1) / rate
  }

  lemma PauseEarns(rate: int)
    requires 0 < rate < SECOND
    ensures Pause(rate) >= 0 && Accrued(Pause(rate), rate) == 0 && Accrued(Pause(rate) + 1, rate) == 1
  {
    var p := Pause(rate);
    assert p * rate <= SECOND - 1 < (p + 1) * rate;
    assert (p + 1) * rate == p * rate + rate;
  }

  lemma SecondEarns(rate: int)
    requires rate >= 0
    ensures Accrued(SECOND, rate) == rate && Accrued(0, rate) == 0
  {
  }

  lemma FullAgain(rate: int, time: int)
    requires rate > 0
    ensures var full := Refilled(rate, Bucket(0, time), time + SECOND);
      full == Bucket(rate, time + SECOND) && Settled(rate, full, time + SECOND)
  {
    SecondEarns(rate);
    hide Accrued;
  }

  /** Bursts of `rate` requests, one each second after `time`. */
  function Bursts(rate: nat, time: int, k: nat): seq<Call> {
    if k == 0 then [] else Bursts(rate, time, k - 1) + Burst(time + k * SECOND, rate)
  }

  lemma {:induction false} BurstsGranted(rate: nat, time: int, k: nat)
    requires rate > 0
    ensures var b, calls := Some(Bucket(0, time)), Bursts(rate, time, k);
      && AfterAll(rate, b, calls) == Some(Bucket(0, time + k * SECOND))
      && Granted(rate, b, calls) == k * rate
  {
    hide Accrued, Refilled, Settled, Burst, After, Grants;
    if k > 0 {
      var last, now := time + (k - 1) * SECOND, time + k * SECOND;
      BurstsGranted(rate, time, k - 1);
      FullAgain(rate, last);
      BurstGranted(rate, Bucket(0, last), now, rate);
      hide Granted, AfterAll;
      Splits(rate, Some(Bucket(0, time)), Bursts(rate, time, k - 1), Burst(now, rate));
      assert k * rate == (k - 1) * rate + rate;
    }
  }

  lemma {:induction false} BurstsInOrder(rate: nat, time: int, k: nat)
    requires rate > 0
    ensures var calls := Bursts(rate, time, k);
      && InOrder(calls) && (forall i :: 0 <= i < |calls| ==> time <= calls[i].time <= time + k * SECOND)
      && (k > 0 ==> calls != [] && calls[|calls| - 1].time == time + k * SECOND)
  {
    if k > 0 {
      BurstsInOrder(rate, time, k - 1);
    }
  }

  /** A key whose bucket is full again a second after its first request; it is asked for
      the burst just before the next token is due, for that token, and then each second. */
  function Warm(): seq<Call> {
    [Call(0, true), Call(SECOND, false)]
  }

  function Greedy(rate: nat, k: nat): seq<Call>
    requires rate > 0
  {
    var start := SECOND + Pause(rate);
    Burst(start, rate) + Burst(start + 1, 1) + Bursts(rate, start + 1, k)
  }

  lemma WarmIsFull(rate: nat)
    requires rate > 0
    ensures AfterAll(rate, None, Warm()) == Some(Bucket(rate, SECOND))
  {
    SecondEarns(rate);
    hide Accrued;
    assert Warm()[..1] == [Call(0, true)] && Warm()[..1][..0] == [];
    assert AfterAll(rate, None, Warm()[..1]) == Some(Bucket(rate - 1, 0));
  }

  lemma GreedyGranted(rate: nat, k: nat)
    requires 0 < rate < SECOND
    ensures Granted(rate, Some(Bucket(rate, SECOND)), Greedy(rate, k)) == rate + 1 + k * rate
  {
    var start := SECOND + Pause(rate);
    PauseEarns(rate);
    SecondEarns(rate);
    hide Accrued, Pause;
    var b := Bucket(rate, SECOND);
    BurstGranted(rate, b, start, rate);
    BurstGranted(rate, Bucket(0, SECOND), start + 1, 1);
    BurstsGranted(rate, start + 1, k);
    hide Refilled;
    Splits(rate, Some(b), Burst(start, rate), Burst(start + 1, 1));
    Splits(rate, Some(b), Burst(start, rate) + Burst(start + 1, 1), Bursts(rate, start + 1, k));
  }

  lemma GreedyInOrder(rate: nat, k: nat)
    requires 0 < rate < SECOND
    ensures var calls := Greedy(rate, k);
      && calls != [] && InOrder(calls) && calls[0].time >= SECOND
      && calls[|calls| - 1].time - calls[0].time == k * SECOND + 1
  {
    PauseEarns(rate);
    BurstsInOrder(rate, SECOND + Pause(rate) + 1, k);
    hide Accrued, Pause;
  }

  lemma Room(rate: nat, k: nat)
    ensures rate * (k * SECOND + 1) == rate * k * SECOND + rate && rate * k == k * rate
  {
  }

  /** The bound of `AnyWindow` is reached: for every rate below one token a nanosecond and
      every k there are calls, in the order of time, of which a stretch of k seconds and a
      nanosecond is granted rate + rate * k + 1 tokens, and one more would break the bound. */
  lemma WindowReached(rate: nat, k: nat)
    requires 0 < rate < SECOND
    ensures var calls, n := Warm() + Greedy(rate, k), |Warm() + Greedy(rate, k)|;
      && InOrder(calls) && n > 2
      && calls[n - 1].time - calls[2].time == k * SECOND + 1
      && Granted(rate, None, calls[..n]) - Granted(rate, None, calls[..2]) == rate + rate * k + 1
      && (rate + rate * k + 2) * SECOND >= rate * SECOND + rate * (calls[n - 1].time - calls[2].time) + SECOND
  {
    hide Granted, AfterAll, Greedy;
    var calls := Warm() + Greedy(rate, k);
    var n := |calls|;
    WarmIsFull(rate);
    GreedyGranted(rate, k);
    Splits(rate, None, Warm(), Greedy(rate, k));
    assert calls[..n] == calls && calls[..2] == Warm();
    GreedyInOrder(rate, k);
    Room(rate, k);
  }

  // --- The limiter ----------------------------------------------------------------

  class RateLimiter {
    const enabled: bool
    const rate: int
    var buckets: map<string, Bucket>

    ghost function BucketOf(key: string): Option<Bucket>
      reads this
    {
      if key in buckets then Some(buckets[key]) else None
    }

    constructor (enabled: bool, rate: int)
      ensures this.enabled == enabled && this.rate == rate && forall key :: BucketOf(key) == AfterAll(rate, None, [])
    {
      this.enabled, this.rate, buckets := enabled, rate, map[];
    }

    method AllowRequest(key: string, time: int) returns (allowed: bool)
      modifies this
      ensures !enabled ==> allowed && buckets == old(buckets)
      ensures enabled ==> (allowed <==> Grants(rate, old(BucketOf(key)), Call(time, true)))
      ensures enabled ==> BucketOf(key) == After(rate, old(BucketOf(key)), Call(time, true))
      ensures forall other :: other != key ==> BucketOf(other) == old(BucketOf(other))
    {
      if !enabled { return true; }
      var b := if key in buckets then buckets[key] else Bucket(rate, time);
      var add := Accrued(time - b.lastRefill, rate);
      if add > 0 {
        var tokens := b.tokens + add;
        if tokens > rate { tokens := rate; }
        b := Bucket(tokens, time);
      }
      allowed := b.tokens > 0;
      if allowed { b := b.(tokens := b.tokens - 1); }
      buckets := buckets[key := b];
    }

    method GetRemainingQuota(key: string, time: int) returns (quota: int)
      modifies this
      ensures !enabled ==> quota == -1 && buckets == old(buckets)
      ensures enabled ==> BucketOf(key) == After(rate, old(BucketOf(key)), Call(time, false))
      ensures enabled ==> quota == if BucketOf(key).Some? then BucketOf(key).value.tokens else rate
      ensures forall other :: other != key ==> BucketOf(other) == old(BucketOf(other))
    {
      if !enabled { return -1; }
      if key !in buckets { return rate; }
      var b := buckets[key];
      var add := Accrued(time - b.lastRefill, rate);
      if add > 0 {
        var tokens := b.tokens + add;
        if tokens > rate { tokens := rate; }
        b := Bucket(tokens, time);
      }
      buckets := buckets[key := b];
      return b.tokens;
    }
  }
}
