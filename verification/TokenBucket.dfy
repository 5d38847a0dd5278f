/** A bucket filled by a clock that runs in tokens: an arrival names the tokens that have flowed in
    by its time. All of the reasoning about windows is done on this clock. */
module FluidBucket {

  datatype Bucket = Bucket(capacity: real, tokens: real, mark: real)

  datatype Arrival = Arrival(clock: real, size: int)

  /** Tokens at `clock`: what flowed in since the last update, cut off at the capacity. */
  function Level(b: Bucket, clock: real): real {
    var tokens := b.tokens + (clock - b.mark);
    if tokens > b.capacity then b.capacity else tokens
  }

  function Take(b: Bucket, a: Arrival): (Bucket, bool) {
    if a.size <= 0 then (b, true)
    else
      var tokens := Level(b, a.clock);
      if a.size as real > tokens then (b.(tokens := tokens, mark := a.clock), false)
      else (b.(tokens := tokens - a.size as real, mark := a.clock), true)
  }

  function After(b: Bucket, arrivals: seq<Arrival>, n: nat): Bucket
    requires n <= |arrivals|
  {
    if n == 0 then b else Take(After(b, arrivals, n - 1), arrivals[n - 1]).0
  }

  predicate Allowed(b: Bucket, arrivals: seq<Arrival>, k: nat)
    requires k < |arrivals|
  {
    Take(After(b, arrivals, k), arrivals[k]).1
  }

  function Bytes(a: Arrival): real { if a.size <= 0 then 0.0 else a.size as real }

  /** Bytes that arrived, and bytes that were let through, from index `i` up to `j`. */
  function Offered(arrivals: seq<Arrival>, i: nat, j: nat): real
    requires i <= j <= |arrivals|
  {
    if i == j then 0.0 else Offered(arrivals, i, j - 1) + Bytes(arrivals[j - 1])
  }

  function Passed(b: Bucket, arrivals: seq<Arrival>, i: nat, j: nat): real
    requires i <= j <= |arrivals|
  {
    if i == j then 0.0
    else Passed(b, arrivals, i, j - 1) + (if Allowed(b, arrivals, j - 1) then Bytes(arrivals[j - 1]) else 0.0)
  }

  /** The clock never runs backwards. */
  ghost predicate Timed(b: Bucket, arrivals: seq<Arrival>) {
    && (forall k | 0 <= k < |arrivals| :: b.mark <= arrivals[k].clock)
    && (forall j, k | 0 <= j < k < |arrivals| :: arrivals[j].clock <= arrivals[k].clock)
  }

  ghost predicate Full(b: Bucket) { b.tokens == b.capacity >= 0.0 }

  /** The bucket stays within its bounds and its update time within the past. */
  lemma {:induction false} AfterSane(b: Bucket, arrivals: seq<Arrival>, n: nat)
    requires Full(b) && Timed(b, arrivals) && n <= |arrivals|
    ensures var c := After(b, arrivals, n);
            && c.capacity == b.capacity && 0.0 <= c.tokens <= c.capacity
            && (forall k | n <= k < |arrivals| :: c.mark <= arrivals[k].clock)
            && (n > 0 ==> c.mark <= arrivals[n - 1].clock)
  {
    if n > 0 {
      AfterSane(b, arrivals, n - 1);
    }
  }

  /** Whatever was let through since `i`, together with the level at a later time, stays below the
      capacity plus the inflow since `i`. */
  lemma {:induction false} PassedPlusLevel(b: Bucket, arrivals: seq<Arrival>, i: nat, j: nat, t: real)
    requires Full(b) && Timed(b, arrivals) && i <= j <= |arrivals| && i < |arrivals|
    requires t >= arrivals[i].clock && (j > i ==> t >= arrivals[j - 1].clock)
    ensures Passed(b, arrivals, i, j) + Level(After(b, arrivals, j), t) <= b.capacity + (t - arrivals[i].clock)
    decreases j
  {
    AfterSane(b, arrivals, j);
    if i < j {
      var last := arrivals[j - 1];
      PassedPlusLevel(b, arrivals, i, j - 1, if last.size <= 0 then t else last.clock);
    }
  }

  lemma WindowBound(b: Bucket, arrivals: seq<Arrival>, i: nat, j: nat)
    requires Full(b) && Timed(b, arrivals) && i < j <= |arrivals|
    ensures Passed(b, arrivals, i, j) <= b.capacity + (arrivals[j - 1].clock - arrivals[i].clock)
  {
    PassedPlusLevel(b, arrivals, i, j, arrivals[j - 1].clock);
    AfterSane(b, arrivals, j);
  }

  /** What arrives from `i` up to `j` fits the capacity plus the inflow between. */
  ghost predicate Fits(b: Bucket, arrivals: seq<Arrival>, i: nat, j: nat)
    requires i < j <= |arrivals|
  {
    Offered(arrivals, i, j) <= b.capacity + (arrivals[j - 1].clock - arrivals[i].clock)
  }

  ghost predicate Conforming(b: Bucket, arrivals: seq<Arrival>) {
    forall i: nat, j: nat | i < j <= |arrivals| :: Fits(b, arrivals, i, j)
  }

  /** Since some arrival that found the bucket full (or since the start) nothing was lost to the
      cut-off, so the tokens are the capacity plus the inflow minus the arrivals since then. */
  lemma {:induction false} SinceFull(b: Bucket, arrivals: seq<Arrival>, n: nat) returns (i: nat)
    requires Full(b) && Timed(b, arrivals) && n <= |arrivals|
    requires forall k | 0 <= k < n :: Allowed(b, arrivals, k)
    ensures i <= n
    ensures i == n ==> After(b, arrivals, n).tokens == b.capacity
    ensures i < n ==> var c := After(b, arrivals, n);
            c.tokens >= b.capacity + (c.mark - arrivals[i].clock) - Offered(arrivals, i, n)
  {
    if n == 0 { return 0; }
    var p := SinceFull(b, arrivals, n - 1);
    AfterSane(b, arrivals, n - 1);
    var c, a := After(b, arrivals, n - 1), arrivals[n - 1];
    assert Allowed(b, arrivals, n - 1);
    if a.size <= 0 {
      i := if p == n - 1 then n else p;
    } else if c.tokens + (a.clock - c.mark) >= b.capacity {
      i := n - 1;
      assert Offered(arrivals, i, n) == Offered(arrivals, i, n - 1) + Bytes(a) == Bytes(a);
    } else {
      i := p;
    }
  }

  lemma {:induction false} ConformingPasses(b: Bucket, arrivals: seq<Arrival>, n: nat)
    requires Full(b) && Timed(b, arrivals) && Conforming(b, arrivals) && n <= |arrivals|
    ensures forall k | 0 <= k < n :: Allowed(b, arrivals, k)
  {
    if n > 0 {
      ConformingPasses(b, arrivals, n - 1);
      var i := SinceFull(b, arrivals, n - 1);
      AfterSane(b, arrivals, n - 1);
      var a := arrivals[n - 1];
      assert Offered(arrivals, n - 1, n) == Offered(arrivals, n - 1, n - 1) + Bytes(a);
      assert Fits(b, arrivals, n - 1, n);
      if i < n - 1 {
        assert Fits(b, arrivals, i, n);
      }
    }
  }

  lemma {:induction false} AllPassed(b: Bucket, arrivals: seq<Arrival>, i: nat, j: nat)
    requires i <= j <= |arrivals| && forall k | 0 <= k < j :: Allowed(b, arrivals, k)
    ensures Passed(b, arrivals, i, j) == Offered(arrivals, i, j)
    decreases j
  {
    if i < j { AllPassed(b, arrivals, i, j - 1); }
  }

  /** No arrival is refused exactly when every window fits. */
  lemma NeverRefusedExactly(b: Bucket, arrivals: seq<Arrival>)
    requires Full(b) && Timed(b, arrivals)
    ensures (forall k | 0 <= k < |arrivals| :: Allowed(b, arrivals, k)) <==> Conforming(b, arrivals)
  {
    if Conforming(b, arrivals) {
      ConformingPasses(b, arrivals, |arrivals|);
    }
    if forall k | 0 <= k < |arrivals| :: Allowed(b, arrivals, k) {
      forall i: nat, j: nat | i < j <= |arrivals| ensures Fits(b, arrivals, i, j) {
        AllPassed(b, arrivals, i, j);
        WindowBound(b, arrivals, i, j);
      }
    }
  }
}

/** The ingest bitrate guard: a token bucket refilled at a constant rate. Bytes and seconds are
    reals; the clock is a parameter. */
module TokenBucket {
  import Fluid = FluidBucket

  lemma Distribute(r: real, x: real, y: real)
    ensures (x - y) * r == x * r - y * r
  {
  }

  lemma MulMonotone(r: real, x: real, y: real)
    requires r >= 0.0 && x <= y
    ensures x * r <= y * r
  {
    assert (y - x) * r >= 0.0;
  }

  /** A step of the bucket on the token clock, given its inflow. */
  lemma TakeBy(b: Fluid.Bucket, clock: real, size: int, inflow: real)
    requires size > 0 && inflow == clock - b.mark
    ensures var full := b.tokens + inflow;
            var level := if full > b.capacity then b.capacity else full;
            var ok := size as real <= level;
            Fluid.Take(b, Fluid.Arrival(clock, size))
            == (Fluid.Bucket(b.capacity, if ok then level - size as real else level, clock), ok)
  {
  }

  // ---- The guard ----

  function BytesPerSecond(kbps: int): real { (kbps * 1000) as real / 8.0 }

  class Limiter {
    var bytesPerSecond: real
    var capacity: real
    var tokens: real
    var updated: real

    /** The guard seen on the token clock. */
    ghost function View(): Fluid.Bucket
      reads this
    {
      Fluid.Bucket(capacity, tokens, Flow(bytesPerSecond)(updated))
    }

    constructor (kbps: int, burstSeconds: real, now: real)
      ensures bytesPerSecond == BytesPerSecond(kbps)
      ensures View() == New(kbps, burstSeconds, now)
    {
      var rate := (kbps * 1000) as real / 8.0;
      bytesPerSecond := rate;
      capacity := rate * burstSeconds;
      tokens := rate * burstSeconds;
      updated := now;
    }

    /** One call refines one step of the bucket on the token clock. */
    method Allow(size: int, now: real) returns (ok: bool)
      modifies this`tokens, this`updated
      ensures (View(), ok) == Fluid.Take(old(View()), Melt(Flow(bytesPerSecond), Arrival(now, size)))
    {
      if size <= 0 { return true; }
      ghost var before, clock := View(), Flow(bytesPerSecond)(now);
      var inflow := (now - updated) * bytesPerSecond;
      assert inflow == clock - before.mark by { Distribute(bytesPerSecond, now, updated); }
      TakeBy(before, clock, size, inflow);
      tokens := tokens + inflow;
      if tokens > capacity {
        tokens := capacity;
      }
      updated := now;
      assert View() == Fluid.Bucket(capacity, tokens, clock);
      if size as real > tokens { return false; }
      tokens := tokens - size as real;
      ok := true;
    }
  }

  // ---- Whole runs of a new guard ----

  datatype Arrival = Arrival(at: real, size: int)

  /** The token clock of a guard: the tokens that have flowed in by a time. */
  ghost function Flow(rate: real): real -> real { t => t * rate }

  ghost function New(kbps: int, burstSeconds: real, now: real): Fluid.Bucket {
    var capacity := BytesPerSecond(kbps) * burstSeconds;
    Fluid.Bucket(capacity, capacity, Flow(BytesPerSecond(kbps))(now))
  }

  ghost function Melt(flow: real -> real, a: Arrival): Fluid.Arrival { Fluid.Arrival(flow(a.at), a.size) }

  ghost function MeltAll(flow: real -> real, arrivals: seq<Arrival>): (r: seq<Fluid.Arrival>)
    ensures |r| == |arrivals| && forall k | 0 <= k < |arrivals| :: r[k] == Melt(flow, arrivals[k])
  {
    seq(|arrivals|, k requires 0 <= k < |arrivals| => Melt(flow, arrivals[k]))
  }

  /** The clock never runs backwards. */
  ghost predicate Timed(now: real, arrivals: seq<Arrival>) {
    && (forall k | 0 <= k < |arrivals| :: now <= arrivals[k].at)
    && (forall j, k | 0 <= j < k < |arrivals| :: arrivals[j].at <= arrivals[k].at)
  }

  /** A full guard whose clock stands at `now`. */
  ghost predicate Started(rate: real, b: Fluid.Bucket, now: real) { Fluid.Full(b) && b.mark == Flow(rate)(now) }

  ghost predicate Monotone(flow: real -> real) {
    forall x, y | x <= y :: flow(x) <= flow(y)
  }

  lemma FlowMonotone(rate: real)
    requires rate >= 0.0
    ensures Monotone(Flow(rate))
  {
    forall x, y | x <= y ensures Flow(rate)(x) <= Flow(rate)(y) {
      MulMonotone(rate, x, y);
    }
  }

  /** A new guard is a full bucket, and eight bits make a byte, a thousand a kilobit. */
  lemma NewFull(kbps: int, burstSeconds: real, now: real)
    requires kbps >= 0 && burstSeconds >= 0.0
    ensures 8.0 * BytesPerSecond(kbps) == 1000.0 * kbps as real
    ensures BytesPerSecond(kbps) >= 0.0 && Started(BytesPerSecond(kbps), New(kbps, burstSeconds, now), now)
  {
    MulMonotone(burstSeconds, 0.0, BytesPerSecond(kbps));
  }

  lemma FlowWindow(flow: real -> real, b: Fluid.Bucket, now: real, arrivals: seq<Arrival>, i: nat, j: nat,
                   from: real, to: real)
    requires Monotone(flow) && Fluid.Full(b) && b.mark == flow(now) && Timed(now, arrivals) && i < j <= |arrivals|
    requires from <= arrivals[i].at && arrivals[j - 1].at <= to
    ensures Fluid.Passed(b, MeltAll(flow, arrivals), i, j) <= b.capacity + (flow(to) - flow(from))
  {
    Fluid.WindowBound(b, MeltAll(flow, arrivals), i, j);
  }

  lemma FlowSpan(rate: real, passed: real, capacity: real, from: real, to: real)
    requires passed <= capacity + (Flow(rate)(to) - Flow(rate)(from))
    ensures passed <= capacity + (to - from) * rate
  {
    Distribute(rate, to, from);
  }

  /** Main result, the upper bound: in any window of time the guard lets through at most its
      capacity plus the rate times the length of the window. */
  lemma WindowBound(rate: real, b: Fluid.Bucket, now: real, arrivals: seq<Arrival>, i: nat, j: nat, from: real,
                    to: real)
    requires rate >= 0.0 && Started(rate, b, now) && Timed(now, arrivals)
    requires i < j <= |arrivals| && from <= arrivals[i].at && arrivals[j - 1].at <= to
    ensures Fluid.Passed(b, MeltAll(Flow(rate), arrivals), i, j) <= b.capacity + (to - from) * rate
  {
    FlowMonotone(rate);
    FlowWindow(Flow(rate), b, now, arrivals, i, j, from, to);
    FlowSpan(rate, Fluid.Passed(b, MeltAll(Flow(rate), arrivals), i, j), b.capacity, from, to);
  }

  /** What arrives from `i` up to `j` fits the capacity plus the rate times the time between. */
  ghost predicate Fits(rate: real, capacity: real, arrivals: seq<Arrival>, i: nat, j: nat)
    requires i < j <= |arrivals|
  {
    Fluid.Offered(MeltAll(Flow(rate), arrivals), i, j) <= capacity + (arrivals[j - 1].at - arrivals[i].at) * rate
  }

  ghost predicate Conforming(rate: real, capacity: real, arrivals: seq<Arrival>) {
    forall i: nat, j: nat | i < j <= |arrivals| :: Fits(rate, capacity, arrivals, i, j)
  }

  lemma FitsOnBothClocks(rate: real, b: Fluid.Bucket, arrivals: seq<Arrival>, i: nat, j: nat)
    requires i < j <= |arrivals|
    ensures Fits(rate, b.capacity, arrivals, i, j) <==> Fluid.Fits(b, MeltAll(Flow(rate), arrivals), i, j)
  {
    Distribute(rate, arrivals[j - 1].at, arrivals[i].at);
  }

  /** Main result, no false alarms: the guard refuses none of the arrivals exactly when they meet
      that bound in every window. */
  lemma NeverRefusedExactly(rate: real, b: Fluid.Bucket, now: real, arrivals: seq<Arrival>)
    requires rate >= 0.0 && Started(rate, b, now) && Timed(now, arrivals)
    ensures (forall k | 0 <= k < |arrivals| :: Fluid.Allowed(b, MeltAll(Flow(rate), arrivals), k))
            <==> Conforming(rate, b.capacity, arrivals)
  {
    FlowMonotone(rate);
    forall i: nat, j: nat | i < j <= |arrivals|
      ensures Fits(rate, b.capacity, arrivals, i, j) <==> Fluid.Fits(b, MeltAll(Flow(rate), arrivals), i, j)
    {
      FitsOnBothClocks(rate, b, arrivals, i, j);
    }
    Fluid.NeverRefusedExactly(b, MeltAll(Flow(rate), arrivals));
  }
}
