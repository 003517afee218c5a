// Retry delays: internal/domain/retry_policy.go and NextRetryDelay.

module Backoff {
  import opened Wrappers
  import opened Domain
  import opened Clock
  import Accounting
  import Invariants
  import Network
  import Protocol
  import Streams

  /** RetryPolicy; delays in nanoseconds. */
  datatype RetryPolicy = RetryPolicy(maxAttempts: int, baseDelay: int, maxDelay: int, jitterFactor: real) {
    // The documented domain of the configuration.
    ghost predicate Valid() {
      baseDelay >= 0 && maxDelay >= 0 && 0.0 <= jitterFactor <= 1.0
    }

    // BaseDelay * 2^attempt, capped at MaxDelay.
    function Base(attempt: nat): int {
      if baseDelay * Pow2(attempt) > maxDelay then maxDelay else baseDelay * Pow2(attempt)
    }

    /** ComputeDelay with the random draw as a parameter and exact arithmetic in
        place of float64. */
    function ComputeDelay(attempt: int, draw: real): int {
      var base := Base(Clamp(attempt));
      var delay := Truncate(Jittered(base as real, draw, jitterFactor));
      if delay > maxDelay then maxDelay else delay
    }
  }

  // Negative attempts count as 0.
  function Clamp(attempt: int): nat { Max(0, attempt) }

  // time.Duration(x): rounded towards zero.
  function Truncate(x: real): int {
    if x >= 0.0 then x.Floor else -((-x).Floor)
  }

  function Jittered(base: real, draw: real, factor: real): real {
    base + draw * base * factor
  }

  // A delay stretched by the whole jitter share.
  function Stretched(delay: int, factor: real): real {
    delay as real * (1.0 + factor)
  }

  function Pow2(n: nat): (p: nat)
    ensures p >= 1
  {
    if n == 0 then 1 else 2 * Pow2(n - 1)
  }

  function PolicyForType(taskType: string): RetryPolicy {
    RetryPolicy(DefaultMaxAttempts(taskType), 1 * SECOND, 15 * 60 * SECOND, 0.2)
  }

  function NextRetryDelay(t: Task, draw: real): int {
    PolicyForType(t.taskType).ComputeDelay(t.attempt, draw)
  }

  lemma Scale(x: real, lo: real, f: real, hi: real)
    requires x >= 0.0 && lo <= f <= hi
    ensures x * lo <= x * f <= x * hi
  {
  }

  lemma JitterWindow(base: int, draw: real, factor: real)
    requires base >= 0 && 0.0 <= draw < 1.0 && 0.0 <= factor <= 1.0
    ensures base as real <= Jittered(base as real, draw, factor) <= Stretched(base, factor) <= (2 * base) as real
  {
    var b := base as real;
    Scale(b, 0.0, draw, 1.0);
    var y := draw * b;
    Scale(factor, 0.0, y, b);
    Scale(b, 1.0, 1.0 + factor, 2.0);
    assert b * (1.0 + factor) == b + factor * b;
    assert Jittered(b, draw, factor) == b + factor * y;
  }

  lemma BaseRange(p: RetryPolicy, n: nat)
    requires p.Valid()
    ensures 0 <= p.Base(n) <= p.maxDelay && p.Base(n) <= p.baseDelay * Pow2(n)
    ensures p.Base(n + 1) == Min(2 * p.Base(n), p.maxDelay)
  {
    var u := p.baseDelay * Pow2(n);
    assert p.baseDelay * Pow2(n + 1) == 2 * u;
    assert u >= 0;
  }

  lemma TruncateWindow(x: real, lo: int)
    requires 0.0 <= lo as real <= x
    ensures lo <= Truncate(x) && Truncate(x) as real <= x
  {
  }

  lemma Recap(b: int, cap: int, d: int, x: real, u: real)
    requires 0 <= b <= cap && b <= d && d as real <= x <= u <= (2 * b) as real
    ensures var r := if d > cap then cap else d;
            b <= r <= cap && r as real <= u && r <= 2 * b
  {
  }

  /** Whatever the draw, a delay lies between the un-jittered delay and that plus
      the jitter share, and never beyond the cap. */
  lemma DelayWindow(p: RetryPolicy, attempt: int, draw: real)
    requires p.Valid() && 0.0 <= draw < 1.0
    ensures p.Base(Clamp(attempt)) <= p.ComputeDelay(attempt, draw) <= p.maxDelay
    ensures p.ComputeDelay(attempt, draw) as real <= Stretched(p.Base(Clamp(attempt)), p.jitterFactor)
    ensures p.ComputeDelay(attempt, draw) <= 2 * p.Base(Clamp(attempt))
  {
    hide Jittered, Stretched, Pow2, Truncate, RetryPolicy.Base;
    var b := p.Base(Clamp(attempt));
    BaseRange(p, Clamp(attempt));
    var x := Jittered(b as real, draw, p.jitterFactor);
    JitterWindow(b, draw, p.jitterFactor);
    TruncateWindow(x, b);
    Recap(b, p.maxDelay, Truncate(x), x, Stretched(b, p.jitterFactor));
  }

  // The draw that lands on d.
  lemma DrawFor(base: int, factor: real, d: int) returns (draw: real)
    requires 0 <= base < d && 0.0 <= factor && d as real < Stretched(base, factor)
    ensures 0.0 <= draw < 1.0 && Jittered(base as real, draw, factor) == d as real
  {
    var gap := (d - base) as real;
    var share, _ := JitterSum(base, 0.0, factor);
    assert 0.0 < gap < share;
    draw := Quotient(gap, share);
    var share', x := JitterSum(base, draw, factor);
    assert share' == share;
  }

  lemma Quotient(gap: real, share: real) returns (q: real)
    requires 0.0 < gap < share
    ensures 0.0 < q < 1.0 && q * share == gap
  {
    q := gap / share;
    assert q * share == gap;
    if q <= 0.0 {
      Scale(share, q, q, 0.0);
    } else if q >= 1.0 {
      Scale(share, 1.0, q, q);
    }
  }

  // Short of the whole jitter share, unless there is none.
  lemma JitterOpen(base: int, draw: real, factor: real)
    requires base >= 0 && 0.0 <= draw < 1.0 && 0.0 <= factor
    ensures Jittered(base as real, draw, factor) == base as real || Jittered(base as real, draw, factor) < Stretched(base, factor)
  {
    var share, x := JitterSum(base, draw, factor);
    ShareOpen(draw, share, x);
  }

  lemma ShareOpen(draw: real, share: real, x: real)
    requires 0.0 <= draw < 1.0 && share >= 0.0 && x == draw * share
    ensures if share == 0.0 then x == 0.0 else x < share
  {
    if share > 0.0 {
      Product(1.0 - draw, share);
      assert (1.0 - draw) * share == share - x;
    }
  }

  lemma Product(a: real, b: real)
    requires a > 0.0 && b > 0.0
    ensures a * b > 0.0
  {
  }

  lemma JitterSum(base: int, draw: real, factor: real) returns (share: real, x: real)
    requires base >= 0 && 0.0 <= factor
    ensures share == base as real * factor >= 0.0 && x == draw * share
    ensures Stretched(base, factor) == base as real + share
    ensures Jittered(base as real, draw, factor) == base as real + x
  {
    var b := base as real;
    share := b * factor;
    x := draw * share;
    assert draw * b * factor == draw * (b * factor);
  }

  /** Exactly which delays an attempt can get: the capped exponential itself, and
      every longer one up to the cap that falls short of the whole jitter share. */
  lemma PossibleDelays(p: RetryPolicy, attempt: int, d: int)
    requires p.Valid()
    ensures var base := p.Base(Clamp(attempt));
            (exists draw | 0.0 <= draw < 1.0 :: p.ComputeDelay(attempt, draw) == d)
            <==> d == base || (base < d <= p.maxDelay && d as real < Stretched(base, p.jitterFactor))
  {
    var base := p.Base(Clamp(attempt));
    var b := base as real;
    BaseRange(p, Clamp(attempt));
    hide Jittered, Stretched, Pow2, RetryPolicy.Base;
    if draw :| 0.0 <= draw < 1.0 && p.ComputeDelay(attempt, draw) == d {
      var x := Jittered(b, draw, p.jitterFactor);
      DelayWindow(p, attempt, draw);
      JitterWindow(base, draw, p.jitterFactor);
      JitterOpen(base, draw, p.jitterFactor);
      TruncateWindow(x, base);
      assert d as real <= x;
    }
    if d == base {
      Unjittered(base, p.jitterFactor);
      assert p.ComputeDelay(attempt, 0.0) == d;
    } else if base < d <= p.maxDelay && d as real < Stretched(base, p.jitterFactor) {
      var draw := DrawFor(base, p.jitterFactor, d);
      assert p.ComputeDelay(attempt, draw) == d;
    }
  }

  lemma Unjittered(base: int, factor: real)
    ensures Jittered(base as real, 0.0, factor) == base as real
  {
  }

  lemma {:induction false} BaseGrows(p: RetryPolicy, m: nat, n: nat)
    requires p.Valid() && m <= n
    ensures p.Base(m) <= p.Base(n)
    decreases n - m
  {
    hide RetryPolicy.Base, RetryPolicy.ComputeDelay;
    BaseRange(p, m);
    if m < n {
      BaseRange(p, m + 1);
      BaseGrows(p, m + 1, n);
    }
  }

  /** The windows of different attempts do not overlap: a later retry never waits
      less than an earlier one, whatever the two draws. */
  lemma DelaysGrow(p: RetryPolicy, m: int, n: int, draw: real, draw': real)
    requires p.Valid() && 0.0 <= draw < 1.0 && 0.0 <= draw' < 1.0 && Clamp(m) < Clamp(n)
    ensures p.ComputeDelay(m, draw) <= p.ComputeDelay(n, draw')
  {
    hide RetryPolicy.ComputeDelay, RetryPolicy.Base;
    DelayWindow(p, m, draw);
    DelayWindow(p, n, draw');
    BaseRange(p, Clamp(m));
    BaseGrows(p, Clamp(m) + 1, Clamp(n));
  }

  /** The supervisor increments Attempt before it asks for the delay, so the
      retries of a task wait for attempts 1, 2, ..., n. */
  function TotalDelay(p: RetryPolicy, draws: seq<real>): int {
    if draws == [] then 0
    else TotalDelay(p, draws[..|draws| - 1]) + p.ComputeDelay(|draws|, draws[|draws| - 1])
  }

  lemma StretchedSum(a: int, b: int, f: real)
    ensures Stretched(a + b, f) == Stretched(a, f) + Stretched(b, f)
  {
    assert (a + b) as real == a as real + b as real;
  }

  lemma StretchedGrows(a: int, b: int, f: real)
    requires a <= b && f >= 0.0
    ensures Stretched(a, f) <= Stretched(b, f)
  {
    Scale(1.0 + f, a as real, b as real, b as real);
  }

  lemma GeometricStep(base: int, n: nat)
    ensures base * (Pow2(n + 2) - 2) == base * (Pow2(n + 1) - 2) + base * Pow2(n + 1)
  {
    assert Pow2(n + 2) == 2 * Pow2(n + 1);
  }

  // Un-jittered, the waits before attempts 1..n add up to at most this.
  function Geometric(base: int, n: nat): int {
    base * (Pow2(n + 1) - 2)
  }

  lemma GeometricBase(base: int, factor: real)
    ensures Stretched(Geometric(base, 0), factor) == 0.0
  {
    assert Pow2(1) == 2;
  }

  lemma {:induction false} TotalDelayGeometric(p: RetryPolicy, draws: seq<real>)
    requires p.Valid() && forall i | 0 <= i < |draws| :: 0.0 <= draws[i] < 1.0
    ensures TotalDelay(p, draws) as real <= Stretched(Geometric(p.baseDelay, |draws|), p.jitterFactor)
  {
    if draws == [] {
      GeometricBase(p.baseDelay, p.jitterFactor);
    } else {
      var n := |draws| - 1;
      GeometricStep(p.baseDelay, n);
      BaseRange(p, n + 1);
      var before, last := Geometric(p.baseDelay, n), p.baseDelay * Pow2(n + 1);
      assert Geometric(p.baseDelay, n + 1) == before + last;
      hide RetryPolicy.ComputeDelay, RetryPolicy.Base, Pow2, Stretched, Geometric;
      TotalDelayGeometric(p, draws[..n]);
      DelayWindow(p, n + 1, draws[n]);
      StretchedSum(before, last, p.jitterFactor);
      StretchedGrows(p.Base(n + 1), last, p.jitterFactor);
    }
  }

  lemma {:induction false} TotalDelayCap(p: RetryPolicy, draws: seq<real>)
    requires p.Valid() && forall i | 0 <= i < |draws| :: 0.0 <= draws[i] < 1.0
    ensures 0 <= TotalDelay(p, draws) <= |draws| * p.maxDelay
  {
    if draws != [] {
      hide RetryPolicy.ComputeDelay, RetryPolicy.Base, Pow2, Stretched;
      var n := |draws| - 1;
      TotalDelayCap(p, draws[..n]);
      DelayWindow(p, n + 1, draws[n]);
      BaseRange(p, n + 1);
      assert n * p.maxDelay + p.maxDelay == (n + 1) * p.maxDelay;
    }
  }

  /** All the waiting of a task with n retries: linear in the cap, geometric in
      the base delay. */
  lemma TotalDelayBound(p: RetryPolicy, draws: seq<real>)
    requires p.Valid() && forall i | 0 <= i < |draws| :: 0.0 <= draws[i] < 1.0
    ensures 0 <= TotalDelay(p, draws) <= |draws| * p.maxDelay
    ensures TotalDelay(p, draws) as real <= Stretched(Geometric(p.baseDelay, |draws|), p.jitterFactor)
  {
    TotalDelayCap(p, draws);
    TotalDelayGeometric(p, draws);
  }

  // ---- The waits of a task in the protocol ----

  // A copy about to be rescheduled is the delivered task, one attempt further.
  lemma Rescheduled(st: Protocol.State, c: nat)
    requires Protocol.Reachable(st) && Protocol.At(st, c, Protocol.Schedule)
    ensures Streams.Exists(st.broker, st.copies[c].from)
    ensures var delivered := Streams.Payload(st.broker, st.copies[c].from);
            st.copies[c].task.attempt == delivered.attempt + 1 && st.copies[c].task.taskType == delivered.taskType
  {
    hide Protocol.Reachable, Invariants.RecordsOk, Invariants.CopiesOk, Accounting.LedgerOk;
    hide Invariants.Positioned, Invariants.LocksOk, Invariants.DlqOk;
    Accounting.ReachableSound(st);
    Invariants.CopyFacts(st, c);
  }

  /** The record a failed attempt leaves in the retry set waits by the back-off of
      the attempt after the one that was delivered: Attempt is incremented first. */
  lemma RetryWait(st: Protocol.State, c: nat, draw: real)
    requires Protocol.Reachable(st) && Protocol.At(st, c, Protocol.Schedule) && 0.0 <= draw < 1.0
    ensures Streams.Exists(st.broker, st.copies[c].from)
    ensures var delivered := Streams.Payload(st.broker, st.copies[c].from);
            var record := st.copies[c].task;
            var p := PolicyForType(delivered.taskType);
            && record in Protocol.DoPostpone(st, c, Network.Done).retry
            && NextRetryDelay(record, draw) == p.ComputeDelay(delivered.attempt + 1, draw)
            && p.Base(Clamp(delivered.attempt + 1)) <= NextRetryDelay(record, draw) <= p.maxDelay
  {
    assert st.copies[c].task in Protocol.DoPostpone(st, c, Network.Done).retry;
    hide Protocol.Reachable, Protocol.DoPostpone, Protocol.At, RetryPolicy.ComputeDelay, RetryPolicy.Base;
    Rescheduled(st, c);
    var delivered := Streams.Payload(st.broker, st.copies[c].from);
    DelayWindow(PolicyForType(delivered.taskType), delivered.attempt + 1, draw);
  }

  // The waits of a task that fails at attempts 0 to n - 1.
  function TaskDelay(t: Task, draws: seq<real>): int {
    if draws == [] then 0
    else
      var n := |draws|;
      TaskDelay(t, draws[..n - 1]) + NextRetryDelay(t.(attempt := n), draws[n - 1])
  }

  /** All the waiting of a task with n retries, of any type: at most a quarter of
      an hour each, and at most 1.2 * (2^(n+1) - 2) seconds together. */
  lemma {:induction false} TaskDelayBound(t: Task, draws: seq<real>)
    requires forall i | 0 <= i < |draws| :: 0.0 <= draws[i] < 1.0
    ensures TaskDelay(t, draws) == TotalDelay(PolicyForType(t.taskType), draws)
    ensures TaskDelay(t, draws) <= |draws| * (15 * 60 * SECOND)
    ensures TaskDelay(t, draws) as real <= Stretched(Geometric(SECOND, |draws|), 0.2)
  {
    TotalDelayBound(PolicyForType(t.taskType), draws);
    hide RetryPolicy.ComputeDelay, Stretched, Geometric;
    if draws != [] {
      TaskDelayBound(t, draws[..|draws| - 1]);
    }
  }

  /** The first retry of a task of any type can wait for any time from 2 seconds up
      to 2.4, the end excluded, and for no other. */
  lemma FirstRetryWait(t: Task, d: int)
    requires t.attempt == 1
    ensures (exists draw | 0.0 <= draw < 1.0 :: NextRetryDelay(t, draw) == d)
            <==> 2 * SECOND <= d < 2 * SECOND + 400_000_000
  {
    var p := PolicyForType(t.taskType);
    assert Pow2(1) == 2 * Pow2(0) == 2;
    assert p.Base(1) == 2 * SECOND;
    assert Stretched(2 * SECOND, 0.2) == 2_400_000_000.0;
    hide RetryPolicy.ComputeDelay;
    PossibleDelays(p, 1, d);
    assert forall draw :: NextRetryDelay(t, draw) == p.ComputeDelay(1, draw);
  }

  lemma {:induction false} Pow2Grows(n: nat)
    requires n >= 10
    ensures Pow2(n) >= 1024
  {
    if n == 10 {
      assert Pow2(10) == 2 * Pow2(9) == 4 * Pow2(8) == 8 * Pow2(7) == 16 * Pow2(6) == 32 * Pow2(5);
      assert Pow2(5) == 2 * Pow2(4) == 4 * Pow2(3) == 8 * Pow2(2) == 16 * Pow2(1) == 32 * Pow2(0);
    } else {
      Pow2Grows(n - 1);
    }
  }

  /** From the tenth retry on every wait is a quarter of an hour. */
  lemma LateRetryWait(t: Task, draw: real)
    requires t.attempt >= 10 && 0.0 <= draw < 1.0
    ensures NextRetryDelay(t, draw) == 15 * 60 * SECOND
  {
    var p := PolicyForType(t.taskType);
    Pow2Grows(t.attempt);
    assert p.Base(t.attempt) == 15 * 60 * SECOND;
    hide RetryPolicy.ComputeDelay;
    DelayWindow(p, t.attempt, draw);
  }
}
