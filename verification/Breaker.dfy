// The circuit breaker: internal/adapters/email/circuit_breaker.go.

module Breaker {
  import opened Wrappers

  // What the breaker has been told, oldest first.
  datatype Report = Success | Failure(at: int)

  datatype Settings = Settings(maxFailures: int, openDuration: int) {
    // Below two, every failure trips.
    function Limit(): int { Max(1, maxFailures) }
  }

  // ---- An account of the history that knows no counter ----

  // Failures since the last success.
  function Streak(h: seq<Report>): nat {
    if h == [] || h[|h| - 1].Success? then 0 else 1 + Streak(h[..|h| - 1])
  }

  function Count(s: Settings, h: seq<Report>): int {
    Streak(h) % s.Limit()
  }

  // Report j tripped the breaker: it is the Limit-th failure of its streak, or
  // a multiple of that.
  predicate Trip(s: Settings, h: seq<Report>, j: int)
    requires 0 <= j < |h|
  {
    h[j].Failure? && Count(s, h[..j + 1]) == 0
  }

  // Report j tripped it, and there was neither a success nor a trip since.
  ghost predicate LastTrip(s: Settings, h: seq<Report>, j: int) {
    && 0 <= j < |h|
    && Trip(s, h, j)
    && forall k | j < k < |h| :: h[k].Failure? && !Trip(s, h, k)
  }

  /** At time t the breaker is open: its latest trip has seen no success since
      and is no older than openDuration. */
  ghost predicate Open(s: Settings, h: seq<Report>, t: int) {
    exists j :: LastTrip(s, h, j) && t <= h[j].at + s.openDuration
  }

  // ---- The breaker's own state ----

  datatype State = State(consecutive: int, openUntil: Option<int>)

  function Allows(b: State, now: int): bool {
    b.openUntil.None? || now > b.openUntil.value
  }

  function AfterSuccess(b: State): State {
    State(0, None)
  }

  function AfterFailure(s: Settings, b: State, now: int): State {
    if b.consecutive + 1 < s.maxFailures then b.(consecutive := b.consecutive + 1)
    else State(0, Some(now + s.openDuration))
  }

  function Replay(s: Settings, h: seq<Report>): State {
    if h == [] then State(0, None)
    else
      var b := Replay(s, h[..|h| - 1]);
      match h[|h| - 1]
      case Success => AfterSuccess(b)
      case Failure(at) => AfterFailure(s, b, at)
  }

  lemma AtLeastOnce(k: int, m: int)
    requires k >= 1 && m >= 1
    ensures k * m >= m
  {
    assert k * m == (k - 1) * m + m;
  }

  lemma ModUnique(n: nat, q: int, r: int, m: int)
    requires m >= 1 && n == q * m + r && 0 <= r < m
    ensures n % m == r
  {
    var d := q - n / m;
    assert d * m == q * m - (n / m) * m;
    if d >= 1 {
      AtLeastOnce(d, m);
    } else if d <= -1 {
      assert (-d) * m == -(d * m);
      AtLeastOnce(-d, m);
    }
  }

  lemma ModNext(n: nat, m: int)
    requires m >= 1
    ensures (n + 1) % m == (if n % m + 1 < m then n % m + 1 else 0)
  {
    var q, r := n / m, n % m;
    if r + 1 < m {
      ModUnique(n + 1, q, r + 1, m);
    } else {
      assert (q + 1) * m == q * m + m;
      ModUnique(n + 1, q + 1, 0, m);
    }
  }

  lemma CountNext(s: Settings, h: seq<Report>)
    requires h != []
    ensures h[|h| - 1].Success? ==> Count(s, h) == 0
    ensures h[|h| - 1].Failure? ==>
              var c := Count(s, h[..|h| - 1]);
              Count(s, h) == if c + 1 < s.Limit() then c + 1 else 0
  {
    if h[|h| - 1].Failure? {
      ModNext(Streak(h[..|h| - 1]), s.Limit());
    } else {
      ModUnique(0, 0, 0, s.Limit());
    }
  }

  // The counter is the streak modulo the limit.
  lemma {:induction false} ReplayCounts(s: Settings, h: seq<Report>)
    ensures Replay(s, h).consecutive == Count(s, h)
    ensures 0 <= Replay(s, h).consecutive < s.Limit()
  {
    if h != [] {
      ReplayCounts(s, h[..|h| - 1]);
      CountNext(s, h);
      hide Count;
    }
  }

  // A new report neither makes nor unmakes earlier trips.
  lemma TripPrefix(s: Settings, h: seq<Report>, j: int)
    requires 0 <= j < |h| - 1
    ensures Trip(s, h, j) <==> Trip(s, h[..|h| - 1], j)
  {
    assert h[..|h| - 1][..j + 1] == h[..j + 1];
  }

  lemma TripsNow(s: Settings, h: seq<Report>)
    requires h != [] && h[|h| - 1].Failure?
    ensures Trip(s, h, |h| - 1) <==> Replay(s, h[..|h| - 1]).consecutive + 1 >= s.maxFailures
  {
    assert h[..|h|] == h;
    ReplayCounts(s, h);
    ReplayCounts(s, h[..|h| - 1]);
  }

  // The trips of a history are those of all but its last report, and perhaps
  // that one.
  ghost predicate SameTrips(s: Settings, h: seq<Report>, y: seq<Report>) {
    |y| <= |h| && forall j | 0 <= j < |y| :: y[j] == h[j] && (Trip(s, h, j) <==> Trip(s, y, j))
  }

  lemma Prefix(s: Settings, h: seq<Report>)
    requires h != []
    ensures SameTrips(s, h, h[..|h| - 1])
  {
    forall j | 0 <= j < |h| - 1
      ensures Trip(s, h, j) <==> Trip(s, h[..|h| - 1], j)
    {
      TripPrefix(s, h, j);
    }
  }

  lemma StaysOpen(s: Settings, h: seq<Report>, y: seq<Report>, t: int)
    requires |h| == |y| + 1 && SameTrips(s, h, y)
    requires h[|y|].Failure? && !Trip(s, h, |y|) && Open(s, y, t)
    ensures Open(s, h, t)
  {
    var j :| LastTrip(s, y, j) && t <= y[j].at + s.openDuration;
    hide Trip;
    assert LastTrip(s, h, j);
  }

  lemma WasOpen(s: Settings, h: seq<Report>, y: seq<Report>, t: int)
    requires |h| == |y| + 1 && SameTrips(s, h, y)
    requires Open(s, h, t)
    ensures h[|y|].Failure?
    ensures if Trip(s, h, |y|) then t <= h[|y|].at + s.openDuration else Open(s, y, t)
  {
    var j :| LastTrip(s, h, j) && t <= h[j].at + s.openDuration;
    assert j < |y| ==> h[|y|].Failure? && !Trip(s, h, |y|);
    assert j == |y| ==> h[|y|].Failure?;
    hide Trip;
    if j < |y| {
      assert LastTrip(s, y, j);
    }
  }

  lemma OpenAfter(s: Settings, h: seq<Report>, t: int)
    requires h != []
    ensures Open(s, h, t) <==>
              h[|h| - 1].Failure? &&
              (if Trip(s, h, |h| - 1) then t <= h[|h| - 1].at + s.openDuration else Open(s, h[..|h| - 1], t))
  {
    var y, n := h[..|h| - 1], |h| - 1;
    Prefix(s, h);
    hide Count;
    if Open(s, h, t) {
      WasOpen(s, h, y, t);
    }
    if h[n].Failure? && Trip(s, h, n) && t <= h[n].at + s.openDuration {
      assert LastTrip(s, h, n);
    }
    if h[n].Failure? && !Trip(s, h, n) && Open(s, y, t) {
      StaysOpen(s, h, y, t);
    }
  }

  /** The two fields of the breaker say exactly what its history says. */
  lemma {:induction false} BreakerRefinesHistory(s: Settings, h: seq<Report>, t: int)
    ensures !Allows(Replay(s, h), t) <==> Open(s, h, t)
  {
    if h != [] {
      OpenAfter(s, h, t);
      BreakerRefinesHistory(s, h[..|h| - 1], t);
      if h[|h| - 1].Failure? {
        TripsNow(s, h);
      }
      hide Open, Trip;
    }
  }

  lemma SmallStreak(n: nat, m: int)
    requires n < m
    ensures n % m == n
  {
    ModUnique(n, 0, n, m);
  }

  /** A breaker that was never told of Limit failures in a row never opens. */
  lemma {:induction false} ShortStreaksNeverOpen(s: Settings, h: seq<Report>, t: int)
    requires forall j | 0 <= j <= |h| :: Streak(h[..j]) < s.Limit()
    ensures Allows(Replay(s, h), t)
  {
    forall j | 0 <= j < |h|
      ensures !Trip(s, h, j)
    {
      if h[j].Failure? {
        SmallStreak(Streak(h[..j + 1]), s.Limit());
      }
    }
    BreakerRefinesHistory(s, h, t);
  }

  class CircuitBreaker {
    const settings: Settings
    var consecutive: int
    var openUntil: Option<int>
    ghost var history: seq<Report>

    constructor (maxFailures: int, openDuration: int)
      ensures settings == Settings(maxFailures, openDuration)
      ensures Valid() && history == []
    {
      settings := Settings(maxFailures, openDuration);
      consecutive, openUntil, history := 0, None, [];
    }

    ghost predicate Valid()
      reads this
    {
      State(consecutive, openUntil) == Replay(settings, history)
    }

    method Allow(now: int) returns (ok: bool)
      requires Valid()
      ensures ok <==> !Open(settings, history, now)
      ensures ok == Allows(State(consecutive, openUntil), now)
    {
      BreakerRefinesHistory(settings, history, now);
      ok := openUntil.None? || now > openUntil.value;
    }

    method RecordSuccess()
      requires Valid()
      modifies this
      ensures Valid() && history == old(history) + [Success]
    {
      consecutive := 0;
      openUntil := None;
      history := history + [Success];
      assert history[..|history| - 1] == old(history);
    }

    method RecordFailure(now: int)
      requires Valid()
      modifies this
      ensures Valid() && history == old(history) + [Failure(now)]
    {
      history := history + [Failure(now)];
      assert history[..|history| - 1] == old(history);
      consecutive := consecutive + 1;
      if consecutive < settings.maxFailures { return; }
      openUntil := Some(now + settings.openDuration);
      consecutive := 0;
    }
  }
}
