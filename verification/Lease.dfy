// The idempotency lock as a lease: when the age test of TryReclaimStale is
// enough to keep two workers apart, although SetCompleted and ClearProcessing
// never check who holds the lock.  The protocol again, now with clocks.
// (internal/adapters/redis/idempotency.go, internal/adapters/redis/scripts.go,
// internal/worker/supervisor.go)

module Lease {
  import opened Domain
  import opened Clock
  import opened Network
  import opened Idempotency
  import opened Streams
  import opened Protocol
  import opened Accounting

  /** TTL of a lock, the supervisor's ClaimIdleThreshold, and by how much a
      worker's clock may be ahead of the server's. */
  datatype Config = Config(ttlSeconds: int, maxAge: int, skew: nat)

  /** `now` is the server's clock, `readings` the clock reading each worker took
      for its last acquiring command, `expires` when the TTL of a lock runs out. */
  datatype Timed = Timed(st: State, now: int, readings: map<nat, int>, expires: map<string, int>)

  // Time passes, or a step of the protocol happens; a worker reads its clock
  // before it sends an acquiring command.
  datatype Step = Elapse(later: int) | Step(e: Event, reading: int)

  predicate CanStep(cfg: Config, t: Timed, s: Step) {
    match s
    case Elapse(later) => later >= t.now
    case Step(e, reading) =>
      && Can(t.st, e)
      && match e
         case Expire(k) => k in t.expires && t.expires[k] <= t.now
         case Worker(c, TryAcquire(_, startedAt, _)) => startedAt == Unix(reading) && reading <= t.now + cfg.skew
         case Worker(c, TryReclaim(_, nowUnix, maxAge, _)) =>
           nowUnix == Unix(reading) && reading <= t.now + cfg.skew && maxAge == WholeSeconds(cfg.maxAge)
         case _ => true
  }

  // The call writes the lock anew, with a full TTL.
  predicate Writes(locks: Locks, k: string, call: Call) {
    match call
    case TryAcquire(w, startedAt, reply) => reply.Ran() && AcquireScript(locks, k, w, startedAt).1
    case TryReclaim(w, nowUnix, maxAge, reply) => reply.Ran() && ReclaimScript(locks, k, w, nowUnix, maxAge).1
    case Complete(reply) => reply.Ran() && k in locks
    case _ => false
  }

  function NextStep(cfg: Config, t: Timed, s: Step): Timed
    requires CanStep(cfg, t, s)
  {
    match s
    case Elapse(later) => t.(now := later)
    case Step(e, reading) =>
      var st' := Next(t.st, e);
      match e
      case Worker(c, call) =>
        var k := t.st.copies[c].idKey;
        Timed(st', t.now,
              if call.TryAcquire? || call.TryReclaim? then t.readings[c := reading] else t.readings,
              if Writes(t.st.locks, k, call) then t.expires[k := t.now + cfg.ttlSeconds * SECOND] else t.expires)
      case _ => t.(st := st')
  }

  // Between acquiring the lock and the last call that relies on it.
  predicate Holding(pc: Pc) {
    pc in {Ready, AckSent, MarkDone, Schedule, Unlock} || pc.DeadLetter?
  }

  predicate Holds(t: Timed, c: nat) {
    c in t.st.copies && Holding(t.st.copies[c].pc)
  }

  /** What is asked of workers: nobody still holds a lock once it may look stale
      to another worker, that is, once the most advanced clock shows a second that
      is maxAge in whole seconds after the second of the holder's reading; nor
      beyond the TTL. */
  ghost predicate Timely(cfg: Config, t: Timed) {
    forall c | Holds(t, c) && c in t.readings ::
      && Unix(t.now + cfg.skew) - Unix(t.readings[c]) < WholeSeconds(cfg.maxAge)
      && t.now + cfg.skew < t.readings[c] + cfg.ttlSeconds * SECOND
  }

  /** Finishing a second before the threshold is enough. */
  lemma SecondToSpare(cfg: Config, t: Timed)
    requires forall c | Holds(t, c) && c in t.readings ::
               && t.now + cfg.skew <= t.readings[c] + (WholeSeconds(cfg.maxAge) - 1) * SECOND
               && t.now + cfg.skew < t.readings[c] + cfg.ttlSeconds * SECOND
    ensures Timely(cfg, t)
  {
    forall c | Holds(t, c) && c in t.readings
      ensures Unix(t.now + cfg.skew) - Unix(t.readings[c]) < WholeSeconds(cfg.maxAge)
    {
      assert Unix(t.now + cfg.skew - (WholeSeconds(cfg.maxAge) - 1) * SECOND) == Unix(t.now + cfg.skew) - (WholeSeconds(cfg.maxAge) - 1);
    }
  }

  // The lock in place is the one the copy acquired, and its TTL the copy's own.
  ghost predicate Owns(cfg: Config, t: Timed, c: nat)
    requires c in t.st.copies
  {
    var k := t.st.copies[c].idKey;
    && c in t.readings && t.readings[c] <= t.now + cfg.skew
    && k in t.st.locks && t.st.locks[k].Processing? && t.st.locks[k].startedAt == Unix(t.readings[c])
    && k in t.expires && t.expires[k] >= t.readings[c] - cfg.skew + cfg.ttlSeconds * SECOND
  }

  ghost predicate Exclusive(cfg: Config, t: Timed) {
    && (forall c | Holds(t, c) :: Owns(cfg, t, c))
    && (forall c, d | Holds(t, c) && Holds(t, d) && c != d :: t.st.copies[c].idKey != t.st.copies[d].idKey)
  }

  // Every state on the way is timely.
  ghost predicate TimelyRun(cfg: Config, t: Timed, ss: seq<Step>)
    decreases |ss|
  {
    Timely(cfg, t) && (ss == [] || (CanStep(cfg, t, ss[0]) && TimelyRun(cfg, NextStep(cfg, t, ss[0]), ss[1..])))
  }

  function AfterSteps(cfg: Config, t: Timed, ss: seq<Step>): Timed
    requires TimelyRun(cfg, t, ss)
    decreases |ss|
  {
    if ss == [] then t else AfterSteps(cfg, NextStep(cfg, t, ss[0]), ss[1..])
  }

  /** A lock that can be acquired or taken over, or that runs out, has no live
      holder. */
  lemma FreeToTake(cfg: Config, t: Timed, s: Step, k: string)
    requires Exclusive(cfg, t) && Timely(cfg, t) && CanStep(cfg, t, s) && s.Step?
    requires match s.e
             case Expire(key) => k == key
             case Worker(c, call) => (call.TryAcquire? || call.TryReclaim?) && k == t.st.copies[c].idKey && Writes(t.st.locks, k, call)
             case _ => false
    ensures forall c | Holds(t, c) :: t.st.copies[c].idKey != k
  {
    forall c | Holds(t, c)
      ensures t.st.copies[c].idKey != k
    {
      assert Owns(cfg, t, c);
    }
  }

  // ---- Every timely step keeps the holders apart ----

  // All but one copy stay, and keys that are held keep lock and TTL.
  lemma OtherHolders(cfg: Config, t: Timed, t': Timed, c: nat)
    requires Exclusive(cfg, t) && t'.now == t.now
    requires t'.st.copies - {c} == t.st.copies - {c} && t'.readings - {c} == t.readings - {c}
    requires forall d | Holds(t, d) && d != c ::
               var k := t.st.copies[d].idKey;
               && k in t'.st.locks && k in t.st.locks && t'.st.locks[k] == t.st.locks[k]
               && k in t'.expires && k in t.expires && t'.expires[k] == t.expires[k]
    requires Holds(t', c) ==> Owns(cfg, t', c) && forall d | Holds(t, d) && d != c :: t.st.copies[d].idKey != t'.st.copies[c].idKey
    ensures Exclusive(cfg, t')
  {
    forall d | Holds(t', d) && d != c
      ensures Holds(t, d) && t'.st.copies[d] == t.st.copies[d] && Owns(cfg, t', d)
    {
      Elsewhere(t.st.copies, t'.st.copies, c, d);
      assert Owns(cfg, t, d);
      assert d in t.readings - {c} && (t.readings - {c})[d] == t.readings[d];
      assert d in t'.readings - {c} && (t'.readings - {c})[d] == t'.readings[d];
    }
  }

  // Only a write to the lock or the release of a holder touches a lock.
  lemma CallLocks(st: State, c: nat, call: Call)
    requires CanWork(st, c, call)
    ensures var k, st' := st.copies[c].idKey, Work(st, c, call);
            && st'.locks - {k} == st.locks - {k}
            && (call.Release? || Writes(st.locks, k, call) || st'.locks == st.locks)
  {
    hide Onward, Idle, SameRecords, XAck, AfterFailure;
    var k, st' := st.copies[c].idKey, Work(st, c, call);
  }

  // How a copy goes on holding the lock, and how it comes to hold it.
  lemma HolderStays(st: State, c: nat, call: Call)
    requires CanWork(st, c, call) && Holding(st.copies[c].pc) && c in Work(st, c, call).copies
    ensures var st' := Work(st, c, call);
            && st'.copies[c].idKey == st.copies[c].idKey && st'.locks == st.locks
            && !Writes(st.locks, st.copies[c].idKey, call) && !call.TryAcquire? && !call.TryReclaim?
  {
    hide Onward, Idle, SameRecords, XAck, AcquireScript, ReclaimScript;
  }

  lemma HolderBegins(st: State, c: nat, call: Call)
    requires CanWork(st, c, call) && !Holding(st.copies[c].pc)
    requires c in Work(st, c, call).copies && Holding(Work(st, c, call).copies[c].pc)
    ensures var k, st' := st.copies[c].idKey, Work(st, c, call);
            && st'.copies[c].idKey == k
            && Writes(st.locks, k, call) && k in st'.locks && st'.locks[k].Processing?
            && ((call.TryAcquire? && st'.locks[k].startedAt == call.startedAt) || (call.TryReclaim? && st'.locks[k].startedAt == call.nowUnix))
  {
    hide Onward, Idle, SameRecords, XAck;
  }

  // A copy that holds no lock neither releases nor completes one.
  lemma NotHolding(st: State, c: nat, call: Call)
    requires CanWork(st, c, call) && !Holding(st.copies[c].pc)
    ensures !call.Release? && !call.Complete?
    ensures Writes(st.locks, st.copies[c].idKey, call) ==> call.TryAcquire? || call.TryReclaim?
  {
  }

  lemma WorkExclusive(cfg: Config, t: Timed, c: nat, call: Call, reading: int)
    requires Exclusive(cfg, t) && Timely(cfg, t) && CanStep(cfg, t, Step(Worker(c, call), reading))
    ensures Exclusive(cfg, NextStep(cfg, t, Step(Worker(c, call), reading)))
  {
    var s := Step(Worker(c, call), reading);
    var t' := NextStep(cfg, t, s);
    var k := t.st.copies[c].idKey;
    CallCopies(t.st, c, call);
    CallLocks(t.st, c, call);
    assert t'.readings - {c} == t.readings - {c};
    forall d | Holds(t, d) && d != c
      ensures var kd := t.st.copies[d].idKey;
              && kd in t'.st.locks && kd in t.st.locks && t'.st.locks[kd] == t.st.locks[kd]
              && kd in t'.expires && kd in t.expires && t'.expires[kd] == t.expires[kd]
    {
      HeldLock(cfg, t, c, call, reading, d);
    }
    if Holds(t', c) {
      HolderOwns(cfg, t, c, call, reading);
    }
    hide Work, Exclusive, Timely, CanStep, NextStep, Owns;
    OtherHolders(cfg, t, t', c);
  }

  // A call leaves the lock of every other holder and its TTL alone.
  lemma HeldLock(cfg: Config, t: Timed, c: nat, call: Call, reading: int, d: nat)
    requires Exclusive(cfg, t) && Timely(cfg, t) && CanStep(cfg, t, Step(Worker(c, call), reading))
    requires Holds(t, d) && d != c
    ensures var t' := NextStep(cfg, t, Step(Worker(c, call), reading));
            var k := t.st.copies[d].idKey;
            && k in t'.st.locks && k in t.st.locks && t'.st.locks[k] == t.st.locks[k]
            && k in t'.expires && k in t.expires && t'.expires[k] == t.expires[k]
  {
    var k := t.st.copies[d].idKey;
    var st' := Work(t.st, c, call);
    assert Owns(cfg, t, d);
    CallLocks(t.st, c, call);
    if k == t.st.copies[c].idKey {
      NotHolding(t.st, c, call);
      if Writes(t.st.locks, k, call) {
        FreeToTake(cfg, t, Step(Worker(c, call), reading), k);
      }
    } else {
      hide Writes;
      assert k in t.st.locks - {t.st.copies[c].idKey} && (t.st.locks - {t.st.copies[c].idKey})[k] == t.st.locks[k];
      assert k in st'.locks - {t.st.copies[c].idKey} && (st'.locks - {t.st.copies[c].idKey})[k] == st'.locks[k];
    }
    hide Work;
  }

  lemma HolderOwns(cfg: Config, t: Timed, c: nat, call: Call, reading: int)
    requires Exclusive(cfg, t) && Timely(cfg, t) && CanStep(cfg, t, Step(Worker(c, call), reading))
    requires Holds(NextStep(cfg, t, Step(Worker(c, call), reading)), c)
    ensures var t' := NextStep(cfg, t, Step(Worker(c, call), reading));
            Owns(cfg, t', c) && forall d | Holds(t, d) && d != c :: t.st.copies[d].idKey != t'.st.copies[c].idKey
  {
    if !Holding(t.st.copies[c].pc) {
      HolderBegins(t.st, c, call);
      FreeToTake(cfg, t, Step(Worker(c, call), reading), t.st.copies[c].idKey);
    } else {
      HolderStays(t.st, c, call);
      assert Owns(cfg, t, c);
    }
    hide Work, Writes;
  }

  lemma ExclusiveKept(cfg: Config, t: Timed, s: Step)
    requires Exclusive(cfg, t) && Timely(cfg, t) && CanStep(cfg, t, s)
    ensures Exclusive(cfg, NextStep(cfg, t, s))
  {
    var t' := NextStep(cfg, t, s);
    if s.Step? && s.e.Worker? {
      WorkExclusive(cfg, t, s.e.c, s.e.call, s.reading);
    } else {
      if s.Step? && s.e.Expire? {
        FreeToTake(cfg, t, s, s.e.idKey);
      }
      hide Work, FlushStep;
      forall c | Holds(t', c)
        ensures Holds(t, c) && t'.st.copies[c] == t.st.copies[c] && Owns(cfg, t', c)
      {
        assert Holds(t, c);
        assert Owns(cfg, t, c);
      }
    }
  }

  // Before the first task, nobody holds anything.
  const START := Timed(INITIAL, 0, map[], map[])

  /** As long as workers are timely, at most one of them is between acquiring
      and releasing the lock of an attempt, and the lock in place is its own. */
  lemma {:induction false} LeaseExclusion(cfg: Config, t: Timed, ss: seq<Step>)
    requires Exclusive(cfg, t) && TimelyRun(cfg, t, ss)
    ensures Exclusive(cfg, START) && Exclusive(cfg, AfterSteps(cfg, t, ss))
    decreases |ss|
  {
    if ss != [] {
      ExclusiveKept(cfg, t, ss[0]);
      hide NextStep, CanStep, Exclusive, Timely;
      LeaseExclusion(cfg, NextStep(cfg, t, ss[0]), ss[1..]);
    }
  }

  /** Releasing by SetCompleted or ClearProcessing changes the releaser's own
      lock and no other, and nobody else is left holding it. */
  lemma ReleaseTouchesOwnLock(cfg: Config, t: Timed, c: nat, call: Call, reading: int)
    requires Exclusive(cfg, t) && CanStep(cfg, t, Step(Worker(c, call), reading)) && (call.Complete? || call.Release?)
    ensures var k := t.st.copies[c].idKey;
            var t' := NextStep(cfg, t, Step(Worker(c, call), reading));
            && k in t.st.locks && t.st.locks[k].Processing? && c in t.readings && t.st.locks[k].startedAt == Unix(t.readings[c])
            && t'.st.locks - {k} == t.st.locks - {k}
            && forall d | Holds(t', d) :: t'.st.copies[d].idKey != k
  {
    var t' := NextStep(cfg, t, Step(Worker(c, call), reading));
    assert Holds(t, c) && Owns(cfg, t, c);
    CallLocks(t.st, c, call);
    CallCopies(t.st, c, call);
    assert c !in t'.st.copies;
    hide Work;
    forall d | Holds(t', d)
      ensures t'.st.copies[d].idKey != t.st.copies[c].idKey
    {
      Elsewhere(t.st.copies, t'.st.copies, c, d);
      assert Holds(t, d);
    }
  }

  // A completed lock whose TTL has not run out.
  ghost predicate Completed(t: Timed, k: string) {
    k in t.st.locks && t.st.locks[k] == Lock.Completed && k in t.expires
  }

  lemma CompletedUnheld(cfg: Config, t: Timed, k: string)
    requires Exclusive(cfg, t) && Completed(t, k)
    ensures forall c | Holds(t, c) :: t.st.copies[c].idKey != k
  {
    forall c | Holds(t, c)
      ensures t.st.copies[c].idKey != k
    {
      assert Owns(cfg, t, c);
    }
  }

  lemma CompletedCall(st: State, c: nat, call: Call, k: string)
    requires CanWork(st, c, call) && (Holding(st.copies[c].pc) ==> st.copies[c].idKey != k)
    requires k in st.locks && st.locks[k] == Lock.Completed
    ensures k in Work(st, c, call).locks && Work(st, c, call).locks[k] == Lock.Completed
    ensures st.copies[c].idKey == k ==> !Writes(st.locks, k, call)
  {
    CallLocks(st, c, call);
    if st.copies[c].idKey == k {
      NotHolding(st, c, call);
    } else {
      var k', st' := st.copies[c].idKey, Work(st, c, call);
      hide Work, Writes, CanWork;
      assert k in st.locks - {k'} && (st.locks - {k'})[k] == st.locks[k];
      assert k in st'.locks - {k'} && (st'.locks - {k'})[k] == st'.locks[k];
    }
  }

  lemma CompletedKept(cfg: Config, t: Timed, s: Step, k: string)
    requires Exclusive(cfg, t) && CanStep(cfg, t, s) && Completed(t, k) && t.now < t.expires[k]
    ensures Completed(NextStep(cfg, t, s), k) && NextStep(cfg, t, s).expires[k] == t.expires[k]
  {
    if s.Step? && s.e.Worker? {
      CompletedUnheld(cfg, t, k);
      assert Holding(t.st.copies[s.e.c].pc) ==> Holds(t, s.e.c);
      CompletedCall(t.st, s.e.c, s.e.call, k);
      hide Work, Exclusive;
    }
  }

  lemma {:induction false} TimePasses(cfg: Config, t: Timed, ss: seq<Step>)
    requires TimelyRun(cfg, t, ss)
    ensures AfterSteps(cfg, t, ss).now >= t.now
    decreases |ss|
  {
    if ss != [] {
      hide Timely, Next, Can;
      TimePasses(cfg, NextStep(cfg, t, ss[0]), ss[1..]);
    }
  }

  /** "completed" is final: until its TTL runs out, nothing any worker does undoes
      it. */
  lemma {:induction false} CompletedIsFinal(cfg: Config, t: Timed, ss: seq<Step>, k: string)
    requires Exclusive(cfg, t) && TimelyRun(cfg, t, ss)
    requires Completed(t, k) && AfterSteps(cfg, t, ss).now < t.expires[k]
    ensures Completed(AfterSteps(cfg, t, ss), k)
    decreases |ss|
  {
    if ss != [] {
      var mid := NextStep(cfg, t, ss[0]);
      TimePasses(cfg, mid, ss[1..]);
      TimePasses(cfg, t, ss);
      CompletedKept(cfg, t, ss[0], k);
      ExclusiveKept(cfg, t, ss[0]);
      hide NextStep, CanStep, Exclusive, Timely, Completed;
      CompletedIsFinal(cfg, mid, ss[1..], k);
    }
  }

  // g takes the lock over with clock reading s, and goes on to Send.
  ghost predicate Joins(cfg: Config, t: Timed, g: nat, w: string, s: int) {
    var step := Step(Worker(g, TryReclaim(w, Unix(s), WholeSeconds(cfg.maxAge), Done)), s);
    CanStep(cfg, t, step) && Holds(NextStep(cfg, t, step), g)
  }

  lemma JoinsWhenStale(cfg: Config, t: Timed, c: nat, g: nat, w: string, s: int)
    requires Holds(t, c) && Owns(cfg, t, c)
    requires Protocol.At(t.st, g, Takeover) && t.st.copies[g].idKey == t.st.copies[c].idKey
    ensures Joins(cfg, t, g, w, s) <==> s <= t.now + cfg.skew && Unix(s) - Unix(t.readings[c]) >= WholeSeconds(cfg.maxAge)
    ensures Joins(cfg, t, g, w, s) ==>
              var t' := NextStep(cfg, t, Step(Worker(g, TryReclaim(w, Unix(s), WholeSeconds(cfg.maxAge), Done)), s));
              Holds(t', c) && Holds(t', g) && c != g && t'.st.copies[c].idKey == t'.st.copies[g].idKey
  {
    hide Onward, SameRecords, WholeSeconds, Unix;
  }

  /** The bound is exact: while a worker holds its own lock, a second one that
      was handed the same attempt can join it, by some admissible clock reading,
      if and only if the first is not timely any more.  (The default threshold is
      30 seconds, as long as the provider's own HTTP timeout.) */
  lemma JoinedExactlyWhenLate(cfg: Config, t: Timed, c: nat, g: nat, w: string)
    requires Holds(t, c) && Owns(cfg, t, c)
    requires Protocol.At(t.st, g, Takeover) && t.st.copies[g].idKey == t.st.copies[c].idKey
    ensures (exists s :: Joins(cfg, t, g, w, s)) <==> Unix(t.now + cfg.skew) - Unix(t.readings[c]) >= WholeSeconds(cfg.maxAge)
    ensures forall s | Joins(cfg, t, g, w, s) ::
              var t' := NextStep(cfg, t, Step(Worker(g, TryReclaim(w, Unix(s), WholeSeconds(cfg.maxAge), Done)), s));
              Holds(t', c) && Holds(t', g) && c != g && t'.st.copies[c].idKey == t'.st.copies[g].idKey
  {
    hide Joins, WholeSeconds, NextStep;
    forall s
      ensures Joins(cfg, t, g, w, s) <==> s <= t.now + cfg.skew && Unix(s) - Unix(t.readings[c]) >= WholeSeconds(cfg.maxAge)
      ensures Joins(cfg, t, g, w, s) ==>
                var t' := NextStep(cfg, t, Step(Worker(g, TryReclaim(w, Unix(s), WholeSeconds(cfg.maxAge), Done)), s));
                Holds(t', c) && Holds(t', g) && c != g && t'.st.copies[c].idKey == t'.st.copies[g].idKey
    {
      JoinsWhenStale(cfg, t, c, g, w, s);
    }
    assert Unix(t.now + cfg.skew) - Unix(t.readings[c]) >= WholeSeconds(cfg.maxAge) ==> Joins(cfg, t, g, w, t.now + cfg.skew);
  }
}
