// processTask of internal/worker/supervisor.go as a program over the shared
// state: every call it makes is a step of the protocol, and all other producers,
// workers and schedulers may take any number of steps between its calls.

module Supervisor {
  import opened Wrappers
  import opened Domain
  import opened Keys
  import opened Network
  import opened Idempotency
  import opened Streams
  import opened Protocol
  import opened Invariants
  import opened Accounting

  // ---- What is on record stays on record ----

  ghost predicate Recorded(st: State, st': State) {
    && st.ledger.successes <= st'.ledger.successes
    && st.ledger.created <= st'.ledger.created
    && st.dlq <= st'.dlq
  }

  lemma RecordedNext(st: State, e: Event)
    requires Can(st, e)
    ensures Recorded(st, Next(st, e))
  {
    if e.Worker? {
      WorkRecorded(st, e.c, e.call);
    }
  }

  lemma WorkRecorded(st: State, c: nat, call: Call)
    requires CanWork(st, c, call)
    ensures Recorded(st, Work(st, c, call))
  {
    hide DoTryAcquire, DoAskCompleted, DoTryReclaim, DoSend, DoAcknowledge, DoComplete, DoBury, DoPostpone, DoRelease;
  }

  lemma {:induction false} RecordedRun(st: State, es: seq<Event>)
    requires Run(st, es)
    ensures Recorded(st, After(st, es))
    decreases |es|
  {
    if es != [] {
      RecordedNext(st, es[0]);
      hide Next, Can;
      RecordedRun(Next(st, es[0]), es[1..]);
    }
  }

  lemma ReachesRecorded(a: State, b: State)
    requires Reaches(a, b)
    ensures Recorded(a, b)
  {
    var es :| Run(a, es) && After(a, es) == b;
    RecordedRun(a, es);
  }

  /** How a goroutine ends. */
  datatype Outcome =
    | Processed       // acknowledged after a successful Send
    | Deduplicated    // acknowledged because the attempt is marked completed
    | Buried          // acknowledged after SendToDLQ
    | Rescheduled     // acknowledged after ScheduleRetry
    | LockHeld        // nacked: somebody else may be processing the attempt
    | HandoffFailed   // nacked after clearing the lock: SendToDLQ or ScheduleRetry failed
    | Panicked        // nacked by the recover handler

  // What the outcome promises about the copy the goroutine worked on.
  ghost predicate Justified(st: State, cp: Copy, out: Outcome) {
    match out
    case Processed => cp.idKey in st.ledger.successes
    case Deduplicated => cp.idKey in st.ledger.successes
    case Buried => Invariants.Buried(st.dlq, cp.task.id)
    case Rescheduled => (cp.task.id, cp.task.attempt + 1) in st.ledger.created
    case _ => true
  }

  // A copy may only be acknowledged when its outcome is on record.
  function Promise(pc: Pc): Outcome {
    match pc
    case AckSent => Processed
    case MarkDone => Processed
    case AckDuplicate => Deduplicated
    case AckDead => Outcome.Buried
    case AckRetry => Rescheduled
    case _ => LockHeld
  }

  lemma PromiseKept(start: State, st: State, c: nat)
    requires Reachable(start) && Reaches(start, st) && c in start.copies && c in st.copies
    requires start.copies[c].pc == Gate
    requires st.copies[c].task.id == start.copies[c].task.id && st.copies[c].idKey == start.copies[c].idKey
    requires st.copies[c].pc == AckRetry ==> st.copies[c].task.attempt == start.copies[c].task.attempt + 1
    ensures Justified(st, start.copies[c], Promise(st.copies[c].pc))
  {
    hide Reachable, Reaches, RecordsOk, CopiesOk, LedgerOk, Routed, LocksOk, DlqOk;
    ReachesReachable(start, st);
    ReachableSound(st);
    CopyFacts(st, c);
  }

  lemma ReachesReachable(a: State, b: State)
    requires Reachable(a) && Reaches(a, b)
    ensures Reachable(b)
  {
    ReachesMore(INITIAL, a, b);
  }

  lemma JustifiedLater(a: State, b: State, cp: Copy, out: Outcome)
    requires Reaches(a, b) && Justified(a, cp, out)
    ensures Justified(b, cp, out)
  {
    ReachesRecorded(a, b);
    if out == Outcome.Buried {
      var i :| 0 <= i < |a.dlq| && a.dlq[i].task.id == cp.task.id;
      assert b.dlq[i].task.id == cp.task.id;
    }
  }

  // ---- The calls a goroutine makes, in order ----

  // From Send on.
  predicate Ends(cs: seq<Call>, out: Outcome) {
    match out
    case Processed => |cs| == 3 && cs[0] == Send(Delivered) && cs[1].Acknowledge? && cs[2].Complete?
    case Panicked => cs == [Send(Died)]
    case _ => |cs| == 3 && Fails(cs[0]) && HandsOff(cs[1], cs[2], out) && (out == Rescheduled ==> cs[0].result.Transient?)
  }

  // After a failed Send: the hand-off, and what follows it.
  predicate HandsOff(first: Call, second: Call, out: Outcome) {
    match out
    case Buried => first == Bury(Done) && second.Acknowledge?
    case Rescheduled => first == Postpone(Done) && second.Acknowledge?
    case HandoffFailed => ((first.Bury? && first.reply != Done) || (first.Postpone? && first.reply != Done)) && second.Release?
    case _ => false
  }

  predicate Fails(call: Call) {
    call.Send? && (call.result.Permanent? || call.result.Transient?)
  }

  predicate TookLock(cs: seq<Call>) {
    |cs| == 1 && cs[0].TryAcquire? && cs[0].reply == Done
  }

  predicate TookOver(cs: seq<Call>) {
    |cs| == 3 && cs[0].TryAcquire? && cs[1].AskCompleted? && cs[2].TryReclaim? && cs[2].reply == Done
  }

  /** The whole program: the calls of a goroutine with this outcome.  In
      particular it acknowledges exactly if it ended in one of the first four
      ways, and never before the call the outcome stands for. */
  predicate Follows(cs: seq<Call>, out: Outcome) {
    match out
    case Deduplicated => |cs| == 3 && cs[0].TryAcquire? && cs[1] == AskCompleted(Done) && cs[2].Acknowledge?
    case LockHeld => |cs| == 3 && cs[0].TryAcquire? && cs[1].AskCompleted? && cs[2].TryReclaim?
    case _ =>
      || (|cs| >= 1 && TookLock(cs[..1]) && Ends(cs[1..], out))
      || (|cs| >= 3 && TookOver(cs[..3]) && Ends(cs[3..], out))
  }

  // The copy a failed Send leaves: the error is on the task, which counts one more
  // attempt if it is to be retried.
  ghost predicate FailedAs(cp: Copy, cp': Copy, permanent: bool, error: string) {
    var t := cp.task;
    var poison := "poison" in t.metadata && t.metadata["poison"] == "true";
    cp' == if permanent then
             cp.(task := t.(lastError := error, status := Failed), pc := DeadLetter(NonRetryableError))
           else if poison || t.attempt >= t.maxAttempts then
             cp.(task := t.(lastError := error, status := Failed), pc := DeadLetter(MaxAttemptsExceeded))
           else
             cp.(task := t.(lastError := error, status := Failed, attempt := t.attempt + 1), pc := Schedule)
  }

  /** What the hand-off of a task whose Send failed leaves behind: if the command
      ran, one dead-letter entry or one retry with the error Send returned, and
      the task as it was delivered otherwise; nothing if it did not. */
  ghost predicate Wrote(met: State, left: State, call: Call, task: Task, permanent: bool, error: string) {
    match call
    case Bury(reply) =>
      var reason := if permanent then NonRetryableError else MaxAttemptsExceeded;
      && left.retry == met.retry
      && left.dlq == met.dlq + if reply.Ran() then [DLQEntry(task.(lastError := error, status := Failed), reason, error)] else []
    case Postpone(reply) =>
      && left.dlq == met.dlq
      && left.retry == met.retry + if reply.Ran() then {task.(lastError := error, status := Failed, attempt := task.attempt + 1)} else {}
    case _ => false
  }

  // The hand-off met `met` and left `left`, on the way from one state to another.
  ghost predicate Passed(from: State, met: State, c: nat, call: Call, left: State, to: State) {
    Reaches(from, met) && CanWork(met, c, call) && left == Work(met, c, call) && Reaches(left, to)
  }

  lemma PassedEarlier(start: State, from: State, met: State, c: nat, call: Call, left: State, to: State)
    requires Reaches(start, from) && Passed(from, met, c, call, left, to)
    ensures Passed(start, met, c, call, left, to)
  {
    ReachesMore(start, from, met);
  }

  /** Whenever a Send of these calls failed, the next call is the hand-off, and it
      wrote what it should of the copy's task as it was in `from`. */
  ghost predicate HandedOff(cs: seq<Call>, from: State, met: State, c: nat, left: State, to: State)
    requires c in from.copies
  {
    forall i | 0 <= i < |cs| && Fails(cs[i]) ::
      && i + 1 < |cs|
      && Passed(from, met, c, cs[i + 1], left, to)
      && Wrote(met, left, cs[i + 1], from.copies[c].task, cs[i].result.Permanent?, cs[i].result.error)
  }

  // No Send before the gate is passed.
  lemma GateHandsOff(gate: seq<Call>, cs: seq<Call>, from: State, met: State, c: nat, left: State, to: State)
    requires c in from.copies && (TookLock(gate) || TookOver(gate)) && HandedOff(cs, from, met, c, left, to)
    ensures HandedOff(gate + cs, from, met, c, left, to)
  {
    hide Passed, Wrote;
    forall i | 0 <= i < |gate + cs| && Fails((gate + cs)[i])
      ensures i >= |gate|
    {
    }
  }

  lemma DeliveredEnds(cs: seq<Call>, n: nat, from: State, met: State, c: nat, left: State, to: State)
    requires c in from.copies && |cs| == n + 3
    requires cs[n] == Send(Delivered) && cs[n + 1].Acknowledge? && cs[n + 2].Complete?
    ensures Ends(cs[n..], Processed) && HandedOff(cs[n..], from, met, c, left, to)
  {
    hide Passed, Wrote;
  }

  lemma DiedEnds(cs: seq<Call>, n: nat, from: State, met: State, c: nat, left: State, to: State)
    requires c in from.copies && |cs| == n + 1 && cs[n] == Send(Died)
    ensures Ends(cs[n..], Panicked) && HandedOff(cs[n..], from, met, c, left, to)
  {
    hide Passed, Wrote;
  }

  lemma FailedEnds(cs: seq<Call>, n: nat, out: Outcome, from: State, met: State, c: nat, left: State, to: State)
    requires c in from.copies && |cs| == n + 3 && Fails(cs[n])
    requires HandsOff(cs[n + 1], cs[n + 2], out) && (out == Rescheduled ==> cs[n].result.Transient?)
    requires Passed(from, met, c, cs[n + 1], left, to)
    requires Wrote(met, left, cs[n + 1], from.copies[c].task, cs[n].result.Permanent?, cs[n].result.error)
    ensures Ends(cs[n..], out) && HandedOff(cs[n..], from, met, c, left, to)
  {
    hide Passed, Wrote;
  }

  // Calls only ever are added.
  lemma CallsGrow(a: seq<Call>, b: seq<Call>, cs: seq<Call>)
    requires |a| < |b| <= |cs| && b[..|a|] == a && cs[..|b|] == b
    ensures cs[..|a|] == a && cs[|a|] == b[|a|]
  {
  }

  // A goroutine that ends at the gate sent nothing.
  lemma NothingHandedOff(cs: seq<Call>, out: Outcome, from: State, met: State, c: nat, left: State, to: State)
    requires c in from.copies && out in {Deduplicated, LockHeld} && Follows(cs, out)
    ensures HandedOff(cs, from, met, c, left, to)
  {
  }

  class Goroutine {
    var st: State
    const c: nat
    var totalProcessed: nat
    var totalFailed: nat
    var totalRetried: nat
    ghost var calls: seq<Call>   // what it has called so far
    ghost var seen: State        // the state its last call met

    constructor (st: State, c: nat)
      ensures this.st == st && this.c == c && calls == []
      ensures totalProcessed == 0 && totalFailed == 0 && totalRetried == 0
    {
      this.st := st;
      this.c := c;
      totalProcessed, totalFailed, totalRetried := 0, 0, 0;
      calls, seen := [], st;
    }

    /** Everybody else runs.  No other process holds this goroutine's copy. */
    method Interference()
      requires c in st.copies
      modifies this`st
      ensures Reaches(old(st), st)
      ensures c in st.copies && st.copies[c] == old(st).copies[c]
    {
      ReachesSelf(st);
    }

    ghost function Last(): Call
      requires calls != []
      reads this
    {
      calls[|calls| - 1]
    }

    /** One more call was made: others ran from s0 on, the call met `seen`, with
        the goroutine's copy as it was, and left `st`. */
    ghost predicate Called(before: seq<Call>, s0: State)
      reads this
    {
      && |calls| == |before| + 1 && calls[..|before|] == before
      && Reaches(s0, seen) && c in s0.copies && CanWork(seen, c, Last()) && seen.copies[c] == s0.copies[c]
      && st == Work(seen, c, Last()) && Reaches(s0, st)
    }

    // The goroutine's own step, after whatever the others did in the meantime.
    method Do(call: Call, ghost from: State)
      requires CanWork(st, c, call) && Reaches(from, st) && c in from.copies && st.copies[c] == from.copies[c]
      modifies this`st, this`calls, this`seen
      ensures Called(old(calls), from) && Last() == call && seen == old(st)
    {
      ReachesNext(st, Worker(c, call));
      ReachesMore(from, st, Work(st, c, call));
      seen := st;
      st := Work(st, c, call);
      calls := calls + [call];
    }

    /** The lock was acquired exactly if the script found none and its reply came
        through. */
    method SetProcessing(worker: string) returns (acquired: bool)
      requires At(st, c, Gate)
      modifies this`st, this`calls, this`seen
      ensures Called(old(calls), old(st)) && Last().TryAcquire? && Last().worker == worker
      ensures acquired <==> Last().reply == Done && seen.copies[c].idKey !in seen.locks
      ensures c in st.copies && st.copies[c] == old(st).copies[c].(pc := if acquired then Ready else Check)
      ensures var k := seen.copies[c].idKey;
              st.locks == if Last().reply.Ran() && k !in seen.locks then seen.locks[k := Lock.Processing(worker, Last().startedAt)] else seen.locks
      ensures acquired ==> st.ledger.grants == seen.ledger.grants + multiset{seen.copies[c].idKey}
    {
      var reply: Reply := *;
      var startedAt: int := *;
      Interference();
      acquired := AcquireScript(st.locks, st.copies[c].idKey, worker, startedAt).1 && reply.Done?;
      Do(TryAcquire(worker, startedAt, reply), old(st));
    }

    /** True exactly if the reply came through and the lock was completed. */
    method IsCompleted() returns (completed: bool)
      requires At(st, c, Check)
      modifies this`st, this`calls, this`seen
      ensures Called(old(calls), old(st)) && Last().AskCompleted?
      ensures completed <==> Last().reply == Done && seen.copies[c].idKey in seen.locks && seen.locks[seen.copies[c].idKey] == Lock.Completed
      ensures c in st.copies && st.copies[c] == old(st).copies[c].(pc := if completed then AckDuplicate else Takeover)
    {
      var reply: Reply := *;
      Interference();
      var k := st.copies[c].idKey;
      completed := reply.Done? && k in st.locks && st.locks[k] == Lock.Completed;
      Do(AskCompleted(reply), old(st));
    }

    /** True exactly if the script found a stale lock and its reply came through. */
    method TryReclaimStale(worker: string, maxAge: int) returns (reclaimed: bool)
      requires At(st, c, Takeover)
      modifies this`st, this`calls, this`seen
      ensures Called(old(calls), old(st)) && Last().TryReclaim? && Last().worker == worker && Last().maxAge == maxAge
      ensures var k := seen.copies[c].idKey;
              reclaimed <==> && Last().reply == Done && k in seen.locks && seen.locks[k].Processing?
                             && Stale(seen.locks[k].startedAt, Last().nowUnix, maxAge)
      ensures reclaimed ==> st.locks == seen.locks[seen.copies[c].idKey := Lock.Processing(worker, Last().nowUnix)]
      ensures if reclaimed then c in st.copies && st.copies[c] == old(st).copies[c].(pc := Ready) else c !in st.copies
      ensures st.broker == seen.broker
    {
      var reply: Reply := *;
      var nowUnix: int := *;
      Interference();
      reclaimed := ReclaimScript(st.locks, st.copies[c].idKey, worker, nowUnix, maxAge).1 && reply.Done?;
      Do(TryReclaim(worker, nowUnix, maxAge, reply), old(st));
    }

    method SendEmail() returns (result: SendResult)
      requires At(st, c, Ready)
      modifies this`st, this`calls, this`seen
      ensures Called(old(calls), old(st)) && Last() == Send(result)
      ensures match result
              case Delivered => c in st.copies && st.copies[c] == old(st).copies[c].(pc := AckSent)
              case Died => c !in st.copies
              case Permanent(error) => c in st.copies && FailedAs(old(st).copies[c], st.copies[c], true, error)
              case Transient(error) => c in st.copies && FailedAs(old(st).copies[c], st.copies[c], false, error)
    {
      result := *;
      Interference();
      Do(Send(result), old(st));
    }

    method Acknowledge()
      requires c in st.copies && Acknowledging(st.copies[c].pc)
      modifies this`st, this`calls, this`seen
      ensures Called(old(calls), old(st)) && Last().Acknowledge?
      ensures var t := old(st).copies[c].task;
              st.broker == seen.broker.(pel := st.broker.pel)
              && forall s: Slot :: s in st.broker.pel <==>
                   s in seen.broker.pel && !(Last().reply.Ran() && t.streamKey == Some(s.0) && t.streamID == Some(s.1))
      ensures if old(st).copies[c].pc == AckSent then c in st.copies && st.copies[c] == old(st).copies[c].(pc := MarkDone) else c !in st.copies
    {
      var reply: Reply := *;
      Interference();
      Do(Call.Acknowledge(reply), old(st));
    }

    method SetCompleted()
      requires At(st, c, MarkDone)
      modifies this`st, this`calls, this`seen
      ensures Called(old(calls), old(st)) && Last().Complete? && c !in st.copies
      ensures var k := seen.copies[c].idKey;
              st.locks == if Last().reply.Ran() && k in seen.locks then seen.locks[k := Lock.Completed] else seen.locks
    {
      var reply: Reply := *;
      Interference();
      Do(Complete(reply), old(st));
    }

    /** Fails whenever the reply does not come through, stored or not; the entry is
        stored as it was handed over. */
    method SendToDLQ(entry: DLQEntry) returns (failed: bool)
      requires At(st, c, DeadLetter(entry.reason))
      requires st.copies[c].task == entry.task && entry.task.lastError == entry.finalError
      modifies this`st, this`calls, this`seen
      ensures Called(old(calls), old(st)) && Last().Bury? && (failed <==> Last().reply != Done)
      ensures c in st.copies && st.copies[c] == old(st).copies[c].(pc := if failed then Unlock else AckDead)
      ensures st.dlq == seen.dlq + if Last().reply.Ran() then [entry] else []
      ensures st.retry == seen.retry
    {
      var reply: Reply := *;
      Interference();
      Do(Bury(reply), old(st));
      failed := reply != Done;
    }

    /** Fails whenever the reply does not come through, stored or not. */
    method ScheduleRetry(task: Task) returns (failed: bool)
      requires At(st, c, Schedule) && st.copies[c].task == task
      modifies this`st, this`calls, this`seen
      ensures Called(old(calls), old(st)) && Last().Postpone? && (failed <==> Last().reply != Done)
      ensures c in st.copies && st.copies[c] == old(st).copies[c].(pc := if failed then Unlock else AckRetry)
      ensures st.retry == seen.retry + if Last().reply.Ran() then {task} else {}
      ensures st.dlq == seen.dlq
    {
      var reply: Reply := *;
      Interference();
      Do(Postpone(reply), old(st));
      failed := reply != Done;
    }

    /** The lock is deleted if the command ran, and nothing is acknowledged. */
    method ClearLockAndNack()
      requires At(st, c, Unlock)
      modifies this`st, this`calls, this`seen
      ensures Called(old(calls), old(st)) && Last().Release? && c !in st.copies
      ensures st.locks == if Last().reply.Ran() then seen.locks - {seen.copies[c].idKey} else seen.locks
      ensures st.broker == seen.broker
    {
      var reply: Reply := *;
      Interference();
      Do(Release(reply), old(st));
    }

    // The goroutine has made k more calls.
    ghost predicate Made(before: seq<Call>, k: nat)
      reads this
    {
      |calls| == |before| + k && calls[..|before|] == before
    }

    /** The idempotency gate.  `out` is set when the goroutine ends here: as a
        duplicate of a recorded success, which it acknowledges, or because the lock
        is held, and then it acknowledges nothing. */
    method PassGate(worker: string, maxAge: int) returns (passed: bool, out: Outcome)
      requires Reachable(st) && At(st, c, Gate) && calls == []
      modifies this`st, this`calls, this`seen
      ensures Reaches(old(st), st)
      ensures passed ==> c in st.copies && st.copies[c] == old(st).copies[c].(pc := Ready) && (TookLock(calls) || TookOver(calls))
      ensures !passed ==> c !in st.copies && out in {Deduplicated, LockHeld} && Justified(st, old(st).copies[c], out)
      ensures !passed ==> Follows(calls, out) && (out == LockHeld ==> st.broker == seen.broker)
    {
      hide Reachable, Reaches, Justified, Work, Onward, Idle, SameRecords;
      ghost var s0 := st;
      passed := SetProcessing(worker);
      if passed { return true, LockHeld; }
      ghost var s1, c1 := st, calls;
      var completed := IsCompleted();
      ghost var s2, c2 := st, calls;
      assert c2[0] == c1[0];
      ReachesMore(s0, s1, s2);
      if completed {
        PromiseKept(s0, s2, c);
        hide Called;
        AcknowledgeDuplicate(s0, s2, c2);
        return false, Deduplicated;
      }
      passed := TryReclaimStale(worker, maxAge);
      assert calls[..2][0] == c2[0] && calls[..2][1] == c2[1];
      ReachesMore(s0, s2, st);
      NothingPromised(st, s0.copies[c]);
      return passed, LockHeld;
    }

    method AcknowledgeDuplicate(ghost s0: State, ghost s2: State, ghost before: seq<Call>)
      requires st == s2 && calls == before && Reaches(s0, s2) && c in s0.copies && At(st, c, AckDuplicate)
      requires Justified(s2, s0.copies[c], Deduplicated)
      modifies this`st, this`calls, this`seen
      ensures Reaches(s0, st) && c !in st.copies && Justified(st, s0.copies[c], Deduplicated)
      ensures Made(before, 1) && calls[|before|].Acknowledge? && forall i | 0 <= i < |before| :: calls[i] == before[i]
    {
      hide Reaches, Justified;
      Acknowledge();
      assert forall i | 0 <= i < |before| :: calls[i] == calls[..|before|][i];
      ReachesMore(s0, s2, st);
      JustifiedLater(s2, st, s0.copies[c], Deduplicated);
    }

    // The copy is the one the goroutine was started with, now at `pc`, its task
    // updated by the failed Send.
    ghost predicate Onto(start: State)
      reads this`st
    {
      && Reachable(start) && At(start, c, Gate) && Reaches(start, st) && c in st.copies
      && st.copies[c].idKey == start.copies[c].idKey && st.copies[c].task.id == start.copies[c].task.id
      && (st.copies[c].pc in {Schedule, AckRetry} ==> st.copies[c].task.attempt == start.copies[c].task.attempt + 1)
    }

    /** Acknowledge, and for a successful Send mark the lock completed: only what
        is on record by then is acknowledged. */
    method Conclude(ghost start: State) returns (out: Outcome)
      requires Onto(start) && Acknowledging(st.copies[c].pc)
      modifies this`st, this`calls, this`seen
      ensures Reaches(start, st) && Reaches(old(st), st) && c !in st.copies
      ensures out == Promise(old(st).copies[c].pc) && Justified(st, start.copies[c], out)
      ensures Made(old(calls), if out == Processed then 2 else 1) && calls[|old(calls)|].Acknowledge?
      ensures out == Processed ==> calls[|old(calls)| + 1].Complete?
    {
      ghost var s0, c0 := st, calls;
      var pc := st.copies[c].pc;
      PromiseKept(start, st, c);
      hide Reachable, Reaches, Justified, Work, CanWork;
      Acknowledge();
      ReachesMore(start, s0, st);
      JustifiedLater(s0, st, start.copies[c], Promise(pc));
      out := Promise(pc);
      if pc == AckSent {
        ghost var s1, c1 := st, calls;
        SetCompleted();
        CallsGrow(c0, c1, calls);
        ReachesMore(start, s1, st);
        ReachesMore(s0, s1, st);
        JustifiedLater(s1, st, start.copies[c], out);
      }
    }

    /** The hand-off failed: the lock is cleared if the command runs, and the
        message is left pending for another delivery. */
    method GiveUp(ghost start: State)
      requires Onto(start) && At(st, c, Unlock)
      modifies this`st, this`calls, this`seen
      ensures Reaches(start, st) && Reaches(old(st), st) && c !in st.copies
      ensures Justified(st, start.copies[c], HandoffFailed)
      ensures Made(old(calls), 1) && calls[|old(calls)|].Release?
      ensures st.broker == seen.broker && (calls[|old(calls)|].reply.Ran() ==> start.copies[c].idKey !in st.locks)
    {
      ghost var s0 := st;
      hide Reachable, Reaches;
      ClearLockAndNack();
      ReachesMore(start, s0, st);
    }

    /** The entry names the error Send returned and why it was the last one. */
    method BuryTask(task: Task, permanent: bool, error: string, ghost start: State)
      returns (out: Outcome, ghost met: State, ghost left: State)
      requires Onto(start) && st.copies[c].task == task.(lastError := error, status := Failed)
      requires st.copies[c].pc == DeadLetter(if permanent then NonRetryableError else MaxAttemptsExceeded)
      modifies this`st, this`calls, this`seen
      ensures Reaches(start, st) && c !in st.copies
      ensures out in {Outcome.Buried, HandoffFailed} && Justified(st, start.copies[c], out)
      ensures Made(old(calls), 2) && calls[|old(calls)|].Bury? && HandsOff(calls[|old(calls)|], calls[|old(calls)| + 1], out)
      ensures Passed(old(st), met, c, calls[|old(calls)|], left, st)
      ensures Wrote(met, left, calls[|old(calls)|], task, permanent, error)
    {
      hide Reachable, Reaches, Justified, Work, CanWork;
      ghost var s0, c0 := st, calls;
      var reason := if permanent then NonRetryableError else MaxAttemptsExceeded;
      var entry := DLQEntry(task.(lastError := error, status := Failed), reason, error);
      var failed := SendToDLQ(entry);
      ghost var c1 := calls;
      met, left := seen, st;
      ReachesMore(start, s0, st);
      hide Called;
      if failed {
        GiveUp(start);
        out := HandoffFailed;
      } else {
        out := Conclude(start);
      }
      CallsGrow(c0, c1, calls);
    }

    method RetryTask(task: Task, error: string, ghost start: State)
      returns (out: Outcome, ghost met: State, ghost left: State)
      requires Onto(start) && At(st, c, Schedule)
      requires st.copies[c].task == task.(lastError := error, status := Failed, attempt := task.attempt + 1)
      modifies this`st, this`calls, this`seen
      ensures Reaches(start, st) && c !in st.copies
      ensures out in {Rescheduled, HandoffFailed} && Justified(st, start.copies[c], out)
      ensures Made(old(calls), 2) && calls[|old(calls)|].Postpone? && HandsOff(calls[|old(calls)|], calls[|old(calls)| + 1], out)
      ensures Passed(old(st), met, c, calls[|old(calls)|], left, st)
      ensures Wrote(met, left, calls[|old(calls)|], task, false, error)
    {
      hide Reachable, Reaches, Justified, Work, CanWork;
      ghost var s0, c0 := st, calls;
      var failed := ScheduleRetry(task.(lastError := error, status := Failed, attempt := task.attempt + 1));
      ghost var c1 := calls;
      met, left := seen, st;
      ReachesMore(start, s0, st);
      hide Called;
      if failed {
        GiveUp(start);
        out := HandoffFailed;
      } else {
        out := Conclude(start);
      }
      CallsGrow(c0, c1, calls);
    }

    /** A permanent error or a spent budget sends the task to the dead-letter list
        and never to the retry set; any other error the other way round.  What is
        written, if the command runs, is `Wrote`. */
    method HandleFailure(task: Task, permanent: bool, error: string, ghost start: State)
      returns (out: Outcome, ghost met: State, ghost left: State)
      requires Reachable(start) && At(start, c, Gate) && Reaches(start, st) && task == start.copies[c].task
      requires c in st.copies && FailedAs(start.copies[c].(pc := Ready), st.copies[c], permanent, error)
      modifies this`st, this`calls, this`seen
      ensures Reaches(start, st) && c !in st.copies
      ensures out in {Outcome.Buried, Rescheduled, HandoffFailed} && Justified(st, start.copies[c], out)
      ensures Made(old(calls), 2) && HandsOff(calls[|old(calls)|], calls[|old(calls)| + 1], out)
      ensures permanent || !task.IsRetryable() ==> out != Rescheduled && calls[|old(calls)|].Bury?
      ensures !permanent && task.IsRetryable() ==> out != Outcome.Buried && calls[|old(calls)|].Postpone?
      ensures Passed(old(st), met, c, calls[|old(calls)|], left, st)
      ensures Wrote(met, left, calls[|old(calls)|], task, permanent, error)
    {
      hide Reachable, Reaches, Justified, HandsOff, Passed, Wrote;
      if permanent || !task.IsRetryable() {
        out, met, left := BuryTask(task, permanent, error, start);
      } else {
        out, met, left := RetryTask(task, error, start);
      }
    }

    /** What processTask counts. */
    method Count(out: Outcome)
      modifies this`totalProcessed, this`totalFailed, this`totalRetried
      ensures totalProcessed == old(totalProcessed) + if out == Processed then 1 else 0
      ensures totalRetried == old(totalRetried) + if out == Rescheduled then 1 else 0
      ensures totalFailed == old(totalFailed) + if out in {Outcome.Buried, Rescheduled, HandoffFailed, Panicked} then 1 else 0
    {
      if out == Processed { totalProcessed := totalProcessed + 1; }
      if out == Rescheduled { totalRetried := totalRetried + 1; }
      if out in {Outcome.Buried, Rescheduled, HandoffFailed, Panicked} { totalFailed := totalFailed + 1; }
    }

    /** Send, and what follows: the goroutine has passed the gate. */
    method DeliverEmail(ghost start: State) returns (out: Outcome, ghost met: State, ghost left: State)
      requires Reachable(start) && At(start, c, Gate) && Reaches(start, st)
      requires c in st.copies && st.copies[c] == start.copies[c].(pc := Ready)
      modifies this`st, this`calls, this`seen
      ensures Reaches(start, st) && c !in st.copies && Justified(st, start.copies[c], out)
      ensures |old(calls)| <= |calls| && calls[..|old(calls)|] == old(calls) && Ends(calls[|old(calls)|..], out)
      ensures HandedOff(calls[|old(calls)|..], start, met, c, left, st)
    {
      hide Reachable, Reaches, Justified, FailedAs, Work, CanWork;
      met, left := st, st;
      ghost var s0, c0 := st, calls;
      var task := st.copies[c].task;
      var result := SendEmail();
      ghost var s1, c1 := st, calls;
      ReachesMore(start, s0, st);
      assert calls[|c0|] == Send(result);
      hide Called, Wrote, Passed, HandedOff, Ends, HandsOff;
      if result == Delivered {
        out := Conclude(start);
        CallsGrow(c0, c1, calls);
        DeliveredEnds(calls, |c0|, start, met, c, left, st);
      } else if result == Died {
        out := Panicked;
        NothingPromised(st, start.copies[c]);
        DiedEnds(calls, |c0|, start, met, c, left, st);
      } else {
        out, met, left := HandleFailure(task, result.Permanent?, result.error, start);
        PassedEarlier(start, s1, met, c, calls[|c1|], left, st);
        CallsGrow(c0, c1, calls);
        FailedEnds(calls, |c0|, out, start, met, c, left, st);
      }
    }

    /** From a fresh copy to the end of the goroutine, with arbitrary steps of all
        others in between: the whole is a run of the protocol, the goroutine lets
        go of its copy, its outcome is on record when it ends, its calls are those
        of the program for that outcome, and after a failed Send the next call
        writes what it should. */
    method ProcessTask(worker: string, maxAge: int) returns (out: Outcome, ghost met: State, ghost left: State)
      requires Reachable(st) && At(st, c, Gate) && calls == []
      modifies this
      ensures Reaches(old(st), st) && Reachable(st) && c !in st.copies
      ensures Justified(st, old(st).copies[c], out) && Follows(calls, out)
      ensures HandedOff(calls, old(st), met, c, left, st)
      ensures totalProcessed == old(totalProcessed) + if out == Processed then 1 else 0
      ensures totalRetried == old(totalRetried) + if out == Rescheduled then 1 else 0
      ensures totalFailed == old(totalFailed) + if out in {Outcome.Buried, Rescheduled, HandoffFailed, Panicked} then 1 else 0
    {
      hide Reachable, Reaches, Justified, Ends, HandedOff;
      ghost var start := st;
      met, left := st, st;
      var passed;
      passed, out := PassGate(worker, maxAge);
      if passed {
        ghost var gate := calls;
        out, met, left := DeliverEmail(start);
        assert calls[..|gate|] == gate;
        FollowsGate(calls, out);
        GateHandsOff(gate, calls[|gate|..], start, met, c, left, st);
        assert gate + calls[|gate|..] == calls;
      } else {
        NothingHandedOff(calls, out, start, met, c, left, st);
      }
      Count(out);
      ReachesReachable(start, st);
    }
  }

  lemma NothingPromised(st: State, cp: Copy)
    ensures Justified(st, cp, Panicked) && Justified(st, cp, LockHeld)
  {
  }

  // A passed gate and an ending make a whole program.
  lemma FollowsGate(cs: seq<Call>, out: Outcome)
    requires (|cs| >= 1 && TookLock(cs[..1]) && Ends(cs[1..], out)) || (|cs| >= 3 && TookOver(cs[..3]) && Ends(cs[3..], out))
    ensures Follows(cs, out)
  {
  }
}
