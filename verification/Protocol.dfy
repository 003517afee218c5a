// The delivery protocol as one state machine.  Its steps are the individual
// Redis commands and provider calls made by producers, worker goroutines
// (internal/worker/supervisor.go) and retry schedulers
// (internal/adapters/redis/retry_scheduler.go), interleaved in any order, on any
// number of processes, each of which may die between any two of its steps.

module Protocol {
  import opened Wrappers
  import opened Domain
  import opened Keys
  import opened Network
  import opened Idempotency
  import opened Streams

  /** Where processTask stands: the call it makes next. */
  datatype Pc =
    | Gate                       // SetProcessing
    | Check                      // IsCompleted
    | Takeover                   // TryReclaimStale
    | Ready                      // Send
    | AckSent                    // Acknowledge after a successful Send
    | MarkDone                   // SetCompleted
    | AckDuplicate               // Acknowledge of a completed duplicate
    | DeadLetter(reason: Reason) // SendToDLQ
    | AckDead                    // Acknowledge after SendToDLQ
    | Schedule                   // ScheduleRetry
    | AckRetry                   // Acknowledge after ScheduleRetry
    | Unlock                     // ClearProcessing, then Nack

  /** One in-memory copy of a task: the channel element, then the goroutine.
      `from` is the slot it was delivered from; the program itself only has the
      routing metadata inside `task`. */
  datatype Copy = Copy(task: Task, from: Slot, idKey: string, pc: Pc)

  // Send's error classes; a process can also die while Send is under way.
  datatype SendResult = Delivered | Permanent(error: string) | Transient(error: string) | Died

  /** FlushReady under way: the members it read, and for each XADD sent so far
      whether the server carried it out. */
  datatype Flusher = Flusher(batch: seq<Task>, moved: seq<bool>)

  /** What has happened so far; no step reads it. */
  datatype Ledger = Ledger(
    enqueued: set<Task>,            // every task a producer's XADD stored
    created: set<(string, int)>,    // every (ID, attempt) ever stored as a record
    grants: multiset<string>,       // locks acquired by SetProcessing, per attempt key
    reclaims: multiset<string>,     // locks taken over by TryReclaimStale
    clears: multiset<string>,       // locks deleted by ClearProcessing
    expiries: multiset<string>,     // locks that ran out of TTL
    sends: multiset<string>,        // calls of Send
    successes: multiset<string>,    // calls of Send that returned nil
    failures: multiset<string>,     // calls of Send that returned an error
    postpones: multiset<string>,    // failed attempts stored as the next one in the retry set
    dropped: set<(string, int)>     // removed by ZREM although their XADD was not carried out
  )

  datatype State = State(
    broker: Broker,
    retry: set<Task>,               // members of the retry sorted set
    dlq: seq<DLQEntry>,             // every entry ever pushed to a dead-letter list
    locks: Locks,
    copies: map<nat, Copy>,
    flushers: map<nat, Flusher>,
    ledger: Ledger
  )

  // One call of processTask, with what came of it.
  datatype Call =
    | Crash                                   // also: panic, or Nack at shutdown
    | TryAcquire(worker: string, startedAt: int, reply: Reply)
    | AskCompleted(reply: Reply)
    | TryReclaim(worker: string, nowUnix: int, maxAge: int, reply: Reply)
    | Send(result: SendResult)
    | Acknowledge(reply: Reply)
    | Complete(reply: Reply)
    | Bury(reply: Reply)
    | Postpone(reply: Reply)
    | Release(reply: Reply)

  // One command of FlushReady.
  datatype FlushCall =
    | Read(batch: seq<Task>)
    | Add(reply: Reply)
    | Remove(reply: Reply)
    | Stop                                    // connection lost or process dead

  datatype Event =
    | Enqueue(t: Task)
    | Poll(key: string, c: nat)
    | PollLost(key: string)                   // delivered, but the reply never arrived
    | Claim(s: Slot, c: nat)
    | Worker(c: nat, call: Call)
    | Flush(f: nat, step: FlushCall)
    | Expire(idKey: string)

  const INITIAL := State(
    Broker(map[], map[], {}), {}, [], map[], map[], map[],
    Ledger({}, {}, multiset{}, multiset{}, multiset{}, multiset{}, multiset{}, multiset{}, multiset{}, multiset{}, {}))

  const FLUSH_LIMIT := 100

  predicate At(st: State, c: nat, pc: Pc) {
    c in st.copies && st.copies[c].pc == pc
  }

  predicate Acknowledging(pc: Pc) {
    pc == AckSent || pc == AckDuplicate || pc == AckDead || pc == AckRetry
  }

  predicate CanWork(st: State, c: nat, call: Call) {
    && c in st.copies
    && var pc := st.copies[c].pc;
       match call
       case Crash => true
       case TryAcquire(_, _, _) => pc == Gate
       case AskCompleted(_) => pc == Check
       case TryReclaim(_, _, _, _) => pc == Takeover
       case Send(_) => pc == Ready
       case Acknowledge(_) => Acknowledging(pc)
       case Complete(_) => pc == MarkDone
       case Bury(_) => pc.DeadLetter?
       case Postpone(_) => pc == Schedule
       case Release(_) => pc == Unlock
  }

  predicate CanFlush(st: State, f: nat, step: FlushCall) {
    match step
    case Read(batch) =>
      && f !in st.flushers && |batch| <= FLUSH_LIMIT
      && (forall i | 0 <= i < |batch| :: batch[i] in st.retry)
      && (forall i, j | 0 <= i < j < |batch| :: batch[i] != batch[j])
    case Add(_) => f in st.flushers && |st.flushers[f].moved| < |st.flushers[f].batch|
    case Remove(_) => f in st.flushers && |st.flushers[f].moved| == |st.flushers[f].batch|
    case Stop => f in st.flushers
  }

  predicate Can(st: State, e: Event) {
    match e
    case Enqueue(t) => t.Validate().None?
    case Poll(key, c) => key in PRIORITY_STREAMS && HasNew(st.broker, key) && c !in st.copies
    case PollLost(key) => key in PRIORITY_STREAMS && HasNew(st.broker, key)
    case Claim(s, c) => s.0 in PRIORITY_STREAMS && Exists(st.broker, s) && s in st.broker.pel && c !in st.copies
    case Worker(c, call) => CanWork(st, c, call)
    case Flush(f, step) => CanFlush(st, f, step)
    case Expire(k) => k in st.locks
  }

  function NewCopy(b: Broker, s: Slot): Copy
    requires Exists(b, s)
  {
    var t := Stamp(Payload(b, s), s);
    Copy(t, s, AttemptKey(t.id, t.attempt), Gate)
  }

  // The step leaves messages, retry members and batches under way alone.
  ghost predicate SameRecords(st: State, st': State) {
    && st'.broker == st.broker && st'.retry == st.retry && st'.flushers == st.flushers
    && st'.ledger.enqueued == st.ledger.enqueued && st'.ledger.created == st.ledger.created
    && st'.ledger.dropped == st.ledger.dropped && st'.ledger.postpones == st.ledger.postpones
  }

  // Nothing that happened is undone, and no message is delivered or added.
  ghost predicate Onward(st: State, st': State) {
    && st'.broker.logs == st.broker.logs && st'.broker.cursors == st.broker.cursors
    && st.ledger.successes <= st'.ledger.successes
    && st.ledger.enqueued <= st'.ledger.enqueued && st.ledger.created <= st'.ledger.created
    && st.dlq <= st'.dlq
  }

  // The other calls neither acquire, send nor remove a lock.
  ghost predicate Idle(st: State, st': State, c: nat) {
    && st'.locks.Keys == st.locks.Keys
    && st'.ledger.(created := {}, postpones := multiset{}) == st.ledger.(created := {}, postpones := multiset{})
    && st'.copies - {c} == st.copies - {c}
    && (c in st'.copies ==> st'.copies[c].pc != Ready)
  }

  function Goto(st: State, c: nat, pc: Pc): State
    requires c in st.copies
  {
    st.(copies := st.copies[c := st.copies[c].(pc := pc)])
  }

  // The goroutine returns (after Nack, which writes nothing).
  function Finish(st: State, c: nat): (r: State)
    ensures Idle(st, r, c)
  {
    st.(copies := st.copies - {c})
  }

  function DoEnqueue(st: State, t: Task): State {
    st.(broker := XAdd(st.broker, QueueName(t.priority), t),
        ledger := st.ledger.(enqueued := st.ledger.enqueued + {t}, created := st.ledger.created + {(t.id, t.attempt)}))
  }

  function DoPoll(st: State, key: string, c: nat): State
    requires HasNew(st.broker, key)
  {
    st.(broker := Deliver(st.broker, key), copies := st.copies[c := NewCopy(st.broker, (key, Cursor(st.broker, key)))])
  }

  function DoExpire(st: State, k: string): State {
    st.(locks := st.locks - {k}, ledger := st.ledger.(expiries := st.ledger.expiries + multiset{k}))
  }

  function DoTryAcquire(st: State, c: nat, worker: string, startedAt: int, reply: Reply): (r: State)
    requires c in st.copies
    ensures SameRecords(st, r) && Onward(st, r)
  {
    var k := st.copies[c].idKey;
    var (locks, granted) := AcquireScript(st.locks, k, worker, startedAt);
    var next := Goto(st, c, if granted && reply.Done? then Ready else Check);
    if reply.Ran() && granted then
      next.(locks := locks, ledger := st.ledger.(grants := st.ledger.grants + multiset{k}))
    else next
  }

  function DoAskCompleted(st: State, c: nat, reply: Reply): (r: State)
    requires c in st.copies
    ensures SameRecords(st, r) && Onward(st, r) && Idle(st, r, c)
  {
    var k := st.copies[c].idKey;
    Goto(st, c, if reply.Done? && k in st.locks && st.locks[k] == Lock.Completed then AckDuplicate else Takeover)
  }

  function DoTryReclaim(st: State, c: nat, worker: string, nowUnix: int, maxAge: int, reply: Reply): (r: State)
    requires c in st.copies
    ensures SameRecords(st, r) && Onward(st, r)
  {
    var k := st.copies[c].idKey;
    var (locks, reclaimed) := ReclaimScript(st.locks, k, worker, nowUnix, maxAge);
    var next := if reclaimed && reply.Done? then Goto(st, c, Ready) else Finish(st, c);
    if reply.Ran() && reclaimed then
      next.(locks := locks, ledger := st.ledger.(reclaims := st.ledger.reclaims + multiset{k}))
    else next
  }

  // The error path up to the next call: DLQ or one more attempt.
  function AfterFailure(cp: Copy, error: string, permanent: bool): Copy {
    var t := cp.task.(lastError := error, status := Failed);
    if permanent then cp.(task := t, pc := DeadLetter(NonRetryableError))
    else if !t.IsRetryable() then cp.(task := t, pc := DeadLetter(MaxAttemptsExceeded))
    else cp.(task := t.(attempt := t.attempt + 1), pc := Schedule)
  }

  function DoSend(st: State, c: nat, result: SendResult): (r: State)
    requires c in st.copies
    ensures SameRecords(st, r) && Onward(st, r)
  {
    var cp := st.copies[c];
    var l := st.ledger.(sends := st.ledger.sends + multiset{cp.idKey});
    match result
    case Delivered => Goto(st, c, AckSent).(ledger := l.(successes := l.successes + multiset{cp.idKey}))
    case Died => Finish(st, c).(ledger := l)
    case Permanent(error) =>
      st.(copies := st.copies[c := AfterFailure(cp, error, true)],
          ledger := l.(failures := l.failures + multiset{cp.idKey}))
    case Transient(error) =>
      st.(copies := st.copies[c := AfterFailure(cp, error, false)],
          ledger := l.(failures := l.failures + multiset{cp.idKey}))
  }

  // XACK through the routing metadata; its error is ignored.
  function DoAcknowledge(st: State, c: nat, reply: Reply): (r: State)
    requires c in st.copies
    ensures Onward(st, r) && Idle(st, r, c)
  {
    var cp := st.copies[c];
    var next := if cp.pc == AckSent then Goto(st, c, MarkDone) else Finish(st, c);
    if reply.Ran() then next.(broker := XAck(st.broker, cp.task.streamKey, cp.task.streamID)) else next
  }

  function DoComplete(st: State, c: nat, reply: Reply): (r: State)
    requires c in st.copies
    ensures SameRecords(st, r) && Onward(st, r) && Idle(st, r, c)
  {
    var next := Finish(st, c);
    if reply.Ran() then next.(locks := CompleteCommand(st.locks, st.copies[c].idKey)) else next
  }

  function DoBury(st: State, c: nat, reply: Reply): (r: State)
    requires c in st.copies && st.copies[c].pc.DeadLetter?
    ensures SameRecords(st, r) && Onward(st, r) && Idle(st, r, c)
  {
    var cp := st.copies[c];
    var next := Goto(st, c, if reply.Done? then AckDead else Unlock);
    if reply.Ran() then next.(dlq := st.dlq + [DLQEntry(cp.task, cp.pc.reason, cp.task.lastError)]) else next
  }

  // ZADD NX: an identical member is left as it is.
  function DoPostpone(st: State, c: nat, reply: Reply): (r: State)
    requires c in st.copies
    ensures Onward(st, r) && Idle(st, r, c)
  {
    var t := st.copies[c].task;
    var next := Goto(st, c, if reply.Done? then AckRetry else Unlock);
    if reply.Ran() then
      next.(retry := st.retry + {t},
            ledger := st.ledger.(created := st.ledger.created + {(t.id, t.attempt)},
                                 postpones := st.ledger.postpones + multiset{st.copies[c].idKey}))
    else next
  }

  function DoRelease(st: State, c: nat, reply: Reply): (r: State)
    requires c in st.copies
    ensures SameRecords(st, r) && Onward(st, r)
  {
    var k := st.copies[c].idKey;
    var next := Finish(st, c);
    if reply.Ran() then
      next.(locks := ClearCommand(st.locks, k),
            ledger := st.ledger.(clears := st.ledger.clears + if k in st.locks then multiset{k} else multiset{}))
    else next
  }

  function DoFlushAdd(st: State, f: nat, reply: Reply): State
    requires f in st.flushers && |st.flushers[f].moved| < |st.flushers[f].batch|
  {
    var fl := st.flushers[f];
    var t := fl.batch[|fl.moved|];
    var next := st.(flushers := st.flushers[f := fl.(moved := fl.moved + [reply.Ran()])]);
    if reply.Ran() then next.(broker := XAdd(st.broker, QueueName(t.priority), t)) else next
  }

  function Unmoved(fl: Flusher, retry: set<Task>): set<(string, int)>
    requires |fl.moved| == |fl.batch|
  {
    set i | 0 <= i < |fl.batch| && !fl.moved[i] && fl.batch[i] in retry :: (fl.batch[i].id, fl.batch[i].attempt)
  }

  function DoFlushRemove(st: State, f: nat, reply: Reply): State
    requires f in st.flushers && |st.flushers[f].moved| == |st.flushers[f].batch|
  {
    var fl := st.flushers[f];
    var next := st.(flushers := st.flushers - {f});
    if reply.Ran() then
      next.(retry := st.retry - (set i | 0 <= i < |fl.batch| :: fl.batch[i]),
            ledger := st.ledger.(dropped := st.ledger.dropped + Unmoved(fl, st.retry)))
    else next
  }

  function Work(st: State, c: nat, call: Call): State
    requires CanWork(st, c, call)
  {
    match call
    case Crash => Finish(st, c)
    case TryAcquire(worker, startedAt, reply) => DoTryAcquire(st, c, worker, startedAt, reply)
    case AskCompleted(reply) => DoAskCompleted(st, c, reply)
    case TryReclaim(worker, nowUnix, maxAge, reply) => DoTryReclaim(st, c, worker, nowUnix, maxAge, reply)
    case Send(result) => DoSend(st, c, result)
    case Acknowledge(reply) => DoAcknowledge(st, c, reply)
    case Complete(reply) => DoComplete(st, c, reply)
    case Bury(reply) => DoBury(st, c, reply)
    case Postpone(reply) => DoPostpone(st, c, reply)
    case Release(reply) => DoRelease(st, c, reply)
  }

  // A scheduler touches no copy, no lock and no dead-letter list.
  function FlushStep(st: State, f: nat, step: FlushCall): (r: State)
    requires CanFlush(st, f, step)
    ensures r.copies == st.copies && r.dlq == st.dlq && r.locks == st.locks
    ensures r.ledger == st.ledger.(dropped := r.ledger.dropped)
  {
    match step
    case Read(batch) => st.(flushers := st.flushers[f := Flusher(batch, [])])
    case Add(reply) => DoFlushAdd(st, f, reply)
    case Remove(reply) => DoFlushRemove(st, f, reply)
    case Stop => st.(flushers := st.flushers - {f})
  }

  function Next(st: State, e: Event): State
    requires Can(st, e)
  {
    match e
    case Enqueue(t) => DoEnqueue(st, t)
    case Poll(key, c) => DoPoll(st, key, c)
    case PollLost(key) => st.(broker := Deliver(st.broker, key))
    case Claim(s, c) => st.(copies := st.copies[c := NewCopy(st.broker, s)])
    case Worker(c, call) => Work(st, c, call)
    case Flush(f, step) => FlushStep(st, f, step)
    case Expire(k) => DoExpire(st, k)
  }

  /** es is a possible sequence of steps from st. */
  predicate Run(st: State, es: seq<Event>)
    decreases |es|
  {
    es == [] || (Can(st, es[0]) && Run(Next(st, es[0]), es[1..]))
  }

  function After(st: State, es: seq<Event>): State
    requires Run(st, es)
    decreases |es|
  {
    if es == [] then st else After(Next(st, es[0]), es[1..])
  }

  ghost predicate Reaches(a: State, b: State) {
    exists es :: Run(a, es) && After(a, es) == b
  }

  ghost predicate Reachable(st: State) {
    Reaches(INITIAL, st)
  }

  lemma {:induction false} RunsCompose(st: State, es: seq<Event>, fs: seq<Event>)
    requires Run(st, es) && Run(After(st, es), fs)
    ensures Run(st, es + fs) && After(st, es + fs) == After(After(st, es), fs)
    decreases |es|
  {
    hide Next, Can;
    if es == [] {
      assert es + fs == fs;
    } else {
      RunsCompose(Next(st, es[0]), es[1..], fs);
      assert (es + fs)[0] == es[0] && (es + fs)[1..] == es[1..] + fs;
    }
  }

  lemma ReachesSelf(a: State)
    ensures Reaches(a, a)
  {
    assert Run(a, []) && After(a, []) == a;
  }

  lemma ReachesMore(a: State, b: State, c: State)
    requires Reaches(a, b) && Reaches(b, c)
    ensures Reaches(a, c)
  {
    var es :| Run(a, es) && After(a, es) == b;
    var fs :| Run(b, fs) && After(b, fs) == c;
    RunsCompose(a, es, fs);
  }

  lemma ReachesNext(a: State, e: Event)
    requires Can(a, e)
    ensures Reaches(a, Next(a, e))
  {
    var b := Next(a, e);
    hide Next, Can;
    assert [e][1..] == [];
    assert Run(b, []) && After(b, []) == b;
    assert Run(a, [e]) && After(a, [e]) == b;
  }
}
