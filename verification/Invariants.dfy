// What every step of the protocol keeps.

module Invariants {
  import opened Wrappers
  import opened Domain
  import opened Keys
  import opened Network
  import opened Idempotency
  import opened Streams
  import opened Protocol

  // ---- Records: where tasks come from and what they may look like ----

  // t is the task o after some failed attempts.
  ghost predicate Descends(t: Task, o: Task) {
    SameDelivery(t, o) && o.attempt <= t.attempt <= Max(o.attempt, o.maxAttempts)
  }

  ghost predicate Known(l: Ledger, t: Task) {
    (exists o | o in l.enqueued :: Descends(t, o)) && (t.id, t.attempt) in l.created
  }

  ghost predicate Retried(l: Ledger, t: Task) {
    (exists o | o in l.enqueued :: Descends(t, o) && o.attempt < t.attempt) && (t.id, t.attempt) in l.created
  }

  ghost predicate StreamsOk(b: Broker, l: Ledger) {
    forall s: Slot | Exists(b, s) :: s.0 == QueueName(Payload(b, s).priority) && Known(l, Payload(b, s))
  }

  ghost predicate FlusherOk(l: Ledger, fl: Flusher) {
    |fl.moved| <= |fl.batch| && forall i | 0 <= i < |fl.batch| :: Retried(l, fl.batch[i])
  }

  ghost predicate RecordsOk(st: State) {
    && WellFormed(st.broker)
    && StreamsOk(st.broker, st.ledger)
    && (forall o | o in st.ledger.enqueued :: o.Validate().None? && (o.id, o.attempt) in st.ledger.created)
    && (forall t | t in st.retry :: Retried(st.ledger, t))
    && (forall f | f in st.flushers :: FlusherOk(st.ledger, st.flushers[f]))
  }

  // ---- Copies: the slot they came from, and what their position implies ----

  ghost predicate Buried(dlq: seq<DLQEntry>, id: string) {
    exists i | 0 <= i < |dlq| :: dlq[i].task.id == id
  }

  ghost predicate Routed(b: Broker, cp: Copy) {
    && Exists(b, cp.from) && cp.from.1 < Cursor(b, cp.from.0)
    && cp.task.streamKey == Some(cp.from.0) && cp.task.streamID == Some(cp.from.1)
    && SameDelivery(cp.task, Payload(b, cp.from))
    && cp.idKey == AttemptKey(cp.task.id, Payload(b, cp.from).attempt)
    && var a := Payload(b, cp.from).attempt;
       match cp.pc
       case Schedule => cp.task.attempt == a + 1 <= cp.task.maxAttempts
       case AckRetry => cp.task.attempt == a + 1 <= cp.task.maxAttempts
       case Unlock => cp.task.attempt == a || cp.task.attempt == a + 1 <= cp.task.maxAttempts
       case _ => cp.task.attempt == a
  }

  ghost predicate Positioned(st: State, cp: Copy) {
    match cp.pc
    case AckSent => cp.idKey in st.ledger.successes
    case MarkDone => cp.idKey in st.ledger.successes
    case AckDuplicate => cp.idKey in st.ledger.successes
    case DeadLetter(reason) => reason == MaxAttemptsExceeded ==> !cp.task.IsRetryable()
    case AckDead => Buried(st.dlq, cp.task.id)
    case AckRetry => (cp.task.id, cp.task.attempt) in st.ledger.created
    case _ => true
  }

  ghost predicate CopiesOk(st: State) {
    && (forall c | c in st.copies :: Routed(st.broker, st.copies[c]))
    && (forall c | c in st.copies :: Positioned(st, st.copies[c]))
    && (forall k | k in st.locks :: st.locks[k] == Lock.Completed ==> k in st.ledger.successes)
    && (forall i | 0 <= i < |st.dlq| :: BuriedOk(st.ledger, st.dlq[i]))
  }

  ghost predicate BuriedOk(l: Ledger, d: DLQEntry) {
    && Known(l, d.task)
    && (d.reason == MaxAttemptsExceeded ==> d.task.attempt >= d.task.maxAttempts || d.task.IsPoison())
  }

  // ---- Every step keeps the records in order ----

  ghost predicate Grows(l: Ledger, l': Ledger) {
    l.enqueued <= l'.enqueued && l.created <= l'.created
  }

  lemma KnownGrows(l: Ledger, l': Ledger)
    requires Grows(l, l')
    ensures forall t :: Known(l, t) ==> Known(l', t)
    ensures forall t :: Retried(l, t) ==> Retried(l', t)
    ensures forall fl :: FlusherOk(l, fl) ==> FlusherOk(l', fl)
  {
  }

  lemma StreamsFrame(b: Broker, l: Ledger, b': Broker, l': Ledger)
    requires StreamsOk(b, l) && Grows(l, l') && b'.logs == b.logs
    ensures StreamsOk(b', l')
  {
    KnownGrows(l, l');
    forall s: Slot | Exists(b', s)
      ensures s.0 == QueueName(Payload(b', s).priority) && Known(l', Payload(b', s))
    {
      assert Exists(b, s) && Payload(b', s) == Payload(b, s);
    }
  }

  lemma StreamsAppend(b: Broker, l: Ledger, t: Task, l': Ledger)
    requires StreamsOk(b, l) && Grows(l, l') && Known(l', t)
    ensures StreamsOk(XAdd(b, QueueName(t.priority), t), l')
  {
    KnownGrows(l, l');
    var b' := XAdd(b, QueueName(t.priority), t);
    forall s: Slot | Exists(b', s)
      ensures s.0 == QueueName(Payload(b', s).priority) && Known(l', Payload(b', s))
    {
      if s != (QueueName(t.priority), |Log(b, QueueName(t.priority))|) {
        assert Exists(b, s) && Payload(b', s) == Payload(b, s);
      }
    }
  }

  // Steps of producers, of the group and of schedulers.
  lemma EnqueueRecords(st: State, t: Task)
    requires RecordsOk(st) && t.Validate().None?
    ensures RecordsOk(DoEnqueue(st, t))
  {
    var l' := DoEnqueue(st, t).ledger;
    KnownGrows(st.ledger, l');
    XAddKeeps(st.broker, QueueName(t.priority), t);
    assert t in l'.enqueued && Descends(t, t);
    StreamsAppend(st.broker, st.ledger, t, l');
  }

  lemma FlushAddRecords(st: State, f: nat, reply: Reply)
    requires RecordsOk(st) && CanFlush(st, f, Add(reply))
    ensures RecordsOk(DoFlushAdd(st, f, reply))
  {
    var fl := st.flushers[f];
    var t := fl.batch[|fl.moved|];
    assert FlusherOk(st.ledger, fl) && Retried(st.ledger, t);
    assert Known(st.ledger, t);
    XAddKeeps(st.broker, QueueName(t.priority), t);
    StreamsAppend(st.broker, st.ledger, t, st.ledger);
  }

  // Every other step leaves the logs alone.
  lemma RecordsFrame(st: State, st': State)
    requires RecordsOk(st) && WellFormed(st'.broker) && st'.broker.logs == st.broker.logs
    requires Grows(st.ledger, st'.ledger) && st'.ledger.enqueued == st.ledger.enqueued
    requires forall t | t in st'.retry :: t in st.retry || Retried(st'.ledger, t)
    requires forall f | f in st'.flushers ::
               (f in st.flushers && st'.flushers[f] == st.flushers[f]) || FlusherOk(st'.ledger, st'.flushers[f])
    ensures RecordsOk(st')
  {
    KnownGrows(st.ledger, st'.ledger);
    StreamsFrame(st.broker, st.ledger, st'.broker, st'.ledger);
  }

  lemma AcknowledgeRecords(st: State, c: nat, reply: Reply)
    requires RecordsOk(st) && c in st.copies && Routed(st.broker, st.copies[c])
    ensures RecordsOk(DoAcknowledge(st, c, reply))
  {
    XAckRemovesOne(st.broker, st.copies[c].from);
    RecordsFrame(st, DoAcknowledge(st, c, reply));
  }

  lemma PostponeRecords(st: State, c: nat, reply: Reply)
    requires RecordsOk(st) && At(st, c, Schedule)
    requires Routed(st.broker, st.copies[c]) && Positioned(st, st.copies[c])
    ensures RecordsOk(DoPostpone(st, c, reply))
  {
    PostponeRetried(st, c);
    hide Known, Routed, Positioned, StreamsOk, FlusherOk, WellFormed, Onward, Idle;
    RecordsFrame(st, DoPostpone(st, c, reply));
  }

  // The record a retry leaves has failed once more than its copy's message.
  lemma PostponeRetried(st: State, c: nat)
    requires RecordsOk(st) && At(st, c, Schedule)
    requires Routed(st.broker, st.copies[c]) && Positioned(st, st.copies[c])
    ensures exists o | o in st.ledger.enqueued :: Descends(st.copies[c].task, o) && o.attempt < st.copies[c].task.attempt
  {
    var cp := st.copies[c];
    assert Known(st.ledger, Payload(st.broker, cp.from));
    hide StreamsOk, FlusherOk, WellFormed;
    var o :| o in st.ledger.enqueued && Descends(Payload(st.broker, cp.from), o);
    assert Descends(cp.task, o) && o.attempt < cp.task.attempt;
  }

  // Gate, send and lock traffic, and crashes, move no record.
  lemma QuietWork(st: State, c: nat, call: Call)
    requires CanWork(st, c, call) && !call.Acknowledge? && !call.Postpone?
    ensures SameRecords(st, Work(st, c, call))
  {
    hide DoTryAcquire, DoAskCompleted, DoTryReclaim, DoSend, DoComplete, DoBury, DoRelease;
  }

  lemma WorkRecords(st: State, c: nat, call: Call)
    requires RecordsOk(st) && CanWork(st, c, call)
    requires Routed(st.broker, st.copies[c]) && Positioned(st, st.copies[c])
    ensures RecordsOk(Work(st, c, call))
  {
    if call.Acknowledge? {
      AcknowledgeRecords(st, c, call.reply);
    } else if call.Postpone? {
      PostponeRecords(st, c, call.reply);
    } else {
      QuietWork(st, c, call);
      RecordsFrame(st, Work(st, c, call));
    }
  }

  lemma FlushRecords(st: State, f: nat, step: FlushCall)
    requires RecordsOk(st) && CanFlush(st, f, step)
    ensures RecordsOk(FlushStep(st, f, step))
  {
    if step.Add? {
      FlushAddRecords(st, f, step.reply);
    } else {
      RecordsFrame(st, FlushStep(st, f, step));
    }
  }

  lemma RecordsKept(st: State, e: Event)
    requires RecordsOk(st) && CopiesOk(st) && Can(st, e)
    ensures RecordsOk(Next(st, e))
  {
    match e
    case Enqueue(t) => EnqueueRecords(st, t);
    case Poll(key, _) => DeliverKeeps(st.broker, key); RecordsFrame(st, Next(st, e));
    case PollLost(key) => DeliverKeeps(st.broker, key); RecordsFrame(st, Next(st, e));
    case Claim(_, _) => RecordsFrame(st, Next(st, e));
    case Worker(c, call) => WorkRecords(st, c, call);
    case Flush(f, step) => FlushRecords(st, f, step);
    case Expire(_) => RecordsFrame(st, Next(st, e));
  }

  // ---- Every step keeps the copies in order ----

  ghost predicate CopyOk(st: State, cp: Copy) {
    Routed(st.broker, cp) && Positioned(st, cp)
  }

  ghost predicate LocksOk(locks: Locks, l: Ledger) {
    forall k | k in locks :: locks[k] == Lock.Completed ==> k in l.successes
  }

  ghost predicate DlqOk(dlq: seq<DLQEntry>, l: Ledger) {
    forall i | 0 <= i < |dlq| :: BuriedOk(l, dlq[i])
  }

  lemma CopyFacts(st: State, c: nat)
    requires CopiesOk(st) && c in st.copies
    ensures CopyOk(st, st.copies[c]) && LocksOk(st.locks, st.ledger) && DlqOk(st.dlq, st.ledger)
  {
  }

  lemma CopyOnward(st: State, st': State, cp: Copy)
    requires CopyOk(st, cp) && Onward(st, st')
    ensures CopyOk(st', cp)
  {
    assert Log(st'.broker, cp.from.0) == Log(st.broker, cp.from.0);
    if Buried(st.dlq, cp.task.id) {
      var i :| 0 <= i < |st.dlq| && st.dlq[i].task.id == cp.task.id;
      assert st'.dlq[i].task.id == cp.task.id;
    }
  }

  // What a step of one worker must show; all other copies stay as they are.
  lemma CopiesFrame(st: State, st': State, c: nat)
    requires CopiesOk(st) && Onward(st, st')
    requires st'.copies - {c} == st.copies - {c}
    requires c in st'.copies ==> CopyOk(st', st'.copies[c])
    requires LocksOk(st'.locks, st'.ledger) && DlqOk(st'.dlq, st'.ledger)
    ensures CopiesOk(st')
  {
    forall x | x in st'.copies
      ensures CopyOk(st', st'.copies[x])
    {
      if x != c {
        assert x in st'.copies - {c};
        assert st'.copies[x] == st.copies[x];
        CopyOnward(st, st', st.copies[x]);
      }
    }
  }

  lemma LocksGrow(locks: Locks, l: Ledger, l': Ledger)
    requires LocksOk(locks, l) && l.successes <= l'.successes
    ensures LocksOk(locks, l')
  {
  }

  lemma DlqGrows(dlq: seq<DLQEntry>, l: Ledger, l': Ledger)
    requires DlqOk(dlq, l) && Grows(l, l')
    ensures DlqOk(dlq, l')
  {
    KnownGrows(l, l');
  }

  lemma FailureMove(st: State, cp: Copy, error: string, permanent: bool)
    requires CopyOk(st, cp) && cp.pc == Ready
    ensures CopyOk(st, AfterFailure(cp, error, permanent))
  {
  }

  lemma SendCopies(st: State, c: nat, result: SendResult)
    requires CopiesOk(st) && At(st, c, Ready)
    ensures CopiesOk(DoSend(st, c, result))
  {
    hide CopiesOk, LocksOk, DlqOk, AfterFailure;
    var st' := DoSend(st, c, result);
    CopyFacts(st, c);
    LocksGrow(st.locks, st.ledger, st'.ledger);
    DlqGrows(st.dlq, st.ledger, st'.ledger);
    CopyOnward(st, st', st.copies[c]);
    if result.Permanent? || result.Transient? {
      FailureMove(st', st.copies[c], result.error, result.Permanent?);
    }
    CopiesFrame(st, st', c);
  }

  lemma EntryOk(st: State, c: nat)
    requires RecordsOk(st) && c in st.copies && st.copies[c].pc.DeadLetter? && CopyOk(st, st.copies[c])
    ensures var cp := st.copies[c]; BuriedOk(st.ledger, DLQEntry(cp.task, cp.pc.reason, cp.task.lastError))
  {
    var cp := st.copies[c];
    var o :| o in st.ledger.enqueued && Descends(Payload(st.broker, cp.from), o);
    assert Descends(cp.task, o);
  }

  lemma BuryCopies(st: State, c: nat, reply: Reply)
    requires RecordsOk(st) && CopiesOk(st) && c in st.copies && st.copies[c].pc.DeadLetter?
    ensures CopiesOk(DoBury(st, c, reply))
  {
    hide CopiesOk, RecordsOk, BuriedOk;
    var st' := DoBury(st, c, reply);
    CopyFacts(st, c);
    EntryOk(st, c);
    if reply.Ran() {
      assert st'.dlq[|st.dlq|].task.id == st.copies[c].task.id;
    }
    hide Known;
    CopyOnward(st, st', st.copies[c]);
    CopiesFrame(st, st', c);
  }

  lemma AcknowledgeCopies(st: State, c: nat, reply: Reply)
    requires CopiesOk(st) && c in st.copies && Acknowledging(st.copies[c].pc)
    ensures CopiesOk(DoAcknowledge(st, c, reply))
  {
    hide CopiesOk, LocksOk, DlqOk;
    CopyFacts(st, c);
    CopyOnward(st, DoAcknowledge(st, c, reply), st.copies[c]);
    CopiesFrame(st, DoAcknowledge(st, c, reply), c);
  }

  // Up to Send a copy only moves from gate to gate.
  lemma GateMove(st: State, cp: Copy, pc: Pc)
    requires CopyOk(st, cp) && cp.pc in {Gate, Check, Takeover}
    requires pc in {Check, Takeover, Ready} || (pc == AckDuplicate && cp.idKey in st.ledger.successes)
    ensures CopyOk(st, cp.(pc := pc))
  {
  }

  lemma AcquireCopies(st: State, c: nat, worker: string, startedAt: int, reply: Reply)
    requires CopiesOk(st) && At(st, c, Gate)
    ensures CopiesOk(DoTryAcquire(st, c, worker, startedAt, reply))
  {
    hide CopiesOk, DlqOk, CopyOk;
    var st' := DoTryAcquire(st, c, worker, startedAt, reply);
    CopyFacts(st, c);
    DlqGrows(st.dlq, st.ledger, st'.ledger);
    CopyOnward(st, st', st.copies[c]);
    GateMove(st', st.copies[c], st'.copies[c].pc);
    CopiesFrame(st, st', c);
  }

  lemma ReclaimCopies(st: State, c: nat, worker: string, nowUnix: int, maxAge: int, reply: Reply)
    requires CopiesOk(st) && At(st, c, Takeover)
    ensures CopiesOk(DoTryReclaim(st, c, worker, nowUnix, maxAge, reply))
  {
    hide CopiesOk, DlqOk, CopyOk;
    var st' := DoTryReclaim(st, c, worker, nowUnix, maxAge, reply);
    CopyFacts(st, c);
    DlqGrows(st.dlq, st.ledger, st'.ledger);
    CopyOnward(st, st', st.copies[c]);
    GateMove(st', st.copies[c], Ready);
    CopiesFrame(st, st', c);
  }

  lemma CheckCopies(st: State, c: nat, reply: Reply)
    requires CopiesOk(st) && At(st, c, Check)
    ensures CopiesOk(DoAskCompleted(st, c, reply))
  {
    hide CopiesOk, DlqOk, CopyOk;
    var st' := DoAskCompleted(st, c, reply);
    CopyFacts(st, c);
    CopyOnward(st, st', st.copies[c]);
    GateMove(st', st.copies[c], st'.copies[c].pc);
    CopiesFrame(st, st', c);
  }

  lemma PostponeCopies(st: State, c: nat, reply: Reply)
    requires CopiesOk(st) && At(st, c, Schedule)
    ensures CopiesOk(DoPostpone(st, c, reply))
  {
    hide CopiesOk, DlqOk, LocksOk;
    var st' := DoPostpone(st, c, reply);
    CopyFacts(st, c);
    DlqGrows(st.dlq, st.ledger, st'.ledger);
    LocksGrow(st.locks, st.ledger, st'.ledger);
    CopyOnward(st, st', st.copies[c]);
    CopiesFrame(st, st', c);
  }

  lemma FinishCopies(st: State, c: nat, call: Call)
    requires CopiesOk(st) && CanWork(st, c, call)
    requires call.Crash? || call.Complete? || call.Release?
    ensures CopiesOk(Work(st, c, call))
  {
    hide CopiesOk, DlqOk;
    var st' := Work(st, c, call);
    CopyFacts(st, c);
    DlqGrows(st.dlq, st.ledger, st'.ledger);
    CopiesFrame(st, st', c);
  }

  lemma WorkCopies(st: State, c: nat, call: Call)
    requires RecordsOk(st) && CopiesOk(st) && CanWork(st, c, call)
    ensures CopiesOk(Work(st, c, call))
  {
    hide CopiesOk, RecordsOk;
    if call.Send? {
      SendCopies(st, c, call.result);
    } else if call.Bury? {
      BuryCopies(st, c, call.reply);
    } else if call.Acknowledge? {
      AcknowledgeCopies(st, c, call.reply);
    } else if call.Postpone? {
      PostponeCopies(st, c, call.reply);
    } else if call.TryAcquire? {
      AcquireCopies(st, c, call.worker, call.startedAt, call.reply);
    } else if call.TryReclaim? {
      ReclaimCopies(st, c, call.worker, call.nowUnix, call.maxAge, call.reply);
    } else if call.AskCompleted? {
      CheckCopies(st, c, call.reply);
    } else {
      FinishCopies(st, c, call);
    }
  }

  // ---- The same for steps of producers, the group, schedulers and time ----

  ghost predicate LaterBroker(b: Broker, b': Broker) {
    && (forall s: Slot | Exists(b, s) :: Exists(b', s) && Payload(b', s) == Payload(b, s))
    && (forall key :: Cursor(b, key) <= Cursor(b', key))
  }

  lemma CopyLater(st: State, st': State, cp: Copy)
    requires CopyOk(st, cp) && LaterBroker(st.broker, st'.broker)
    requires st'.ledger.successes == st.ledger.successes
    requires Grows(st.ledger, st'.ledger) && st'.dlq == st.dlq
    ensures CopyOk(st', cp)
  {
  }

  lemma CopiesElsewhere(st: State, st': State, c: nat)
    requires CopiesOk(st) && LaterBroker(st.broker, st'.broker)
    requires st'.ledger.successes == st.ledger.successes
    requires Grows(st.ledger, st'.ledger) && st'.dlq == st.dlq && LocksOk(st'.locks, st'.ledger)
    requires st'.copies == st.copies || (st'.copies - {c} == st.copies - {c} && c in st'.copies && CopyOk(st', st'.copies[c]))
    ensures CopiesOk(st')
  {
    forall x | x in st'.copies
      ensures CopyOk(st', st'.copies[x])
    {
      if st'.copies == st.copies || x != c {
        assert x in st'.copies - {c} || st'.copies == st.copies;
        assert st'.copies[x] == st.copies[x];
        CopyLater(st, st', st.copies[x]);
      }
    }
    assert DlqOk(st.dlq, st.ledger);
    DlqGrows(st.dlq, st.ledger, st'.ledger);
  }

  lemma XAddLater(b: Broker, key: string, t: Task)
    ensures LaterBroker(b, XAdd(b, key, t))
  {
    XAddKeeps(b, key, t);
    assert forall k :: Cursor(XAdd(b, key, t), k) == Cursor(b, k);
  }

  lemma DeliverLater(b: Broker, key: string)
    requires HasNew(b, key)
    ensures LaterBroker(b, Deliver(b, key)) && Cursor(b, key) < Cursor(Deliver(b, key), key)
  {
    assert forall k :: Log(Deliver(b, key), k) == Log(b, k);
  }

  lemma NewCopyOk(st: State, s: Slot)
    requires Exists(st.broker, s) && s.1 < Cursor(st.broker, s.0)
    ensures CopyOk(st, NewCopy(st.broker, s))
  {
  }

  lemma FlushCopies(st: State, f: nat, step: FlushCall)
    requires CopiesOk(st) && CanFlush(st, f, step)
    ensures CopiesOk(FlushStep(st, f, step))
  {
    assert LocksOk(st.locks, st.ledger);
    hide CopiesOk;
    if step.Add? {
      var t := st.flushers[f].batch[|st.flushers[f].moved|];
      XAddLater(st.broker, QueueName(t.priority), t);
    }
    CopiesElsewhere(st, FlushStep(st, f, step), 0);
  }

  lemma EnqueueCopies(st: State, t: Task)
    requires CopiesOk(st)
    ensures CopiesOk(DoEnqueue(st, t))
  {
    assert LocksOk(st.locks, st.ledger);
    hide CopiesOk;
    XAddLater(st.broker, QueueName(t.priority), t);
    CopiesElsewhere(st, DoEnqueue(st, t), 0);
  }

  lemma PollCopies(st: State, key: string, c: nat)
    requires CopiesOk(st) && HasNew(st.broker, key)
    ensures CopiesOk(DoPoll(st, key, c))
  {
    assert LocksOk(st.locks, st.ledger);
    hide CopiesOk, LaterBroker, CopyOk, LocksOk;
    var st' := DoPoll(st, key, c);
    var s: Slot := (key, Cursor(st.broker, key));
    DeliverLater(st.broker, key);
    assert NewCopy(st'.broker, s) == NewCopy(st.broker, s);
    NewCopyOk(st', s);
    CopiesElsewhere(st, st', c);
  }

  lemma PollLostCopies(st: State, key: string)
    requires CopiesOk(st) && HasNew(st.broker, key)
    ensures CopiesOk(st.(broker := Deliver(st.broker, key)))
  {
    assert LocksOk(st.locks, st.ledger);
    hide CopiesOk, LaterBroker, LocksOk;
    DeliverLater(st.broker, key);
    CopiesElsewhere(st, st.(broker := Deliver(st.broker, key)), 0);
  }

  lemma ClaimCopies(st: State, s: Slot, c: nat)
    requires WellFormed(st.broker) && CopiesOk(st) && Exists(st.broker, s) && s in st.broker.pel && c !in st.copies
    ensures CopiesOk(st.(copies := st.copies[c := NewCopy(st.broker, s)]))
  {
    assert LocksOk(st.locks, st.ledger) && s.1 < Cursor(st.broker, s.0);
    hide CopiesOk, CopyOk, LocksOk, WellFormed;
    NewCopyOk(st, s);
    CopiesElsewhere(st, st.(copies := st.copies[c := NewCopy(st.broker, s)]), c);
  }

  lemma ExpireCopies(st: State, k: string)
    requires CopiesOk(st)
    ensures CopiesOk(DoExpire(st, k))
  {
    assert LocksOk(st.locks - {k}, st.ledger);
    hide CopiesOk;
    CopiesElsewhere(st, DoExpire(st, k), 0);
  }

  lemma CopiesKept(st: State, e: Event)
    requires RecordsOk(st) && CopiesOk(st) && Can(st, e)
    ensures CopiesOk(Next(st, e))
  {
    assert WellFormed(st.broker);
    hide CopiesOk, RecordsOk, WellFormed;
    match e
    case Worker(c, call) => WorkCopies(st, c, call);
    case Flush(f, step) => FlushCopies(st, f, step);
    case Enqueue(t) => EnqueueCopies(st, t);
    case Poll(key, c) => PollCopies(st, key, c);
    case PollLost(key) => PollLostCopies(st, key);
    case Claim(s, c) => ClaimCopies(st, s, c);
    case Expire(k) => ExpireCopies(st, k);
  }
}
