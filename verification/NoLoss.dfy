// No task is lost.

module NoLoss {
  import opened Wrappers
  import opened Domain
  import opened Keys
  import opened Network
  import opened Idempotency
  import opened Streams
  import opened Protocol
  import opened Invariants
  import opened Accounting

  ghost predicate InStream(b: Broker, id: string, a: int) {
    exists s: Slot :: Live(b, s) && Payload(b, s).id == id && Payload(b, s).attempt >= a
  }

  ghost predicate InRetry(retry: set<Task>, id: string, a: int) {
    exists t | t in retry :: t.id == id && t.attempt >= a
  }

  ghost predicate Sent(l: Ledger, id: string) {
    exists a :: AttemptKey(id, a) in l.successes
  }

  ghost predicate Dropped(l: Ledger, id: string, a: int) {
    exists d | d in l.dropped :: d.0 == id && d.1 >= a
  }

  // A call of Send returned nil, or a dead-letter entry was pushed.
  ghost predicate Settled(st: State, id: string) {
    Sent(st.ledger, id) || Buried(st.dlq, id)
  }

  /** Attempt a of the task, or a later one, is still on its way: the task is
      settled, or a record of it will be delivered - or a flush dropped it. */
  ghost predicate Held(st: State, id: string, a: int) {
    Settled(st, id) || InStream(st.broker, id, a) || InRetry(st.retry, id, a) || Dropped(st.ledger, id, a)
  }

  // The same without relying on a retry member of attempt a itself.
  ghost predicate Safe(st: State, id: string, a: int) {
    Settled(st, id) || InStream(st.broker, id, a) || InRetry(st.retry, id, a + 1) || Dropped(st.ledger, id, a)
  }

  ghost predicate BatchSafe(st: State, fl: Flusher) {
    forall i | 0 <= i < |fl.moved| && i < |fl.batch| && fl.moved[i] :: Safe(st, fl.batch[i].id, fl.batch[i].attempt)
  }

  ghost predicate NothingLost(st: State) {
    && (forall id, a | (id, a) in st.ledger.created :: Held(st, id, a))
    && (forall f | f in st.flushers :: BatchSafe(st, st.flushers[f]))
  }

  // ---- Steps that take nothing out of circulation ----

  ghost predicate Keeps(st: State, st': State) {
    && (forall s: Slot | Live(st.broker, s) :: Live(st'.broker, s) && Payload(st'.broker, s) == Payload(st.broker, s))
    && st.retry <= st'.retry
    && st.ledger.successes <= st'.ledger.successes && st.dlq <= st'.dlq && st.ledger.dropped <= st'.ledger.dropped
  }

  lemma SettledKeeps(st: State, st': State, id: string)
    requires st.ledger.successes <= st'.ledger.successes && st.dlq <= st'.dlq
    ensures Settled(st, id) ==> Settled(st', id)
  {
    if Buried(st.dlq, id) {
      var i :| 0 <= i < |st.dlq| && st.dlq[i].task.id == id;
      assert st'.dlq[i].task.id == id;
    }
  }

  lemma HeldKeeps(st: State, st': State, id: string, a: int)
    requires Keeps(st, st')
    ensures Held(st, id, a) ==> Held(st', id, a)
    ensures Safe(st, id, a) ==> Safe(st', id, a)
  {
    SettledKeeps(st, st', id);
  }

  // What a step must show when it only adds records and flushed members.
  lemma NothingLostFrame(st: State, st': State)
    requires NothingLost(st)
    requires forall id, a :: (Held(st, id, a) ==> Held(st', id, a)) && (Safe(st, id, a) ==> Safe(st', id, a))
    requires forall x | x in st'.ledger.created - st.ledger.created :: Held(st', x.0, x.1)
    requires forall f | f in st'.flushers :: (f in st.flushers && st'.flushers[f] == st.flushers[f]) || BatchSafe(st', st'.flushers[f])
    ensures NothingLost(st')
  {
    forall id, a | (id, a) in st'.ledger.created
      ensures Held(st', id, a)
    {
      if (id, a) !in st.ledger.created {
        assert (id, a) in st'.ledger.created - st.ledger.created;
      }
    }
  }

  // ---- Acknowledging ----

  lemma OtherSlots(b: Broker, from: Slot, id: string, a: int)
    requires WellFormed(b) && Exists(b, from) && from.1 < Cursor(b, from.0) && InStream(b, id, a)
    ensures InStream(XAck(b, Some(from.0), Some(from.1)), id, a)
            || (Payload(b, from).id == id && Payload(b, from).attempt >= a)
  {
    var b' := XAck(b, Some(from.0), Some(from.1));
    XAckRemovesOne(b, from);
    var s: Slot :| Live(b, s) && Payload(b, s).id == id && Payload(b, s).attempt >= a;
    if s != from {
      assert Live(b', s) && Payload(b', s) == Payload(b, s);
    }
  }

  /** Whatever a worker acknowledges is settled or has a successor: XACK takes
      one slot away and nothing that was held stops being held. */
  lemma AcknowledgeKeeps(st: State, c: nat, reply: Reply, id: string, a: int)
    requires WellFormed(st.broker) && NothingLost(st)
    requires c in st.copies && Acknowledging(st.copies[c].pc) && CopyOk(st, st.copies[c])
    ensures Held(st, id, a) ==> Held(DoAcknowledge(st, c, reply), id, a)
    ensures Safe(st, id, a) ==> Safe(DoAcknowledge(st, c, reply), id, a)
  {
    var cp := st.copies[c];
    if InStream(st.broker, id, a) && reply.Ran() {
      OtherSlots(st.broker, cp.from, id, a);
      if cp.pc == AckRetry {
        var next := cp.task.attempt;
        assert Held(st, cp.task.id, next);
        if InStream(st.broker, cp.task.id, next) {
          OtherSlots(st.broker, cp.from, cp.task.id, next);
        }
      } else {
        assert Settled(st, cp.task.id);
      }
      hide WellFormed, CopyOk, NothingLost;
    }
  }

  // ---- Removing a flushed batch ----

  lemma HeldEarlier(st: State, id: string, a: int, b: int)
    requires a <= b && Held(st, id, b)
    ensures Held(st, id, a)
  {
  }

  function From(retry: set<Task>, a: int): set<Task> {
    set t | t in retry && t.attempt >= a
  }

  // A removed member was moved before, and is held beyond itself, or was dropped.
  lemma RemovedMember(st: State, f: nat, t: Task)
    requires NothingLost(st) && CanFlush(st, f, Remove(Done))
    requires t in st.retry && t !in DoFlushRemove(st, f, Done).retry
    ensures Safe(st, t.id, t.attempt) || Dropped(DoFlushRemove(st, f, Done).ledger, t.id, t.attempt)
  {
    var fl := st.flushers[f];
    var i :| 0 <= i < |fl.batch| && fl.batch[i] == t;
    assert BatchSafe(st, fl);
    if !fl.moved[i] {
      assert (t.id, t.attempt) in Unmoved(fl, st.retry);
      assert (t.id, t.attempt) in DoFlushRemove(st, f, Done).ledger.dropped;
    }
  }

  /** ZREM may take several members of one task at once.  Each was either moved
      to its stream before, where it or a later attempt is still held, or its XADD
      was not carried out and the ledger says so; follow the attempts upwards. */
  lemma {:induction false} RemoveKeeps(st: State, f: nat, id: string, a: int)
    requires NothingLost(st) && CanFlush(st, f, Remove(Done)) && Held(st, id, a)
    ensures Held(DoFlushRemove(st, f, Done), id, a)
    decreases From(st.retry, a)
  {
    var st' := DoFlushRemove(st, f, Done);
    if InRetry(st.retry, id, a) {
      var t :| t in st.retry && t.id == id && t.attempt >= a;
      if t !in st'.retry {
        RemovedMember(st, f, t);
        hide NothingLost;
        if Safe(st, id, t.attempt) && InRetry(st.retry, id, t.attempt + 1) {
          assert t in From(st.retry, a) && t !in From(st.retry, t.attempt + 1);
          RemoveKeeps(st, f, id, t.attempt + 1);
          HeldEarlier(st', id, a, t.attempt + 1);
        } else {
          assert Held(st', id, t.attempt);
        }
      }
    }
  }

  lemma FlushRemoveKept(st: State, f: nat, reply: Reply)
    requires NothingLost(st) && CanFlush(st, f, Remove(reply))
    ensures NothingLost(DoFlushRemove(st, f, reply))
  {
    var st' := DoFlushRemove(st, f, reply);
    if reply.Ran() {
      assert st' == DoFlushRemove(st, f, Done);
      forall id, a
        ensures Held(st, id, a) ==> Held(st', id, a)
        ensures Safe(st, id, a) ==> Safe(st', id, a)
      {
        if Held(st, id, a) {
          RemoveKeeps(st, f, id, a);
        }
        if InRetry(st.retry, id, a + 1) {
          RemoveKeeps(st, f, id, a + 1);
        }
      }
    }
    hide NothingLost, Held, Safe;
    NothingLostFrame(st, st');
  }

  // ---- Adding records ----

  lemma KnownStream(st: State, t: Task)
    requires RecordsOk(st) && (Known(st.ledger, t) || t.Validate().None?)
    ensures QueueName(t.priority) in PRIORITY_STREAMS
  {
    QueueNames(t.priority, t.priority);
  }

  lemma XAddHolds(st: State, st': State, t: Task)
    requires RecordsOk(st) && QueueName(t.priority) in PRIORITY_STREAMS
    requires st'.broker == XAdd(st.broker, QueueName(t.priority), t)
    ensures Held(st', t.id, t.attempt) && Safe(st', t.id, t.attempt)
  {
    XAddIsLive(st.broker, QueueName(t.priority), t);
  }

  lemma EnqueueKept(st: State, t: Task)
    requires RecordsOk(st) && NothingLost(st) && t.Validate().None?
    ensures NothingLost(DoEnqueue(st, t))
  {
    var st' := DoEnqueue(st, t);
    KnownStream(st, t);
    XAddKeeps(st.broker, QueueName(t.priority), t);
    XAddHolds(st, st', t);
    assert Keeps(st, st');
    forall id, a { HeldKeeps(st, st', id, a); }
    hide NothingLost, Held, Safe, RecordsOk;
    NothingLostFrame(st, st');
  }

  lemma FlusherStream(st: State, f: nat)
    requires RecordsOk(st) && f in st.flushers && |st.flushers[f].moved| < |st.flushers[f].batch|
    ensures WellFormed(st.broker) && QueueName(st.flushers[f].batch[|st.flushers[f].moved|].priority) in PRIORITY_STREAMS
  {
    var t := st.flushers[f].batch[|st.flushers[f].moved|];
    assert FlusherOk(st.ledger, st.flushers[f]) && Retried(st.ledger, t);
    KnownStream(st, t);
  }

  lemma FlushAddKeeps(st: State, f: nat, reply: Reply)
    requires RecordsOk(st) && CanFlush(st, f, Add(reply))
    ensures var st' := DoFlushAdd(st, f, reply);
            var t := st.flushers[f].batch[|st.flushers[f].moved|];
            Keeps(st, st') && (reply.Ran() ==> Held(st', t.id, t.attempt) && Safe(st', t.id, t.attempt))
  {
    var st' := DoFlushAdd(st, f, reply);
    var t := st.flushers[f].batch[|st.flushers[f].moved|];
    hide Held, Safe, RecordsOk, QueueName, PRIORITY_STREAMS, Live, WellFormed;
    FlusherStream(st, f);
    XAddKeeps(st.broker, QueueName(t.priority), t);
    if reply.Ran() {
      XAddHolds(st, st', t);
    }
  }

  lemma BatchSafeMore(st: State, st': State, fl: Flusher, ran: bool)
    requires BatchSafe(st, fl) && |fl.moved| < |fl.batch|
    requires forall id, a :: Safe(st, id, a) ==> Safe(st', id, a)
    requires var t := fl.batch[|fl.moved|]; ran ==> Safe(st', t.id, t.attempt)
    ensures BatchSafe(st', fl.(moved := fl.moved + [ran]))
  {
    hide Safe;
  }

  lemma FlushAddKept(st: State, f: nat, reply: Reply)
    requires RecordsOk(st) && NothingLost(st) && CanFlush(st, f, Add(reply))
    ensures NothingLost(DoFlushAdd(st, f, reply))
  {
    var st' := DoFlushAdd(st, f, reply);
    var fl := st.flushers[f];
    assert BatchSafe(st, fl);
    FlushAddKeeps(st, f, reply);
    hide NothingLost, Held, Safe, RecordsOk, Keeps, XAdd, QueueName, BatchSafe;
    forall id, a
      ensures (Held(st, id, a) ==> Held(st', id, a)) && (Safe(st, id, a) ==> Safe(st', id, a))
    {
      HeldKeeps(st, st', id, a);
    }
    BatchSafeMore(st, st', fl, reply.Ran());
    NothingLostFrame(st, st');
  }

  lemma PostponeKept(st: State, c: nat, reply: Reply)
    requires NothingLost(st) && c in st.copies
    ensures NothingLost(DoPostpone(st, c, reply))
  {
    var st' := DoPostpone(st, c, reply);
    var t := st.copies[c].task;
    if reply.Ran() {
      assert t in st'.retry;
      assert Held(st', t.id, t.attempt);
    }
    assert Keeps(st, st');
    forall id, a { HeldKeeps(st, st', id, a); }
    hide NothingLost, Held, Safe;
    NothingLostFrame(st, st');
  }

  // Steps that leave the created records and the batches under way alone.
  lemma StillHeld(st: State, st': State)
    requires NothingLost(st) && Keeps(st, st')
    requires st'.ledger.created == st.ledger.created
    requires forall f | f in st'.flushers :: (f in st.flushers && st'.flushers[f] == st.flushers[f]) || st'.flushers[f].moved == []
    ensures NothingLost(st')
  {
    forall id, a { HeldKeeps(st, st', id, a); }
    hide NothingLost, Held, Safe;
    NothingLostFrame(st, st');
  }

  lemma AcknowledgeKept(st: State, c: nat, reply: Reply)
    requires WellFormed(st.broker) && NothingLost(st)
    requires c in st.copies && Acknowledging(st.copies[c].pc) && CopyOk(st, st.copies[c])
    ensures NothingLost(DoAcknowledge(st, c, reply))
  {
    forall id, a { AcknowledgeKeeps(st, c, reply, id, a); }
    hide NothingLost, Held, Safe, CopyOk, WellFormed, Onward;
    NothingLostFrame(st, DoAcknowledge(st, c, reply));
  }

  lemma QuietKept(st: State, st': State)
    requires NothingLost(st) && SameRecords(st, st') && Onward(st, st')
    ensures NothingLost(st')
  {
    assert Keeps(st, st');
    hide NothingLost;
    StillHeld(st, st');
  }

  lemma WorkKept(st: State, c: nat, call: Call)
    requires Sound(st) && NothingLost(st) && CanWork(st, c, call)
    ensures NothingLost(Work(st, c, call))
  {
    hide NothingLost, CopyOk, WellFormed, LocksOk, DlqOk, StreamsOk, CopiesOk, LedgerOk;
    hide DoTryAcquire, DoAskCompleted, DoTryReclaim, DoSend, DoAcknowledge, DoComplete, DoBury, DoPostpone, DoRelease;
    CopyFacts(st, c);
    assert WellFormed(st.broker);
    if call.Acknowledge? {
      AcknowledgeKept(st, c, call.reply);
    } else if call.Postpone? {
      PostponeKept(st, c, call.reply);
    } else {
      QuietWork(st, c, call);
      WorkOnward(st, c, call);
      hide Work, SameRecords, Onward;
      QuietKept(st, Work(st, c, call));
    }
  }

  lemma WorkOnward(st: State, c: nat, call: Call)
    requires CanWork(st, c, call)
    ensures Onward(st, Work(st, c, call))
  {
    hide DoTryAcquire, DoAskCompleted, DoTryReclaim, DoSend, DoAcknowledge, DoComplete, DoBury, DoPostpone, DoRelease;
  }

  lemma FlushKept(st: State, f: nat, step: FlushCall)
    requires RecordsOk(st) && NothingLost(st) && CanFlush(st, f, step)
    ensures NothingLost(FlushStep(st, f, step))
  {
    hide NothingLost, RecordsOk;
    if step.Add? {
      FlushAddKept(st, f, step.reply);
    } else if step.Remove? {
      FlushRemoveKept(st, f, step.reply);
    } else {
      StillHeld(st, FlushStep(st, f, step));
    }
  }

  lemma DeliverKept(st: State, st': State, key: string)
    requires NothingLost(st) && WellFormed(st.broker) && HasNew(st.broker, key)
    requires st' == st.(broker := Deliver(st.broker, key), copies := st'.copies)
    ensures NothingLost(st')
  {
    DeliverKeeps(st.broker, key);
    assert forall s: Slot | Exists(st.broker, s) :: Payload(st'.broker, s) == Payload(st.broker, s);
    hide NothingLost;
    StillHeld(st, st');
  }

  lemma ClaimKept(st: State, s: Slot, c: nat)
    requires NothingLost(st) && Exists(st.broker, s)
    ensures NothingLost(st.(copies := st.copies[c := NewCopy(st.broker, s)]))
  {
    hide NothingLost;
    QuietKept(st, st.(copies := st.copies[c := NewCopy(st.broker, s)]));
  }

  lemma ExpireKept(st: State, k: string)
    requires NothingLost(st)
    ensures NothingLost(DoExpire(st, k))
  {
    hide NothingLost;
    QuietKept(st, DoExpire(st, k));
  }

  lemma NothingLostKept(st: State, e: Event)
    requires Sound(st) && NothingLost(st) && Can(st, e)
    ensures NothingLost(Next(st, e))
  {
    assert RecordsOk(st) && WellFormed(st.broker);
    hide NothingLost, Sound, RecordsOk, WellFormed, Deliver, NewCopy, DoEnqueue, DoExpire, FlushStep, Work, QueueName;
    match e
    case Worker(c, call) => WorkKept(st, c, call);
    case Enqueue(t) => EnqueueKept(st, t);
    case Flush(f, step) => FlushKept(st, f, step);
    case Poll(key, c) => DeliverKept(st, DoPoll(st, key, c), key);
    case PollLost(key) => DeliverKept(st, st.(broker := Deliver(st.broker, key)), key);
    case Claim(s, c) => ClaimKept(st, s, c);
    case Expire(k) => ExpireKept(st, k);
  }

  // ---- All runs ----

  lemma {:induction false} NothingLostRun(st: State, es: seq<Event>)
    requires Sound(st) && NothingLost(st) && Run(st, es)
    ensures NothingLost(After(st, es))
    decreases |es|
  {
    hide Sound, NothingLost, Can, Next;
    if es != [] {
      SoundKept(st, es[0]);
      NothingLostKept(st, es[0]);
      NothingLostRun(Next(st, es[0]), es[1..]);
    }
  }

  lemma ReachableKeepsAll(st: State)
    requires Reachable(st)
    ensures NothingLost(st)
  {
    InitialSound();
    assert NothingLost(INITIAL);
    hide Sound, NothingLost;
    var es :| Run(INITIAL, es) && After(INITIAL, es) == st;
    NothingLostRun(INITIAL, es);
  }

  // ---- The guarantee ----

  /** A record that will be handed to a worker again, by delivery, by claim or
      by the next flush. */
  ghost predicate OnItsWay(st: State, id: string, a: int) {
    InStream(st.broker, id, a) || InRetry(st.retry, id, a)
  }

  /** In every reachable state - any interleaving of any number of producers,
      workers and schedulers, crashes and lost replies at any point - each
      enqueued task was sent successfully, sits in a dead-letter list, or is on
      its way at the attempt it was enqueued with or a later one; the only
      exception are the members a flush removed although their XADD was not
      carried out, and those are exactly what the ledger's `dropped` records. */
  lemma NoTaskIsLost(st: State, t: Task)
    requires Reachable(st) && t in st.ledger.enqueued
    ensures Settled(st, t.id) || OnItsWay(st, t.id, t.attempt) || Dropped(st.ledger, t.id, t.attempt)
  {
    ReachableKeepsAll(st);
    ReachableSound(st);
  }

  /** The same for the highest attempt a task ever reached: a retry is never
      forgotten in favour of an earlier record. */
  lemma NoAttemptIsLost(st: State, id: string, a: int)
    requires Reachable(st) && (id, a) in st.ledger.created
    ensures Settled(st, id) || OnItsWay(st, id, a) || Dropped(st.ledger, id, a)
  {
    ReachableKeepsAll(st);
  }

  // ---- Pipelines that break off but skip nothing ----

  /** A flush whose ZREM the server carried out had all its XADDs carried out
      before: a broken connection only cuts a pipeline short. */
  predicate CutShort(st: State, e: Event)
    requires Can(st, e)
  {
    match e
    case Flush(f, Remove(reply)) => reply.Ran() ==> forall i | 0 <= i < |st.flushers[f].moved| :: st.flushers[f].moved[i]
    case _ => true
  }

  predicate CutShortRun(st: State, es: seq<Event>)
    requires Run(st, es)
    decreases |es|
  {
    es == [] || (CutShort(st, es[0]) && CutShortRun(Next(st, es[0]), es[1..]))
  }

  lemma WorkDropsNothing(st: State, c: nat, call: Call)
    requires CanWork(st, c, call)
    ensures Work(st, c, call).ledger.dropped == st.ledger.dropped
  {
    hide DoTryAcquire, DoAskCompleted, DoTryReclaim, DoSend, DoAcknowledge, DoComplete, DoBury, DoPostpone, DoRelease;
  }

  lemma StepDropsNothing(st: State, e: Event)
    requires Can(st, e) && CutShort(st, e)
    ensures Next(st, e).ledger.dropped == st.ledger.dropped
  {
    if e.Worker? {
      WorkDropsNothing(st, e.c, e.call);
      hide Work;
    } else if e.Flush? && e.step.Remove? {
      assert Unmoved(st.flushers[e.f], st.retry) == {} || !e.step.reply.Ran();
    }
  }

  lemma {:induction false} RunDropsNothing(st: State, es: seq<Event>)
    requires Run(st, es) && CutShortRun(st, es)
    ensures After(st, es).ledger.dropped == st.ledger.dropped
    decreases |es|
  {
    if es != [] {
      StepDropsNothing(st, es[0]);
      hide Next, Can, CutShort;
      RunDropsNothing(Next(st, es[0]), es[1..]);
    }
  }

  /** No loss: if the flushes' pipelines are cut short at worst, every attempt of
      every task that was ever created is settled or on its way, itself or a
      later one, however the run went. */
  lemma NothingIsLost(es: seq<Event>, id: string, a: int)
    requires Run(INITIAL, es) && CutShortRun(INITIAL, es)
    requires (id, a) in After(INITIAL, es).ledger.created
    ensures Settled(After(INITIAL, es), id) || OnItsWay(After(INITIAL, es), id, a)
  {
    RunDropsNothing(INITIAL, es);
    var st := After(INITIAL, es);
    assert Reachable(st);
    hide Run, After, CutShortRun, Reachable;
    NoAttemptIsLost(st, id, a);
  }
}
