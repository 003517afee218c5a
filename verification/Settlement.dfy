// Rest means success or burial.  As long as no call made for a task fails, its
// highest attempt is always carried by something that will act on it, so a task
// that has come to rest has its outcome.

module Settlement {
  import opened Wrappers
  import opened Domain
  import opened Keys
  import opened Network
  import opened Idempotency
  import opened Streams
  import opened Protocol
  import opened Invariants
  import opened Accounting
  import opened NoLoss
  import opened Termination
  import opened Rest
  import Guarantees

  /** A call of a worker that nothing goes wrong with.  IsCompleted, Acknowledge,
      SetCompleted and TryReclaimStale may still fail; Send may return any error;
      ClearProcessing only follows a failed handoff. */
  predicate FaultlessCall(call: Call) {
    match call
    case Crash => false
    case TryAcquire(_, _, reply) => reply == Done
    case Send(result) => result != Died
    case Bury(reply) => reply == Done
    case Postpone(reply) => reply == Done
    case Release(_) => false
    case _ => true
  }

  /** Nothing goes wrong with task `id` in the step; to other tasks anything may
      happen. */
  ghost predicate Faultless(st: State, e: Event, id: string)
    requires Can(st, e)
  {
    match e
    case PollLost(key) => Payload(st.broker, (key, Cursor(st.broker, key))).id != id
    case Worker(c, call) => st.copies[c].task.id == id ==> FaultlessCall(call)
    case Flush(f, Add(reply)) => st.flushers[f].batch[|st.flushers[f].moved|].id == id ==> reply.Ran()
    case Expire(k) => forall a :: k != AttemptKey(id, a)
    case _ => true
  }

  // ---- What carries an attempt ----

  // An undelivered message of attempt a.
  ghost predicate Undelivered(b: Broker, id: string, a: int) {
    exists s: Slot | s.0 in PRIORITY_STREAMS && Exists(b, s) ::
      s.1 >= Cursor(b, s.0) && Payload(b, s).id == id && Payload(b, s).attempt == a
  }

  ghost predicate AtGate(copies: map<nat, Copy>, k: string) {
    exists c | c in copies :: copies[c].idKey == k && copies[c].pc == Gate
  }

  // Some worker holds the lock and has yet to send or to hand on.
  ghost predicate Owned(copies: map<nat, Copy>, k: string) {
    exists c | c in copies :: copies[c].idKey == k && (copies[c].pc in {Ready, Schedule} || copies[c].pc.DeadLetter?)
  }

  ghost predicate InRetrySet(retry: set<Task>, id: string, a: int) {
    exists t | t in retry :: t.id == id && t.attempt == a
  }

  // Some flush has appended attempt a and not removed its member yet.
  ghost predicate Flushed(fs: map<nat, Flusher>, id: string, a: int) {
    exists f, i | f in fs && 0 <= i < |fs[f].moved| && i < |fs[f].batch| :: fs[f].batch[i].id == id && fs[f].batch[i].attempt == a
  }

  /** Until the task is settled, a locked attempt is in a worker's hands or has a
      successor, and an attempt nobody has locked yet is on its way to a worker. */
  ghost predicate Carried(st: State, id: string, a: int) {
    var k := AttemptKey(id, a);
    || Settled(st, id)
    || (k in st.locks && (Owned(st.copies, k) || (id, a + 1) in st.ledger.created))
    || (k !in st.locks
        && (Flushed(st.flushers, id, a) ==> Undelivered(st.broker, id, a) || AtGate(st.copies, k))
        && ((id, a) in st.ledger.created ==> Undelivered(st.broker, id, a) || AtGate(st.copies, k) || InRetrySet(st.retry, id, a)))
  }

  // ---- Streams ----

  lemma UndeliveredAppend(b: Broker, key: string, t: Task, id: string, a: int)
    requires WellFormed(b)
    ensures Undelivered(b, id, a) ==> Undelivered(XAdd(b, key, t), id, a)
    ensures key in PRIORITY_STREAMS ==> Undelivered(XAdd(b, key, t), t.id, t.attempt)
  {
    XAddKeeps(b, key, t);
    var b' := XAdd(b, key, t);
    hide PRIORITY_STREAMS;
    if Undelivered(b, id, a) {
      var s: Slot :| s.0 in PRIORITY_STREAMS && Exists(b, s) && s.1 >= Cursor(b, s.0) && Payload(b, s).id == id && Payload(b, s).attempt == a;
      assert Exists(b', s) && Payload(b', s) == Payload(b, s) && Cursor(b', s.0) == Cursor(b, s.0);
    }
    if key in PRIORITY_STREAMS {
      var s: Slot := (key, |Log(b, key)|);
      assert Exists(b', s) && Payload(b', s) == t && Cursor(b', key) <= s.1;
    }
  }

  lemma UndeliveredDeliver(b: Broker, key: string, id: string, a: int)
    requires HasNew(b, key) && Undelivered(b, id, a)
    ensures var t := Payload(b, (key, Cursor(b, key)));
            Undelivered(Deliver(b, key), id, a) || (t.id == id && t.attempt == a)
  {
    hide PRIORITY_STREAMS;
    var s: Slot :| s.0 in PRIORITY_STREAMS && Exists(b, s) && s.1 >= Cursor(b, s.0) && Payload(b, s).id == id && Payload(b, s).attempt == a;
    if s != (key, Cursor(b, key)) {
      DeliverOther(b, key, s);
      hide Deliver, Cursor;
    }
  }

  lemma DeliverOther(b: Broker, key: string, s: Slot)
    requires HasNew(b, key) && Exists(b, s) && s.1 >= Cursor(b, s.0) && s != (key, Cursor(b, key))
    ensures var b' := Deliver(b, key);
            Exists(b', s) && Payload(b', s) == Payload(b, s) && s.1 >= Cursor(b', s.0)
  {
  }

  lemma UndeliveredSame(b: Broker, b': Broker, id: string, a: int)
    requires b'.logs == b.logs && b'.cursors == b.cursors
    ensures Undelivered(b, id, a) ==> Undelivered(b', id, a)
  {
    hide PRIORITY_STREAMS;
    if Undelivered(b, id, a) {
      var s: Slot :| s.0 in PRIORITY_STREAMS && Exists(b, s) && s.1 >= Cursor(b, s.0) && Payload(b, s).id == id && Payload(b, s).attempt == a;
      assert Exists(b', s) && Payload(b', s) == Payload(b, s);
    }
  }

  // ---- Copies ----

  lemma MoreCopies(copies: map<nat, Copy>, c: nat, cp: Copy, k: string)
    requires c !in copies
    ensures Owned(copies, k) ==> Owned(copies[c := cp], k)
    ensures AtGate(copies, k) ==> AtGate(copies[c := cp], k)
    ensures cp.idKey == k && cp.pc == Gate ==> AtGate(copies[c := cp], k)
  {
    var copies' := copies[c := cp];
    if Owned(copies, k) {
      var x :| x in copies && copies[x].idKey == k && (copies[x].pc in {Ready, Schedule} || copies[x].pc.DeadLetter?);
      assert copies'[x] == copies[x];
    }
    if AtGate(copies, k) {
      var x :| x in copies && copies[x].idKey == k && copies[x].pc == Gate;
      assert copies'[x] == copies[x];
    }
    assert copies'[c] == cp;
  }

  // A copy changes that carries nothing for k.
  lemma OtherCopies(copies: map<nat, Copy>, copies': map<nat, Copy>, c: nat, k: string)
    requires copies' - {c} == copies - {c} && c in copies
    ensures Owned(copies, k) && !(copies[c].idKey == k && (copies[c].pc in {Ready, Schedule} || copies[c].pc.DeadLetter?)) ==> Owned(copies', k)
    ensures AtGate(copies, k) && !(copies[c].idKey == k && copies[c].pc == Gate) ==> AtGate(copies', k)
  {
    forall x | x in copies && x != c
      ensures x in copies' && copies'[x] == copies[x]
    {
      assert x in copies - {c} && (copies - {c})[x] == (copies' - {c})[x];
    }
  }

  // ---- Steps without a worker ----

  lemma EnqueueCarries(st: State, t: Task, id: string, a: int)
    requires WellFormed(st.broker) && Can(st, Enqueue(t)) && Carried(st, id, a)
    ensures Carried(DoEnqueue(st, t), id, a)
  {
    var st' := DoEnqueue(st, t);
    QueueNames(t.priority, t.priority);
    hide QueueName, AttemptKey, PRIORITY_STREAMS;
    UndeliveredAppend(st.broker, QueueName(t.priority), t, id, a);
    assert Settled(st, id) ==> Settled(st', id);
    hide Undelivered, AtGate, Owned, InRetrySet, Flushed, XAdd, Settled;
  }

  lemma PollCarries(st: State, key: string, c: nat, id: string, a: int)
    requires Can(st, Poll(key, c)) && Carried(st, id, a)
    ensures Carried(DoPoll(st, key, c), id, a)
  {
    var st' := DoPoll(st, key, c);
    var k := AttemptKey(id, a);
    MoreCopies(st.copies, c, NewCopy(st.broker, (key, Cursor(st.broker, key))), k);
    if Undelivered(st.broker, id, a) {
      UndeliveredDeliver(st.broker, key, id, a);
    }
    assert Settled(st, id) ==> Settled(st', id);
    hide Undelivered, AtGate, Owned, InRetrySet, Flushed, Deliver, Settled, AttemptKey;
  }

  lemma PollLostCarries(st: State, key: string, id: string, a: int)
    requires Can(st, PollLost(key)) && Faultless(st, PollLost(key), id) && Carried(st, id, a)
    ensures Carried(Next(st, PollLost(key)), id, a)
  {
    var st' := Next(st, PollLost(key));
    if Undelivered(st.broker, id, a) {
      UndeliveredDeliver(st.broker, key, id, a);
    }
    assert Settled(st, id) ==> Settled(st', id);
    hide Undelivered, AtGate, Owned, InRetrySet, Flushed, Deliver, Settled, AttemptKey;
  }

  lemma ClaimCarries(st: State, s: Slot, c: nat, id: string, a: int)
    requires Can(st, Claim(s, c)) && Carried(st, id, a)
    ensures Carried(Next(st, Claim(s, c)), id, a)
  {
    var st' := Next(st, Claim(s, c));
    MoreCopies(st.copies, c, NewCopy(st.broker, s), AttemptKey(id, a));
    assert Settled(st, id) ==> Settled(st', id);
    hide Undelivered, AtGate, Owned, InRetrySet, Flushed, Settled, AttemptKey;
  }

  lemma ExpireCarries(st: State, key: string, id: string, a: int)
    requires Can(st, Expire(key)) && Faultless(st, Expire(key), id) && Carried(st, id, a)
    ensures Carried(DoExpire(st, key), id, a)
  {
    assert key != AttemptKey(id, a);
    assert Settled(st, id) ==> Settled(DoExpire(st, key), id);
    hide Undelivered, AtGate, Owned, InRetrySet, Flushed, Settled, AttemptKey;
  }

  lemma ReadCarries(st: State, f: nat, batch: seq<Task>, id: string, a: int)
    requires CanFlush(st, f, Read(batch)) && Carried(st, id, a)
    ensures Carried(FlushStep(st, f, Read(batch)), id, a)
  {
    var st' := FlushStep(st, f, Read(batch));
    assert Flushed(st'.flushers, id, a) ==> Flushed(st.flushers, id, a) by {
      if Flushed(st'.flushers, id, a) {
        var g, i :| g in st'.flushers && 0 <= i < |st'.flushers[g].moved| && i < |st'.flushers[g].batch|
                    && st'.flushers[g].batch[i].id == id && st'.flushers[g].batch[i].attempt == a;
        assert g != f && st.flushers[g] == st'.flushers[g];
      }
    }
    assert Settled(st, id) ==> Settled(st', id);
    hide Undelivered, AtGate, Owned, InRetrySet, Flushed, Settled, AttemptKey;
  }

  lemma FlushedAdd(fs: map<nat, Flusher>, f: nat, ran: bool, id: string, a: int)
    requires f in fs && |fs[f].moved| < |fs[f].batch|
    ensures var fl := fs[f];
            var t := fl.batch[|fl.moved|];
            Flushed(fs[f := fl.(moved := fl.moved + [ran])], id, a) ==> Flushed(fs, id, a) || (t.id == id && t.attempt == a)
  {
    var fl := fs[f];
    var fs' := fs[f := fl.(moved := fl.moved + [ran])];
    if Flushed(fs', id, a) {
      var g, i :| g in fs' && 0 <= i < |fs'[g].moved| && i < |fs'[g].batch| && fs'[g].batch[i].id == id && fs'[g].batch[i].attempt == a;
      assert g != f ==> fs[g] == fs'[g];
    }
  }

  lemma AddCarries(st: State, f: nat, reply: Reply, id: string, a: int)
    requires RecordsOk(st) && CanFlush(st, f, Add(reply)) && Faultless(st, Event.Flush(f, Add(reply)), id) && Carried(st, id, a)
    ensures Carried(DoFlushAdd(st, f, reply), id, a)
  {
    var st' := DoFlushAdd(st, f, reply);
    var t := st.flushers[f].batch[|st.flushers[f].moved|];
    assert Settled(st, id) ==> Settled(st', id);
    FlusherStream(st, f);
    FlushedAdd(st.flushers, f, reply.Ran(), id, a);
    hide QueueName, AttemptKey, PRIORITY_STREAMS, RecordsOk, Undelivered, AtGate, Owned, InRetrySet, Flushed, XAdd, Settled, WellFormed;
    UndeliveredAppend(st.broker, QueueName(t.priority), t, id, a);
  }

  lemma GoneCarries(st: State, st': State, f: nat, id: string, a: int)
    requires Carried(st, id, a) && f in st.flushers && st'.flushers == st.flushers - {f}
    requires st'.broker == st.broker && st'.copies == st.copies && st'.locks == st.locks && st'.dlq == st.dlq
    requires st'.ledger == st.ledger.(dropped := st'.ledger.dropped)
    requires forall t | t in st.retry && t !in st'.retry :: exists i | 0 <= i < |st.flushers[f].batch| :: st.flushers[f].batch[i] == t
    requires st'.retry != st.retry ==> |st.flushers[f].moved| == |st.flushers[f].batch|
    ensures Carried(st', id, a)
  {
    assert Flushed(st'.flushers, id, a) ==> Flushed(st.flushers, id, a) by {
      if Flushed(st'.flushers, id, a) {
        var g, i :| g in st'.flushers && 0 <= i < |st'.flushers[g].moved| && i < |st'.flushers[g].batch|
                    && st'.flushers[g].batch[i].id == id && st'.flushers[g].batch[i].attempt == a;
        assert g in st.flushers && st.flushers[g] == st'.flushers[g];
      }
    }
    assert InRetrySet(st.retry, id, a) ==> InRetrySet(st'.retry, id, a) || Flushed(st.flushers, id, a) by {
      if InRetrySet(st.retry, id, a) {
        var t :| t in st.retry && t.id == id && t.attempt == a;
        if t !in st'.retry {
          var i :| 0 <= i < |st.flushers[f].batch| && st.flushers[f].batch[i] == t;
          assert 0 <= i < |st.flushers[f].moved|;
        }
      }
    }
    assert Settled(st, id) ==> Settled(st', id);
    hide Undelivered, AtGate, Owned, InRetrySet, Flushed, Settled, AttemptKey;
  }

  lemma FlushCarries(st: State, f: nat, step: FlushCall, id: string, a: int)
    requires RecordsOk(st) && CanFlush(st, f, step) && Faultless(st, Event.Flush(f, step), id) && Carried(st, id, a)
    ensures Carried(FlushStep(st, f, step), id, a)
  {
    hide Carried, RecordsOk;
    match step
    case Read(batch) => ReadCarries(st, f, batch, id, a);
    case Add(reply) => AddCarries(st, f, reply, id, a);
    case Remove(reply) => GoneCarries(st, FlushStep(st, f, step), f, id, a);
    case Stop => GoneCarries(st, FlushStep(st, f, step), f, id, a);
  }

  // ---- Steps of a worker ----

  lemma SettledLater(st: State, c: nat, call: Call, id: string)
    requires CanWork(st, c, call)
    ensures Settled(st, id) ==> Settled(Work(st, c, call), id)
    ensures st.ledger.created <= Work(st, c, call).ledger.created
  {
    WorkOnward(st, c, call);
    hide Work;
    SettledKeeps(st, Work(st, c, call), id);
  }

  // Which locks a faultless call may add or remove.
  lemma CallLocks(st: State, c: nat, call: Call, k: string)
    requires CanWork(st, c, call) && (st.copies[c].idKey != k || !call.Release?)
    ensures k in st.locks ==> k in Work(st, c, call).locks
    ensures k in Work(st, c, call).locks && k !in st.locks ==> st.copies[c].idKey == k && call.TryAcquire?
  {
    hide Onward, Idle, SameRecords, XAck, AfterFailure;
  }

  // What a call stores beyond what was there.
  lemma CallCreated(st: State, c: nat, call: Call)
    requires CanWork(st, c, call)
    ensures var st' := Work(st, c, call);
            && st.retry <= st'.retry
            && (forall x | x in st'.ledger.created && x !in st.ledger.created :: InRetrySet(st'.retry, x.0, x.1))
  {
    if call.Postpone? {
      hide Onward, Idle;
    } else {
      SameCreated(st, c, call);
      hide Work;
    }
  }

  lemma SameCreated(st: State, c: nat, call: Call)
    requires CanWork(st, c, call) && !call.Postpone?
    ensures Work(st, c, call).ledger.created == st.ledger.created && Work(st, c, call).retry == st.retry
  {
    CallFrame(st, c, call);
    hide Onward, SameRecords, XAck, AcquireScript, ReclaimScript, AfterFailure;
  }

  predicate Owns(pc: Pc) {
    pc in {Ready, Schedule} || pc.DeadLetter?
  }

  // A step of one copy that neither takes nor gives back the lock of (id, a).
  lemma CopyCarries(st: State, st': State, c: nat, id: string, a: int)
    requires Carried(st, id, a) && (Settled(st, id) ==> Settled(st', id))
    requires st'.broker.logs == st.broker.logs && st'.broker.cursors == st.broker.cursors && st'.flushers == st.flushers
    requires st.retry <= st'.retry && st.ledger.created <= st'.ledger.created
    requires forall x | x in st'.ledger.created && x !in st.ledger.created :: InRetrySet(st'.retry, x.0, x.1)
    requires c in st.copies && st'.copies - {c} == st.copies - {c}
    requires var k := AttemptKey(id, a);
             && (k in st.locks <==> k in st'.locks)
             && (st.copies[c].idKey == k ==>
                   && (st.copies[c].pc == Gate ==> k in st.locks)
                   && (Owns(st.copies[c].pc) && k in st.locks ==> Owned(st'.copies, k) || (id, a + 1) in st'.ledger.created))
    ensures Carried(st', id, a)
  {
    var k := AttemptKey(id, a);
    OtherCopies(st.copies, st'.copies, c, k);
    UndeliveredSame(st.broker, st'.broker, id, a);
    assert InRetrySet(st.retry, id, a) ==> InRetrySet(st'.retry, id, a);
    hide AttemptKey, Undelivered, AtGate, Owned, InRetrySet, Flushed, Settled;
  }

  // The calls that decide: lock, send, bury, postpone.
  predicate Decisive(call: Call) {
    call.TryAcquire? || call.Send? || call.Bury? || call.Postpone? || call.Crash? || call.Release?
  }

  lemma OtherCarries(st: State, c: nat, call: Call, id: string, a: int)
    requires CanWork(st, c, call) && Carried(st, id, a) && (st.copies[c].idKey == AttemptKey(id, a) ==> !Decisive(call))
    ensures Carried(Work(st, c, call), id, a)
  {
    var st' := Work(st, c, call);
    SettledLater(st, c, call, id);
    WorkOnward(st, c, call);
    CallFrame(st, c, call);
    CallCreated(st, c, call);
    CallLocks(st, c, call, AttemptKey(id, a));
    assert st.copies[c].idKey == AttemptKey(id, a) ==> !Owns(st.copies[c].pc) && st.copies[c].pc != Gate;
    hide Work, AttemptKey, Settled, Carried, Owned;
    CopyCarries(st, st', c, id, a);
  }

  // An attempt's own worker takes the lock.
  lemma AcquireCarries(st: State, c: nat, call: Call, id: string, a: int)
    requires CanWork(st, c, call) && call.TryAcquire? && call.reply == Done && Carried(st, id, a) && st.copies[c].idKey == AttemptKey(id, a)
    ensures Carried(Work(st, c, call), id, a)
  {
    var st' := Work(st, c, call);
    var k := AttemptKey(id, a);
    SettledLater(st, c, call, id);
    if k in st.locks {
      WorkOnward(st, c, call);
      CallFrame(st, c, call);
      CallCreated(st, c, call);
      assert st'.locks == st.locks;
      hide Work, AttemptKey, Settled, Carried, Owned;
      CopyCarries(st, st', c, id, a);
    } else {
      assert k in st'.locks && st'.copies[c].idKey == k && st'.copies[c].pc == Ready;
      assert Owned(st'.copies, k);
      hide Work, AttemptKey, Settled, Undelivered, AtGate, InRetrySet, Flushed;
    }
  }

  // Its worker's Send, and what follows a failure.
  lemma SendCarries(st: State, c: nat, call: Call, id: string, a: int)
    requires CanWork(st, c, call) && call.Send? && call.result != Died && Carried(st, id, a) && st.copies[c].idKey == AttemptKey(id, a)
    ensures Carried(Work(st, c, call), id, a)
  {
    var st' := Work(st, c, call);
    var k := AttemptKey(id, a);
    if call.result == Delivered {
      assert k in st'.ledger.successes;
      assert Settled(st', id);
      hide Work, AttemptKey, Settled, Undelivered, AtGate, Owned, InRetrySet, Flushed;
    } else {
      SettledLater(st, c, call, id);
      WorkOnward(st, c, call);
      CallFrame(st, c, call);
      CallCreated(st, c, call);
      assert st'.locks == st.locks && st'.copies[c].idKey == k && Owns(st'.copies[c].pc);
      assert Owned(st'.copies, k);
      hide Work, AttemptKey, Settled, Carried, Owned;
      CopyCarries(st, st', c, id, a);
    }
  }

  lemma BuryCarries(st: State, c: nat, call: Call, id: string, a: int)
    requires CanWork(st, c, call) && call.Bury? && call.reply == Done && st.copies[c].task.id == id
    ensures Carried(Work(st, c, call), id, a)
  {
    var st' := Work(st, c, call);
    assert st'.dlq[|st.dlq|].task.id == id;
    assert Settled(st', id);
    hide Work, AttemptKey, Settled, Undelivered, AtGate, Owned, InRetrySet, Flushed;
  }

  lemma PostponeCarries(st: State, c: nat, call: Call, id: string, a: int)
    requires CanWork(st, c, call) && call.Postpone? && call.reply == Done && Carried(st, id, a)
    requires st.copies[c].task.id == id && st.copies[c].task.attempt == a + 1
    ensures Carried(Work(st, c, call), id, a)
  {
    var st' := Work(st, c, call);
    SettledLater(st, c, call, id);
    WorkOnward(st, c, call);
    CallFrame(st, c, call);
    CallCreated(st, c, call);
    assert st'.locks == st.locks && (id, a + 1) in st'.ledger.created;
    hide Work, AttemptKey, Settled, Carried, Owned;
    CopyCarries(st, st', c, id, a);
  }

  lemma RoutedKey(b: Broker, cp: Copy, id: string, a: int)
    requires Routed(b, cp) && cp.idKey == AttemptKey(id, a)
    ensures cp.task.id == id && (cp.pc == Schedule ==> cp.task.attempt == a + 1)
  {
    hide AttemptKey;
    AttemptKeyInjective(cp.task.id, Payload(b, cp.from).attempt, id, a);
  }

  // The key of a copy names its task and the attempt it was delivered at.
  lemma OwnKey(st: State, c: nat, id: string, a: int)
    requires Sound(st) && c in st.copies && st.copies[c].idKey == AttemptKey(id, a)
    ensures st.copies[c].task.id == id && (st.copies[c].pc == Schedule ==> st.copies[c].task.attempt == a + 1)
  {
    hide AttemptKey, RecordsOk, CopiesOk, LedgerOk, Routed, Positioned, LocksOk, DlqOk;
    CopyFacts(st, c);
    RoutedKey(st.broker, st.copies[c], id, a);
  }

  lemma WorkCarries(st: State, c: nat, call: Call, id: string, a: int)
    requires Sound(st) && CanWork(st, c, call) && (st.copies[c].task.id == id ==> FaultlessCall(call)) && Carried(st, id, a)
    ensures Carried(Work(st, c, call), id, a)
  {
    hide Sound, Carried, Work, AttemptKey;
    if st.copies[c].idKey == AttemptKey(id, a) && Decisive(call) {
      OwnKey(st, c, id, a);
      if call.TryAcquire? {
        AcquireCarries(st, c, call, id, a);
      } else if call.Send? {
        SendCarries(st, c, call, id, a);
      } else if call.Bury? {
        BuryCarries(st, c, call, id, a);
      } else {
        PostponeCarries(st, c, call, id, a);
      }
    } else {
      OtherCarries(st, c, call, id, a);
    }
  }

  // ---- Whole runs ----

  lemma StepCarries(st: State, e: Event, id: string, a: int)
    requires Sound(st) && Can(st, e) && Faultless(st, e, id) && Carried(st, id, a)
    ensures Carried(Next(st, e), id, a)
  {
    assert WellFormed(st.broker) && RecordsOk(st);
    hide Carried, Sound, WellFormed, RecordsOk;
    match e
    case Enqueue(t) => EnqueueCarries(st, t, id, a);
    case Poll(key, c) => PollCarries(st, key, c, id, a);
    case PollLost(key) => PollLostCarries(st, key, id, a);
    case Claim(s, c) => ClaimCarries(st, s, c, id, a);
    case Worker(c, call) => WorkCarries(st, c, call, id, a);
    case Expire(k) => ExpireCarries(st, k, id, a);
    case Flush(f, step) => FlushCarries(st, f, step, id, a);
  }

  // No lock of the task was ever cleared, and none ran out.
  ghost predicate Unbroken(l: Ledger, id: string) {
    forall a :: AttemptKey(id, a) !in l.clears && AttemptKey(id, a) !in l.expiries
  }

  lemma CallUnbroken(st: State, c: nat, call: Call)
    requires CanWork(st, c, call)
    ensures var l, l' := st.ledger, Work(st, c, call).ledger;
            && l'.expiries == l.expiries
            && (!call.Release? ==> l'.clears == l.clears)
            && forall k | k in l'.clears && k !in l.clears :: k == st.copies[c].idKey
  {
    hide Onward, SameRecords, XAck, AfterFailure, AcquireScript, ReclaimScript;
  }

  lemma StepUnbroken(st: State, e: Event, id: string)
    requires Sound(st) && Can(st, e) && Faultless(st, e, id) && Unbroken(st.ledger, id)
    ensures Unbroken(Next(st, e).ledger, id)
  {
    hide AttemptKey, Sound;
    if e.Worker? {
      CallUnbroken(st, e.c, e.call);
      forall a | AttemptKey(id, a) == st.copies[e.c].idKey
        ensures !e.call.Release?
      {
        OwnKey(st, e.c, id, a);
      }
      hide Work;
    } else if e.Flush? {
      hide FlushStep;
    }
  }

  ghost predicate FaultlessRun(st: State, es: seq<Event>, id: string)
    requires Run(st, es)
    decreases |es|
  {
    es == [] || (Faultless(st, es[0], id) && FaultlessRun(Next(st, es[0]), es[1..], id))
  }

  lemma {:induction false} RunCarries(st: State, es: seq<Event>, id: string, a: int)
    requires Sound(st) && Run(st, es) && FaultlessRun(st, es, id) && Carried(st, id, a)
    ensures Carried(After(st, es), id, a) && (Unbroken(st.ledger, id) ==> Unbroken(After(st, es).ledger, id))
    decreases |es|
  {
    hide Sound, Carried, Next, Can, Faultless, Unbroken;
    if es != [] {
      StepCarries(st, es[0], id, a);
      if Unbroken(st.ledger, id) {
        StepUnbroken(st, es[0], id);
      }
      SoundKept(st, es[0]);
      RunCarries(Next(st, es[0]), es[1..], id, a);
    }
  }

  // The attempts of a task end somewhere.
  lemma {:induction false} LastAttempt(created: set<(string, int)>, id: string, a: int) returns (b: int)
    requires (id, a) in created
    ensures b >= a && (id, b) in created && (id, b + 1) !in created
    decreases created
  {
    if (id, a + 1) in created {
      b := LastAttempt(created - {(id, a)}, id, a + 1);
    } else {
      b := a;
    }
  }

  // Nothing at rest carries anything.
  lemma RestCarriesNothing(st: State, id: string, a: int)
    requires Sound(st) && AtRest(st, id)
    ensures var k := AttemptKey(id, a);
            !Undelivered(st.broker, id, a) && !AtGate(st.copies, k) && !Owned(st.copies, k) && !InRetrySet(st.retry, id, a)
  {
    forall c | c in st.copies
      ensures st.copies[c].idKey != AttemptKey(id, a)
    {
      if st.copies[c].idKey == AttemptKey(id, a) {
        OwnKey(st, c, id, a);
      }
    }
    hide Sound, AttemptKey, PRIORITY_STREAMS;
  }

  lemma InitialCarries(id: string, a: int)
    ensures Sound(INITIAL) && Carried(INITIAL, id, a)
  {
    InitialSound();
  }

  /** If nothing goes wrong with the task's own calls - whatever happens to the
      others, and whatever Send returns - then a task that was enqueued and is at
      rest was sent or sits in a dead-letter list. */
  lemma RestMeansSettled(es: seq<Event>, id: string, a: int)
    requires Run(INITIAL, es) && FaultlessRun(INITIAL, es, id)
    requires AtRest(After(INITIAL, es), id) && (id, a) in After(INITIAL, es).ledger.created
    ensures Settled(After(INITIAL, es), id)
  {
    hide Sound, AtRest, FaultlessRun, Undelivered, AtGate, Owned, InRetrySet, Flushed, Settled;
    var st := After(INITIAL, es);
    var b := LastAttempt(st.ledger.created, id, a);
    InitialCarries(id, b);
    RunCarries(INITIAL, es, id, b);
    SoundRun(INITIAL, es);
    RestCarriesNothing(st, id, b);
  }

  lemma {:induction false} BuriedAttempt(dlq: seq<DLQEntry>, id: string) returns (a: int)
    requires Buried(dlq, id)
    ensures AttemptKey(id, a) in BuriedKeys(dlq)
  {
    var n := |dlq| - 1;
    if dlq[n].task.id == id {
      a := dlq[n].task.attempt;
    } else {
      var i :| 0 <= i < |dlq| && dlq[i].task.id == id;
      assert dlq[..n][i].task.id == id;
      a := BuriedAttempt(dlq[..n], id);
    }
  }

  // No worker ever took over a lock of the task.
  ghost predicate NeverTakenOver(l: Ledger, id: string) {
    forall a :: AttemptKey(id, a) !in l.reclaims
  }

  lemma FaultlessLocks(es: seq<Event>, id: string)
    requires Run(INITIAL, es) && FaultlessRun(INITIAL, es, id) && NeverTakenOver(After(INITIAL, es).ledger, id)
    ensures Guarantees.NeverReopened(After(INITIAL, es).ledger, id)
  {
    InitialCarries(id, 0);
    assert Unbroken(INITIAL.ledger, id);
    hide Sound, Carried, Run, FaultlessRun, After;
    RunCarries(INITIAL, es, id, 0);
  }

  /** Exactly one outcome: if besides no worker took over a lock of the task, and
      producers enqueued it at attempt 0, as often as they liked, then at rest
      exactly one of its attempts was sent successfully, once, or buried, once,
      no other attempt was either, and it was sent no more than MaxAttempts + 1
      times. */
  lemma ExactlyOneOutcome(es: seq<Event>, id: string, maxAttempts: nat) returns (a: int)
    requires Run(INITIAL, es) && FaultlessRun(INITIAL, es, id)
    requires var st := After(INITIAL, es);
             && AtRest(st, id) && (exists o | o in st.ledger.enqueued :: o.id == id)
             && NeverTakenOver(st.ledger, id) && Guarantees.EnqueuedFresh(st.ledger, id)
             && Guarantees.Bounds(st.ledger, id, 0, maxAttempts + 1)
    ensures var st := After(INITIAL, es);
            && st.ledger.successes[AttemptKey(id, a)] + BuriedKeys(st.dlq)[AttemptKey(id, a)] == 1
            && (forall b | b != a :: !Guarantees.Ended(st, id, b))
            && Guarantees.Total(st.ledger.sends, id, 0, maxAttempts + 1) <= maxAttempts + 1
  {
    var st := After(INITIAL, es);
    assert Reachable(st);
    ReachableSound(st);
    var o :| o in st.ledger.enqueued && o.id == id;
    assert (id, o.attempt) in st.ledger.created;
    hide Sound, Reachable, AtRest, FaultlessRun, Run, After, Guarantees.Bounds, Guarantees.NeverReopened, Guarantees.EnqueuedFresh;
    FaultlessLocks(es, id);
    RestMeansSettled(es, id, o.attempt);
    if Sent(st.ledger, id) {
      a :| AttemptKey(id, a) in st.ledger.successes;
    } else {
      a := BuriedAttempt(st.dlq, id);
    }
    Guarantees.AtMostOneOutcome(st, id, a);
    Guarantees.SendBudget(st, id, maxAttempts);
    NothingReopened(st.ledger, id, maxAttempts + 1);
  }

  lemma {:induction false} NothingReopened(l: Ledger, id: string, hi: nat)
    requires Guarantees.NeverReopened(l, id)
    ensures Guarantees.Reopened(l, id, 0, hi) == 0
  {
    if hi > 0 {
      NothingReopened(l, id, hi - 1);
      assert AttemptKey(id, hi - 1) !in l.reclaims;
    }
  }

  // ---- Every task can be settled ----

  // No hand-off of the task has failed.
  ghost predicate NoneGivenUp(st: State, id: string) {
    forall c | c in st.copies && st.copies[c].task.id == id :: st.copies[c].pc != Unlock
  }

  lemma CallGivesUp(st: State, c: nat, call: Call)
    requires CanWork(st, c, call) && FaultlessCall(call) && st.copies[c].pc != Unlock
    ensures c in Work(st, c, call).copies ==> Work(st, c, call).copies[c].pc != Unlock
  {
    hide Onward, Idle, SameRecords, XAck, AcquireScript, ReclaimScript;
  }

  lemma CallKeepsId(st: State, c: nat, call: Call)
    requires CanWork(st, c, call)
    ensures c in Work(st, c, call).copies ==> Work(st, c, call).copies[c].task.id == st.copies[c].task.id
  {
    hide Onward, Idle, SameRecords, XAck, AcquireScript, ReclaimScript;
  }

  lemma NoneGivenUpKept(st: State, e: Event, id: string)
    requires Can(st, e) && Faultless(st, e, id) && NoneGivenUp(st, id)
    ensures NoneGivenUp(Next(st, e), id)
  {
    if e.Worker? {
      var st' := Work(st, e.c, e.call);
      CallKeepsId(st, e.c, e.call);
      CallCopies(st, e.c, e.call);
      if st.copies[e.c].task.id == id {
        CallGivesUp(st, e.c, e.call);
      }
      hide Work;
      forall c | c in st'.copies && st'.copies[c].task.id == id
        ensures st'.copies[c].pc != Unlock
      {
        if c != e.c {
          Elsewhere(st.copies, st'.copies, e.c, c);
        }
      }
    } else {
      hide Work, FlushStep;
    }
  }

  lemma {:induction false} RunGivesUpNone(st: State, es: seq<Event>, id: string)
    requires Run(st, es) && FaultlessRun(st, es, id) && NoneGivenUp(st, id)
    ensures NoneGivenUp(After(st, es), id)
    decreases |es|
  {
    hide Next, Can, Faultless, NoneGivenUp;
    if es != [] {
      NoneGivenUpKept(st, es[0], id);
      RunGivesUpNone(Next(st, es[0]), es[1..], id);
    }
  }

  lemma AdvanceIsFaultless(st: State, e: Event, id: string)
    requires Advances(st, e, id) && NoneGivenUp(st, id)
    ensures Can(st, e) && Faultless(st, e, id)
  {
    hide Ahead, Touches, Repeated;
  }

  lemma {:induction false} AdvancesFaultless(st: State, es: seq<Event>, id: string)
    requires Run(st, es) && AdvancingRun(st, es, id) && NoneGivenUp(st, id)
    ensures FaultlessRun(st, es, id)
    decreases |es|
  {
    hide Next, Can, Faultless, NoneGivenUp, Advances;
    if es != [] {
      AdvanceIsFaultless(st, es[0], id);
      NoneGivenUpKept(st, es[0], id);
      AdvancesFaultless(Next(st, es[0]), es[1..], id);
    }
  }

  lemma {:induction false} FaultlessOn(st: State, es: seq<Event>, fs: seq<Event>, id: string)
    requires Run(st, es) && FaultlessRun(st, es, id) && Run(After(st, es), fs) && FaultlessRun(After(st, es), fs, id)
    ensures Run(st, es + fs) && FaultlessRun(st, es + fs, id) && After(st, es + fs) == After(After(st, es), fs)
    decreases |es|
  {
    hide Next, Can, Faultless;
    if es == [] {
      assert es + fs == fs;
    } else {
      FaultlessOn(Next(st, es[0]), es[1..], fs, id);
      assert (es + fs)[0] == es[0] && (es + fs)[1..] == es[1..] + fs;
    }
  }

  lemma {:induction false} CreatedStays(st: State, es: seq<Event>, x: (string, int))
    requires Run(st, es) && x in st.ledger.created
    ensures x in After(st, es).ledger.created
    decreases |es|
  {
    if es != [] {
      CreatedNext(st, es[0]);
      hide Next, Can;
      CreatedStays(Next(st, es[0]), es[1..], x);
    }
  }

  lemma CreatedNext(st: State, e: Event)
    requires Can(st, e)
    ensures st.ledger.created <= Next(st, e).ledger.created
  {
    if e.Worker? {
      WorkOnward(st, e.c, e.call);
      hide Work;
    }
  }

  /** However far a run without faults for the task has come, it can be continued,
      without faults, to a state where the task was sent or buried. */
  lemma CanBeSettled(es: seq<Event>, id: string, a: int) returns (fs: seq<Event>)
    requires Run(INITIAL, es) && FaultlessRun(INITIAL, es, id) && (id, a) in After(INITIAL, es).ledger.created
    ensures Run(INITIAL, es + fs) && FaultlessRun(INITIAL, es + fs, id)
    ensures AtRest(After(INITIAL, es + fs), id) && Settled(After(INITIAL, es + fs), id)
  {
    InitialSound();
    assert NoneGivenUp(INITIAL, id);
    hide Sound, NoneGivenUp, FaultlessRun, AtRest, Run, After, Settled, AdvancingRun;
    var st := After(INITIAL, es);
    SoundRun(INITIAL, es);
    RunGivesUpNone(INITIAL, es, id);
    fs := LeadsToRest(st, id);
    AdvancesFaultless(st, fs, id);
    CreatedStays(st, fs, (id, a));
    FaultlessOn(INITIAL, es, fs, id);
    RestMeansSettled(es + fs, id, a);
  }
}
