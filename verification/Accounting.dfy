// Locks, sends and outcomes are balanced in every state of every run.

module Accounting {
  import opened Wrappers
  import opened Domain
  import opened Keys
  import opened Network
  import opened Idempotency
  import opened Streams
  import opened Protocol
  import opened Invariants

  function Waiting(copies: map<nat, Copy>, k: string): set<nat> {
    set c | c in copies && copies[c].pc == Ready && copies[c].idKey == k
  }

  ghost predicate Balanced(st: State, k: string) {
    var l := st.ledger;
    && l.grants[k] == l.clears[k] + l.expiries[k] + (if k in st.locks then 1 else 0)
    && l.sends[k] + |Waiting(st.copies, k)| <= l.grants[k] + l.reclaims[k]
    && l.successes[k] + l.failures[k] <= l.sends[k]
  }

  ghost predicate Started(l: Ledger, id: string, attempt: int) {
    exists o | o in l.enqueued :: o.id == id && o.attempt == attempt
  }

  // An attempt was enqueued as such, or the one before it failed and was handed
  // to the retry set; and it lies between an enqueued attempt and its budget.
  ghost predicate Caused(l: Ledger, id: string, attempt: int) {
    && (Started(l, id, attempt) || AttemptKey(id, attempt - 1) in l.postpones)
    && (exists o | o in l.enqueued :: o.id == id && o.attempt <= attempt <= Max(o.attempt, o.maxAttempts))
  }

  ghost predicate LedgerOk(st: State) {
    CreatedOk(st.ledger) && forall k :: Balanced(st, k) && HandedOn(st, k)
  }

  // ---- Counting the copies about to send ----

  lemma CountMove(w: set<nat>, w': set<nat>, c: nat)
    requires w' - {c} == w - {c}
    ensures |w'| == |w| - (if c in w then 1 else 0) + (if c in w' then 1 else 0)
  {
    assert |w - {c}| == |w| - if c in w then 1 else 0;
    assert |w' - {c}| == |w'| - if c in w' then 1 else 0;
  }

  lemma Elsewhere(copies: map<nat, Copy>, copies': map<nat, Copy>, c: nat, x: nat)
    requires copies' - {c} == copies - {c} && x != c
    ensures x in copies <==> x in copies'
    ensures x in copies ==> copies'[x] == copies[x]
  {
    assert x in copies <==> x in copies - {c};
    assert x in copies' <==> x in copies' - {c};
    assert x in copies - {c} ==> (copies - {c})[x] == copies[x] && (copies' - {c})[x] == copies'[x];
  }

  lemma WaitingCount(copies: map<nat, Copy>, copies': map<nat, Copy>, c: nat, k: string)
    requires copies' - {c} == copies - {c}
    ensures |Waiting(copies', k)| == |Waiting(copies, k)|
            - (if c in Waiting(copies, k) then 1 else 0) + (if c in Waiting(copies', k) then 1 else 0)
  {
    forall x | x != c
      ensures x in Waiting(copies, k) <==> x in Waiting(copies', k)
    {
      Elsewhere(copies, copies', c, x);
    }
    hide Waiting;
    CountMove(Waiting(copies, k), Waiting(copies', k), c);
  }

  lemma AcquireBalance(st: State, c: nat, worker: string, startedAt: int, reply: Reply, k: string)
    requires Balanced(st, k) && At(st, c, Gate)
    ensures Balanced(DoTryAcquire(st, c, worker, startedAt, reply), k)
  {
    WaitingCount(st.copies, DoTryAcquire(st, c, worker, startedAt, reply).copies, c, k);
  }

  lemma ReclaimBalance(st: State, c: nat, worker: string, nowUnix: int, maxAge: int, reply: Reply, k: string)
    requires Balanced(st, k) && At(st, c, Takeover)
    ensures Balanced(DoTryReclaim(st, c, worker, nowUnix, maxAge, reply), k)
  {
    WaitingCount(st.copies, DoTryReclaim(st, c, worker, nowUnix, maxAge, reply).copies, c, k);
  }

  lemma SendBalance(st: State, c: nat, result: SendResult, k: string)
    requires Balanced(st, k) && At(st, c, Ready)
    ensures Balanced(DoSend(st, c, result), k)
  {
    WaitingCount(st.copies, DoSend(st, c, result).copies, c, k);
  }

  // DEL removes a lock whoever holds it, and counts as a clear if there was one.
  lemma ReleaseBalance(st: State, c: nat, reply: Reply, k: string)
    requires Balanced(st, k) && At(st, c, Unlock)
    ensures Balanced(DoRelease(st, c, reply), k)
  {
    WaitingCount(st.copies, DoRelease(st, c, reply).copies, c, k);
  }

  lemma IdleBalance(st: State, st': State, c: nat, k: string)
    requires Balanced(st, k) && Idle(st, st', c)
    ensures Balanced(st', k)
  {
    WaitingCount(st.copies, st'.copies, c, k);
  }

  lemma IdleWork(st: State, c: nat, call: Call)
    requires CanWork(st, c, call)
    requires !call.TryAcquire? && !call.TryReclaim? && !call.Send? && !call.Release?
    ensures Idle(st, Work(st, c, call), c)
  {
    hide DoTryAcquire, DoTryReclaim, DoSend, DoRelease, DoAskCompleted, DoAcknowledge, DoComplete, DoBury, DoPostpone, Finish;
  }

  // A call changes no copy but its own.
  lemma CallCopies(st: State, c: nat, call: Call)
    requires CanWork(st, c, call)
    ensures Work(st, c, call).copies - {c} == st.copies - {c}
  {
    hide Onward, SameRecords, AcquireScript, ReclaimScript, AfterFailure, ClearCommand;
    if !call.TryAcquire? && !call.TryReclaim? && !call.Send? && !call.Release? {
      IdleWork(st, c, call);
      hide Work;
    }
  }

  lemma WorkBalance(st: State, c: nat, call: Call, k: string)
    requires Balanced(st, k) && CanWork(st, c, call)
    ensures Balanced(Work(st, c, call), k)
  {
    hide Balanced, Idle;
    if call.TryAcquire? {
      AcquireBalance(st, c, call.worker, call.startedAt, call.reply, k);
    } else if call.TryReclaim? {
      ReclaimBalance(st, c, call.worker, call.nowUnix, call.maxAge, call.reply, k);
    } else if call.Send? {
      SendBalance(st, c, call.result, k);
    } else if call.Release? {
      ReleaseBalance(st, c, call.reply, k);
    } else {
      IdleWork(st, c, call);
      IdleBalance(st, Work(st, c, call), c, k);
    }
  }

  lemma FlushBalance(st: State, f: nat, step: FlushCall, k: string)
    requires Balanced(st, k) && CanFlush(st, f, step)
    ensures Balanced(FlushStep(st, f, step), k)
  {
    hide FlushStep;
  }

  lemma BalanceKept(st: State, e: Event, k: string)
    requires Balanced(st, k) && Can(st, e)
    ensures Balanced(Next(st, e), k)
  {
    match e
    case Worker(c, call) => hide Balanced; WorkBalance(st, c, call, k);
    case Flush(f, step) => hide Balanced; FlushBalance(st, f, step, k);
    case Poll(_, c) => IdleBalance(st, Next(st, e), c, k);
    case Claim(_, c) => IdleBalance(st, Next(st, e), c, k);
    case _ =>
  }

  // ---- A failed attempt is handed on once ----

  // The attempt keys of the dead-letter entries, with multiplicity.
  function BuriedKeys(dlq: seq<DLQEntry>): multiset<string> {
    if dlq == [] then multiset{}
    else
      var d := dlq[|dlq| - 1];
      BuriedKeys(dlq[..|dlq| - 1]) + multiset{AttemptKey(d.task.id, d.task.attempt)}
  }

  lemma BuriedKeysAppend(dlq: seq<DLQEntry>, d: DLQEntry, k: string)
    ensures BuriedKeys(dlq + [d])[k] == BuriedKeys(dlq)[k] + if k == AttemptKey(d.task.id, d.task.attempt) then 1 else 0
  {
    assert (dlq + [d])[..|dlq|] == dlq;
  }

  // Copies between a failed Send and the write that hands the task on.
  predicate HandingOn(pc: Pc) {
    pc.DeadLetter? || pc == Schedule
  }

  function Pending(copies: map<nat, Copy>, k: string): set<nat> {
    set c | c in copies && HandingOn(copies[c].pc) && copies[c].idKey == k
  }

  /** Each failure of Send leads to at most one dead-letter entry or retry. */
  ghost predicate HandedOn(st: State, k: string) {
    BuriedKeys(st.dlq)[k] + st.ledger.postpones[k] + |Pending(st.copies, k)| <= st.ledger.failures[k]
  }

  lemma PendingCount(copies: map<nat, Copy>, copies': map<nat, Copy>, c: nat, k: string)
    requires copies' - {c} == copies - {c}
    ensures |Pending(copies', k)| == |Pending(copies, k)|
            - (if c in Pending(copies, k) then 1 else 0) + (if c in Pending(copies', k) then 1 else 0)
  {
    forall x | x != c
      ensures x in Pending(copies, k) <==> x in Pending(copies', k)
    {
      Elsewhere(copies, copies', c, x);
    }
    hide Pending;
    CountMove(Pending(copies, k), Pending(copies', k), c);
  }

  lemma SendHandsOn(st: State, c: nat, result: SendResult, k: string)
    requires HandedOn(st, k) && At(st, c, Ready)
    ensures HandedOn(DoSend(st, c, result), k)
  {
    PendingCount(st.copies, DoSend(st, c, result).copies, c, k);
  }

  lemma BuryHandsOn(st: State, c: nat, reply: Reply, k: string)
    requires HandedOn(st, k) && c in st.copies && st.copies[c].pc.DeadLetter? && Routed(st.broker, st.copies[c])
    ensures HandedOn(DoBury(st, c, reply), k)
  {
    var cp := st.copies[c];
    var st' := DoBury(st, c, reply);
    var d := DLQEntry(cp.task, cp.pc.reason, cp.task.lastError);
    assert cp.idKey == AttemptKey(d.task.id, d.task.attempt);
    BuriedKeysAppend(st.dlq, d, k);
    hide Routed, Onward, SameRecords, Idle, BuriedKeys, AttemptKey;
    assert st'.dlq == (if reply.Ran() then st.dlq + [d] else st.dlq);
    assert st'.copies - {c} == st.copies - {c} && !HandingOn(st'.copies[c].pc);
    assert st'.ledger == st.ledger;
    hide DoBury;
    PendingCount(st.copies, st'.copies, c, k);
  }

  lemma PostponeHandsOn(st: State, c: nat, reply: Reply, k: string)
    requires HandedOn(st, k) && At(st, c, Schedule)
    ensures HandedOn(DoPostpone(st, c, reply), k)
  {
    PendingCount(st.copies, DoPostpone(st, c, reply).copies, c, k);
  }

  // No other step touches the books, and a copy can only leave them.
  lemma BooksFrame(st: State, st': State, c: nat, k: string)
    requires HandedOn(st, k)
    requires st'.dlq == st.dlq && st'.ledger.postpones == st.ledger.postpones && st'.ledger.failures == st.ledger.failures
    requires st'.copies - {c} == st.copies - {c} && (c in st'.copies ==> !HandingOn(st'.copies[c].pc))
    ensures HandedOn(st', k)
  {
    PendingCount(st.copies, st'.copies, c, k);
  }

  lemma GateBooks(st: State, c: nat, call: Call, k: string)
    requires HandedOn(st, k) && CanWork(st, c, call)
    requires call.TryAcquire? || call.TryReclaim? || call.AskCompleted?
    ensures HandedOn(Work(st, c, call), k)
  {
    hide HandedOn;
    BooksFrame(st, Work(st, c, call), c, k);
  }

  lemma OtherBooks(st: State, c: nat, call: Call, k: string)
    requires HandedOn(st, k) && CanWork(st, c, call)
    requires call.Crash? || call.Acknowledge? || call.Complete? || call.Release?
    ensures HandedOn(Work(st, c, call), k)
  {
    hide HandedOn;
    BooksFrame(st, Work(st, c, call), c, k);
  }

  lemma WorkHandsOn(st: State, c: nat, call: Call, k: string)
    requires HandedOn(st, k) && CanWork(st, c, call) && CopiesOk(st)
    ensures HandedOn(Work(st, c, call), k)
  {
    hide HandedOn, Routed, Positioned, LocksOk, DlqOk, CopiesOk;
    hide DoTryAcquire, DoAskCompleted, DoTryReclaim, DoSend, DoAcknowledge, DoComplete, DoBury, DoPostpone, DoRelease;
    CopyFacts(st, c);
    if call.Send? {
      SendHandsOn(st, c, call.result, k);
    } else if call.Bury? {
      BuryHandsOn(st, c, call.reply, k);
    } else if call.Postpone? {
      PostponeHandsOn(st, c, call.reply, k);
    } else if call.TryAcquire? || call.TryReclaim? || call.AskCompleted? {
      GateBooks(st, c, call, k);
    } else {
      OtherBooks(st, c, call, k);
    }
  }

  lemma FlushBooks(st: State, f: nat, step: FlushCall, k: string)
    requires HandedOn(st, k) && CanFlush(st, f, step)
    ensures HandedOn(FlushStep(st, f, step), k)
  {
    hide FlushStep, BuriedKeys;
  }

  lemma EnqueueBooks(st: State, t: Task, k: string)
    requires HandedOn(st, k)
    ensures HandedOn(DoEnqueue(st, t), k)
  {
    hide BuriedKeys;
  }

  lemma PollBooks(st: State, key: string, c: nat, k: string)
    requires HandedOn(st, k) && HasNew(st.broker, key)
    ensures HandedOn(DoPoll(st, key, c), k)
  {
    hide HandedOn;
    BooksFrame(st, DoPoll(st, key, c), c, k);
  }

  lemma HandedOnKept(st: State, e: Event, k: string)
    requires HandedOn(st, k) && Can(st, e) && CopiesOk(st)
    ensures HandedOn(Next(st, e), k)
  {
    hide HandedOn, CopiesOk, DoEnqueue, FlushStep, Work, DoPoll, Deliver, DoExpire;
    match e
    case Worker(c, call) => WorkHandsOn(st, c, call, k);
    case Flush(f, step) => FlushBooks(st, f, step, k);
    case Enqueue(t) => EnqueueBooks(st, t, k);
    case Poll(key, c) => PollBooks(st, key, c, k);
    case Claim(_, c) => BooksFrame(st, Next(st, e), c, k);
    case PollLost(_) => SameBooks(st, Next(st, e), k);
    case Expire(key) => ExpireBooks(st, key, k);
  }

  lemma ExpireBooks(st: State, key: string, k: string)
    requires HandedOn(st, k)
    ensures HandedOn(DoExpire(st, key), k)
  {
    hide HandedOn;
    SameBooks(st, DoExpire(st, key), k);
  }

  lemma SameBooks(st: State, st': State, k: string)
    requires HandedOn(st, k)
    requires st'.dlq == st.dlq && st'.ledger.postpones == st.ledger.postpones && st'.ledger.failures == st.ledger.failures
    requires st'.copies == st.copies
    ensures HandedOn(st', k)
  {
  }

  // ---- Where attempts come from ----

  ghost predicate CreatedOk(l: Ledger) {
    && (forall id, a :: AttemptKey(id, a) in l.grants + l.reclaims ==> (id, a) in l.created)
    && (forall id, a | (id, a) in l.created :: Caused(l, id, a))
  }

  // A lock is only ever acquired for a record that exists.
  lemma AcquiredIsCreated(l: Ledger, l': Ledger, id: string, a: int)
    requires CreatedOk(l) && (id, a) in l.created
    requires l' == l.(grants := l.grants + multiset{AttemptKey(id, a)}) || l' == l.(reclaims := l.reclaims + multiset{AttemptKey(id, a)})
    ensures CreatedOk(l')
  {
    forall id', a' | AttemptKey(id', a') in l'.grants + l'.reclaims
      ensures (id', a') in l'.created
    {
      if AttemptKey(id', a') == AttemptKey(id, a) {
        AttemptKeyInjective(id', a', id, a);
      } else {
        assert AttemptKey(id', a') in l.grants + l.reclaims;
      }
    }
    assert forall x, y :: Caused(l, x, y) ==> Caused(l', x, y);
  }

  lemma CausedGrows(l: Ledger, l': Ledger)
    requires CreatedOk(l)
    requires l'.grants == l.grants && l'.reclaims == l.reclaims
    requires l.enqueued <= l'.enqueued && l.postpones <= l'.postpones && l.created <= l'.created
    requires forall x | x in l'.created - l.created :: Caused(l', x.0, x.1)
    ensures CreatedOk(l')
  {
    forall x, y | Caused(l, x, y)
      ensures Caused(l', x, y)
    {
    }
    forall x, y | (x, y) in l'.created
      ensures Caused(l', x, y)
    {
      if (x, y) !in l.created {
        assert (x, y) in l'.created - l.created;
      }
    }
  }

  lemma CopyAttempt(st: State, c: nat)
    requires RecordsOk(st) && CopiesOk(st) && c in st.copies
    ensures var cp := st.copies[c];
            var a := Payload(st.broker, cp.from).attempt;
            && cp.idKey == AttemptKey(cp.task.id, a) && (cp.task.id, a) in st.ledger.created
            && Known(st.ledger, Payload(st.broker, cp.from))
  {
    assert CopyOk(st, st.copies[c]);
    assert Known(st.ledger, Payload(st.broker, st.copies[c].from));
  }

  lemma PostponeCaused(st: State, c: nat)
    requires At(st, c, Schedule) && Routed(st.broker, st.copies[c]) && Positioned(st, st.copies[c])
    requires Known(st.ledger, Payload(st.broker, st.copies[c].from))
    ensures Caused(DoPostpone(st, c, Done).ledger, st.copies[c].task.id, st.copies[c].task.attempt)
  {
    var cp := st.copies[c];
    var l' := DoPostpone(st, c, Done).ledger;
    hide Onward, Idle;
    var o :| o in st.ledger.enqueued && Descends(Payload(st.broker, cp.from), o);
    assert o in l'.enqueued && o.id == cp.task.id && o.attempt <= cp.task.attempt <= Max(o.attempt, o.maxAttempts);
    assert AttemptKey(cp.task.id, cp.task.attempt - 1) in l'.postpones;
  }

  lemma PostponeCreated(st: State, c: nat, reply: Reply)
    requires CreatedOk(st.ledger) && At(st, c, Schedule)
    requires Routed(st.broker, st.copies[c]) && Positioned(st, st.copies[c])
    requires Known(st.ledger, Payload(st.broker, st.copies[c].from))
    ensures CreatedOk(DoPostpone(st, c, reply).ledger)
  {
    PostponeCaused(st, c);
    hide CreatedOk, Onward, Idle, Routed, Positioned, Known, Caused;
    CausedGrows(st.ledger, DoPostpone(st, c, reply).ledger);
  }

  // Calls that create no record and acquire no lock.
  lemma PlainCreated(st: State, c: nat, call: Call)
    requires CanWork(st, c, call) && !call.TryAcquire? && !call.TryReclaim? && !call.Postpone?
    ensures var l, l' := st.ledger, Work(st, c, call).ledger;
            && l'.grants == l.grants && l'.reclaims == l.reclaims
            && l'.enqueued == l.enqueued && l'.created == l.created && l'.postpones == l.postpones
  {
    hide DoAskCompleted, DoComplete, DoBury, DoTryAcquire, DoTryReclaim, DoPostpone;
  }

  lemma AcquireCreated(st: State, c: nat, call: Call)
    requires CreatedOk(st.ledger) && CanWork(st, c, call) && (call.TryAcquire? || call.TryReclaim?)
    requires exists a :: st.copies[c].idKey == AttemptKey(st.copies[c].task.id, a) && (st.copies[c].task.id, a) in st.ledger.created
    ensures CreatedOk(Work(st, c, call).ledger)
  {
    var cp := st.copies[c];
    var a :| cp.idKey == AttemptKey(cp.task.id, a) && (cp.task.id, a) in st.ledger.created;
    hide CreatedOk;
    if Work(st, c, call).ledger != st.ledger {
      AcquiredIsCreated(st.ledger, Work(st, c, call).ledger, cp.task.id, a);
    }
  }

  lemma WorkCreated(st: State, c: nat, call: Call)
    requires RecordsOk(st) && CopiesOk(st) && CreatedOk(st.ledger) && CanWork(st, c, call)
    ensures CreatedOk(Work(st, c, call).ledger)
  {
    hide RecordsOk, CopiesOk, CreatedOk, Known, Positioned, LocksOk, DlqOk;
    CopyAttempt(st, c);
    CopyFacts(st, c);
    if call.TryAcquire? || call.TryReclaim? {
      AcquireCreated(st, c, call);
    } else if call.Postpone? {
      PostponeCreated(st, c, call.reply);
    } else {
      PlainCreated(st, c, call);
      hide Work;
      CausedGrows(st.ledger, Work(st, c, call).ledger);
    }
  }

  lemma EnqueueCreated(st: State, t: Task)
    requires CreatedOk(st.ledger)
    ensures CreatedOk(DoEnqueue(st, t).ledger)
  {
    assert Started(DoEnqueue(st, t).ledger, t.id, t.attempt);
    hide CreatedOk;
    CausedGrows(st.ledger, DoEnqueue(st, t).ledger);
  }

  lemma CreatedKept(st: State, e: Event)
    requires RecordsOk(st) && CopiesOk(st) && CreatedOk(st.ledger) && Can(st, e)
    ensures CreatedOk(Next(st, e).ledger)
  {
    hide RecordsOk, CopiesOk, CreatedOk;
    match e
    case Worker(c, call) => WorkCreated(st, c, call);
    case Enqueue(t) => EnqueueCreated(st, t);
    case Flush(f, step) => CausedGrows(st.ledger, Next(st, e).ledger);
    case Expire(k) => CausedGrows(st.ledger, Next(st, e).ledger);
    case _ => CausedGrows(st.ledger, Next(st, e).ledger);
  }

  // ---- All reachable states ----

  ghost predicate Sound(st: State) {
    RecordsOk(st) && CopiesOk(st) && LedgerOk(st)
  }

  lemma SoundKept(st: State, e: Event)
    requires Sound(st) && Can(st, e)
    ensures Sound(Next(st, e))
  {
    RecordsKept(st, e);
    CopiesKept(st, e);
    CreatedKept(st, e);
    forall k
      ensures Balanced(Next(st, e), k) && HandedOn(Next(st, e), k)
    {
      BalanceKept(st, e, k);
      HandedOnKept(st, e, k);
    }
  }

  lemma {:induction false} SoundRun(st: State, es: seq<Event>)
    requires Sound(st) && Run(st, es)
    ensures Sound(After(st, es))
    decreases |es|
  {
    hide Sound, Next, Can;
    if es != [] {
      SoundKept(st, es[0]);
      SoundRun(Next(st, es[0]), es[1..]);
    }
  }

  lemma InitialSound()
    ensures Sound(INITIAL)
  {
  }

  lemma ReachableSound(st: State)
    requires Reachable(st)
    ensures Sound(st)
  {
    InitialSound();
    hide Sound;
    var es :| Run(INITIAL, es) && After(INITIAL, es) == st;
    SoundRun(INITIAL, es);
  }
}
