// Runs showing that the exceptions named in the guarantees do happen, for
// every task that passes Validate.

module Witnesses {
  import opened Wrappers
  import opened Domain
  import opened Keys
  import opened Network
  import opened Idempotency
  import opened Streams
  import opened Protocol
  import opened Accounting
  import opened NoLoss

  lemma Step(st: State, e: Event) returns (st': State)
    requires Reachable(st) && Can(st, e)
    ensures st' == Next(st, e) && Reachable(st')
  {
    ReachesNext(st, e);
    st' := Next(st, e);
    hide Next, Can;
    ReachesMore(INITIAL, st, st');
  }

  function Home(t: Task): Slot {
    (QueueName(t.priority), 0)
  }

  function Received(t: Task, pc: Pc): Copy {
    Copy(Stamp(t, Home(t)), Home(t), AttemptKey(t.id, t.attempt), pc)
  }

  // One task enqueued.
  function Stored(t: Task): State {
    INITIAL.(
      broker := Broker(map[QueueName(t.priority) := [t]], map[], {}),
      ledger := INITIAL.ledger.(enqueued := {t}, created := {(t.id, t.attempt)}))
  }

  // One task enqueued and delivered.
  function Fetched(t: Task): State {
    Stored(t).(
      broker := Broker(map[QueueName(t.priority) := [t]], map[QueueName(t.priority) := 1], {Home(t)}),
      copies := map[0 := Received(t, Gate)])
  }

  lemma FetchNext(t: Task)
    ensures DoEnqueue(INITIAL, t) == Stored(t)
    ensures HasNew(Stored(t).broker, QueueName(t.priority)) && DoPoll(Stored(t), QueueName(t.priority), 0) == Fetched(t)
  {
    hide QueueName;
    assert [] + [t] == [t];
    var st, st' := DoPoll(Stored(t), QueueName(t.priority), 0), Fetched(t);
    assert st.broker == st'.broker && st.copies == st'.copies;
  }

  lemma Fetch(t: Task)
    requires t.Validate().None?
    ensures Reachable(Fetched(t))
  {
    ReachesSelf(INITIAL);
    assert Reachable(INITIAL);
    QueueNames(t.priority, t.priority);
    FetchNext(t);
    assert 0 !in Stored(t).copies;
    hide Reachable, Reaches, QueueName, Stored, Fetched, DoEnqueue, DoPoll, HasNew, PRIORITY_STREAMS;
    var st := Step(INITIAL, Enqueue(t));
    st := Step(st, Poll(QueueName(t.priority), 0));
  }

  // Worker 0 holds the lock since second 0 and is about to send.
  function Granted(t: Task): State {
    var k := AttemptKey(t.id, t.attempt);
    Fetched(t).(
      locks := map[k := Lock.Processing("w", 0)],
      copies := map[0 := Received(t, Ready)],
      ledger := Fetched(t).ledger.(grants := multiset{k}))
  }

  lemma GrantNext(t: Task)
    ensures DoTryAcquire(Fetched(t), 0, "w", 0, Done) == Granted(t)
  {
    hide QueueName, Onward, SameRecords;
    var st, st' := DoTryAcquire(Fetched(t), 0, "w", 0, Done), Granted(t);
    assert st.locks == st'.locks && st.copies == st'.copies;
    assert st.ledger.grants == st'.ledger.grants;
  }

  lemma Grant(t: Task)
    requires t.Validate().None?
    ensures Reachable(Granted(t))
  {
    GrantNext(t);
    assert At(Fetched(t), 0, Gate);
    hide Reachable, Reaches, Fetched, Granted, DoTryAcquire;
    Fetch(t);
    var st := Step(Fetched(t), Worker(0, TryAcquire("w", 0, Done)));
  }

  // Worker 1 has claimed the same message and stands at `pc`.
  function Contested(t: Task, pc: Pc): State {
    Granted(t).(copies := map[0 := Received(t, Ready), 1 := Received(t, pc)])
  }

  lemma Contest(t: Task)
    requires t.Validate().None?
    ensures Reachable(Contested(t, Gate))
  {
    Grant(t);
    QueueNames(t.priority, t.priority);
    hide Reachable, Reaches, QueueName;
    var st := Step(Granted(t), Claim(Home(t), 1));
    assert st == Contested(t, Gate);
  }

  // Worker 1 has taken the lock over, 30 seconds after it was acquired.
  function TakenOver(t: Task): State {
    var k := AttemptKey(t.id, t.attempt);
    Contested(t, Ready).(
      locks := map[k := Lock.Processing("w", 30)],
      ledger := Contested(t, Ready).ledger.(reclaims := multiset{k}))
  }

  lemma RefusedNext(t: Task)
    ensures DoTryAcquire(Contested(t, Gate), 1, "w", 30, Done) == Contested(t, Check)
    ensures DoAskCompleted(Contested(t, Check), 1, Done) == Contested(t, Takeover)
  {
    hide QueueName, Fetched, Onward, Idle, SameRecords;
    assert map[0 := Received(t, Ready), 1 := Received(t, Gate)][1 := Received(t, Check)] == map[0 := Received(t, Ready), 1 := Received(t, Check)];
    assert map[0 := Received(t, Ready), 1 := Received(t, Check)][1 := Received(t, Takeover)] == map[0 := Received(t, Ready), 1 := Received(t, Takeover)];
  }

  lemma Refused(t: Task)
    requires Reachable(Contested(t, Gate))
    ensures Reachable(Contested(t, Takeover))
  {
    RefusedNext(t);
    assert At(Contested(t, Gate), 1, Gate) && At(Contested(t, Check), 1, Check);
    hide Reachable, Reaches, QueueName, Contested, DoTryAcquire, DoAskCompleted;
    var st := Step(Contested(t, Gate), Worker(1, TryAcquire("w", 30, Done)));
    st := Step(st, Worker(1, AskCompleted(Done)));
  }

  lemma TakenOverNext(t: Task)
    ensures DoTryReclaim(Contested(t, Takeover), 1, "w", 30, 30, Done) == TakenOver(t)
  {
    hide QueueName, Onward, SameRecords;
    var st, st' := DoTryReclaim(Contested(t, Takeover), 1, "w", 30, 30, Done), TakenOver(t);
    assert st.locks == st'.locks && st.copies == st'.copies;
    assert st.ledger.reclaims == st'.ledger.reclaims;
  }

  lemma TakeOver(t: Task)
    requires t.Validate().None?
    ensures Reachable(TakenOver(t))
  {
    TakenOverNext(t);
    assert At(Contested(t, Takeover), 1, Takeover) by { hide Granted, DoTryReclaim; }
    hide Reachable, Reaches, Contested, DoTryReclaim, TakenOver;
    Contest(t);
    Refused(t);
    var st := Step(Contested(t, Takeover), Worker(1, TryReclaim("w", 30, 30, Done)));
  }

  lemma Sends(st: State, c: nat) returns (st': State)
    requires Reachable(st) && At(st, c, Ready)
    ensures Reachable(st') && st'.ledger.reclaims == st.ledger.reclaims
    ensures st'.ledger.successes == st.ledger.successes + multiset{st.copies[c].idKey}
    ensures forall d | d != c && d in st.copies :: d in st'.copies && st'.copies[d] == st.copies[d]
  {
    hide Reachable, Reaches;
    st' := Step(st, Worker(c, Send(Delivered)));
  }

  /** A worker that outlives the reclaim threshold and the worker that takes its
      lock over both send: one takeover, two successes. */
  lemma TakeoverSendsTwice(t: Task)
    requires t.Validate().None?
    ensures exists st ::
              && Reachable(st)
              && st.ledger.successes[AttemptKey(t.id, t.attempt)] == 2
              && st.ledger.reclaims[AttemptKey(t.id, t.attempt)] == 1
  {
    TakeOver(t);
    hide Reachable, Reaches, QueueName;
    var st := Sends(TakenOver(t), 1);
    st := Sends(st, 0);
  }

  // ---- A cleared and an expired lock ----

  // The message of t is pending, worker 1 can be handed it, and its lock is free.
  ghost predicate Open(st: State, t: Task) {
    && Reachable(st) && 1 !in st.copies && AttemptKey(t.id, t.attempt) !in st.locks
    && Exists(st.broker, Home(t)) && Home(t) in st.broker.pel && Payload(st.broker, Home(t)) == t
  }

  lemma ClaimsAgain(st: State, t: Task) returns (st': State)
    requires Open(st, t) && t.Validate().None?
    ensures Reachable(st') && At(st', 1, Gate) && st'.copies[1].idKey == AttemptKey(t.id, t.attempt)
    ensures st'.dlq == st.dlq && st'.ledger == st.ledger && st'.locks == st.locks
  {
    QueueNames(t.priority, t.priority);
    assert Home(t).0 in PRIORITY_STREAMS;
    hide Reachable, QueueName, AttemptKey, Home, PRIORITY_STREAMS, Exists;
    st' := Step(st, Claim(Home(t), 1));
  }

  lemma Acquires(st: State, k: string) returns (st': State)
    requires Reachable(st) && At(st, 1, Gate) && st.copies[1].idKey == k && k !in st.locks
    ensures Reachable(st') && At(st', 1, Ready) && st'.copies[1].idKey == k && st'.dlq == st.dlq
    ensures st'.ledger == st.ledger.(grants := st'.ledger.grants)
  {
    hide Reachable, Onward, SameRecords;
    st' := Step(st, Worker(1, TryAcquire("w", 0, Done)));
  }

  // Worker 1 takes it from there to a successful Send.
  lemma SendsAgain(st: State, t: Task) returns (st': State)
    requires Open(st, t) && t.Validate().None?
    ensures Reachable(st') && st'.dlq == st.dlq
    ensures var l, l' := st.ledger, st'.ledger;
            l'.reclaims == l.reclaims && l'.clears == l.clears && l'.expiries == l.expiries
            && l'.successes == l.successes + multiset{AttemptKey(t.id, t.attempt)}
  {
    hide Reachable, AttemptKey, Onward, SameRecords;
    st' := ClaimsAgain(st, t);
    st' := Acquires(st', AttemptKey(t.id, t.attempt));
    hide Open;
    st' := Step(st', Worker(1, Send(Delivered)));
  }

  // Worker 0 is about to send t, for the first time ever.
  ghost predicate FirstTaken(st: State, t: Task) {
    var k := AttemptKey(t.id, t.attempt);
    && Reachable(st) && st.copies.Keys == {0} && At(st, 0, Ready) && st.copies[0].idKey == k
    && st.copies[0].task.id == t.id && st.copies[0].task.attempt == t.attempt
    && st.locks.Keys == {k} && st.dlq == []
    && Exists(st.broker, Home(t)) && Home(t) in st.broker.pel && Payload(st.broker, Home(t)) == t
    && var l := st.ledger;
       l.reclaims == l.clears == l.expiries == l.successes == multiset{}
  }

  lemma TakeFirst(t: Task) returns (st: State)
    requires t.Validate().None?
    ensures FirstTaken(st, t)
  {
    Grant(t);
    hide Reachable, QueueName, AttemptKey;
    st := Granted(t);
  }

  // As at FirstTaken, but for what the books say, and at `pc`.
  ghost predicate StillTaken(st: State, t: Task, pc: Pc) {
    && Reachable(st) && st.copies.Keys == {0} && At(st, 0, pc) && st.copies[0].idKey == AttemptKey(t.id, t.attempt)
    && st.copies[0].task.id == t.id && st.copies[0].task.attempt == t.attempt
    && st.locks.Keys == {AttemptKey(t.id, t.attempt)}
    && Exists(st.broker, Home(t)) && Home(t) in st.broker.pel && Payload(st.broker, Home(t)) == t
    && var l := st.ledger;
       l.reclaims == l.clears == l.expiries == l.successes == multiset{}
  }

  lemma Rejected(t: Task, error: string) returns (st: State)
    requires t.Validate().None?
    ensures StillTaken(st, t, DeadLetter(NonRetryableError)) && st.dlq == []
  {
    hide Reachable, AttemptKey, Onward, SameRecords, Idle, Home, Payload, Exists;
    st := TakeFirst(t);
    st := Step(st, Worker(0, Send(Permanent(error))));
  }

  lemma BuryLost(t: Task, error: string) returns (st: State)
    requires t.Validate().None?
    ensures StillTaken(st, t, Unlock) && BuriedKeys(st.dlq) == multiset{AttemptKey(t.id, t.attempt)}
  {
    hide Reachable, AttemptKey, Onward, SameRecords, Idle, Home, Payload, Exists, BuriedKeys;
    st := Rejected(t, error);
    var cp := st.copies[0];
    st := Step(st, Worker(0, Bury(Unseen)));
    OneBuried(DLQEntry(cp.task, NonRetryableError, cp.task.lastError));
  }

  lemma OneBuried(d: DLQEntry)
    ensures BuriedKeys([] + [d]) == multiset{AttemptKey(d.task.id, d.task.attempt)}
  {
    assert ([] + [d])[..0] == [] && |[] + [d]| == 1;
    hide AttemptKey;
  }

  // The provider rejected the task, the burial was stored, its reply was lost,
  // and the lock was cleared for a redelivery.
  lemma BuriedUnseen(t: Task, error: string) returns (st: State)
    requires t.Validate().None?
    ensures Open(st, t)
    ensures st.ledger.reclaims == multiset{} && st.ledger.expiries == multiset{} && st.ledger.successes == multiset{}
    ensures st.ledger.clears == multiset{AttemptKey(t.id, t.attempt)}
    ensures BuriedKeys(st.dlq) == multiset{AttemptKey(t.id, t.attempt)}
  {
    hide Reachable, AttemptKey, Onward, SameRecords, Idle, Home, Payload, Exists, BuriedKeys;
    st := BuryLost(t, error);
    st := Step(st, Worker(0, Release(Done)));
  }

  /** A burial whose reply was lost is followed by a success: one clear, two
      endings of the same attempt. */
  lemma BuriedAndSent(t: Task, error: string)
    requires t.Validate().None?
    ensures exists st ::
              var k := AttemptKey(t.id, t.attempt);
              && Reachable(st) && st.ledger.successes[k] == 1 && BuriedKeys(st.dlq)[k] == 1
              && st.ledger.clears[k] == 1 && st.ledger.reclaims == multiset{} && st.ledger.expiries == multiset{}
  {
    hide Open, Reachable;
    var st := BuriedUnseen(t, error);
    st := SendsAgain(st, t);
  }

  // The task was sent, the worker died, and the lock ran out.
  lemma SentUnmarked(t: Task) returns (st: State)
    requires t.Validate().None?
    ensures Open(st, t)
    ensures st.ledger.reclaims == multiset{} && st.ledger.clears == multiset{}
    ensures st.ledger.expiries == multiset{AttemptKey(t.id, t.attempt)} == st.ledger.successes
  {
    hide Reachable, AttemptKey, Onward, SameRecords, Idle, Home, Payload;
    st := TakeFirst(t);
    st := Step(st, Worker(0, Send(Delivered)));
    assert st.copies.Keys == {0};
    hide DoSend;
    st := Step(st, Worker(0, Crash));
    st := Step(st, Expire(AttemptKey(t.id, t.attempt)));
  }

  /** A worker that dies after its Send and before its acknowledgement is repeated
      once the lock has run out: one expiry, two successes. */
  lemma ExpirySendsTwice(t: Task)
    requires t.Validate().None?
    ensures exists st ::
              var k := AttemptKey(t.id, t.attempt);
              && Reachable(st) && st.ledger.successes[k] == 2
              && st.ledger.expiries[k] == 1 && st.ledger.reclaims == multiset{} && st.ledger.clears == multiset{}
  {
    hide Open, Reachable;
    var st := SentUnmarked(t);
    st := SendsAgain(st, t);
  }

  // ---- A flush that loses a task ----

  // The first Send failed and the retry is in the sorted set, acknowledged.
  function Retrying(t: Task, error: string): Task {
    Stamp(t, Home(t)).(lastError := error, status := Failed, attempt := t.attempt + 1)
  }

  function FailedOnce(t: Task, error: string): State {
    var k := AttemptKey(t.id, t.attempt);
    Granted(t).(
      copies := map[0 := Received(t, Schedule).(task := Retrying(t, error))],
      ledger := Granted(t).ledger.(sends := multiset{k}, failures := multiset{k}))
  }

  lemma FailNext(t: Task, error: string)
    requires t.IsRetryable()
    ensures DoSend(Granted(t), 0, Transient(error)) == FailedOnce(t, error)
  {
    hide QueueName;
    var st, st' := DoSend(Granted(t), 0, Transient(error)), FailedOnce(t, error);
    assert st.copies == st'.copies;
    assert st.ledger == st'.ledger;
  }

  lemma Fail(t: Task, error: string)
    requires t.Validate().None? && t.IsRetryable()
    ensures Reachable(FailedOnce(t, error))
  {
    Grant(t);
    FailNext(t, error);
    hide Reachable, Reaches, QueueName, DoSend, FailedOnce, Fetched;
    var st := Step(Granted(t), Worker(0, Send(Transient(error))));
  }

  // The retry is the only trace of the task left.
  function Postponed(t: Task, error: string, pc: Pc): State {
    var r := Retrying(t, error);
    FailedOnce(t, error).(
      copies := map[0 := Received(t, pc).(task := r)],
      retry := {r},
      ledger := FailedOnce(t, error).ledger.(
        created := {(t.id, t.attempt), (r.id, r.attempt)},
        postpones := multiset{AttemptKey(t.id, t.attempt)}))
  }

  function Parked(t: Task, error: string): State {
    var st := Postponed(t, error, AckRetry);
    st.(broker := st.broker.(pel := {}), copies := map[])
  }

  lemma PostponeNext(t: Task, error: string)
    ensures DoPostpone(FailedOnce(t, error), 0, Done) == Postponed(t, error, AckRetry)
  {
    hide QueueName;
    var st, st' := DoPostpone(FailedOnce(t, error), 0, Done), Postponed(t, error, AckRetry);
    assert st.copies == st'.copies && st.retry == st'.retry;
    assert st.ledger.created == st'.ledger.created;
  }

  lemma ParkNext(t: Task, error: string)
    ensures DoAcknowledge(Postponed(t, error, AckRetry), 0, Done) == Parked(t, error)
  {
    hide QueueName;
    var st, st' := DoAcknowledge(Postponed(t, error, AckRetry), 0, Done), Parked(t, error);
    assert st.broker.pel == {};
    assert st.copies == map[];
  }

  lemma PostponePark(t: Task, error: string)
    ensures At(FailedOnce(t, error), 0, Schedule) && At(Postponed(t, error, AckRetry), 0, AckRetry)
  {
    hide Granted, QueueName;
  }

  lemma Park(t: Task, error: string)
    requires t.Validate().None? && t.IsRetryable()
    ensures Reachable(Parked(t, error))
  {
    PostponePark(t, error);
    hide Reachable, Reaches, DoPostpone, DoAcknowledge, FailedOnce, Postponed, Parked;
    Fail(t, error);
    PostponeNext(t, error);
    ParkNext(t, error);
    var st := Step(FailedOnce(t, error), Worker(0, Postpone(Done)));
    st := Step(st, Worker(0, Call.Acknowledge(Done)));
  }

  // A flush has read the retry, and sent its XADD if `moved` has an element.
  function Flushing(t: Task, error: string, moved: seq<bool>): State {
    Parked(t, error).(flushers := map[0 := Flusher([Retrying(t, error)], moved)])
  }

  lemma ReadNext(t: Task, error: string)
    requires t.Validate().None? && t.IsRetryable()
    ensures Reachable(Flushing(t, error, []))
  {
    Park(t, error);
    assert Parked(t, error).retry == {Retrying(t, error)} && Parked(t, error).flushers == map[];
    hide Reachable, Reaches, QueueName, Parked, DoFlushAdd, DoFlushRemove;
    var st := Step(Parked(t, error), Flush(0, Read([Retrying(t, error)])));
  }

  lemma RefuseNext(t: Task, error: string)
    ensures DoFlushAdd(Flushing(t, error, []), 0, NotRun) == Flushing(t, error, [false])
  {
    hide QueueName, Parked, Retrying;
    assert [] + [false] == [false];
    var st, st' := DoFlushAdd(Flushing(t, error, []), 0, NotRun), Flushing(t, error, [false]);
    assert st.flushers == st'.flushers;
  }

  lemma Refuse(t: Task, error: string)
    requires t.Validate().None? && t.IsRetryable()
    ensures Reachable(Flushing(t, error, [false]))
  {
    ReadNext(t, error);
    RefuseNext(t, error);
    hide Reachable, Reaches, QueueName, Parked, Retrying, DoFlushAdd, DoFlushRemove;
    var st := Step(Flushing(t, error, []), Flush(0, Add(NotRun)));
  }

  /** The server refuses the XADD of a retry (out of memory, say) and carries
      out the ZREM of the same pipeline: the task is gone without an outcome. */
  lemma FlushCanDropATask(t: Task, error: string)
    requires t.Validate().None? && t.IsRetryable()
    ensures exists st :: Reachable(st) && t in st.ledger.enqueued && !Settled(st, t.id) && !OnItsWay(st, t.id, t.attempt)
  {
    Refuse(t, error);
    assert Parked(t, error).retry == {Retrying(t, error)};
    assert Parked(t, error).dlq == [] && Parked(t, error).ledger.successes == multiset{} && t in Parked(t, error).ledger.enqueued;
    hide Reachable, Reaches, QueueName, Parked;
    var st := Step(Flushing(t, error, [false]), Flush(0, Remove(Done)));
    assert Flushing(t, error, [false]).flushers[0].batch[0] == Retrying(t, error);
    assert st.retry == {};
    Gone(t, error, st);
  }

  lemma Gone(t: Task, error: string, st: State)
    requires st.broker == Parked(t, error).broker && st.retry == {} && st.dlq == [] && st.ledger.successes == multiset{}
    ensures !Settled(st, t.id) && !OnItsWay(st, t.id, t.attempt)
  {
    hide QueueName;
    forall s: Slot
      ensures !Live(st.broker, s)
    {
    }
  }
}
