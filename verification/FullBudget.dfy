// The last attempt of the budget is really sent: every task can use MaxAttempts
// plus one Sends, with no lock reopened.

module FullBudget {
  import opened Wrappers
  import opened Domain
  import opened Keys
  import opened Network
  import opened Idempotency
  import opened Streams
  import opened Protocol
  import opened Invariants
  import opened Accounting
  import opened Guarantees
  import opened Witnesses

  // u is the task t at attempt n, as far as a worker looks.
  ghost predicate AtAttempt(u: Task, t: Task, n: nat) {
    u.id == t.id && u.priority == t.priority && u.maxAttempts == t.maxAttempts && u.metadata == t.metadata && u.attempt == n
  }

  // The attempts below n were sent once each, those from m on have no lock.
  ghost predicate Books(st: State, t: Task, n: nat, m: nat) {
    var l := st.ledger;
    && l.enqueued == {t} && l.reclaims == multiset{} && l.clears == multiset{} && l.expiries == multiset{}
    && Total(l.sends, t.id, 0, n) == n
    && (forall a | a >= n :: AttemptKey(t.id, a) !in l.sends)
    && (forall a | a >= m :: AttemptKey(t.id, a) !in st.locks)
  }

  // Attempt n waits in the stream, and nothing else is going on.
  ghost predicate Queued(st: State, t: Task, n: nat) {
    var key := QueueName(t.priority);
    && Reachable(st) && Books(st, t, n, n)
    && st.copies == map[] && st.flushers == map[] && st.retry == {}
    && Cursor(st.broker, key) + 1 == |Log(st.broker, key)|
    && AtAttempt(Payload(st.broker, (key, Cursor(st.broker, key))), t, n)
  }

  // Worker 0 is about to send attempt n.
  ghost predicate Sending(st: State, t: Task, n: nat) {
    var key := QueueName(t.priority);
    && Reachable(st) && Books(st, t, n, n + 1)
    && st.flushers == map[] && st.retry == {}
    && Cursor(st.broker, key) == |Log(st.broker, key)|
    && st.copies.Keys == {0} && st.copies[0].pc == Ready
    && st.copies[0].idKey == AttemptKey(t.id, n) && AtAttempt(st.copies[0].task, t, n)
  }

  // Attempt n waits in the retry set.
  ghost predicate Waits(st: State, t: Task, n: nat, r: Task) {
    var key := QueueName(t.priority);
    && Reachable(st) && Books(st, t, n, n)
    && st.copies == map[] && st.flushers == map[] && st.retry == {r} && AtAttempt(r, t, n)
    && Cursor(st.broker, key) == |Log(st.broker, key)|
  }

  lemma Start(t: Task) returns (st: State)
    requires t.Validate().None? && t.attempt == 0
    ensures Queued(st, t, 0)
  {
    ReachesSelf(INITIAL);
    assert Reachable(INITIAL);
    st := Step(INITIAL, Enqueue(t));
    hide Reachable, QueueName, AttemptKey;
  }

  lemma FetchAttempt(st: State, t: Task, n: nat) returns (st': State)
    requires Queued(st, t, n) && t.Validate().None?
    ensures Sending(st', t, n)
  {
    var key := QueueName(t.priority);
    QueueNames(t.priority, t.priority);
    hide Reachable, QueueName, AttemptKey, PRIORITY_STREAMS, Total;
    var mid := Step(st, Poll(key, 0));
    assert mid.copies.Keys == {0};
    LaterKeys(t, n);
    st' := Step(mid, Worker(0, TryAcquire("w", 0, Done)));
  }

  lemma LaterKeys(t: Task, n: nat)
    ensures forall a | a >= n + 1 :: AttemptKey(t.id, a) != AttemptKey(t.id, n)
  {
    forall a | a >= n + 1
      ensures AttemptKey(t.id, a) != AttemptKey(t.id, n)
    {
      if AttemptKey(t.id, a) == AttemptKey(t.id, n) {
        AttemptKeyInjective(t.id, a, t.id, n);
      }
    }
  }

  lemma FailAttempt(st: State, t: Task, n: nat) returns (st': State)
    requires Sending(st, t, n) && n < t.maxAttempts && !t.IsPoison()
    ensures Reachable(st') && Books(st', t, n + 1, n + 1) && st'.flushers == map[] && st'.retry == {}
    ensures Cursor(st'.broker, QueueName(t.priority)) == |Log(st'.broker, QueueName(t.priority))|
    ensures st'.copies.Keys == {0} && st'.copies[0].pc == Schedule && AtAttempt(st'.copies[0].task, t, n + 1)
  {
    hide Reachable, QueueName, AttemptKey, Total;
    st' := Step(st, Worker(0, Send(Transient("unavailable"))));
    LaterKeys(t, n);
    hide Next;
    OneMoreSend(st.ledger.sends, t.id, n);
  }

  lemma OneMoreSend(sends: multiset<string>, id: string, n: nat)
    requires AttemptKey(id, n) !in sends
    ensures Total(sends + multiset{AttemptKey(id, n)}, id, 0, n + 1) == Total(sends, id, 0, n) + 1
  {
    SameTotal(sends, id, n, n);
  }

  lemma {:induction false} SameTotal(sends: multiset<string>, id: string, a: nat, n: nat)
    requires a <= n
    ensures Total(sends + multiset{AttemptKey(id, n)}, id, 0, a) == Total(sends, id, 0, a)
  {
    hide AttemptKey;
    if a > 0 {
      SameTotal(sends, id, a - 1, n);
      if AttemptKey(id, a - 1) == AttemptKey(id, n) {
        AttemptKeyInjective(id, a - 1, id, n);
      }
    }
  }

  lemma ParkAttempt(st: State, t: Task, n: nat) returns (st': State, r: Task)
    requires Reachable(st) && Books(st, t, n, n) && st.flushers == map[] && st.retry == {}
    requires Cursor(st.broker, QueueName(t.priority)) == |Log(st.broker, QueueName(t.priority))|
    requires st.copies.Keys == {0} && st.copies[0].pc == Schedule && AtAttempt(st.copies[0].task, t, n)
    ensures Waits(st', t, n, r)
  {
    hide Reachable, QueueName, AttemptKey, Total;
    r := st.copies[0].task;
    st' := Step(st, Worker(0, Postpone(Done)));
    hide Onward, Idle;
    st' := Step(st', Worker(0, Call.Acknowledge(Done)));
    assert st'.copies == map[];
  }

  lemma Return(st: State, t: Task, n: nat, r: Task) returns (st': State)
    requires Waits(st, t, n, r)
    ensures Queued(st', t, n)
  {
    hide Reachable, QueueName, AttemptKey, Total;
    st' := Step(st, Event.Flush(0, Read([r])));
    st' := Step(st', Event.Flush(0, Add(Done)));
    st' := Step(st', Event.Flush(0, Remove(Done)));
    assert st'.flushers == map[];
  }

  lemma {:induction false} Reach(t: Task, n: nat) returns (st: State)
    requires t.Validate().None? && t.attempt == 0 && !t.IsPoison() && n <= t.maxAttempts
    ensures Queued(st, t, n)
  {
    if n == 0 {
      st := Start(t);
    } else {
      hide Queued, Sending, Waits, Books, Reachable;
      st := Reach(t, n - 1);
      st := FetchAttempt(st, t, n - 1);
      st := FailAttempt(st, t, n - 1);
      var r;
      st, r := ParkAttempt(st, t, n);
      st := Return(st, t, n, r);
    }
  }

  lemma LastSend(st: State, t: Task, n: nat) returns (st': State)
    requires Sending(st, t, n)
    ensures Reachable(st') && st'.ledger.enqueued == {t} && NeverReopened(st'.ledger, t.id)
    ensures Total(st'.ledger.sends, t.id, 0, n + 1) == n + 1
  {
    hide Reachable, QueueName, AttemptKey, Total, AfterFailure;
    st' := Step(st, Worker(0, Send(Transient("unavailable"))));
    OneMoreSend(st.ledger.sends, t.id, n);
  }

  /** Every valid task enqueued at attempt 0 and not poison can be sent
      MaxAttempts + 1 times: enqueued once, with no lock taken over, cleared or
      expired, it fails transiently at every attempt from 0 to MaxAttempts. */
  lemma BudgetIsReached(t: Task)
    requires t.Validate().None? && t.attempt == 0 && !t.IsPoison()
    ensures exists st ::
              && Reachable(st) && st.ledger.enqueued == {t} && NeverReopened(st.ledger, t.id)
              && Total(st.ledger.sends, t.id, 0, t.maxAttempts + 1) == t.maxAttempts + 1
  {
    hide Queued, Sending, Reachable, NeverReopened, Total;
    var st := Reach(t, t.maxAttempts);
    st := FetchAttempt(st, t, t.maxAttempts);
    st := LastSend(st, t, t.maxAttempts);
  }
}
