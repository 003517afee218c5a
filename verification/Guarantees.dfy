// What holds of every reachable state of the protocol: how often a task is
// sent, which records can exist, and which message an acknowledgement removes.

module Guarantees {
  import opened Wrappers
  import opened Domain
  import opened Keys
  import opened Network
  import opened Idempotency
  import opened Streams
  import opened Protocol
  import opened Invariants
  import opened Accounting

  /** Per attempt key: every Send was licensed by a lock acquisition of its own,
      a lock is granted once plus once for every time it was cleared or ran out,
      each failure leads to one dead-letter entry or one retry, and a completed lock
      means a Send succeeded. */
  lemma SendAccounting(st: State, k: string)
    requires Reachable(st)
    ensures st.ledger.sends[k] <= st.ledger.grants[k] + st.ledger.reclaims[k]
    ensures st.ledger.grants[k] <= 1 + st.ledger.clears[k] + st.ledger.expiries[k]
    ensures st.ledger.successes[k] + st.ledger.failures[k] <= st.ledger.sends[k]
    ensures BuriedKeys(st.dlq)[k] + st.ledger.postpones[k] <= st.ledger.failures[k]
    ensures k in st.locks && st.locks[k] == Lock.Completed ==> st.ledger.successes[k] > 0
  {
    ReachableSound(st);
    assert Balanced(st, k) && HandedOn(st, k);
  }

  // How often m counts the attempts lo..hi of one task.
  function Total(m: multiset<string>, id: string, lo: int, hi: int): nat
    decreases hi - lo
  {
    if hi <= lo then 0 else Total(m, id, lo, hi - 1) + m[AttemptKey(id, hi - 1)]
  }

  // How many of the attempts lo..hi were enqueued as such by a producer.
  ghost function Starts(l: Ledger, id: string, lo: int, hi: int): nat
    decreases hi - lo
  {
    if hi <= lo then 0 else Starts(l, id, lo, hi - 1) + if Started(l, id, hi - 1) then 1 else 0
  }

  // Every way a lock can be granted again: taken over, cleared or expired.
  function Reopened(l: Ledger, id: string, lo: int, hi: int): nat {
    Total(l.reclaims, id, lo, hi) + Total(l.clears, id, lo, hi) + Total(l.expiries, id, lo, hi)
  }

  // Every way an attempt can end for good: sent, or pushed to a dead-letter list.
  function Outcomes(st: State, id: string, lo: int, hi: int): nat {
    Total(st.ledger.successes, id, lo, hi) + Total(BuriedKeys(st.dlq), id, lo, hi)
  }

  // The books of one attempt.
  lemma Attempt(st: State, id: string, a: int)
    requires Sound(st)
    ensures var l, k := st.ledger, AttemptKey(id, a);
            && l.grants[k] <= 1 + l.clears[k] + l.expiries[k]
            && l.sends[k] <= l.grants[k] + l.reclaims[k]
            && l.successes[k] + BuriedKeys(st.dlq)[k] + l.postpones[k] <= l.sends[k]
            && (l.sends[k] > 0 ==> (id, a) in l.created)
            && ((id, a) in l.created ==> Caused(l, id, a))
  {
    var l, k := st.ledger, AttemptKey(id, a);
    assert Balanced(st, k) && HandedOn(st, k);
    assert k in l.grants + l.reclaims ==> (id, a) in l.created;
  }

  // No attempt is ever created outside the enqueued attempts and their budgets.
  ghost predicate Bounds(l: Ledger, id: string, lo: int, hi: int) {
    forall o | o in l.enqueued && o.id == id :: lo <= o.attempt && Max(o.attempt, o.maxAttempts) < hi
  }

  // The failure that ends one attempt pays for opening the next.
  lemma {:induction false} OutcomeWindow(st: State, id: string, lo: int, hi: int)
    requires Sound(st) && lo <= hi
    requires forall o | o in st.ledger.enqueued && o.id == id :: lo <= o.attempt
    ensures Outcomes(st, id, lo, hi) + (if AttemptKey(id, hi - 1) in st.ledger.postpones then 1 else 0)
            <= Starts(st.ledger, id, lo, hi) + Reopened(st.ledger, id, lo, hi)
    decreases hi - lo
  {
    Attempt(st, id, hi - 1);
    hide Sound, BuriedKeys;
    if lo < hi {
      OutcomeWindow(st, id, lo, hi - 1);
    }
  }

  /** In every run - any interleaving, redelivery, lost reply or crash - the
      successful sends of a task and its dead-letter entries together number at
      most one for every distinct attempt it was enqueued with, plus one for every
      time one of its locks was taken over, cleared or ran out. */
  lemma OutcomeBound(st: State, id: string, lo: int, hi: int)
    requires Reachable(st) && lo <= hi && Bounds(st.ledger, id, lo, hi)
    ensures Outcomes(st, id, lo, hi) <= Starts(st.ledger, id, lo, hi) + Reopened(st.ledger, id, lo, hi)
    ensures forall a | a < lo || hi <= a ::
              st.ledger.sends[AttemptKey(id, a)] == 0 && AttemptKey(id, a) !in BuriedKeys(st.dlq)
  {
    ReachableSound(st);
    OutcomeWindow(st, id, lo, hi);
    forall a | a < lo || hi <= a
      ensures st.ledger.sends[AttemptKey(id, a)] == 0 && AttemptKey(id, a) !in BuriedKeys(st.dlq)
    {
      Attempt(st, id, a);
    }
  }

  lemma {:induction false} SendWindow(st: State, id: string, lo: int, hi: int)
    requires Sound(st) && lo <= hi
    ensures Total(st.ledger.sends, id, lo, hi) <= hi - lo + Reopened(st.ledger, id, lo, hi)
    decreases hi - lo
  {
    if lo < hi {
      Attempt(st, id, hi - 1);
      hide Sound, BuriedKeys;
      SendWindow(st, id, lo, hi - 1);
    }
  }

  /** The retry budget: all the Sends a task enqueued at attempt 0 ever gets are
      those of attempts 0 to MaxAttempts, one each, plus one for every time a lock
      was opened again.  That is one more than MaxAttempts. */
  lemma SendBudget(st: State, id: string, maxAttempts: nat)
    requires Reachable(st) && Bounds(st.ledger, id, 0, maxAttempts + 1)
    ensures Total(st.ledger.sends, id, 0, maxAttempts + 1) <= maxAttempts + 1 + Reopened(st.ledger, id, 0, maxAttempts + 1)
    ensures forall a | a < 0 || maxAttempts < a :: st.ledger.sends[AttemptKey(id, a)] == 0
  {
    ReachableSound(st);
    SendWindow(st, id, 0, maxAttempts + 1);
    OutcomeBound(st, id, 0, maxAttempts + 1);
  }

  // No lock of the task was ever granted twice.
  ghost predicate NeverReopened(l: Ledger, id: string) {
    forall a :: AttemptKey(id, a) !in l.reclaims && AttemptKey(id, a) !in l.clears && AttemptKey(id, a) !in l.expiries
  }

  // Producers enqueue the task at attempt 0, as often as they like.
  ghost predicate EnqueuedFresh(l: Ledger, id: string) {
    forall o | o in l.enqueued && o.id == id :: o.attempt == 0
  }

  ghost predicate Ended(st: State, id: string, a: int) {
    AttemptKey(id, a) in st.ledger.successes || AttemptKey(id, a) in BuriedKeys(st.dlq)
  }

  // One attempt then has one Send, hence one sequel, and only if its record exists.
  lemma OneSequel(st: State, id: string, a: int)
    requires Sound(st) && NeverReopened(st.ledger, id)
    ensures var l, k := st.ledger, AttemptKey(id, a);
            && l.successes[k] + BuriedKeys(st.dlq)[k] + l.postpones[k] <= l.sends[k] <= 1
            && (l.sends[k] > 0 ==> (id, a) in l.created)
  {
    Attempt(st, id, a);
    assert AttemptKey(id, a) !in st.ledger.reclaims;
  }

  // A retry needs a postponed attempt before it.
  lemma FreshCause(st: State, id: string, a: int)
    requires Sound(st) && EnqueuedFresh(st.ledger, id) && (id, a) in st.ledger.created
    ensures a >= 0 && (a > 0 ==> AttemptKey(id, a - 1) in st.ledger.postpones)
  {
    Attempt(st, id, a);
  }

  lemma {:induction false} NoLaterRecord(st: State, id: string, a: int, b: int)
    requires Sound(st) && NeverReopened(st.ledger, id) && EnqueuedFresh(st.ledger, id)
    requires Ended(st, id, a) && a < b
    ensures (id, b) !in st.ledger.created
    decreases b - a
  {
    hide Sound, BuriedKeys, NeverReopened, EnqueuedFresh, AttemptKey;
    OneSequel(st, id, a);
    OneSequel(st, id, b - 1);
    if b - 1 > a {
      NoLaterRecord(st, id, a, b - 1);
    }
    if (id, b) in st.ledger.created {
      FreshCause(st, id, a);
      FreshCause(st, id, b);
    }
  }

  /** At most one outcome: if no lock of the task is ever taken over, cleared or
      expired, then duplicates, redeliveries, lost acknowledgements, repeated
      flushes and crashes notwithstanding, the task is sent successfully once or
      buried once, never both and never twice, and no retry outlives that. */
  lemma AtMostOneOutcome(st: State, id: string, a: int)
    requires Reachable(st) && NeverReopened(st.ledger, id) && EnqueuedFresh(st.ledger, id) && Ended(st, id, a)
    ensures st.ledger.successes[AttemptKey(id, a)] + BuriedKeys(st.dlq)[AttemptKey(id, a)] == 1
    ensures forall b | b != a :: !Ended(st, id, b)
    ensures forall b | b > a :: (id, b) !in st.ledger.created
  {
    hide Reachable, Sound, BuriedKeys, NeverReopened, EnqueuedFresh, AttemptKey;
    ReachableSound(st);
    OneSequel(st, id, a);
    forall b | b > a
      ensures (id, b) !in st.ledger.created && !Ended(st, id, b)
    {
      NoLaterRecord(st, id, a, b);
      OneSequel(st, id, b);
    }
    forall b | b < a
      ensures !Ended(st, id, b)
    {
      if Ended(st, id, b) {
        NoLaterRecord(st, id, b, a);
      }
    }
  }

  // Below a sent attempt every attempt was sent, failed and was postponed.
  lemma {:induction false} SentLadder(st: State, id: string, a: nat)
    requires Sound(st) && NeverReopened(st.ledger, id) && EnqueuedFresh(st.ledger, id) && AttemptKey(id, a) in st.ledger.sends
    ensures Total(st.ledger.sends, id, 0, a + 1) == a + 1
    ensures forall b | 0 <= b < a :: AttemptKey(id, b) in st.ledger.postpones
  {
    hide Sound, BuriedKeys, NeverReopened, EnqueuedFresh, AttemptKey;
    OneSequel(st, id, a);
    FreshCause(st, id, a);
    if a > 0 {
      OneSequel(st, id, a - 1);
      SentLadder(st, id, a - 1);
    }
  }

  /** The budget is used to the full exactly when the attempt numbered
      MaxAttempts was sent, the one that IsRetryable lets through although
      MaxAttempts attempts were sent before it; and then each of those failed
      transiently and was postponed. */
  lemma FullBudget(st: State, id: string, maxAttempts: nat)
    requires Reachable(st) && NeverReopened(st.ledger, id) && EnqueuedFresh(st.ledger, id) && Bounds(st.ledger, id, 0, maxAttempts + 1)
    ensures Total(st.ledger.sends, id, 0, maxAttempts + 1) == maxAttempts + 1 <==> AttemptKey(id, maxAttempts) in st.ledger.sends
    ensures AttemptKey(id, maxAttempts) in st.ledger.sends ==>
              forall a | 0 <= a < maxAttempts :: AttemptKey(id, a) in st.ledger.postpones && st.ledger.failures[AttemptKey(id, a)] == 1
  {
    ReachableSound(st);
    hide Sound, Reachable, BuriedKeys, NeverReopened, EnqueuedFresh, AttemptKey, Bounds;
    if AttemptKey(id, maxAttempts) in st.ledger.sends {
      SentLadder(st, id, maxAttempts);
      forall a | 0 <= a < maxAttempts
        ensures st.ledger.failures[AttemptKey(id, a)] == 1
      {
        OneSequel(st, id, a);
        SendAccounting(st, AttemptKey(id, a));
      }
    } else {
      FewSends(st, id, maxAttempts);
    }
  }

  lemma {:induction false} FewSends(st: State, id: string, n: nat)
    requires Sound(st) && NeverReopened(st.ledger, id)
    ensures Total(st.ledger.sends, id, 0, n) <= n
  {
    hide Sound, BuriedKeys, NeverReopened, AttemptKey;
    if n > 0 {
      OneSequel(st, id, n - 1);
      FewSends(st, id, n - 1);
    }
  }

  // ---- Which records can exist ----

  lemma CopyRange(st: State, c: nat)
    requires RecordsOk(st) && CopiesOk(st) && c in st.copies
    ensures exists o | o in st.ledger.enqueued :: Descends(st.copies[c].task, o)
  {
    hide RecordsOk, CopiesOk, Positioned, LocksOk, DlqOk;
    CopyAttempt(st, c);
    CopyFacts(st, c);
    var cp := st.copies[c];
    var o :| o in st.ledger.enqueued && Descends(Payload(st.broker, cp.from), o);
    assert Descends(cp.task, o);
  }

  /** Every stored or buried record is an enqueued task after some failed
      attempts: same identity, recipient, template and budget, and an attempt
      between the enqueued one and the budget (Validate does not look at the
      attempt, so a task enqueued beyond its budget keeps that attempt), and so is
      the copy in every worker's hands, wherever the worker stands.  A message sits
      in the stream of its own priority, one the consumers read; a retry member
      has failed at least once; and a task is buried as exhausted only at the end
      of its budget, or if it was enqueued as poison. */
  lemma RecordRange(st: State)
    requires Reachable(st)
    ensures forall s: Slot | Exists(st.broker, s) ::
              s.0 == QueueName(Payload(st.broker, s).priority) && exists o | o in st.ledger.enqueued :: Descends(Payload(st.broker, s), o)
    ensures forall t | t in st.retry :: exists o | o in st.ledger.enqueued :: Descends(t, o) && o.attempt < t.attempt <= t.maxAttempts
    ensures forall d | d in st.dlq ::
              && (exists o | o in st.ledger.enqueued :: Descends(d.task, o))
              && (d.reason == MaxAttemptsExceeded ==> d.task.attempt >= d.task.maxAttempts || d.task.IsPoison())
    ensures forall c | c in st.copies :: exists o | o in st.ledger.enqueued :: Descends(st.copies[c].task, o)
  {
    ReachableSound(st);
    forall c | c in st.copies
      ensures exists o | o in st.ledger.enqueued :: Descends(st.copies[c].task, o)
    {
      CopyRange(st, c);
    }
    forall t | t in st.retry
      ensures exists o | o in st.ledger.enqueued :: Descends(t, o) && o.attempt < t.attempt <= t.maxAttempts
    {
      assert Retried(st.ledger, t);
    }
    forall d | d in st.dlq
      ensures BuriedOk(st.ledger, d)
    {
    }
  }

  lemma RoutedAcknowledge(st: State, c: nat)
    requires WellFormed(st.broker) && c in st.copies && Routed(st.broker, st.copies[c])
    ensures var own := st.copies[c].from;
            var b' := DoAcknowledge(st, c, Done).broker;
            && b' == XAck(st.broker, Some(own.0), Some(own.1))
            && b'.pel == st.broker.pel - {own} && !Live(b', own)
            && forall s: Slot | s != own :: Live(b', s) <==> Live(st.broker, s)
  {
    XAckRemovesOne(st.broker, st.copies[c].from);
    hide WellFormed, Live, Onward, Idle;
  }

  /** A worker's acknowledgement removes the pending entry its copy was delivered
      from, and no other, although a retried task carries the routing metadata of
      its earlier deliveries through the retry set. */
  lemma AcknowledgeHitsOwnDelivery(st: State, c: nat)
    requires Reachable(st) && CanWork(st, c, Call.Acknowledge(Done))
    ensures var own := st.copies[c].from;
            && Exists(st.broker, own) && Payload(st.broker, own).id == st.copies[c].task.id
            && DoAcknowledge(st, c, Done).broker.pel == st.broker.pel - {own}
            && !Live(DoAcknowledge(st, c, Done).broker, own)
            && forall s: Slot | s != own :: Live(DoAcknowledge(st, c, Done).broker, s) <==> Live(st.broker, s)
  {
    ReachableSound(st);
    assert WellFormed(st.broker);
    CopyFacts(st, c);
    hide Reachable, Sound, WellFormed, Live, DoAcknowledge, Positioned, LocksOk, DlqOk;
    RoutedAcknowledge(st, c);
  }
}
