// A task comes to rest: what rest is, that it is where the potential is spent, and
// that from every reachable state some run leads there.

module Rest {
  import opened Wrappers
  import opened Domain
  import opened Keys
  import opened Network
  import opened Idempotency
  import opened Streams
  import opened Protocol
  import opened Invariants
  import opened Accounting
  import opened Sums
  import opened Termination

  // No stream will deliver the task for the first time.
  ghost predicate NoneWaiting(b: Broker, id: string) {
    forall s: Slot | s.0 in PRIORITY_STREAMS && Exists(b, s) && s.1 >= Cursor(b, s.0) :: Payload(b, s).id != id
  }

  /** No worker has the task, no stream will deliver it for the first time, no
      retry of it is waiting. */
  ghost predicate AtRest(st: State, id: string) {
    && (forall c | c in st.copies :: st.copies[c].task.id != id)
    && (forall t | t in st.retry :: t.id != id)
    && NoneWaiting(st.broker, id)
  }

  // No scheduler has the task in its batch.
  ghost predicate Unflushed(fs: map<nat, Flusher>, id: string) {
    forall f | f in fs :: !Holds(fs[f].batch, id)
  }

  lemma {:induction false} LightStream(ts: seq<Task>, id: string)
    ensures StreamWeight(ts, id) == 0 <==> forall i | 0 <= i < |ts| :: ts[i].id != id
  {
    if ts != [] {
      LightStream(ts[..|ts| - 1], id);
    }
  }

  lemma {:induction false} ZeroSum<K>(m: map<K, nat>)
    ensures Sum(m) == 0 <==> forall k | k in m :: m[k] == 0
    decreases |m.Keys|
  {
    if m != map[] {
      var p := Pick(m);
      assert (m - {p}).Keys == m.Keys - {p};
      SumTake(m, p);
      ZeroSum(m - {p});
      assert forall k | k in m && k != p :: k in m - {p} && (m - {p})[k] == m[k];
    }
  }

  ghost predicate NoneNew(b: Broker, p: int, id: string) {
    forall i | 0 <= i < |New(b, p)| :: New(b, p)[i].id != id
  }

  lemma EmptyQueue(b: Broker, id: string)
    requires WellFormed(b) && forall p | 0 <= p < 4 :: NoneNew(b, p, id)
    ensures NoneWaiting(b, id)
  {
    forall s: Slot | s.0 in PRIORITY_STREAMS && Exists(b, s) && s.1 >= Cursor(b, s.0)
      ensures Payload(b, s).id != id
    {
      var p := StreamOf(s.0);
      hide QueueName, PRIORITY_STREAMS;
      assert NoneNew(b, p, id);
      assert New(b, p)[s.1 - Cursor(b, s.0)] == Payload(b, s);
    }
  }

  lemma WaitingMessage(b: Broker, id: string, p: int)
    requires WellFormed(b) && 0 <= p < 4 && NoneWaiting(b, id)
    ensures NoneNew(b, p, id)
  {
    QueueNames(p, p);
    hide QueueName, PRIORITY_STREAMS;
    forall i | 0 <= i < |New(b, p)|
      ensures New(b, p)[i].id != id
    {
      assert New(b, p)[i] == Payload(b, (QueueName(p), Cursor(b, QueueName(p)) + i));
    }
  }

  lemma LightQueue(b: Broker, id: string)
    requires WellFormed(b)
    ensures QueueWeight(b, id) == 0 <==> NoneWaiting(b, id)
  {
    forall p | 0 <= p < 4
      ensures StreamWeight(New(b, p), id) == 0 <==> NoneNew(b, p, id)
    {
      LightStream(New(b, p), id);
    }
    hide NoneWaiting, NoneNew, New, StreamWeight, WellFormed;
    if QueueWeight(b, id) == 0 {
      EmptyQueue(b, id);
    }
    if NoneWaiting(b, id) {
      WaitingMessage(b, id, 0);
      WaitingMessage(b, id, 1);
      WaitingMessage(b, id, 2);
      WaitingMessage(b, id, 3);
    }
  }

  lemma NoCopies(copies: map<nat, Copy>, id: string)
    ensures Sum(CopyWeights(copies, id)) == 0 <==> forall c | c in copies :: copies[c].task.id != id
  {
    var w := CopyWeights(copies, id);
    assert forall c | c in w :: w[c] > 0;
    hide CopyWeight;
    ZeroSum(w);
    if w == map[] {
      forall c | c in copies
        ensures copies[c].task.id != id
      {
        assert c !in w;
      }
    }
  }

  lemma NoFlushers(fs: map<nat, Flusher>, id: string)
    ensures Sum(FlusherWeights(fs, id)) == 0 <==> Unflushed(fs, id)
  {
    var w := FlusherWeights(fs, id);
    forall f | f in fs
      ensures w[f] > 0 <==> Holds(fs[f].batch, id)
    {
      BatchPositive(fs[f].batch, |fs[f].moved|, id);
    }
    hide BatchWeight, Holds;
    ZeroSum(w);
  }

  lemma NoMembers(retry: set<Task>, fs: map<nat, Flusher>, id: string)
    requires Unflushed(fs, id)
    ensures Sum(MemberWeights(retry, fs, id)) == 0 <==> forall t | t in retry :: t.id != id
  {
    var w := MemberWeights(retry, fs, id);
    forall t | t in w
      ensures w[t] > 0
    {
      Unread(fs, t);
    }
    ZeroSum(w);
    if t :| t in retry && t.id == id {
      assert t in w;
    }
  }

  lemma Unread(fs: map<nat, Flusher>, t: Task)
    requires Unflushed(fs, t.id)
    ensures !Reading(fs, t)
  {
    forall f | f in fs
      ensures t !in fs[f].batch
    {
      assert !Holds(fs[f].batch, t.id);
    }
  }

  /** The potential is spent exactly when nothing is under way. */
  lemma SpentIsAtRest(st: State, id: string)
    requires WellFormed(st.broker)
    ensures Potential(st, id) == 0 <==> AtRest(st, id) && Unflushed(st.flushers, id)
  {
    hide QueueWeight, Sum, CopyWeights, MemberWeights, FlusherWeights, NoneWaiting, WellFormed, Unflushed;
    LightQueue(st.broker, id);
    NoCopies(st.copies, id);
    NoFlushers(st.flushers, id);
    if Unflushed(st.flushers, id) {
      NoMembers(st.retry, st.flushers, id);
    }
  }

  // ---- What is ahead in the queues ----

  // XADDs and deliveries still to come, an XADD counting for its delivery too.
  function ToSend(fl: Flusher): nat {
    2 * Max(0, |fl.batch| - |fl.moved|)
  }

  function Unsent(fs: map<nat, Flusher>): map<nat, nat> {
    map f | f in fs :: ToSend(fs[f])
  }

  function QueueLength(b: Broker): nat {
    |New(b, 0)| + |New(b, 1)| + |New(b, 2)| + |New(b, 3)|
  }

  ghost function Ahead(st: State): nat {
    QueueLength(st.broker) + Sum(Unsent(st.flushers))
  }

  lemma PollAhead(b: Broker, key: string)
    requires WellFormed(b) && key in PRIORITY_STREAMS && HasNew(b, key)
    ensures QueueLength(Deliver(b, key)) < QueueLength(b)
  {
    var q := StreamOf(key);
    forall p | 0 <= p < 4
      ensures |New(Deliver(b, key), p)| == |New(b, p)| - if p == q then 1 else 0
    {
      NewDeliver(b, q, p);
    }
    hide New, Deliver, WellFormed, QueueName, PRIORITY_STREAMS;
  }

  lemma AppendAhead(b: Broker, t: Task)
    requires WellFormed(b)
    ensures QueueLength(XAdd(b, QueueName(t.priority), t)) <= QueueLength(b) + 1
  {
    forall p | 0 <= p < 4
      ensures |New(XAdd(b, QueueName(t.priority), t), p)| == |New(b, p)| + if p == t.priority then 1 else 0
    {
      NewAppend(b, t.priority, t, p);
    }
    hide New, XAdd, WellFormed, QueueName;
  }

  lemma AddAhead(fs: map<nat, Flusher>, f: nat)
    requires f in fs && |fs[f].moved| < |fs[f].batch|
    ensures Sum(Unsent(fs[f := fs[f].(moved := fs[f].moved + [true])])) + 2 <= Sum(Unsent(fs))
  {
    var fl := fs[f].(moved := fs[f].moved + [true]);
    assert ToSend(fl) + 2 == ToSend(fs[f]);
    hide ToSend, Sum;
    SumMove(Unsent(fs), Unsent(fs[f := fl]), f);
  }

  // ---- The way to rest ----

  lemma {:induction false} FreshNat(s: set<nat>) returns (n: nat)
    ensures forall x | x in s :: x < n
    decreases s
  {
    if s == {} {
      n := 0;
    } else {
      var x :| x in s;
      var m := FreshNat(s - {x});
      n := Max(m, x + 1);
      assert forall y | y in s :: y == x || y in s - {x};
    }
  }

  // The next call of a copy, going well.
  function NextCall(pc: Pc): Call {
    match pc
    case Gate => TryAcquire("", 0, Done)
    case Check => AskCompleted(Done)
    case Takeover => TryReclaim("", 0, 0, Done)
    case Ready => Send(Delivered)
    case MarkDone => Complete(Done)
    case DeadLetter(_) => Bury(Done)
    case Schedule => Postpone(Done)
    case Unlock => Release(Done)
    case _ => Call.Acknowledge(Done)
  }

  /** A step that brings the task on: nothing is redelivered or enqueued, a worker
      that has the task makes its next call, and either the task is moved itself or
      something ahead of it in its stream or its batch is. */
  ghost predicate Advances(st: State, e: Event, id: string) {
    && Can(st, e) && Repeated(st, e, id) == []
    && (match e
        case Poll(_, _) => true
        case Worker(c, call) => st.copies[c].task.id == id && call == NextCall(st.copies[c].pc)
        case Flush(_, Read(_)) => true
        case Flush(_, Add(reply)) => reply == Done
        case Flush(_, Remove(reply)) => reply == Done
        case _ => false)
    && (Touches(st, e, id) || Ahead(Next(st, e)) < Ahead(st))
  }

  lemma CopyServed(st: State, c: nat) returns (e: Event)
    requires c in st.copies
    ensures Advances(st, e, st.copies[c].task.id)
  {
    e := Worker(c, NextCall(st.copies[c].pc));
  }

  lemma FlusherServed(st: State, f: nat, id: string) returns (e: Event)
    requires WellFormed(st.broker) && f in st.flushers && |st.flushers[f].moved| <= |st.flushers[f].batch| && Holds(st.flushers[f].batch, id)
    ensures Advances(st, e, id)
  {
    if |st.flushers[f].moved| < |st.flushers[f].batch| {
      e := Event.Flush(f, Add(Done));
      AddAhead(st.flushers, f);
      AppendAhead(st.broker, st.flushers[f].batch[|st.flushers[f].moved|]);
      hide QueueLength, Unsent, Sum, WellFormed, Holds;
    } else {
      e := Event.Flush(f, Remove(Done));
    }
  }

  lemma MemberServed(st: State, t: Task) returns (e: Event)
    requires t in st.retry && !Reading(st.flushers, t)
    ensures Advances(st, e, t.id)
  {
    var f := FreshNat(st.flushers.Keys);
    e := Event.Flush(f, Read([t]));
    assert [t][0].id == t.id && Holds([t], t.id);
    assert [t][..0] == [] && OwnRead(st.flushers, [], t.id) == [];
  }

  lemma MessageServed(st: State, id: string) returns (e: Event)
    requires WellFormed(st.broker) && !NoneWaiting(st.broker, id)
    ensures Advances(st, e, id)
  {
    var s: Slot :| s.0 in PRIORITY_STREAMS && Exists(st.broker, s) && s.1 >= Cursor(st.broker, s.0) && Payload(st.broker, s).id == id;
    var c := FreshNat(st.copies.Keys);
    PollAhead(st.broker, s.0);
    e := Poll(s.0, c);
    hide PRIORITY_STREAMS, QueueLength, Unsent, Sum, WellFormed;
  }

  /** A task not at rest can always be brought on. */
  lemma NeverStuck(st: State, id: string) returns (e: Event)
    requires Sound(st) && Potential(st, id) > 0
    ensures Advances(st, e, id)
  {
    hide Sound, NoneWaiting, WellFormed, Can, Advances, Potential, Reading, Holds;
    SoundQueues(st);
    SpentIsAtRest(st, id);
    if c :| c in st.copies && st.copies[c].task.id == id {
      e := CopyServed(st, c);
    } else if f :| f in st.flushers && Holds(st.flushers[f].batch, id) {
      e := FlusherServed(st, f, id);
    } else if t :| t in st.retry && t.id == id {
      Unread(st.flushers, t);
      e := MemberServed(st, t);
    } else {
      e := MessageServed(st, id);
    }
  }

  ghost predicate AdvancingRun(st: State, es: seq<Event>, id: string)
    requires Run(st, es)
    decreases |es|
  {
    es == [] || (Advances(st, es[0], id) && AdvancingRun(Next(st, es[0]), es[1..], id))
  }

  lemma AdvanceCosts(st: State, e: Event, id: string)
    requires Sound(st) && Advances(st, e, id)
    ensures Potential(Next(st, e), id) < Potential(st, id) || (Potential(Next(st, e), id) <= Potential(st, id) && Ahead(Next(st, e)) < Ahead(st))
  {
    SoundQueues(st);
    hide Sound, WellFormed, Potential, Ahead, Next, Can, Touches, Repeated;
    StepPaid(st, e, id);
  }

  /** From every reachable state a run leads the task to rest that hands none of
      its records out again. */
  lemma {:induction false} LeadsToRest(st: State, id: string) returns (es: seq<Event>)
    requires Sound(st)
    ensures Run(st, es) && AdvancingRun(st, es, id) && Redelivered(st, es, id) == []
    ensures AtRest(After(st, es), id) && Unflushed(After(st, es).flushers, id)
    decreases Potential(st, id), Ahead(st)
  {
    hide Sound, Potential, Ahead, Advances, AtRest, Unflushed, WellFormed;
    if Potential(st, id) == 0 {
      SoundQueues(st);
      SpentIsAtRest(st, id);
      es := [];
    } else {
      var e := NeverStuck(st, id);
      AdvanceCosts(st, e, id);
      assert Can(st, e) && Repeated(st, e, id) == [] by { Unfold(st, e, id); }
      SoundKept(st, e);
      var rest := LeadsToRest(Next(st, e), id);
      es := [e] + rest;
      assert es[1..] == rest;
      hide Can, Next, Repeated;
    }
  }

  lemma Unfold(st: State, e: Event, id: string)
    requires Advances(st, e, id)
    ensures Can(st, e) && Repeated(st, e, id) == []
  {
  }

  /** The same for reachable states. */
  lemma CanComeToRest(st: State, id: string) returns (es: seq<Event>)
    requires Reachable(st)
    ensures Run(st, es) && Redelivered(st, es, id) == [] && AtRest(After(st, es), id) && Unflushed(After(st, es).flushers, id)
  {
    ReachableSound(st);
    hide Sound, Reachable, AtRest, Unflushed, AdvancingRun;
    es := LeadsToRest(st, id);
  }
}
