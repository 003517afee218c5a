// Work runs out.  Every step the system takes on a task is paid for out of a
// potential that only enqueuing and redelivering it can raise: at most ten steps
// for each attempt a record has left when it is enqueued or handed out again -
// whatever commands fail, whichever processes die, in every interleaving.

module Termination {
  import opened Wrappers
  import opened Domain
  import opened Keys
  import opened Network
  import opened Idempotency
  import opened Streams
  import opened Protocol
  import opened Invariants
  import opened Accounting
  import opened NoLoss
  import opened Sums

  function Left(t: Task): nat {
    Max(0, t.maxAttempts - t.attempt)
  }

  // ---- What a record or a copy can still cost ----

  function MessageWeight(t: Task): nat {
    10 * Left(t) + 10
  }

  function CopyWeight(cp: Copy): nat {
    match cp.pc
    case Gate => 10 * Left(cp.task) + 9
    case Check => 10 * Left(cp.task) + 8
    case Takeover => 10 * Left(cp.task) + 7
    case Ready => 10 * Left(cp.task) + 6
    case Schedule => 10 * Left(cp.task) + 15
    case AckSent => 2
    case DeadLetter(_) => 2
    case _ => 1
  }

  // Some scheduler has t in its batch.
  predicate Reading(fs: map<nat, Flusher>, t: Task) {
    exists f | f in fs :: t in fs[f].batch
  }

  // A member in a batch is paid for there.
  function MemberWeight(fs: map<nat, Flusher>, t: Task): nat {
    if Reading(fs, t) then 0 else 10 * Left(t) + 13
  }

  // A batch of which `moved` XADDs have been sent.
  function BatchWeight(batch: seq<Task>, moved: nat, id: string): nat {
    if batch == [] then 0
    else
      var n := |batch| - 1;
      BatchWeight(batch[..n], moved, id) + if batch[n].id != id then 0 else if n < moved then 1 else 10 * Left(batch[n]) + 12
  }

  // ---- The potential of a task ----

  function StreamWeight(ts: seq<Task>, id: string): nat {
    if ts == [] then 0
    else
      var n := |ts| - 1;
      StreamWeight(ts[..n], id) + if ts[n].id == id then MessageWeight(ts[n]) else 0
  }

  // The messages of priority p not delivered yet.
  function New(b: Broker, p: int): seq<Task> {
    var key := QueueName(p);
    if Cursor(b, key) <= |Log(b, key)| then Log(b, key)[Cursor(b, key)..] else []
  }

  function QueueWeight(b: Broker, id: string): nat {
    StreamWeight(New(b, 0), id) + StreamWeight(New(b, 1), id) + StreamWeight(New(b, 2), id) + StreamWeight(New(b, 3), id)
  }

  function CopyWeights(copies: map<nat, Copy>, id: string): map<nat, nat> {
    map c | c in copies && copies[c].task.id == id :: CopyWeight(copies[c])
  }

  function MemberWeights(retry: set<Task>, fs: map<nat, Flusher>, id: string): map<Task, nat> {
    map t | t in retry && t.id == id :: MemberWeight(fs, t)
  }

  function FlusherWeights(fs: map<nat, Flusher>, id: string): map<nat, nat> {
    map f | f in fs :: BatchWeight(fs[f].batch, |fs[f].moved|, id)
  }

  ghost function Potential(st: State, id: string): nat {
    QueueWeight(st.broker, id) + Sum(CopyWeights(st.copies, id))
    + Sum(MemberWeights(st.retry, st.flushers, id)) + Sum(FlusherWeights(st.flushers, id))
  }

  // ---- Steps on a task ----

  predicate Holds(ts: seq<Task>, id: string) {
    exists i | 0 <= i < |ts| :: ts[i].id == id
  }

  /** e delivers, works on, or moves task `id`. */
  predicate Touches(st: State, e: Event, id: string)
    requires Can(st, e)
  {
    match e
    case Poll(key, _) => Payload(st.broker, (key, Cursor(st.broker, key))).id == id
    case PollLost(key) => Payload(st.broker, (key, Cursor(st.broker, key))).id == id
    case Worker(c, _) => st.copies[c].task.id == id
    case Flush(f, Read(batch)) => Holds(batch, id)
    case Flush(f, Add(_)) => st.flushers[f].batch[|st.flushers[f].moved|].id == id
    case Flush(f, Remove(_)) => Holds(st.flushers[f].batch, id)
    case _ => false
  }

  function Own(ts: seq<Task>, id: string): seq<Task> {
    if ts == [] then []
    else
      var n := |ts| - 1;
      Own(ts[..n], id) + if ts[n].id == id then [ts[n]] else []
  }

  function OwnRead(fs: map<nat, Flusher>, ts: seq<Task>, id: string): seq<Task> {
    if ts == [] then []
    else
      var n := |ts| - 1;
      OwnRead(fs, ts[..n], id) + if ts[n].id == id && Reading(fs, ts[n]) then [ts[n]] else []
  }

  /** The records of task `id` that e hands out once more: the pending message of
      an XAUTOCLAIM, members under way that a second scheduler reads, and those of
      a flush given up before its ZREM. */
  function Repeated(st: State, e: Event, id: string): seq<Task>
    requires Can(st, e)
  {
    match e
    case Claim(s, _) => Own([Payload(st.broker, s)], id)
    case Flush(f, Read(batch)) => OwnRead(st.flushers, batch, id)
    case Flush(f, Remove(reply)) => if reply.Ran() then [] else Own(st.flushers[f].batch, id)
    case Flush(f, Stop) => Own(st.flushers[f].batch, id)
    case _ => []
  }

  // What handing records out again adds.
  function Again(ts: seq<Task>): nat {
    if ts == [] then 0
    else
      var n := |ts| - 1;
      Again(ts[..n]) + 10 * Left(ts[n]) + 13
  }

  lemma AgainMore(ts: seq<Task>, t: Task)
    ensures Again(ts + [t]) == Again(ts) + 10 * Left(t) + 13
  {
    assert (ts + [t])[..|ts|] == ts;
  }

  // What an Enqueue adds.
  function Grant(e: Event, id: string): nat {
    if e.Enqueue? && e.t.id == id then MessageWeight(e.t) else 0
  }

  // ---- Streams ----

  lemma StreamAppend(ts: seq<Task>, t: Task, id: string)
    ensures StreamWeight(ts + [t], id) == StreamWeight(ts, id) + if t.id == id then MessageWeight(t) else 0
  {
    assert (ts + [t])[..|ts|] == ts;
  }

  lemma {:induction false} StreamHead(ts: seq<Task>, id: string)
    requires ts != []
    ensures StreamWeight(ts, id) == StreamWeight(ts[1..], id) + if ts[0].id == id then MessageWeight(ts[0]) else 0
  {
    var n := |ts| - 1;
    if n == 0 {
      assert ts[..0] == [] && ts[1..] == [];
    } else {
      StreamHead(ts[..n], id);
      assert ts[..n][1..] == ts[1..][..n - 1];
    }
  }

  lemma NewAppend(b: Broker, q: int, t: Task, p: int)
    requires WellFormed(b)
    ensures New(XAdd(b, QueueName(q), t), p) == New(b, p) + if p == q then [t] else []
  {
    QueueNames(p, q);
    hide QueueName;
  }

  lemma AppendWeight(b: Broker, t: Task, id: string)
    requires WellFormed(b)
    ensures QueueWeight(XAdd(b, QueueName(t.priority), t), id) <= QueueWeight(b, id) + if t.id == id then MessageWeight(t) else 0
  {
    forall p | 0 <= p < 4
      ensures StreamWeight(New(XAdd(b, QueueName(t.priority), t), p), id) ==
              StreamWeight(New(b, p), id) + if p == t.priority && t.id == id then MessageWeight(t) else 0
    {
      NewAppend(b, t.priority, t, p);
      StreamAppend(New(b, p), t, id);
      assert New(b, p) + [] == New(b, p);
    }
    hide New, XAdd, StreamWeight, QueueName, WellFormed;
  }

  lemma NewDeliver(b: Broker, q: int, p: int)
    requires WellFormed(b) && HasNew(b, QueueName(q))
    ensures New(b, q) != [] && New(b, q)[0] == Payload(b, (QueueName(q), Cursor(b, QueueName(q))))
    ensures New(Deliver(b, QueueName(q)), p) == if p == q then New(b, p)[1..] else New(b, p)
  {
    QueueNames(p, q);
    hide QueueName;
  }

  lemma StreamOf(key: string) returns (q: int)
    requires key in PRIORITY_STREAMS
    ensures 0 <= q < 4 && key == QueueName(q)
  {
    hide QueueName;
    var i :| 0 <= i < 4 && PRIORITY_STREAMS[i] == key;
    q := 3 - i;
  }

  lemma DeliverWeight(b: Broker, key: string, id: string)
    requires WellFormed(b) && key in PRIORITY_STREAMS && HasNew(b, key)
    ensures var t := Payload(b, (key, Cursor(b, key)));
            QueueWeight(Deliver(b, key), id) + (if t.id == id then MessageWeight(t) else 0) == QueueWeight(b, id)
  {
    var q := StreamOf(key);
    var t := Payload(b, (key, Cursor(b, key)));
    forall p | 0 <= p < 4
      ensures StreamWeight(New(Deliver(b, key), p), id) + (if p == q && t.id == id then MessageWeight(t) else 0) == StreamWeight(New(b, p), id)
    {
      NewDeliver(b, q, p);
      if p == q {
        StreamHead(New(b, p), id);
      }
    }
    hide New, Deliver, StreamWeight, QueueName, WellFormed, PRIORITY_STREAMS;
  }

  // ---- Copies ----

  // One copy changes or goes away.
  lemma CopyMove(copies: map<nat, Copy>, copies': map<nat, Copy>, c: nat, id: string)
    requires copies' - {c} == copies - {c}
    ensures var w, w' := CopyWeights(copies, id), CopyWeights(copies', id);
            Sum(w') + Value(w, c) == Sum(w) + Value(w', c)
  {
    var w, w' := CopyWeights(copies, id), CopyWeights(copies', id);
    forall x | x != c
      ensures x in w <==> x in w'
      ensures x in w ==> w[x] == w'[x]
    {
      assert x in copies <==> x in copies - {c};
      assert x in copies' <==> x in copies' - {c};
      assert x in copies - {c} ==> (copies - {c})[x] == copies[x] && (copies' - {c})[x] == copies'[x];
    }
    hide CopyWeights;
    SumMove(w, w', c);
    SumMove(w', w, c);
  }

  // ---- Retry members ----

  // Weights of members only fall when only t's may not have.
  lemma MemberMove(retry: set<Task>, fs: map<nat, Flusher>, retry': set<Task>, fs': map<nat, Flusher>, t: Task, id: string)
    requires forall x | x in retry' && x.id == id && x != t :: x in retry && MemberWeight(fs', x) <= MemberWeight(fs, x)
    ensures var w, w' := MemberWeights(retry, fs, id), MemberWeights(retry', fs', id);
            Sum(w') + Value(w, t) <= Sum(w) + Value(w', t)
  {
    hide MemberWeight;
    SumMove(MemberWeights(retry, fs, id), MemberWeights(retry', fs', id), t);
  }

  // One flusher changes, comes or goes.
  lemma FlusherMove(fs: map<nat, Flusher>, fs': map<nat, Flusher>, f: nat, id: string)
    requires fs' - {f} == fs - {f}
    ensures var w, w' := FlusherWeights(fs, id), FlusherWeights(fs', id);
            Sum(w') + Value(w, f) == Sum(w) + Value(w', f)
  {
    var w, w' := FlusherWeights(fs, id), FlusherWeights(fs', id);
    forall x | x != f
      ensures x in w <==> x in w'
      ensures x in w ==> w[x] == w'[x]
    {
      assert x in fs <==> x in fs - {f};
      assert x in fs' <==> x in fs' - {f};
      assert x in fs - {f} ==> (fs - {f})[x] == fs[x] && (fs' - {f})[x] == fs'[x];
    }
    hide FlusherWeights;
    SumMove(w, w', f);
    SumMove(w', w, f);
  }

  // Who else has t in a batch does not depend on f.
  lemma OtherReaders(fs: map<nat, Flusher>, fs': map<nat, Flusher>, f: nat, t: Task)
    requires fs' - {f} == fs - {f}
    requires (f in fs && t in fs[f].batch) <==> (f in fs' && t in fs'[f].batch)
    ensures Reading(fs', t) <==> Reading(fs, t)
  {
    if Reading(fs, t) {
      var g :| g in fs && t in fs[g].batch;
      assert g != f ==> g in fs - {f} && (fs - {f})[g] == fs[g] && (fs' - {f})[g] == fs'[g];
    }
    if Reading(fs', t) {
      var g :| g in fs' && t in fs'[g].batch;
      assert g != f ==> g in fs' - {f} && (fs - {f})[g] == fs[g] && (fs' - {f})[g] == fs'[g];
    }
  }

  // ---- Step by step ----

  // The step costs at least one if it is on the task, and raises nothing.
  ghost predicate Paid(st: State, e: Event, id: string)
    requires Can(st, e)
  {
    Potential(Next(st, e), id) + (if Touches(st, e, id) then 1 else 0) <= Potential(st, id) + Grant(e, id) + Again(Repeated(st, e, id))
  }

  lemma EnqueuePaid(st: State, t: Task, id: string)
    requires WellFormed(st.broker) && Can(st, Enqueue(t))
    ensures Paid(st, Enqueue(t), id)
  {
    AppendWeight(st.broker, t, id);
    hide QueueWeight, XAdd, Sum, WellFormed;
  }

  // A new goroutine with the message at s.
  lemma HandCost(copies: map<nat, Copy>, b: Broker, s: Slot, c: nat, id: string)
    requires Exists(b, s) && c !in copies
    ensures var t := Payload(b, s);
            Sum(CopyWeights(copies[c := NewCopy(b, s)], id)) == Sum(CopyWeights(copies, id)) + if t.id == id then 10 * Left(t) + 9 else 0
  {
    var copies' := copies[c := NewCopy(b, s)];
    assert copies' - {c} == copies - {c};
    CopyMove(copies, copies', c, id);
    hide Sum;
  }

  lemma PollPaid(st: State, key: string, c: nat, id: string)
    requires WellFormed(st.broker) && Can(st, Poll(key, c))
    ensures Paid(st, Poll(key, c), id)
  {
    DeliverWeight(st.broker, key, id);
    HandCost(st.copies, st.broker, (key, Cursor(st.broker, key)), c, id);
    hide QueueWeight, Deliver, Sum, WellFormed, CopyWeights, MemberWeights, FlusherWeights, NewCopy;
  }

  lemma PollLostPaid(st: State, key: string, id: string)
    requires WellFormed(st.broker) && Can(st, PollLost(key))
    ensures Paid(st, PollLost(key), id)
  {
    DeliverWeight(st.broker, key, id);
    hide QueueWeight, Deliver, Sum, WellFormed;
  }

  lemma ClaimPaid(st: State, s: Slot, c: nat, id: string)
    requires Can(st, Claim(s, c))
    ensures Paid(st, Claim(s, c), id)
  {
    HandCost(st.copies, st.broker, s, c, id);
    OneAgain(Payload(st.broker, s), id);
    hide QueueWeight, Sum, CopyWeights, MemberWeights, FlusherWeights, Again, Own, NewCopy;
  }

  lemma OneAgain(t: Task, id: string)
    ensures Again(Own([t], id)) == if t.id == id then 10 * Left(t) + 13 else 0
  {
    assert [t][..0] == [] && Own([], id) == [];
  }

  // What a call leaves alone; only Postpone stores anything.
  lemma CallFrame(st: State, c: nat, call: Call)
    requires CanWork(st, c, call)
    ensures var st' := Work(st, c, call);
            && st'.copies - {c} == st.copies - {c} && st'.flushers == st.flushers
            && (!call.Postpone? ==> st'.retry == st.retry)
  {
    CallCopies(st, c, call);
    hide Onward, Idle, XAck;
  }

  // The copy's weight after the call, zero when it is gone.
  function Rest(copies: map<nat, Copy>, c: nat): nat {
    if c in copies then CopyWeight(copies[c]) else 0
  }

  lemma SendCost(st: State, c: nat, result: SendResult)
    requires CanWork(st, c, Send(result))
    ensures var st' := DoSend(st, c, result);
            && (c in st'.copies ==> st'.copies[c].task.id == st.copies[c].task.id)
            && Rest(st'.copies, c) < CopyWeight(st.copies[c])
  {
    hide Onward, Idle, SameRecords;
  }

  lemma GateCost(st: State, c: nat, call: Call)
    requires CanWork(st, c, call) && (call.TryAcquire? || call.AskCompleted? || call.TryReclaim?)
    ensures var st' := Work(st, c, call);
            && (c in st'.copies ==> st'.copies[c].task == st.copies[c].task)
            && Rest(st'.copies, c) < CopyWeight(st.copies[c])
  {
    hide Onward, Idle, SameRecords, AcquireScript, ReclaimScript;
  }

  lemma HandoffCost(st: State, c: nat, call: Call)
    requires CanWork(st, c, call) && (call.Crash? || call.Acknowledge? || call.Complete? || call.Bury? || call.Release?)
    ensures var st' := Work(st, c, call);
            && (c in st'.copies ==> st'.copies[c].task == st.copies[c].task)
            && Rest(st'.copies, c) < CopyWeight(st.copies[c])
  {
    hide Onward, Idle, SameRecords, XAck;
  }

  lemma CallCost(st: State, c: nat, call: Call)
    requires CanWork(st, c, call) && !call.Postpone?
    ensures var st' := Work(st, c, call);
            && (c in st'.copies ==> st'.copies[c].task.id == st.copies[c].task.id)
            && Rest(st'.copies, c) < CopyWeight(st.copies[c])
  {
    hide Rest, CopyWeight, DoTryAcquire, DoAskCompleted, DoTryReclaim, DoSend, DoAcknowledge, DoComplete, DoBury, DoRelease;
    if call.Send? {
      SendCost(st, c, call.result);
    } else if call.TryAcquire? || call.AskCompleted? || call.TryReclaim? {
      GateCost(st, c, call);
    } else {
      HandoffCost(st, c, call);
    }
  }

  // The copy's entry in the sum.
  lemma Entries(copies: map<nat, Copy>, c: nat, id: string)
    ensures Value(CopyWeights(copies, id), c) == if c in copies && copies[c].task.id == id then CopyWeight(copies[c]) else 0
  {
  }

  lemma CallPaid(st: State, c: nat, call: Call, id: string)
    requires CanWork(st, c, call) && !call.Postpone?
    ensures Paid(st, Worker(c, call), id)
  {
    var st' := Work(st, c, call);
    WorkOnward(st, c, call);
    CallFrame(st, c, call);
    CallCost(st, c, call);
    SameQueue(st.broker, st'.broker, id);
    CopyMove(st.copies, st'.copies, c, id);
    Entries(st.copies, c, id);
    Entries(st'.copies, c, id);
    hide Work, QueueWeight, Sum, CopyWeights, MemberWeights, CopyWeight;
  }

  lemma PostponeShape(st: State, c: nat, reply: Reply)
    requires CanWork(st, c, Postpone(reply))
    ensures var st' := DoPostpone(st, c, reply);
            var t := st.copies[c].task;
            && st'.copies == st.copies[c := st'.copies[c]] && st'.copies[c].task == t
            && Rest(st'.copies, c) == 1 && CopyWeight(st.copies[c]) == 10 * Left(t) + 15
            && st'.retry <= st.retry + {t}
  {
    hide Onward, Idle;
  }

  lemma PostponeCopyCost(st: State, c: nat, reply: Reply, id: string)
    requires CanWork(st, c, Postpone(reply))
    ensures var t := st.copies[c].task;
            Sum(CopyWeights(DoPostpone(st, c, reply).copies, id)) + (if t.id == id then 10 * Left(t) + 14 else 0)
            == Sum(CopyWeights(st.copies, id))
  {
    var st' := DoPostpone(st, c, reply);
    PostponeShape(st, c, reply);
    hide DoPostpone, CanWork;
    assert st'.copies - {c} == st.copies - {c};
    CopyMove(st.copies, st'.copies, c, id);
    Entries(st.copies, c, id);
    Entries(st'.copies, c, id);
    hide Sum, CopyWeights, CopyWeight;
  }

  lemma PostponeMemberCost(st: State, c: nat, reply: Reply, id: string)
    requires CanWork(st, c, Postpone(reply))
    ensures var t := st.copies[c].task;
            Sum(MemberWeights(DoPostpone(st, c, reply).retry, st.flushers, id))
            <= Sum(MemberWeights(st.retry, st.flushers, id)) + if t.id == id then 10 * Left(t) + 13 else 0
  {
    var st' := DoPostpone(st, c, reply);
    PostponeShape(st, c, reply);
    hide DoPostpone, CanWork, MemberWeight;
    MemberMove(st.retry, st.flushers, st'.retry, st.flushers, st.copies[c].task, id);
    NewMember(st'.retry, st.flushers, st.copies[c].task, id);
    hide Sum, MemberWeights;
  }

  lemma PostponeFrame(st: State, c: nat, reply: Reply, id: string)
    requires CanWork(st, c, Postpone(reply))
    ensures DoPostpone(st, c, reply).flushers == st.flushers
    ensures QueueWeight(DoPostpone(st, c, reply).broker, id) == QueueWeight(st.broker, id)
  {
    hide Idle, QueueWeight;
    SameQueue(st.broker, DoPostpone(st, c, reply).broker, id);
  }

  lemma PostponePaid(st: State, c: nat, reply: Reply, id: string)
    requires CanWork(st, c, Postpone(reply))
    ensures Paid(st, Worker(c, Postpone(reply)), id)
  {
    hide DoPostpone, QueueWeight, Sum, CopyWeights, MemberWeights, Onward, Idle;
    PostponeFrame(st, c, reply, id);
    PostponeCopyCost(st, c, reply, id);
    PostponeMemberCost(st, c, reply, id);
  }

  lemma NewMember(retry: set<Task>, fs: map<nat, Flusher>, t: Task, id: string)
    ensures Value(MemberWeights(retry, fs, id), t) <= (if t.id == id then 10 * Left(t) + 13 else 0)
  {
    hide Reading;
  }

  lemma SameQueue(b: Broker, b': Broker, id: string)
    requires b'.logs == b.logs && b'.cursors == b.cursors
    ensures QueueWeight(b', id) == QueueWeight(b, id)
  {
    hide StreamWeight, QueueName;
  }

  lemma ExpirePaid(st: State, k: string, id: string)
    requires Can(st, Expire(k))
    ensures Paid(st, Expire(k), id)
  {
    hide QueueWeight, Sum, CopyWeights, MemberWeights;
  }

  // ---- Flushes ----

  lemma {:induction false} BatchAdds(batch: seq<Task>, n: nat, id: string)
    requires n < |batch|
    ensures BatchWeight(batch, n + 1, id) + (if batch[n].id == id then 10 * Left(batch[n]) + 11 else 0) == BatchWeight(batch, n, id)
  {
    if n < |batch| - 1 {
      BatchAdds(batch[..|batch| - 1], n, id);
    } else {
      BatchSent(batch[..n], n, n + 1, id);
    }
  }

  // XADDs past the end of a batch make no difference.
  lemma {:induction false} BatchSent(batch: seq<Task>, m: nat, n: nat, id: string)
    requires |batch| <= m && |batch| <= n
    ensures BatchWeight(batch, m, id) == BatchWeight(batch, n, id)
  {
    if batch != [] {
      BatchSent(batch[..|batch| - 1], m, n, id);
    }
  }

  lemma {:induction false} BatchPositive(batch: seq<Task>, moved: nat, id: string)
    ensures BatchWeight(batch, moved, id) > 0 <==> Holds(batch, id)
  {
    if batch != [] {
      var n := |batch| - 1;
      BatchPositive(batch[..n], moved, id);
      if i :| 0 <= i < n && batch[i].id == id {
        assert batch[..n][i].id == id;
      }
      if Holds(batch[..n], id) {
        var i :| 0 <= i < n && batch[..n][i].id == id;
        assert batch[i].id == id;
      }
    }
  }

  // A batch costs one less for each record than the members it is read from.
  lemma {:induction false} BatchRead(retry: set<Task>, fs: map<nat, Flusher>, batch: seq<Task>, id: string)
    requires forall i | 0 <= i < |batch| :: batch[i] in retry
    ensures BatchWeight(batch, 0, id) + |Own(batch, id)| == SumAt(MemberWeights(retry, fs, id), batch) + Again(OwnRead(fs, batch, id))
  {
    if batch != [] {
      var n := |batch| - 1;
      BatchRead(retry, fs, batch[..n], id);
      var r := OwnRead(fs, batch[..n], id);
      AgainMore(r, batch[n]);
      assert r + [] == r && Own(batch[..n], id) + [] == Own(batch[..n], id);
      assert batch[n] in retry;
    }
  }

  lemma {:induction false} OwnHolds(ts: seq<Task>, id: string)
    ensures |Own(ts, id)| > 0 <==> Holds(ts, id)
  {
    if ts != [] {
      var n := |ts| - 1;
      OwnHolds(ts[..n], id);
      if i :| 0 <= i < n && ts[i].id == id {
        assert ts[..n][i].id == id;
      }
      if Holds(ts[..n], id) {
        var i :| 0 <= i < n && ts[..n][i].id == id;
        assert ts[i].id == id;
      }
    }
  }

  lemma ReadMembers(retry: set<Task>, fs: map<nat, Flusher>, f: nat, batch: seq<Task>, id: string)
    requires f !in fs && forall i, j | 0 <= i < j < |batch| :: batch[i] != batch[j]
    ensures Sum(MemberWeights(retry, fs[f := Flusher(batch, [])], id)) + SumAt(MemberWeights(retry, fs, id), batch) <= Sum(MemberWeights(retry, fs, id))
  {
    var fs' := fs[f := Flusher(batch, [])];
    var w, w' := MemberWeights(retry, fs, id), MemberWeights(retry, fs', id);
    assert fs' - {f} == fs - {f};
    forall t | t in w'
      ensures w'[t] <= w[t]
    {
      if t !in batch {
        OtherReaders(fs, fs', f, t);
      } else {
        assert t in fs'[f].batch;
      }
    }
    forall i | 0 <= i < |batch|
      ensures Value(w', batch[i]) == 0
    {
      assert batch[i] in fs'[f].batch;
    }
    hide MemberWeights;
    SumDrop(w, w', batch);
  }

  lemma ReadPaid(st: State, f: nat, batch: seq<Task>, id: string)
    requires Can(st, Event.Flush(f, Read(batch)))
    ensures Paid(st, Event.Flush(f, Read(batch)), id)
  {
    var fs' := st.flushers[f := Flusher(batch, [])];
    ReadMembers(st.retry, st.flushers, f, batch, id);
    BatchRead(st.retry, st.flushers, batch, id);
    OwnHolds(batch, id);
    ReadFlusher(st.flushers, f, batch, id);
    hide MemberWeights, FlusherWeights, QueueWeight, CopyWeights, Sum, Holds, BatchWeight, SumAt, Own, OwnRead, Again;
  }

  lemma ReadFlusher(fs: map<nat, Flusher>, f: nat, batch: seq<Task>, id: string)
    requires f !in fs
    ensures Sum(FlusherWeights(fs[f := Flusher(batch, [])], id)) == Sum(FlusherWeights(fs, id)) + BatchWeight(batch, 0, id)
  {
    var fs' := fs[f := Flusher(batch, [])];
    assert fs' - {f} == fs - {f};
    FlusherMove(fs, fs', f, id);
    hide BatchWeight, Sum;
  }

  lemma AddFlushers(fs: map<nat, Flusher>, f: nat, ran: bool, id: string)
    requires f in fs && |fs[f].moved| < |fs[f].batch|
    ensures var fl := fs[f];
            var t := fl.batch[|fl.moved|];
            Sum(FlusherWeights(fs[f := fl.(moved := fl.moved + [ran])], id)) + (if t.id == id then 10 * Left(t) + 11 else 0)
            == Sum(FlusherWeights(fs, id))
  {
    var fl := fs[f];
    var fs' := fs[f := fl.(moved := fl.moved + [ran])];
    assert fs' - {f} == fs - {f};
    FlusherMove(fs, fs', f, id);
    BatchAdds(fl.batch, |fl.moved|, id);
    hide BatchWeight, Sum;
  }

  // Sending an XADD leaves every batch as it is.
  lemma SameReaders(retry: set<Task>, fs: map<nat, Flusher>, fs': map<nat, Flusher>, f: nat, id: string)
    requires f in fs && f in fs' && fs' - {f} == fs - {f} && fs'[f].batch == fs[f].batch
    ensures MemberWeights(retry, fs', id) == MemberWeights(retry, fs, id)
  {
    forall t: Task
      ensures Reading(fs', t) <==> Reading(fs, t)
    {
      OtherReaders(fs, fs', f, t);
    }
    hide Reading;
  }

  lemma AddPaid(st: State, f: nat, reply: Reply, id: string)
    requires WellFormed(st.broker) && Can(st, Event.Flush(f, Add(reply)))
    ensures Paid(st, Event.Flush(f, Add(reply)), id)
  {
    var st' := DoFlushAdd(st, f, reply);
    assert st'.flushers - {f} == st.flushers - {f};
    SameReaders(st.retry, st.flushers, st'.flushers, f, id);
    AddFlushers(st.flushers, f, reply.Ran(), id);
    AppendWeight(st.broker, st.flushers[f].batch[|st.flushers[f].moved|], id);
    hide MemberWeights, FlusherWeights, QueueWeight, CopyWeights, Sum, WellFormed, XAdd;
  }

  // A flusher goes away; its members, if they stay, are free to be read again.
  lemma GoneMembers(retry: set<Task>, retry': set<Task>, fs: map<nat, Flusher>, f: nat, id: string)
    requires f in fs && retry' <= retry
    ensures Sum(MemberWeights(retry', fs - {f}, id)) <= Sum(MemberWeights(retry, fs, id)) + SumAt(MemberWeights(retry', fs - {f}, id), fs[f].batch)
  {
    var w, w' := MemberWeights(retry, fs, id), MemberWeights(retry', fs - {f}, id);
    assert fs - {f} - {f} == fs - {f};
    forall t | t in w' && t !in fs[f].batch
      ensures t in w && w'[t] <= w[t]
    {
      OtherReaders(fs, fs - {f}, f, t);
    }
    hide MemberWeights;
    SumGrow(w, w', fs[f].batch);
  }

  lemma {:induction false} MembersBack(retry: set<Task>, fs: map<nat, Flusher>, batch: seq<Task>, id: string)
    ensures SumAt(MemberWeights(retry, fs, id), batch) <= Again(Own(batch, id))
  {
    if batch != [] {
      var n := |batch| - 1;
      MembersBack(retry, fs, batch[..n], id);
      AgainMore(Own(batch[..n], id), batch[n]);
      assert Own(batch[..n], id) + [] == Own(batch[..n], id);
    }
  }

  lemma {:induction false} MembersGone(retry: set<Task>, fs: map<nat, Flusher>, batch: seq<Task>, id: string)
    requires forall i | 0 <= i < |batch| :: batch[i] !in retry
    ensures SumAt(MemberWeights(retry, fs, id), batch) == 0
  {
    if batch != [] {
      MembersGone(retry, fs, batch[..|batch| - 1], id);
    }
  }

  lemma GoneFlusher(fs: map<nat, Flusher>, f: nat, id: string)
    requires f in fs
    ensures Sum(FlusherWeights(fs - {f}, id)) + (if Holds(fs[f].batch, id) then 1 else 0) <= Sum(FlusherWeights(fs, id))
  {
    assert fs - {f} - {f} == fs - {f};
    FlusherMove(fs, fs - {f}, f, id);
    BatchPositive(fs[f].batch, |fs[f].moved|, id);
    hide BatchWeight, Holds, Sum;
  }

  lemma GonePaid(st: State, st': State, f: nat, id: string, again: seq<Task>)
    requires f in st.flushers && st' == st.(flushers := st.flushers - {f}, retry := st'.retry, ledger := st'.ledger) && st'.retry <= st.retry
    requires again == Own(st.flushers[f].batch, id) || (again == [] && forall i | 0 <= i < |st.flushers[f].batch| :: st.flushers[f].batch[i] !in st'.retry)
    ensures Potential(st', id) + (if Holds(st.flushers[f].batch, id) then 1 else 0) <= Potential(st, id) + Again(again)
  {
    GoneMembers(st.retry, st'.retry, st.flushers, f, id);
    GoneFlusher(st.flushers, f, id);
    if again == Own(st.flushers[f].batch, id) {
      MembersBack(st'.retry, st'.flushers, st.flushers[f].batch, id);
    } else {
      MembersGone(st'.retry, st'.flushers, st.flushers[f].batch, id);
    }
    hide MemberWeights, FlusherWeights, QueueWeight, CopyWeights, Sum, SumAt, Own, Holds;
  }

  lemma RemovePaid(st: State, f: nat, reply: Reply, id: string)
    requires Can(st, Event.Flush(f, Remove(reply)))
    ensures Paid(st, Event.Flush(f, Remove(reply)), id)
  {
    hide Potential, Again, Own, Holds, Unmoved;
    GonePaid(st, DoFlushRemove(st, f, reply), f, id, if reply.Ran() then [] else Own(st.flushers[f].batch, id));
  }

  lemma StopPaid(st: State, f: nat, id: string)
    requires Can(st, Event.Flush(f, Stop))
    ensures Paid(st, Event.Flush(f, Stop), id)
  {
    hide Potential, Again, Own, Holds;
    GonePaid(st, FlushStep(st, f, Stop), f, id, Own(st.flushers[f].batch, id));
  }

  // ---- Whole runs ----

  /** Every step is paid for. */
  lemma StepPaid(st: State, e: Event, id: string)
    requires WellFormed(st.broker) && Can(st, e)
    ensures Paid(st, e, id)
  {
    hide Paid, WellFormed;
    match e
    case Enqueue(t) => EnqueuePaid(st, t, id);
    case Poll(key, c) => PollPaid(st, key, c, id);
    case PollLost(key) => PollLostPaid(st, key, id);
    case Claim(s, c) => ClaimPaid(st, s, c, id);
    case Worker(c, call) =>
      if call.Postpone? {
        PostponePaid(st, c, call.reply, id);
      } else {
        CallPaid(st, c, call, id);
      }
    case Expire(k) => ExpirePaid(st, k, id);
    case Flush(f, step) => FlushPaid(st, f, step, id);
  }

  lemma FlushPaid(st: State, f: nat, step: FlushCall, id: string)
    requires WellFormed(st.broker) && Can(st, Event.Flush(f, step))
    ensures Paid(st, Event.Flush(f, step), id)
  {
    hide Paid, WellFormed;
    match step
    case Read(batch) => ReadPaid(st, f, batch, id);
    case Add(reply) => AddPaid(st, f, reply, id);
    case Remove(reply) => RemovePaid(st, f, reply, id);
    case Stop => StopPaid(st, f, id);
  }

  function Steps(st: State, es: seq<Event>, id: string): nat
    requires Run(st, es)
    decreases |es|
  {
    if es == [] then 0 else (if Touches(st, es[0], id) then 1 else 0) + Steps(Next(st, es[0]), es[1..], id)
  }

  /** The records of task `id` handed out again on the way. */
  function Redelivered(st: State, es: seq<Event>, id: string): seq<Task>
    requires Run(st, es)
    decreases |es|
  {
    if es == [] then [] else Repeated(st, es[0], id) + Redelivered(Next(st, es[0]), es[1..], id)
  }

  // Ten for every attempt an enqueued copy of the task has, the first included.
  function Grants(es: seq<Event>, id: string): nat {
    if es == [] then 0 else Grant(es[0], id) + Grants(es[1..], id)
  }

  lemma {:induction false} AgainSplit(a: seq<Task>, b: seq<Task>)
    ensures Again(a + b) == Again(a) + Again(b)
  {
    if b == [] {
      assert a + b == a;
    } else {
      AgainSplit(a, b[..|b| - 1]);
      assert (a + b)[..|a + b| - 1] == a + b[..|b| - 1];
    }
  }

  lemma {:induction false} RunPaid(st: State, es: seq<Event>, id: string)
    requires Sound(st) && Run(st, es)
    ensures Steps(st, es, id) + Potential(After(st, es), id) <= Potential(st, id) + Grants(es, id) + Again(Redelivered(st, es, id))
    decreases |es|
  {
    if es != [] {
      var st' := Next(st, es[0]);
      SoundQueues(st);
      StepPaid(st, es[0], id);
      SoundKept(st, es[0]);
      hide Sound, Potential, Touches, Repeated, Next, Can, WellFormed;
      RunPaid(st', es[1..], id);
      AgainSplit(Repeated(st, es[0], id), Redelivered(st', es[1..], id));
    }
  }

  lemma SoundQueues(st: State)
    requires Sound(st)
    ensures WellFormed(st.broker)
    ensures forall f | f in st.flushers :: |st.flushers[f].moved| <= |st.flushers[f].batch|
  {
    hide WellFormed, CopiesOk, LedgerOk;
    forall f | f in st.flushers
      ensures |st.flushers[f].moved| <= |st.flushers[f].batch|
    {
      assert FlusherOk(st.ledger, st.flushers[f]);
    }
  }

  // ---- In numbers ----

  // The attempts of t lie within 0 and maxAttempts.
  predicate Within(t: Task, maxAttempts: nat) {
    t.attempt >= 0 && t.maxAttempts <= maxAttempts
  }

  function Enqueues(es: seq<Event>, id: string): seq<Task> {
    if es == [] then [] else (if es[0].Enqueue? && es[0].t.id == id then [es[0].t] else []) + Enqueues(es[1..], id)
  }

  ghost predicate AllWithin(ts: set<Task>, id: string, maxAttempts: nat) {
    forall o | o in ts && o.id == id :: Within(o, maxAttempts)
  }

  // n enqueues, and n redeliveries.
  function Budget(maxAttempts: nat, n: nat): nat {
    10 * (maxAttempts + 1) * n
  }

  function Surcharge(maxAttempts: nat, n: nat): nat {
    (10 * (maxAttempts + 1) + 3) * n
  }

  lemma BudgetMore(maxAttempts: nat, n: nat)
    ensures Budget(maxAttempts, n + 1) == Budget(maxAttempts, n) + 10 * (maxAttempts + 1)
    ensures Surcharge(maxAttempts, n + 1) == Surcharge(maxAttempts, n) + 10 * (maxAttempts + 1) + 3
  {
  }

  lemma {:induction false} GrantsBound(es: seq<Event>, id: string, maxAttempts: nat)
    requires forall i | 0 <= i < |es| && es[i].Enqueue? && es[i].t.id == id :: Within(es[i].t, maxAttempts)
    ensures Grants(es, id) <= Budget(maxAttempts, |Enqueues(es, id)|)
  {
    if es != [] {
      assert forall i | 0 <= i < |es| - 1 :: es[1..][i] == es[i + 1];
      GrantsBound(es[1..], id, maxAttempts);
      BudgetMore(maxAttempts, |Enqueues(es[1..], id)|);
      assert Grant(es[0], id) <= 10 * (maxAttempts + 1);
      hide Budget, Grant, Surcharge;
    }
  }

  lemma {:induction false} AgainBound(ts: seq<Task>, maxAttempts: nat)
    requires forall i | 0 <= i < |ts| :: Within(ts[i], maxAttempts)
    ensures Again(ts) <= Surcharge(maxAttempts, |ts|)
  {
    if ts != [] {
      var n := |ts| - 1;
      AgainBound(ts[..n], maxAttempts);
      BudgetMore(maxAttempts, n);
      assert Within(ts[n], maxAttempts);
      hide Budget, Surcharge;
    }
  }

  // A record descends from an enqueued task, so its attempts lie within as well.
  lemma DescendantWithin(l: Ledger, t: Task, maxAttempts: nat)
    requires AllWithin(l.enqueued, t.id, maxAttempts) && Known(l, t)
    ensures Within(t, maxAttempts)
  {
    var o :| o in l.enqueued && Descends(t, o);
    assert Within(o, maxAttempts);
  }

  lemma {:induction false} OwnOf(ts: seq<Task>, id: string, i: nat)
    requires i < |Own(ts, id)|
    ensures Own(ts, id)[i] in ts && Own(ts, id)[i].id == id
  {
    var n := |ts| - 1;
    if i < |Own(ts[..n], id)| {
      OwnOf(ts[..n], id, i);
    }
  }

  lemma {:induction false} OwnReadOf(fs: map<nat, Flusher>, ts: seq<Task>, id: string, i: nat)
    requires i < |OwnRead(fs, ts, id)|
    ensures OwnRead(fs, ts, id)[i] in ts && OwnRead(fs, ts, id)[i].id == id
  {
    var n := |ts| - 1;
    if i < |OwnRead(fs, ts[..n], id)| {
      OwnReadOf(fs, ts[..n], id, i);
    }
  }

  lemma RepeatedKnown(st: State, e: Event, id: string, i: nat)
    requires RecordsOk(st) && Can(st, e) && i < |Repeated(st, e, id)|
    ensures Repeated(st, e, id)[i].id == id && Known(st.ledger, Repeated(st, e, id)[i])
  {
    var t := Repeated(st, e, id)[i];
    hide Known, WellFormed, Repeated;
    if e.Claim? {
      ClaimRepeats(st, e, id);
      assert Exists(st.broker, e.s);
    } else if e.step.Read? {
      ReadRepeats(st, e, id, i);
      assert Retried(st.ledger, t);
    } else {
      GoneRepeats(st, e, id, i);
      assert FlusherOk(st.ledger, st.flushers[e.f]);
      assert Retried(st.ledger, t);
    }
    RetriedKnown(st.ledger, t);
  }

  lemma RetriedKnown(l: Ledger, t: Task)
    ensures Retried(l, t) ==> Known(l, t)
  {
  }

  lemma ClaimRepeats(st: State, e: Event, id: string)
    requires Can(st, e) && Repeated(st, e, id) != []
    ensures e.Claim? || e.Flush?
    ensures e.Claim? ==> Repeated(st, e, id) == [Payload(st.broker, e.s)] && Payload(st.broker, e.s).id == id
  {
    if e.Claim? {
      assert [Payload(st.broker, e.s)][..0] == [] && Own([], id) == [];
    }
  }

  lemma ReadRepeats(st: State, e: Event, id: string, i: nat)
    requires Can(st, e) && e.Flush? && e.step.Read? && i < |Repeated(st, e, id)|
    ensures Repeated(st, e, id)[i].id == id && Repeated(st, e, id)[i] in st.retry
  {
    OwnReadOf(st.flushers, e.step.batch, id, i);
  }

  lemma GoneRepeats(st: State, e: Event, id: string, i: nat)
    requires Can(st, e) && e.Flush? && !e.step.Read? && i < |Repeated(st, e, id)|
    ensures e.f in st.flushers && Repeated(st, e, id)[i].id == id && Repeated(st, e, id)[i] in st.flushers[e.f].batch
  {
    OwnOf(st.flushers[e.f].batch, id, i);
  }

  lemma RepeatedWithin(st: State, e: Event, id: string, maxAttempts: nat)
    requires Sound(st) && Can(st, e) && AllWithin(st.ledger.enqueued, id, maxAttempts)
    ensures forall i | 0 <= i < |Repeated(st, e, id)| :: Within(Repeated(st, e, id)[i], maxAttempts)
  {
    hide Known, Repeated, AllWithin, RecordsOk, CopiesOk, LedgerOk, Within;
    forall i | 0 <= i < |Repeated(st, e, id)|
      ensures Within(Repeated(st, e, id)[i], maxAttempts)
    {
      RepeatedKnown(st, e, id, i);
      DescendantWithin(st.ledger, Repeated(st, e, id)[i], maxAttempts);
    }
  }

  lemma EnqueuedAfter(st: State, e: Event)
    requires Can(st, e)
    ensures Next(st, e).ledger.enqueued == if e.Enqueue? then st.ledger.enqueued + {e.t} else st.ledger.enqueued
  {
    if e.Worker? {
      SameEnqueued(st, e.c, e.call);
      hide Work;
    }
  }

  lemma SameEnqueued(st: State, c: nat, call: Call)
    requires CanWork(st, c, call)
    ensures Work(st, c, call).ledger.enqueued == st.ledger.enqueued
  {
    hide DoTryAcquire, DoAskCompleted, DoTryReclaim, DoSend, DoAcknowledge, DoComplete, DoBury, DoPostpone, DoRelease;
  }

  ghost predicate EnqueuesWithin(es: seq<Event>, id: string, maxAttempts: nat) {
    forall i | 0 <= i < |es| && es[i].Enqueue? && es[i].t.id == id :: Within(es[i].t, maxAttempts)
  }

  lemma OneWithin(st: State, es: seq<Event>, id: string, maxAttempts: nat)
    requires es != [] && Can(st, es[0]) && AllWithin(st.ledger.enqueued, id, maxAttempts) && EnqueuesWithin(es, id, maxAttempts)
    ensures AllWithin(Next(st, es[0]).ledger.enqueued, id, maxAttempts) && EnqueuesWithin(es[1..], id, maxAttempts)
  {
    EnqueuedAfter(st, es[0]);
    hide Can, Next, Within;
    assert forall i | 0 <= i < |es| - 1 :: es[1..][i] == es[i + 1];
  }

  lemma AppendWithin(a: seq<Task>, b: seq<Task>, maxAttempts: nat)
    requires forall i | 0 <= i < |a| :: Within(a[i], maxAttempts)
    requires forall i | 0 <= i < |b| :: Within(b[i], maxAttempts)
    ensures forall i | 0 <= i < |a + b| :: Within((a + b)[i], maxAttempts)
  {
    hide Within;
  }

  lemma {:induction false} RedeliveredWithin(st: State, es: seq<Event>, id: string, maxAttempts: nat)
    requires Sound(st) && Run(st, es) && AllWithin(st.ledger.enqueued, id, maxAttempts) && EnqueuesWithin(es, id, maxAttempts)
    ensures forall i | 0 <= i < |Redelivered(st, es, id)| :: Within(Redelivered(st, es, id)[i], maxAttempts)
    decreases |es|
  {
    hide Sound, Repeated, Next, Can, Within, EnqueuesWithin, AllWithin;
    if es != [] {
      OneWithin(st, es, id, maxAttempts);
      RepeatedWithin(st, es[0], id, maxAttempts);
      SoundKept(st, es[0]);
      RedeliveredWithin(Next(st, es[0]), es[1..], id, maxAttempts);
      AppendWithin(Repeated(st, es[0], id), Redelivered(Next(st, es[0]), es[1..], id), maxAttempts);
    }
  }

  /** In every run the steps taken on a task number at most ten for each attempt of
      its budget, the first one included, per enqueue, and three more than that per
      redelivery of one of its records: however the others interleave, whatever
      fails or dies. */
  lemma ComesToRest(es: seq<Event>, id: string, maxAttempts: nat)
    requires Run(INITIAL, es) && EnqueuesWithin(es, id, maxAttempts)
    ensures Steps(INITIAL, es, id) + Potential(After(INITIAL, es), id)
            <= 10 * (maxAttempts + 1) * |Enqueues(es, id)| + (10 * (maxAttempts + 1) + 3) * |Redelivered(INITIAL, es, id)|
  {
    InitialSound();
    GrantsBound(es, id, maxAttempts);
    InitialPotential(id);
    hide Sound, Run, Potential, Steps, Redelivered, EnqueuesWithin, Within;
    RedeliveredWithin(INITIAL, es, id, maxAttempts);
    AgainBound(Redelivered(INITIAL, es, id), maxAttempts);
    RunPaid(INITIAL, es, id);
  }

  lemma InitialPotential(id: string)
    ensures Potential(INITIAL, id) == 0
  {
    assert CopyWeights(INITIAL.copies, id) == map[] && MemberWeights(INITIAL.retry, INITIAL.flushers, id) == map[];
    assert FlusherWeights(INITIAL.flushers, id) == map[];
  }
}
