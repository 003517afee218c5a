// What the consumer hands to the supervisor, as steps of the protocol.

module PollRuns {
  import opened Wrappers
  import opened Domain
  import opened Keys
  import opened Network
  import opened Streams
  import opened Protocol

  // The slot the task's routing metadata names.
  function SlotOf(t: Task): Slot {
    (if t.streamKey.Some? then t.streamKey.value else "", if t.streamID.Some? then t.streamID.value else 0)
  }

  // The copy a goroutine starts from when it is handed the task.
  function CopyOf(t: Task): Copy {
    Copy(t, SlotOf(t), AttemptKey(t.id, t.attempt), Gate)
  }

  // One more goroutine for each task, numbered from c on.
  function Hired(copies: map<nat, Copy>, tasks: seq<Task>, c: nat): map<nat, Copy>
    decreases |tasks|
  {
    if tasks == [] then copies else Hired(copies[c := CopyOf(tasks[0])], tasks[1..], c + 1)
  }

  function Handed(st: State, b: Broker, tasks: seq<Task>, c: nat): State {
    st.(broker := b, copies := Hired(st.copies, tasks, c))
  }

  ghost predicate Unused(copies: map<nat, Copy>, c: nat) {
    forall d | d in copies :: d < c
  }

  lemma {:induction false} HiredUnused(copies: map<nat, Copy>, tasks: seq<Task>, c: nat)
    requires Unused(copies, c)
    ensures Unused(Hired(copies, tasks, c), c + |tasks|)
    decreases |tasks|
  {
    if tasks != [] {
      HiredUnused(copies[c := CopyOf(tasks[0])], tasks[1..], c + 1);
    }
  }

  lemma {:induction false} HiredTwice(copies: map<nat, Copy>, tasks: seq<Task>, more: seq<Task>, c: nat)
    ensures Hired(Hired(copies, tasks, c), more, c + |tasks|) == Hired(copies, tasks + more, c)
    decreases |tasks|
  {
    hide CopyOf;
    if tasks == [] {
      assert tasks + more == more;
    } else {
      HiredTwice(copies[c := CopyOf(tasks[0])], tasks[1..], more, c + 1);
      assert (tasks + more)[1..] == tasks[1..] + more && (tasks + more)[0] == tasks[0];
    }
  }

  lemma HandNothing(st: State, c: nat)
    ensures Reaches(st, Handed(st, st.broker, [], c))
  {
    ReachesSelf(st);
    hide Reaches;
  }

  // A run that hands over t, and one that hands over the others after it.
  lemma HandFirst(st: State, mid: State, b: Broker, t: Task, tasks: seq<Task>, c: nat)
    requires Reaches(st, mid) && mid == st.(broker := mid.broker, copies := st.copies[c := CopyOf(t)])
    requires Reaches(mid, Handed(mid, b, tasks, c + 1))
    ensures Reaches(st, Handed(st, b, [t] + tasks, c))
  {
    hide Reaches, CopyOf;
    assert ([t] + tasks)[1..] == tasks;
    ReachesMore(st, mid, Handed(mid, b, tasks, c + 1));
  }

  lemma HandBoth(st: State, b: Broker, tasks: seq<Task>, b': Broker, more: seq<Task>, c: nat)
    requires Reaches(st, Handed(st, b, tasks, c))
    requires Reaches(Handed(st, b, tasks, c), Handed(Handed(st, b, tasks, c), b', more, c + |tasks|))
    ensures Reaches(st, Handed(st, b', tasks + more, c))
  {
    hide Reaches, Hired;
    HiredTwice(st.copies, tasks, more, c);
    ReachesMore(st, Handed(st, b, tasks, c), Handed(Handed(st, b, tasks, c), b', more, c + |tasks|));
  }

  // ---- Claims ----

  // The task is the pending message of the slot its own metadata names.
  ghost predicate RoutedPending(b: Broker, t: Task) {
    && SlotOf(t).0 in PRIORITY_STREAMS && Exists(b, SlotOf(t)) && SlotOf(t) in b.pel
    && t == Stamp(Payload(b, SlotOf(t)), SlotOf(t))
  }

  lemma ClaimNext(st: State, t: Task, c: nat)
    requires Unused(st.copies, c) && RoutedPending(st.broker, t)
    ensures var e := Claim(SlotOf(t), c);
            Can(st, e) && Next(st, e) == st.(copies := st.copies[c := CopyOf(t)])
  {
    hide PRIORITY_STREAMS;
  }

  lemma {:induction false} ClaimsAreARun(st: State, tasks: seq<Task>, c: nat)
    requires Unused(st.copies, c)
    requires forall i | 0 <= i < |tasks| :: RoutedPending(st.broker, tasks[i])
    ensures Reaches(st, Handed(st, st.broker, tasks, c))
    decreases |tasks|
  {
    hide Reaches, Can, Next, RoutedPending, CopyOf, Handed;
    if tasks == [] {
      HandNothing(st, c);
    } else {
      var e := Claim(SlotOf(tasks[0]), c);
      ClaimNext(st, tasks[0], c);
      var mid := Next(st, e);
      ReachesNext(st, e);
      ClaimsAreARun(mid, tasks[1..], c + 1);
      HandFirst(st, mid, st.broker, tasks[0], tasks[1..], c);
      assert [tasks[0]] + tasks[1..] == tasks;
    }
  }

  lemma {:induction false} ClaimBatchRouted(b: Broker, keys: seq<string>, idle: set<Slot>, i: nat)
    requires i < |ClaimBatch(b, keys, idle)| && forall k | k in keys :: k in PRIORITY_STREAMS
    ensures RoutedPending(b, ClaimBatch(b, keys, idle)[i])
  {
    hide PRIORITY_STREAMS;
    var head := Claimable(b, keys[0], idle, 0, CLAIM_COUNT);
    assert keys[0] in keys;
    if i < |head| {
      ClaimableIsRouted(b, keys[0], idle, 0, CLAIM_COUNT, i);
    } else {
      ClaimBatchRouted(b, keys[1..], idle, i - |head|);
    }
  }

  /** ClaimStale is a run of Claim steps: one new goroutine for each task it
      returns, from the slot that task names, and nothing else changes. */
  lemma ClaimIsARun(st: State, idle: set<Slot>, c: nat)
    requires Unused(st.copies, c)
    ensures Reaches(st, Handed(st, st.broker, ClaimBatch(st.broker, PRIORITY_STREAMS, idle), c))
  {
    var tasks := ClaimBatch(st.broker, PRIORITY_STREAMS, idle);
    forall i | 0 <= i < |tasks|
      ensures RoutedPending(st.broker, tasks[i])
    {
      ClaimBatchRouted(st.broker, PRIORITY_STREAMS, idle, i);
    }
    hide RoutedPending, Reaches, ClaimBatch, Handed;
    ClaimsAreARun(st, tasks, c);
  }

  // ---- Polls ----

  lemma PollNext(st: State, key: string, c: nat)
    requires key in PRIORITY_STREAMS && Unused(st.copies, c) && HasNew(st.broker, key)
    ensures var e := Poll(key, c);
            Can(st, e) && Next(st, e) == st.(broker := Deliver(st.broker, key), copies := st.copies[c := CopyOf(Fresh(st.broker, key, 1)[0])])
  {
    hide PRIORITY_STREAMS;
  }

  // The first of n deliveries, and the others.
  lemma {:induction false} AdvanceFirst(b: Broker, key: string, n: nat)
    requires Cursor(b, key) + n + 1 <= |Log(b, key)|
    ensures Log(Deliver(b, key), key) == Log(b, key) && Cursor(Deliver(b, key), key) == Cursor(b, key) + 1
    ensures Advance(Deliver(b, key), key, n) == Advance(b, key, n + 1)
  {
    if n > 0 {
      AdvanceFirst(b, key, n - 1);
    } else {
      assert Advance(b, key, 0) == b;
    }
  }

  lemma FreshFirst(b: Broker, key: string, n: nat)
    requires Cursor(b, key) + n + 1 <= |Log(b, key)|
    requires Log(Deliver(b, key), key) == Log(b, key) && Cursor(Deliver(b, key), key) == Cursor(b, key) + 1
    ensures Fresh(b, key, n + 1) == [Fresh(b, key, 1)[0]] + Fresh(Deliver(b, key), key, n)
  {
    hide Deliver, Log, Cursor;
  }

  // The first message of a stream, and then the others.
  lemma StreamNext(st: State, key: string, n: nat, c: nat) returns (mid: State)
    requires key in PRIORITY_STREAMS && Unused(st.copies, c) && Cursor(st.broker, key) + n + 1 <= |Log(st.broker, key)|
    ensures Unused(mid.copies, c + 1) && (n == 0 || Cursor(mid.broker, key) + n <= |Log(mid.broker, key)|)
    ensures Reaches(mid, Handed(mid, Advance(mid.broker, key, n), Fresh(mid.broker, key, n), c + 1)) ==>
              Reaches(st, Handed(st, Advance(st.broker, key, n + 1), Fresh(st.broker, key, n + 1), c))
  {
    AdvanceFirst(st.broker, key, n);
    FreshFirst(st.broker, key, n);
    PollNext(st, key, c);
    hide Reaches, PRIORITY_STREAMS, Can, Next, Fresh, Advance, Deliver, CopyOf, Log, Cursor, Handed;
    mid := Next(st, Poll(key, c));
    ReachesNext(st, Poll(key, c));
    if Reaches(mid, Handed(mid, Advance(mid.broker, key, n), Fresh(mid.broker, key, n), c + 1)) {
      HandFirst(st, mid, Advance(mid.broker, key, n), Fresh(st.broker, key, 1)[0], Fresh(mid.broker, key, n), c);
    }
  }

  lemma StreamNone(st: State, key: string, c: nat)
    ensures Reaches(st, Handed(st, Advance(st.broker, key, 0), Fresh(st.broker, key, 0), c))
  {
    assert Fresh(st.broker, key, 0) == [];
    HandNothing(st, c);
    hide Reaches, Handed;
  }

  // Reading one stream.
  lemma {:induction false} StreamIsARun(st: State, key: string, n: nat, c: nat)
    requires key in PRIORITY_STREAMS && Unused(st.copies, c)
    requires n == 0 || Cursor(st.broker, key) + n <= |Log(st.broker, key)|
    ensures Reaches(st, Handed(st, Advance(st.broker, key, n), Fresh(st.broker, key, n), c))
    decreases n
  {
    hide Reaches, Handed, Advance, Fresh, PRIORITY_STREAMS, Unused, Cursor, Log;
    if n == 0 {
      StreamNone(st, key, c);
    } else {
      var mid := StreamNext(st, key, n - 1, c);
      StreamIsARun(mid, key, n - 1, c + 1);
    }
  }

  ghost predicate AllRead(keys: seq<string>) {
    forall i | 0 <= i < |keys| :: keys[i] in PRIORITY_STREAMS
  }

  lemma ReadFirst(b: Broker, keys: seq<string>) returns (tasks: seq<Task>, b': Broker)
    requires keys != []
    ensures |tasks| == 0 || Cursor(b, keys[0]) + |tasks| <= |Log(b, keys[0])|
    ensures tasks == Fresh(b, keys[0], |tasks|) && b' == Advance(b, keys[0], |tasks|)
    ensures Batch(b, keys) == tasks + Batch(b', keys[1..]) && ReadEach(b, keys) == ReadEach(b', keys[1..])
  {
    tasks, b' := Fresh(b, keys[0], Available(b, keys[0])), ReadOne(b, keys[0]);
  }

  lemma ReadNone(st: State, c: nat)
    ensures Reaches(st, Handed(st, ReadEach(st.broker, []), Batch(st.broker, []), c))
  {
    HandNothing(st, c);
    hide Reaches, Handed;
  }

  // Reading the first stream, and then the others.
  lemma ReadNext(st: State, keys: seq<string>, c: nat) returns (mid: State, d: nat)
    requires keys != [] && keys[0] in PRIORITY_STREAMS && Unused(st.copies, c)
    ensures Unused(mid.copies, d)
    ensures Reaches(mid, Handed(mid, ReadEach(mid.broker, keys[1..]), Batch(mid.broker, keys[1..]), d)) ==>
              Reaches(st, Handed(st, ReadEach(st.broker, keys), Batch(st.broker, keys), c))
  {
    hide PRIORITY_STREAMS, Reaches, Fresh, Advance, Hired, ReadEach, Batch, Log, Cursor;
    var tasks, b := ReadFirst(st.broker, keys);
    StreamIsARun(st, keys[0], |tasks|, c);
    HiredUnused(st.copies, tasks, c);
    mid, d := Handed(st, b, tasks, c), c + |tasks|;
    if Reaches(mid, Handed(mid, ReadEach(b, keys[1..]), Batch(b, keys[1..]), d)) {
      HandBoth(st, b, tasks, ReadEach(b, keys[1..]), Batch(b, keys[1..]), c);
    }
  }

  lemma {:induction false} ReadIsARun(st: State, keys: seq<string>, c: nat)
    requires Unused(st.copies, c) && AllRead(keys)
    ensures Reaches(st, Handed(st, ReadEach(st.broker, keys), Batch(st.broker, keys), c))
    decreases |keys|
  {
    hide Reaches, Handed, ReadEach, Batch, PRIORITY_STREAMS, Unused;
    if keys == [] {
      ReadNone(st, c);
    } else {
      var mid, d := ReadNext(st, keys, c);
      ReadIsARun(mid, keys[1..], d);
    }
  }

  lemma {:induction false} LostIsARun(st: State, key: string, n: nat)
    requires key in PRIORITY_STREAMS && (n == 0 || Cursor(st.broker, key) + n <= |Log(st.broker, key)|)
    ensures Reaches(st, st.(broker := Advance(st.broker, key, n)))
  {
    if n == 0 {
      ReachesSelf(st);
    } else {
      hide Reaches, PRIORITY_STREAMS, Deliver;
      LostIsARun(st, key, n - 1);
      var mid := st.(broker := Advance(st.broker, key, n - 1));
      assert HasNew(mid.broker, key);
      ReachesNext(mid, PollLost(key));
      ReachesMore(st, mid, Next(mid, PollLost(key)));
    }
  }

  lemma {:induction false} ReadLost(st: State, keys: seq<string>)
    requires AllRead(keys)
    ensures Reaches(st, st.(broker := ReadEach(st.broker, keys)))
    decreases |keys|
  {
    if keys == [] {
      ReachesSelf(st);
    } else {
      hide PRIORITY_STREAMS, Reaches, Advance;
      var mid := st.(broker := ReadOne(st.broker, keys[0]));
      LostIsARun(st, keys[0], Available(st.broker, keys[0]));
      ReadLost(mid, keys[1..]);
      ReachesMore(st, mid, mid.(broker := ReadEach(mid.broker, keys[1..])));
    }
  }

  /** One pass of pollLoop, with any reply, is a run of Poll steps whose new
      goroutines hold exactly the tasks returned - or, if the reply is lost, of
      deliveries nobody hears of. */
  lemma PollIsARun(st: State, reply: Reply, c: nat)
    requires Unused(st.copies, c)
    ensures var b := if reply.Ran() then ReadEach(st.broker, PRIORITY_STREAMS) else st.broker;
            var tasks := if reply == Done then Batch(st.broker, PRIORITY_STREAMS) else [];
            Reaches(st, Handed(st, b, tasks, c))
  {
    hide PRIORITY_STREAMS, Reaches, Batch, ReadEach;
    if reply == Done {
      ReadIsARun(st, PRIORITY_STREAMS, c);
    } else if reply.Ran() {
      ReadLost(st, PRIORITY_STREAMS);
    } else {
      ReachesSelf(st);
    }
  }
}
