// The priority streams and their consumer group:
// internal/adapters/redis/consumer.go, internal/adapters/redis/stream_entry.go.

module Streams {
  import opened Wrappers
  import opened Domain
  import opened Network

  // A message of one stream; its ID is its position in that stream's log.
  type Slot = (string, nat)

  /** Streams are append-only.  `cursor` is the group's last-delivered position
      (XREADGROUP ">" reads from there), `pel` what was delivered and not
      acknowledged. */
  datatype Broker = Broker(logs: map<string, seq<Task>>, cursors: map<string, nat>, pel: set<Slot>)

  function Log(b: Broker, key: string): seq<Task> {
    if key in b.logs then b.logs[key] else []
  }

  function Cursor(b: Broker, key: string): nat {
    if key in b.cursors then b.cursors[key] else 0
  }

  predicate Exists(b: Broker, s: Slot) {
    s.1 < |Log(b, s.0)|
  }

  function Payload(b: Broker, s: Slot): Task
    requires Exists(b, s)
  {
    Log(b, s.0)[s.1]
  }

  // XADD: MarshalTaskPayload stores the task as it is.
  function XAdd(b: Broker, key: string, t: Task): Broker {
    b.(logs := b.logs[key := Log(b, key) + [t]])
  }

  predicate HasNew(b: Broker, key: string) {
    Cursor(b, key) < |Log(b, key)|
  }

  // XREADGROUP ">" handing out the oldest new message of one stream.
  function Deliver(b: Broker, key: string): Broker
    requires HasNew(b, key)
  {
    b.(cursors := b.cursors[key := Cursor(b, key) + 1], pel := b.pel + {(key, Cursor(b, key))})
  }

  // XACK: a slot outside the pending list is ignored.
  function XAck(b: Broker, key: Option<string>, id: Option<nat>): Broker {
    if key.Some? && id.Some? then b.(pel := b.pel - {(key.value, id.value)}) else b
  }

  // taskFromMessage: decode and overwrite the routing metadata.
  function Stamp(t: Task, s: Slot): Task {
    t.(streamKey := Some(s.0), streamID := Some(s.1))
  }

  /** A message some consumer will still be handed: not delivered yet, or
      pending and open to XAUTOCLAIM, in a stream the consumers read. */
  predicate Live(b: Broker, s: Slot) {
    && s.0 in PRIORITY_STREAMS
    && Exists(b, s)
    && (s.1 >= Cursor(b, s.0) || s in b.pel)
  }

  // Messages delivered to the group lie below its cursor.
  ghost predicate WellFormed(b: Broker) {
    && (forall key :: Cursor(b, key) <= |Log(b, key)|)
    && (forall s :: s in b.pel ==> s.1 < Cursor(b, s.0))
  }

  lemma XAddKeeps(b: Broker, key: string, t: Task)
    ensures forall s :: Exists(b, s) ==> Exists(XAdd(b, key, t), s) && Payload(XAdd(b, key, t), s) == Payload(b, s)
    ensures forall s :: Live(b, s) ==> Live(XAdd(b, key, t), s)
    ensures WellFormed(b) ==> WellFormed(XAdd(b, key, t))
  {
    var b' := XAdd(b, key, t);
    assert forall k :: Cursor(b', k) == Cursor(b, k) && |Log(b', k)| >= |Log(b, k)|;
  }

  // What XADD appends is live at once, for the group exists already.
  lemma XAddIsLive(b: Broker, key: string, t: Task)
    requires WellFormed(b) && key in PRIORITY_STREAMS
    ensures Live(XAdd(b, key, t), (key, |Log(b, key)|))
    ensures Payload(XAdd(b, key, t), (key, |Log(b, key)|)) == t
  {
  }

  lemma DeliverKeeps(b: Broker, key: string)
    requires HasNew(b, key) && WellFormed(b)
    ensures WellFormed(Deliver(b, key))
    ensures forall s :: Live(b, s) <==> Live(Deliver(b, key), s)
  {
    var b' := Deliver(b, key);
    assert forall k :: Log(b', k) == Log(b, k);
    assert forall k :: Cursor(b', k) == if k == key then Cursor(b, k) + 1 else Cursor(b, k);
    forall s: Slot
      ensures Live(b, s) <==> Live(b', s)
    {
      assert s in b'.pel <==> s in b.pel || s == (key, Cursor(b, key));
    }
  }

  /** Acknowledging takes one slot out of circulation and touches nothing else. */
  lemma XAckRemovesOne(b: Broker, s: Slot)
    requires WellFormed(b) && s.1 < Cursor(b, s.0)
    ensures var b' := XAck(b, Some(s.0), Some(s.1));
            WellFormed(b') && !Live(b', s) && forall r: Slot :: r != s ==> (Live(b', r) <==> Live(b, r))
  {
    var b' := XAck(b, Some(s.0), Some(s.1));
    assert forall k :: Cursor(b', k) == Cursor(b, k) && Log(b', k) == Log(b, k);
  }

  const READ_COUNT := 10
  const CLAIM_COUNT := 100

  // The stamped copies of the first n new messages of a stream.
  function Fresh(b: Broker, key: string, n: nat): (r: seq<Task>)
    requires n == 0 || Cursor(b, key) + n <= |Log(b, key)|
    ensures |r| == n
  {
    seq(n, i requires 0 <= i < n => Stamp(Log(b, key)[Cursor(b, key) + i], (key, Cursor(b, key) + i)))
  }

  function Available(b: Broker, key: string): (n: nat)
    ensures n == 0 || Cursor(b, key) + n <= |Log(b, key)|
  {
    if HasNew(b, key) then Min(|Log(b, key)| - Cursor(b, key), READ_COUNT) else 0
  }

  // The group after the next n new messages of a stream were delivered.
  function Advance(b: Broker, key: string, n: nat): (r: Broker)
    requires n == 0 || Cursor(b, key) + n <= |Log(b, key)|
    ensures r.logs == b.logs && Cursor(r, key) == Cursor(b, key) + n
    ensures forall k | k != key :: Cursor(r, k) == Cursor(b, k)
  {
    if n == 0 then b else Deliver(Advance(b, key, n - 1), key)
  }

  function ReadOne(b: Broker, key: string): Broker {
    Advance(b, key, Available(b, key))
  }

  // What one XREADGROUP over the streams of `keys` hands out, and what it does.
  function Batch(b: Broker, keys: seq<string>): seq<Task>
    decreases |keys|
  {
    if keys == [] then [] else Fresh(b, keys[0], Available(b, keys[0])) + Batch(ReadOne(b, keys[0]), keys[1..])
  }

  function ReadEach(b: Broker, keys: seq<string>): Broker
    decreases |keys|
  {
    if keys == [] then b else ReadEach(ReadOne(b, keys[0]), keys[1..])
  }

  lemma DistinctStreams()
    ensures forall i, j | 0 <= i < j < |PRIORITY_STREAMS| :: PRIORITY_STREAMS[i] != PRIORITY_STREAMS[j]
  {
    forall i, j | 0 <= i < j < |PRIORITY_STREAMS|
      ensures PRIORITY_STREAMS[i] != PRIORITY_STREAMS[j]
    {
      assert PRIORITY_STREAMS[i] == QueueName(3 - i) && PRIORITY_STREAMS[j] == QueueName(3 - j);
      QueueNames(3 - i, 3 - j);
    }
  }

  // The task is the new message of a slot its own metadata names.
  ghost predicate RoutedNew(b: Broker, t: Task) {
    && t.streamKey.Some? && t.streamID.Some?
    && var s: Slot := (t.streamKey.value, t.streamID.value);
       Exists(b, s) && s.1 >= Cursor(b, s.0) && t == Stamp(Payload(b, s), s)
  }

  lemma FreshIsRouted(b: Broker, key: string, i: nat)
    requires i < Available(b, key)
    ensures RoutedNew(b, Fresh(b, key, Available(b, key))[i]) && Fresh(b, key, Available(b, key))[i].streamKey == Some(key)
  {
    var s: Slot := (key, Cursor(b, key) + i);
    assert Fresh(b, key, Available(b, key))[i] == Stamp(Payload(b, s), s);
  }

  lemma RoutedEarlier(b: Broker, key: string, t: Task)
    requires RoutedNew(ReadOne(b, key), t)
    ensures RoutedNew(b, t)
  {
    var b' := ReadOne(b, key);
    assert forall k :: Log(b', k) == Log(b, k);
    assert Cursor(b', key) >= Cursor(b, key) && forall k | k != key :: Cursor(b', k) == Cursor(b, k);
    hide ReadOne, Available;
  }

  /** Every copy a poll hands out carries the routing metadata of a slot that
      holds the same task. */
  lemma {:induction false} BatchIsRouted(b: Broker, keys: seq<string>, i: nat)
    requires i < |Batch(b, keys)|
    ensures RoutedNew(b, Batch(b, keys)[i]) && Batch(b, keys)[i].streamKey.value in keys
    decreases |keys|
  {
    var n := Available(b, keys[0]);
    var b' := ReadOne(b, keys[0]);
    if i >= n {
      assert Batch(b, keys)[i] == Batch(b', keys[1..])[i - n];
      BatchIsRouted(b', keys[1..], i - n);
      hide Batch, ReadOne, RoutedNew;
      RoutedEarlier(b, keys[0], Batch(b', keys[1..])[i - n]);
    } else {
      assert Batch(b, keys)[i] == Fresh(b, keys[0], n)[i];
      FreshIsRouted(b, keys[0], i);
    }
  }

  // What XAUTOCLAIM hands over from one stream, in ID order: pending messages
  // idle for long enough, at most `room` of them.
  function Claimable(b: Broker, key: string, idle: set<Slot>, from: nat, room: nat): seq<Task>
    decreases |Log(b, key)| - from
  {
    if room == 0 || from >= |Log(b, key)| then []
    else if (key, from) in b.pel && (key, from) in idle then
      [Stamp(Log(b, key)[from], (key, from))] + Claimable(b, key, idle, from + 1, room - 1)
    else Claimable(b, key, idle, from + 1, room)
  }

  function ClaimBatch(b: Broker, keys: seq<string>, idle: set<Slot>): seq<Task> {
    if keys == [] then [] else Claimable(b, keys[0], idle, 0, CLAIM_COUNT) + ClaimBatch(b, keys[1..], idle)
  }

  /** A reclaimed copy is routed to the pending, idle slot it was taken from. */
  lemma {:induction false} ClaimableIsRouted(b: Broker, key: string, idle: set<Slot>, from: nat, room: nat, i: nat)
    requires i < |Claimable(b, key, idle, from, room)|
    ensures var t := Claimable(b, key, idle, from, room)[i];
            && t.streamKey == Some(key) && t.streamID.Some?
            && var s: Slot := (key, t.streamID.value);
               Exists(b, s) && s in b.pel && s in idle && t == Stamp(Payload(b, s), s)
    decreases |Log(b, key)| - from
  {
    if (key, from) in b.pel && (key, from) in idle {
      if i > 0 {
        assert Claimable(b, key, idle, from, room)[i] == Claimable(b, key, idle, from + 1, room - 1)[i - 1];
        ClaimableIsRouted(b, key, idle, from + 1, room - 1, i - 1);
      }
    } else {
      ClaimableIsRouted(b, key, idle, from + 1, room, i);
    }
  }

  /** Delivering loses no message: none is added, and what is live stays live. */
  ghost predicate SameMessages(b: Broker, b': Broker) {
    && WellFormed(b') && b'.logs == b.logs
    && forall s: Slot :: Live(b, s) <==> Live(b', s)
  }

  // The next n messages of one stream have moved to the pending list.
  ghost predicate Took(b: Broker, b': Broker, key: string, n: nat) {
    && SameMessages(b, b')
    && Cursor(b', key) == Cursor(b, key) + n
    && (forall k | k != key :: Cursor(b', k) == Cursor(b, k))
    && forall s: Slot :: s in b'.pel <==> s in b.pel || (s.0 == key && Cursor(b, key) <= s.1 < Cursor(b', key))
  }

  lemma TookNothing(b: Broker, key: string)
    requires WellFormed(b)
    ensures Took(b, b, key, 0)
  {
    hide Live;
  }

  lemma TookMore(b: Broker, mid: Broker, key: string, n: nat)
    requires Took(b, mid, key, n) && HasNew(mid, key)
    ensures Took(b, Deliver(mid, key), key, n + 1)
  {
    DeliverKeeps(mid, key);
    hide Live, WellFormed;
  }

  lemma {:induction false} AdvanceTook(b: Broker, key: string, n: nat)
    requires WellFormed(b) && (n == 0 || Cursor(b, key) + n <= |Log(b, key)|)
    ensures Took(b, Advance(b, key, n), key, n)
  {
    if n == 0 {
      TookNothing(b, key);
    } else {
      AdvanceTook(b, key, n - 1);
      assert HasNew(Advance(b, key, n - 1), key);
      hide Took, Deliver;
      TookMore(b, Advance(b, key, n - 1), key, n - 1);
    }
  }

  /** Reading loses no message. */
  lemma {:induction false} ReadEachKeeps(b: Broker, keys: seq<string>)
    requires WellFormed(b)
    ensures SameMessages(b, ReadEach(b, keys))
    decreases |keys|
  {
    if keys != [] {
      AdvanceTook(b, keys[0], Available(b, keys[0]));
      hide Live, WellFormed;
      ReadEachKeeps(ReadOne(b, keys[0]), keys[1..]);
    }
  }

  lemma {:induction false} ReadEachElsewhere(b: Broker, keys: seq<string>, key: string)
    requires key !in keys
    ensures ReadEach(b, keys).logs == b.logs && Cursor(ReadEach(b, keys), key) == Cursor(b, key)
    decreases |keys|
  {
    if keys != [] {
      assert keys[0] in keys;
      ReadEachElsewhere(ReadOne(b, keys[0]), keys[1..], key);
    }
  }

  /** Every stream read advances by what was available of it. */
  lemma {:induction false} ReadEachAdvances(b: Broker, keys: seq<string>, i: nat)
    requires i < |keys| && forall i, j | 0 <= i < j < |keys| :: keys[i] != keys[j]
    ensures Cursor(ReadEach(b, keys), keys[i]) == Cursor(b, keys[i]) + Available(b, keys[i])
    decreases |keys|
  {
    var b' := ReadOne(b, keys[0]);
    if i == 0 {
      ReadEachElsewhere(b', keys[1..], keys[0]);
    } else {
      ReadEachAdvances(b', keys[1..], i - 1);
      assert Log(b', keys[i]) == Log(b, keys[i]) && Cursor(b', keys[i]) == Cursor(b, keys[i]);
    }
  }

  // ---- The order and the extent of a poll and a claim ----

  /** t comes from a more urgent stream than u, or from the same one and is older. */
  ghost predicate Sooner(t: Task, u: Task) {
    forall p, q | t.streamKey == Some(QueueName(p)) && u.streamKey == Some(QueueName(q)) ::
      p > q || (p == q && t.streamID.Some? && u.streamID.Some? && t.streamID.value < u.streamID.value)
  }

  // Stream by stream in the order of `keys`, and by ID within a stream.
  ghost predicate ByStream(keys: seq<string>, t: Task, u: Task) {
    exists k, l | 0 <= k <= l < |keys| ::
      && t.streamKey == Some(keys[k]) && u.streamKey == Some(keys[l])
      && (k == l ==> t.streamID.Some? && u.streamID.Some? && t.streamID.value < u.streamID.value)
  }

  lemma ByStreamHere(keys: seq<string>, t: Task, u: Task)
    requires keys != [] && t.streamKey == u.streamKey == Some(keys[0])
    requires t.streamID.Some? && u.streamID.Some? && t.streamID.value < u.streamID.value
    ensures ByStream(keys, t, u)
  {
  }

  lemma ByStreamLater(keys: seq<string>, t: Task, u: Task)
    requires keys != [] && ByStream(keys[1..], t, u)
    ensures ByStream(keys, t, u)
  {
    var k, l :| 0 <= k <= l < |keys| - 1 && t.streamKey == Some(keys[1..][k]) && u.streamKey == Some(keys[1..][l])
                && (k == l ==> t.streamID.Some? && u.streamID.Some? && t.streamID.value < u.streamID.value);
    assert keys[1..][k] == keys[k + 1] && keys[1..][l] == keys[l + 1];
  }

  lemma ByStreamSplit(keys: seq<string>, t: Task, u: Task)
    requires keys != [] && t.streamKey == Some(keys[0]) && u.streamKey.Some? && u.streamKey.value in keys[1..]
    ensures ByStream(keys, t, u)
  {
    var l :| 0 <= l < |keys| - 1 && keys[1..][l] == u.streamKey.value;
    assert keys[l + 1] == keys[1..][l];
  }

  lemma UrgentFirst(t: Task, u: Task)
    requires ByStream(PRIORITY_STREAMS, t, u)
    ensures Sooner(t, u)
  {
    var k, l :| 0 <= k <= l < |PRIORITY_STREAMS| && t.streamKey == Some(PRIORITY_STREAMS[k]) && u.streamKey == Some(PRIORITY_STREAMS[l])
                && (k == l ==> t.streamID.Some? && u.streamID.Some? && t.streamID.value < u.streamID.value);
    forall p, q | t.streamKey == Some(QueueName(p)) && u.streamKey == Some(QueueName(q))
      ensures p == 3 - k && q == 3 - l
    {
      QueueNames(3 - k, p);
      QueueNames(3 - l, q);
    }
  }

  lemma FreshAt(b: Broker, key: string, n: nat, i: nat)
    requires i < n && Cursor(b, key) + n <= |Log(b, key)|
    ensures Fresh(b, key, n)[i] == Stamp(Log(b, key)[Cursor(b, key) + i], (key, Cursor(b, key) + i))
  {
  }

  // New or pending messages of one stream, by ID.
  ghost predicate OfStream(key: string, ts: seq<Task>) {
    && (forall i | 0 <= i < |ts| :: ts[i].streamKey == Some(key) && ts[i].streamID.Some?)
    && (forall i, j | 0 <= i < j < |ts| :: ts[i].streamID.value < ts[j].streamID.value)
  }

  ghost predicate Arranged(keys: seq<string>, ts: seq<Task>) {
    && (forall i | 0 <= i < |ts| :: ts[i].streamKey.Some? && ts[i].streamKey.value in keys)
    && (forall i, j | 0 <= i < j < |ts| :: ByStream(keys, ts[i], ts[j]))
  }

  lemma Arrange(keys: seq<string>, front: seq<Task>, rest: seq<Task>)
    requires keys != [] && OfStream(keys[0], front) && Arranged(keys[1..], rest)
    ensures Arranged(keys, front + rest)
  {
    hide ByStream;
    var n, ts := |front|, front + rest;
    forall i, j | 0 <= i < j < |ts|
      ensures ByStream(keys, ts[i], ts[j])
    {
      if j < n {
        ByStreamHere(keys, front[i], front[j]);
      } else if i < n {
        ByStreamSplit(keys, front[i], rest[j - n]);
      } else {
        ByStreamLater(keys, rest[i - n], rest[j - n]);
      }
    }
  }

  lemma FreshOfStream(b: Broker, key: string, n: nat)
    requires n == 0 || Cursor(b, key) + n <= |Log(b, key)|
    ensures OfStream(key, Fresh(b, key, n))
  {
    forall i | 0 <= i < n
      ensures Fresh(b, key, n)[i] == Stamp(Log(b, key)[Cursor(b, key) + i], (key, Cursor(b, key) + i))
    {
      FreshAt(b, key, n, i);
    }
    hide Fresh;
  }

  lemma {:induction false} BatchArranged(b: Broker, keys: seq<string>)
    ensures Arranged(keys, Batch(b, keys))
    decreases |keys|
  {
    if keys != [] {
      FreshOfStream(b, keys[0], Available(b, keys[0]));
      hide Arranged, OfStream, Fresh;
      BatchArranged(ReadOne(b, keys[0]), keys[1..]);
      Arrange(keys, Fresh(b, keys[0], Available(b, keys[0])), Batch(ReadOne(b, keys[0]), keys[1..]));
    }
  }

  lemma {:induction false} BatchWindow(b: Broker, keys: seq<string>, s: Slot)
    requires s.0 in keys && forall i, j | 0 <= i < j < |keys| :: keys[i] != keys[j]
    requires Exists(b, s) && Cursor(b, s.0) <= s.1
    ensures Stamp(Payload(b, s), s) in Batch(b, keys) <==> s.1 < Cursor(b, s.0) + 10
    decreases |keys|
  {
    var key := keys[0];
    var n, b' := Available(b, key), ReadOne(b, key);
    var t := Stamp(Payload(b, s), s);
    var first, rest := Fresh(b, key, n), Batch(b', keys[1..]);
    assert Batch(b, keys) == first + rest;
    if s.0 == key {
      BatchArranged(b', keys[1..]);
      assert t !in rest;
      forall i | 0 <= i < n
        ensures first[i] == Stamp(Log(b, key)[Cursor(b, key) + i], (key, Cursor(b, key) + i))
      {
        FreshAt(b, key, n, i);
      }
      if s.1 < Cursor(b, key) + 10 {
        assert first[s.1 - Cursor(b, key)] == t;
      }
    } else {
      assert Log(b', s.0) == Log(b, s.0) && Cursor(b', s.0) == Cursor(b, s.0);
      forall i | 0 <= i < n
        ensures first[i].streamKey == Some(key)
      {
        FreshAt(b, key, n, i);
      }
      assert s.0 in keys[1..];
      hide ReadOne, Available, Fresh;
      BatchWindow(b', keys[1..], s);
    }
  }

  /** What one poll hands out: of each stream the new messages with the ten
      lowest IDs and no other, everything of a more urgent stream before anything
      of a less urgent one, and older messages of a stream first. */
  lemma PollWindow(b: Broker, s: Slot, i: nat, j: nat)
    requires s.0 in PRIORITY_STREAMS && Exists(b, s) && Cursor(b, s.0) <= s.1
    ensures Stamp(Payload(b, s), s) in Batch(b, PRIORITY_STREAMS) <==> s.1 < Cursor(b, s.0) + 10
    ensures i < j < |Batch(b, PRIORITY_STREAMS)| ==> Sooner(Batch(b, PRIORITY_STREAMS)[i], Batch(b, PRIORITY_STREAMS)[j])
  {
    DistinctStreams();
    BatchWindow(b, PRIORITY_STREAMS, s);
    BatchArranged(b, PRIORITY_STREAMS);
    if i < j < |Batch(b, PRIORITY_STREAMS)| {
      UrgentFirst(Batch(b, PRIORITY_STREAMS)[i], Batch(b, PRIORITY_STREAMS)[j]);
    }
  }

  // What a claim hands over lies at or behind `from`, in ID order.
  lemma {:induction false} ClaimableOrder(b: Broker, key: string, idle: set<Slot>, from: nat, room: nat, i: nat, j: nat)
    requires i < j < |Claimable(b, key, idle, from, room)|
    ensures var c := Claimable(b, key, idle, from, room);
            && c[i].streamKey == c[j].streamKey == Some(key) && c[i].streamID.Some? && c[j].streamID.Some?
            && from <= c[i].streamID.value < c[j].streamID.value
    decreases |Log(b, key)| - from
  {
    if (key, from) in b.pel && (key, from) in idle {
      var rest := Claimable(b, key, idle, from + 1, room - 1);
      assert Claimable(b, key, idle, from, room)[j] == rest[j - 1];
      if i > 0 {
        ClaimableOrder(b, key, idle, from + 1, room - 1, i - 1, j - 1);
      } else {
        ClaimableFrom(b, key, idle, from + 1, room - 1, j - 1);
      }
    } else {
      ClaimableOrder(b, key, idle, from + 1, room, i, j);
    }
  }

  lemma {:induction false} ClaimableFrom(b: Broker, key: string, idle: set<Slot>, from: nat, room: nat, i: nat)
    requires i < |Claimable(b, key, idle, from, room)|
    ensures var t := Claimable(b, key, idle, from, room)[i];
            t.streamKey == Some(key) && t.streamID.Some? && from <= t.streamID.value
    decreases |Log(b, key)| - from
  {
    if (key, from) in b.pel && (key, from) in idle {
      if i > 0 {
        ClaimableFrom(b, key, idle, from + 1, room - 1, i - 1);
      }
    } else {
      ClaimableFrom(b, key, idle, from + 1, room, i);
    }
  }

  // A pending idle message is left only for `room` older ones.
  lemma {:induction false} ClaimableComplete(b: Broker, key: string, idle: set<Slot>, from: nat, room: nat, n: nat)
    requires from <= n < |Log(b, key)| && (key, n) in b.pel && (key, n) in idle
    ensures var c := Claimable(b, key, idle, from, room);
            && |c| <= room
            && (Stamp(Log(b, key)[n], (key, n)) in c
                || (|c| == room && forall i | 0 <= i < |c| :: c[i].streamID.Some? && c[i].streamID.value < n))
    decreases |Log(b, key)| - from
  {
    if room > 0 {
      var c := Claimable(b, key, idle, from, room);
      if (key, from) in b.pel && (key, from) in idle {
        var rest := Claimable(b, key, idle, from + 1, room - 1);
        assert c == [Stamp(Log(b, key)[from], (key, from))] + rest;
        if from < n {
          ClaimableComplete(b, key, idle, from + 1, room - 1, n);
        } else {
          ClaimableFew(b, key, idle, from + 1, room - 1);
        }
      } else {
        ClaimableComplete(b, key, idle, from + 1, room, n);
      }
    }
  }

  lemma {:induction false} ClaimableFew(b: Broker, key: string, idle: set<Slot>, from: nat, room: nat)
    ensures |Claimable(b, key, idle, from, room)| <= room
    decreases |Log(b, key)| - from
  {
    if room > 0 && from < |Log(b, key)| {
      if (key, from) in b.pel && (key, from) in idle {
        ClaimableFew(b, key, idle, from + 1, room - 1);
      } else {
        ClaimableFew(b, key, idle, from + 1, room);
      }
    }
  }

  lemma {:induction false} ClaimArranged(b: Broker, keys: seq<string>, idle: set<Slot>)
    ensures Arranged(keys, ClaimBatch(b, keys, idle))
  {
    if keys != [] {
      var first := Claimable(b, keys[0], idle, 0, CLAIM_COUNT);
      hide Claimable;
      ClaimArranged(b, keys[1..], idle);
      forall i | 0 <= i < |first|
        ensures first[i].streamKey == Some(keys[0]) && first[i].streamID.Some?
      {
        ClaimableFrom(b, keys[0], idle, 0, CLAIM_COUNT, i);
      }
      forall i, j | 0 <= i < j < |first|
        ensures first[i].streamID.value < first[j].streamID.value
      {
        ClaimableOrder(b, keys[0], idle, 0, CLAIM_COUNT, i, j);
      }
      assert OfStream(keys[0], first);
      hide Arranged, OfStream;
      Arrange(keys, first, ClaimBatch(b, keys[1..], idle));
    }
  }

  lemma {:induction false} ClaimHolds(b: Broker, keys: seq<string>, idle: set<Slot>, key: string)
    requires key in keys
    ensures forall t | t in Claimable(b, key, idle, 0, CLAIM_COUNT) :: t in ClaimBatch(b, keys, idle)
    decreases |keys|
  {
    hide Claimable;
    if key != keys[0] {
      ClaimHolds(b, keys[1..], idle, key);
    }
  }

  /** How far a claim goes: a pending message idle for long enough is claimed
      unless a hundred older ones of its stream are, and the order is that of a
      poll. */
  lemma ClaimWindow(b: Broker, idle: set<Slot>, s: Slot, i: nat, j: nat)
    requires s.0 in PRIORITY_STREAMS && Exists(b, s) && s in b.pel && s in idle
    ensures var claimed := ClaimBatch(b, PRIORITY_STREAMS, idle);
            var older := Claimable(b, s.0, idle, 0, CLAIM_COUNT);
            || Stamp(Payload(b, s), s) in claimed
            || (&& |older| == 100
                && forall k | 0 <= k < |older| :: older[k] in claimed && older[k].streamID.Some? && older[k].streamID.value < s.1)
    ensures i < j < |ClaimBatch(b, PRIORITY_STREAMS, idle)| ==>
              Sooner(ClaimBatch(b, PRIORITY_STREAMS, idle)[i], ClaimBatch(b, PRIORITY_STREAMS, idle)[j])
  {
    ClaimableComplete(b, s.0, idle, 0, CLAIM_COUNT, s.1);
    ClaimHolds(b, PRIORITY_STREAMS, idle, s.0);
    ClaimArranged(b, PRIORITY_STREAMS, idle);
    hide Claimable, ClaimBatch;
    if i < j < |ClaimBatch(b, PRIORITY_STREAMS, idle)| {
      UrgentFirst(ClaimBatch(b, PRIORITY_STREAMS, idle)[i], ClaimBatch(b, PRIORITY_STREAMS, idle)[j]);
    }
  }

  lemma Regroup(x: seq<Task>, y: seq<Task>, z: seq<Task>)
    ensures x + (y + z) == (x + y) + z
  {
  }

  // The task's routing metadata names the slot.
  predicate Names(t: Task, s: Slot) {
    t.streamKey == Some(s.0) && t.streamID == Some(s.1)
  }

  /** RedisConsumer over the broker. */
  class Consumer {
    var broker: Broker

    constructor (broker: Broker)
      ensures this.broker == broker
    {
      this.broker := broker;
    }

    method ReadStream(key: string) returns (tasks: seq<Task>)
      requires WellFormed(broker)
      modifies this
      ensures tasks == Fresh(old(broker), key, Available(old(broker), key))
      ensures broker == ReadOne(old(broker), key) && Took(old(broker), broker, key, |tasks|)
    {
      hide Took, WellFormed;
      var n := Available(broker, key);
      tasks := [];
      ghost var b0 := broker;
      AdvanceTook(b0, key, n);
      while |tasks| < n
        invariant |tasks| <= n
        invariant tasks == Fresh(b0, key, n)[..|tasks|]
        invariant broker == Advance(b0, key, |tasks|)
      {
        var slot: Slot := (key, Cursor(broker, key));
        assert Payload(broker, slot) == Log(b0, key)[Cursor(b0, key) + |tasks|];
        assert Deliver(broker, key) == Advance(b0, key, |tasks| + 1);
        hide Deliver, Advance, Log, Cursor;
        tasks := tasks + [Stamp(Payload(broker, slot), slot)];
        broker := Deliver(broker, key);
      }
    }

    method ReadAll(keys: seq<string>) returns (tasks: seq<Task>)
      requires WellFormed(broker)
      modifies this
      ensures tasks == Batch(old(broker), keys) && broker == ReadEach(old(broker), keys)
    {
      tasks := [];
      var i := 0;
      assert keys[0..] == keys;
      while i < |keys|
        invariant 0 <= i <= |keys| && WellFormed(broker)
        invariant tasks + Batch(broker, keys[i..]) == Batch(old(broker), keys)
        invariant ReadEach(broker, keys[i..]) == ReadEach(old(broker), keys)
      {
        ghost var b := broker;
        var read := ReadStream(keys[i]);
        assert keys[i..][1..] == keys[i + 1..];
        assert Batch(b, keys[i..]) == read + Batch(broker, keys[i + 1..]);
        Regroup(tasks, read, Batch(broker, keys[i + 1..]));
        assert ReadEach(b, keys[i..]) == ReadEach(broker, keys[i + 1..]) && WellFormed(broker);
        hide Fresh, Available, Cursor, Batch, WellFormed, ReadOne, ReadEach, Took;
        tasks := tasks + read;
        i := i + 1;
      }
    }

    /** One pass of pollLoop: up to READ_COUNT new messages of every stream, most
        urgent stream first, each copy stamped with the slot it came from; without
        a reply there are none, whatever was delivered. */
    method Poll(reply: Reply) returns (tasks: seq<Task>)
      requires WellFormed(broker)
      modifies this
      ensures tasks == if reply == Done then Batch(old(broker), PRIORITY_STREAMS) else []
      ensures broker == if reply.Ran() then ReadEach(old(broker), PRIORITY_STREAMS) else old(broker)
      ensures WellFormed(broker) && broker.logs == old(broker).logs && forall s: Slot :: Live(old(broker), s) <==> Live(broker, s)
      ensures reply.Ran() ==> forall i | 0 <= i < 4 ::
                Cursor(broker, PRIORITY_STREAMS[i]) == Cursor(old(broker), PRIORITY_STREAMS[i]) + Available(old(broker), PRIORITY_STREAMS[i])
    {
      tasks := [];
      if reply.Ran() {
        ReadEachKeeps(broker, PRIORITY_STREAMS);
        DistinctStreams();
        forall i | 0 <= i < 4
          ensures Cursor(ReadEach(broker, PRIORITY_STREAMS), PRIORITY_STREAMS[i]) == Cursor(broker, PRIORITY_STREAMS[i]) + Available(broker, PRIORITY_STREAMS[i])
        {
          ReadEachAdvances(broker, PRIORITY_STREAMS, i);
        }
        hide ReadEach, Batch, Live, Available, Cursor;
        var read := ReadAll(PRIORITY_STREAMS);
        tasks := if reply == Done then read else [];
      }
    }

    method ClaimStream(key: string, idle: set<Slot>) returns (taken: seq<Task>)
      ensures taken == Claimable(broker, key, idle, 0, CLAIM_COUNT)
    {
      var log := Log(broker, key);
      var n := 0;
      taken := [];
      while n < |log| && |taken| < CLAIM_COUNT
        invariant 0 <= n <= |log| && |taken| <= CLAIM_COUNT
        invariant taken + Claimable(broker, key, idle, n, CLAIM_COUNT - |taken|) == Claimable(broker, key, idle, 0, CLAIM_COUNT)
      {
        if (key, n) in broker.pel && (key, n) in idle {
          taken := taken + [Stamp(log[n], (key, n))];
        }
        n := n + 1;
      }
    }

    /** XAUTOCLAIM on every stream in turn; `replies` says what came of each.  The
        first error ends the call and discards what was claimed before. */
    method ClaimAll(keys: seq<string>, idle: set<Slot>, replies: nat -> Reply) returns (claimed: seq<Task>, failed: bool)
      ensures failed <==> exists i | 0 <= i < |keys| :: replies(i) != Done
      ensures claimed == if failed then [] else ClaimBatch(broker, keys, idle)
    {
      claimed, failed := [], false;
      var i := 0;
      assert keys[0..] == keys;
      while i < |keys|
        invariant 0 <= i <= |keys| && forall j | 0 <= j < i :: replies(j) == Done
        invariant claimed + ClaimBatch(broker, keys[i..], idle) == ClaimBatch(broker, keys, idle)
      {
        if replies(i) != Done { return [], true; }
        var taken := ClaimStream(keys[i], idle);
        assert keys[i..][1..] == keys[i + 1..];
        claimed := claimed + taken;
        i := i + 1;
      }
    }

    /** ClaimStale: `idle` are the slots idle beyond the threshold.  The pending
        list keeps them; only their owner and idle time change. */
    method ClaimStale(idle: set<Slot>, replies: nat -> Reply) returns (claimed: seq<Task>, failed: bool)
      ensures failed <==> exists i | 0 <= i < 4 :: replies(i) != Done
      ensures claimed == if failed then [] else ClaimBatch(broker, PRIORITY_STREAMS, idle)
    {
      claimed, failed := ClaimAll(PRIORITY_STREAMS, idle, replies);
    }

    /** Acknowledge routes by the task's own metadata: the slot named there leaves
        the pending list, and so circulation if it was delivered; every other
        message, pending or not, stays as it was. */
    method Acknowledge(task: Task, reply: Reply) returns (failed: bool)
      modifies this
      ensures broker.logs == old(broker).logs && broker.cursors == old(broker).cursors
      ensures forall s: Slot :: s in broker.pel <==> s in old(broker).pel && !(reply.Ran() && Names(task, s))
      ensures forall s: Slot | !Names(task, s) :: Live(broker, s) <==> Live(old(broker), s)
      ensures forall s: Slot | Names(task, s) && reply.Ran() && s.1 < Cursor(broker, s.0) :: !Live(broker, s)
      ensures failed <==> reply != Done
    {
      failed := reply != Done;
      if reply.Ran() {
        broker := XAck(broker, task.streamKey, task.streamID);
      }
    }
  }
}
