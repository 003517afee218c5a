// Several XADDs in one pipeline, as EnqueueBatch and FlushReady send them.  A
// pipeline is no transaction: the server may carry out any of its commands.

module Pipeline {
  import opened Wrappers
  import opened Domain
  import opened Network
  import opened Streams

  // The XADDs of a pipeline that the server carries out.
  function Moved(b: Broker, ts: seq<Task>, replies: nat -> Reply): Broker {
    if ts == [] then b
    else
      var n := |ts| - 1;
      var before := Moved(b, ts[..n], replies);
      if replies(n).Ran() then XAdd(before, QueueName(ts[n].priority), ts[n]) else before
  }

  // The tasks of one priority stream, in order.
  function ForStream(ts: seq<Task>, key: string): seq<Task> {
    if ts == [] then []
    else
      var n := |ts| - 1;
      ForStream(ts[..n], key) + if QueueName(ts[n].priority) == key then [ts[n]] else []
  }

  lemma {:induction false} MovedAll(b: Broker, ts: seq<Task>, replies: nat -> Reply, key: string)
    requires forall i | 0 <= i < |ts| :: replies(i).Ran()
    ensures Log(Moved(b, ts, replies), key) == Log(b, key) + ForStream(ts, key)
  {
    if ts != [] {
      MovedAll(b, ts[..|ts| - 1], replies, key);
    }
  }

  lemma {:induction false} MovedFrame(b: Broker, ts: seq<Task>, replies: nat -> Reply, key: string)
    ensures Log(b, key) <= Log(Moved(b, ts, replies), key)
    ensures Moved(b, ts, replies).cursors == b.cursors && Moved(b, ts, replies).pel == b.pel
  {
    if ts != [] {
      MovedFrame(b, ts[..|ts| - 1], replies, key);
    }
  }

  // t is behind the old end of its own stream.
  ghost predicate Appended(b: Broker, b': Broker, t: Task) {
    var key := QueueName(t.priority);
    exists j | |Log(b, key)| <= j < |Log(b', key)| :: Log(b', key)[j] == t
  }

  lemma AppendedStays(b: Broker, mid: Broker, b': Broker, t: Task)
    requires Appended(b, mid, t) && forall key :: Log(mid, key) <= Log(b', key)
    ensures Appended(b, b', t)
  {
    hide QueueName;
    var key := QueueName(t.priority);
    var j :| |Log(b, key)| <= j < |Log(mid, key)| && Log(mid, key)[j] == t;
    assert Log(mid, key) <= Log(b', key);
    assert Log(b', key)[j] == t;
  }

  // A carried-out XADD leaves its task there.
  lemma {:induction false} MovedHolds(b: Broker, ts: seq<Task>, replies: nat -> Reply, i: nat)
    requires i < |ts| && replies(i).Ran()
    ensures Appended(b, Moved(b, ts, replies), ts[i])
  {
    hide QueueName;
    var n := |ts| - 1;
    var before := Moved(b, ts[..n], replies);
    if i < n {
      MovedHolds(b, ts[..n], replies, i);
      AppendedStays(b, before, Moved(b, ts, replies), ts[i]);
    } else {
      var key := QueueName(ts[i].priority);
      MovedFrame(b, ts[..n], replies, key);
      assert Log(Moved(b, ts, replies), key)[|Log(before, key)|] == ts[i];
    }
  }

  // Only the tasks of carried-out XADDs are appended.
  lemma {:induction false} MovedOnly(b: Broker, ts: seq<Task>, replies: nat -> Reply, key: string, j: nat)
    requires |Log(b, key)| <= j < |Log(Moved(b, ts, replies), key)|
    ensures exists i | 0 <= i < |ts| :: replies(i).Ran() && Log(Moved(b, ts, replies), key)[j] == ts[i] && QueueName(ts[i].priority) == key
  {
    hide QueueName;
    var n := |ts| - 1;
    var before := Moved(b, ts[..n], replies);
    if j < |Log(before, key)| {
      MovedOnly(b, ts[..n], replies, key, j);
      var i :| 0 <= i < n && replies(i).Ran() && Log(before, key)[j] == ts[..n][i] && QueueName(ts[..n][i].priority) == key;
      assert ts[i] == ts[..n][i];
    } else {
      assert Log(Moved(b, ts, replies), key)[j] == ts[n];
    }
  }

  lemma NotAppended(b: Broker, ts: seq<Task>, replies: nat -> Reply, i: nat)
    requires i < |ts| && !replies(i).Ran() && forall x, y | 0 <= x < y < |ts| :: ts[x] != ts[y]
    ensures !Appended(b, Moved(b, ts, replies), ts[i])
  {
    var key := QueueName(ts[i].priority);
    hide QueueName, Moved;
    forall j | |Log(b, key)| <= j < |Log(Moved(b, ts, replies), key)|
      ensures Log(Moved(b, ts, replies), key)[j] != ts[i]
    {
      MovedOnly(b, ts, replies, key, j);
    }
  }

  // The tasks whose XADD the server carried out.
  function Written(ts: seq<Task>, replies: nat -> Reply): seq<Task> {
    if ts == [] then []
    else
      var n := |ts| - 1;
      Written(ts[..n], replies) + if replies(n).Ran() then [ts[n]] else []
  }

  lemma ForStreamAppend(ts: seq<Task>, t: Task, key: string)
    ensures ForStream(ts + [t], key) == ForStream(ts, key) + if QueueName(t.priority) == key then [t] else []
  {
    hide QueueName;
    assert (ts + [t])[..|ts|] == ts;
  }

  lemma XAddLog(b: Broker, t: Task, key: string)
    ensures Log(XAdd(b, QueueName(t.priority), t), key) == Log(b, key) + if QueueName(t.priority) == key then [t] else []
  {
    hide QueueName;
  }

  /** A stream grows by the written tasks of its own priority, in batch order,
      and by nothing else. */
  lemma {:induction false} MovedWritten(b: Broker, ts: seq<Task>, replies: nat -> Reply, key: string)
    ensures Log(Moved(b, ts, replies), key) == Log(b, key) + ForStream(Written(ts, replies), key)
  {
    if ts != [] {
      var n := |ts| - 1;
      var before, w := Moved(b, ts[..n], replies), Written(ts[..n], replies);
      var more := if QueueName(ts[n].priority) == key then [ts[n]] else [];
      MovedWritten(b, ts[..n], replies, key);
      XAddLog(before, ts[n], key);
      ForStreamAppend(w, ts[n], key);
      hide QueueName, ForStream, XAdd, Log;
      if replies(n).Ran() {
        assert Log(b, key) + ForStream(w, key) + more == Log(b, key) + (ForStream(w, key) + more);
      } else {
        assert Written(ts, replies) == w;
      }
    }
  }

  // What was appended stays where it is while a log grows.
  lemma StaysAhead(start: seq<Task>, mid: seq<Task>, end: seq<Task>, t: Task, u: Task)
    requires start <= mid <= end && Precedes(mid[|start|..], t, u)
    ensures Precedes(end[|start|..], t, u)
  {
    var x, y := mid[|start|..], end[|start|..];
    var i, j :| 0 <= i < j < |x| && x[i] == t && x[j] == u;
    assert y[i] == x[i] && y[j] == x[j];
  }

  /** Tasks of the same priority enter their stream in the order of the batch. */
  lemma {:induction false} MovedInOrder(b: Broker, ts: seq<Task>, replies: nat -> Reply, i: nat, j: nat)
    requires i < j < |ts| && replies(i).Ran() && replies(j).Ran() && ts[i].priority == ts[j].priority
    ensures var key := QueueName(ts[i].priority);
            var start, end := Log(b, key), Log(Moved(b, ts, replies), key);
            start <= end && Precedes(end[|start|..], ts[i], ts[j])
  {
    hide QueueName;
    var n := |ts| - 1;
    var key := QueueName(ts[i].priority);
    var start, mid, end := Log(b, key), Log(Moved(b, ts[..n], replies), key), Log(Moved(b, ts, replies), key);
    MovedFrame(b, ts, replies, key);
    MovedFrame(b, ts[..n], replies, key);
    assert mid <= end;
    if j < n {
      MovedInOrder(b, ts[..n], replies, i, j);
      StaysAhead(start, mid, end, ts[i], ts[j]);
    } else {
      MovedHolds(b, ts[..n], replies, i);
      assert end == mid + [ts[j]];
      var k :| |start| <= k < |mid| && mid[k] == ts[i];
      var tail := end[|start|..];
      assert tail[k - |start|] == ts[i] && tail[|mid| - |start|] == ts[j];
    }
  }

  lemma {:induction false} StreamHolds(ts: seq<Task>, key: string, t: Task)
    ensures t in ForStream(ts, key) <==> t in ts && QueueName(t.priority) == key
  {
    hide QueueName;
    if ts != [] {
      StreamHolds(ts[..|ts| - 1], key, t);
    }
  }

  lemma {:induction false} StreamDistinct(ts: seq<Task>, key: string)
    requires forall i, j | 0 <= i < j < |ts| :: ts[i] != ts[j]
    ensures forall i, j | 0 <= i < j < |ForStream(ts, key)| :: ForStream(ts, key)[i] != ForStream(ts, key)[j]
  {
    hide QueueName;
    if ts != [] {
      StreamDistinct(ts[..|ts| - 1], key);
      StreamHolds(ts[..|ts| - 1], key, ts[|ts| - 1]);
    }
  }
}
