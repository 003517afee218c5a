// What a flush of the retry set does, without failures, with a broken
// connection, and with single commands refused.

module FlushReady {
  import opened Wrappers
  import opened Domain
  import opened Network
  import opened Streams
  import opened Pipeline
  import opened RetryScheduler
  import Protocol

  // ---- The two halves of a batch ----

  lemma {:induction false} BatchSplits(z: seq<Entry>, m: Member)
    ensures Has(z, m) <==> (m.Good? && m.task in Goods(z)) || (m.Corrupt? && m.raw in Corrupts(z))
  {
    if z != [] {
      BatchSplits(z[..|z| - 1], m);
      if Has(z, m) {
        var i :| 0 <= i < |z| && z[i].member == m;
        assert i < |z| - 1 ==> z[..|z| - 1][i].member == m;
      }
      if Has(z[..|z| - 1], m) {
        var i :| 0 <= i < |z| - 1 && z[..|z| - 1][i].member == m;
        assert z[i].member == m;
      }
    }
  }

  lemma {:induction false} GoodsDistinct(z: seq<Entry>)
    requires ZSet(z)
    ensures forall i, j | 0 <= i < j < |Goods(z)| :: Goods(z)[i] != Goods(z)[j]
  {
    if z != [] {
      var y := z[..|z| - 1];
      var m := z[|z| - 1].member;
      GoodsDistinct(y);
      BatchSplits(y, m);
      forall i | 0 <= i < |y|
        ensures y[i].member != m
      {
        assert y[i] == z[i];
      }
    }
  }

  // ---- ZREM ----

  lemma {:induction false} WithoutHas(z: seq<Entry>, gone: set<Member>, m: Member)
    ensures Has(Without(z, gone), m) <==> Has(z, m) && m !in gone
  {
    if z != [] {
      var y := z[..|z| - 1];
      var rest := Without(y, gone);
      WithoutHas(y, gone, m);
      assert Has(z, m) <==> Has(y, m) || z[|z| - 1].member == m by {
        if Has(z, m) {
          var i :| 0 <= i < |z| && z[i].member == m;
          assert i < |y| ==> y[i].member == m;
        }
        if Has(y, m) {
          var i :| 0 <= i < |y| && y[i].member == m;
          assert z[i].member == m;
        }
      }
      if z[|z| - 1].member !in gone {
        var all := rest + [z[|z| - 1]];
        assert Has(all, m) <==> Has(rest, m) || z[|z| - 1].member == m by {
          if Has(all, m) {
            var i :| 0 <= i < |all| && all[i].member == m;
            assert i < |rest| ==> rest[i].member == m;
          }
          if Has(rest, m) {
            var i :| 0 <= i < |rest| && rest[i].member == m;
            assert all[i].member == m;
          }
          assert all[|rest|].member == z[|z| - 1].member;
        }
      }
    }
  }

  lemma {:induction false} WithoutConcat(y: seq<Entry>, z: seq<Entry>, gone: set<Member>)
    ensures Without(y + z, gone) == Without(y, gone) + Without(z, gone)
  {
    if z == [] {
      assert y + z == y;
    } else {
      assert (y + z)[..|y + z| - 1] == y + z[..|z| - 1];
      WithoutConcat(y, z[..|z| - 1], gone);
    }
  }

  lemma {:induction false} WithoutNone(z: seq<Entry>, gone: set<Member>)
    requires forall i | 0 <= i < |z| :: z[i].member !in gone
    ensures Without(z, gone) == z
  {
    if z != [] {
      WithoutNone(z[..|z| - 1], gone);
    }
  }

  lemma {:induction false} WithoutAll(z: seq<Entry>, gone: set<Member>)
    requires forall i | 0 <= i < |z| :: z[i].member in gone
    ensures Without(z, gone) == []
  {
    if z != [] {
      WithoutAll(z[..|z| - 1], gone);
    }
  }

  // Two removals are one.
  lemma {:induction false} WithoutTwice(z: seq<Entry>, a: set<Member>, b: set<Member>)
    ensures Without(Without(z, a), b) == Without(z, a + b)
  {
    if z != [] {
      var y := z[..|z| - 1];
      WithoutTwice(y, a, b);
      if z[|z| - 1].member !in a {
        var rest := Without(y, a);
        assert (rest + [z[|z| - 1]])[..|rest|] == rest;
      }
    }
  }

  // ---- No failures ----

  ghost predicate AllRan(replies: nat -> Reply, n: nat) {
    forall i | 0 <= i <= n :: replies(i).Ran()
  }

  lemma {:induction false} PushedAll(raws: seq<string>, replies: nat -> Reply)
    requires forall i | 0 <= i < |raws| :: replies(i).Ran()
    ensures Pushed(raws, replies) == raws
  {
    if raws != [] {
      PushedAll(raws[..|raws| - 1], replies);
    }
  }

  // The members of the first n, and of no later one.
  lemma BatchMembers(z: seq<Entry>, n: nat, i: nat)
    requires ZSet(z) && n <= |z| && i < |z|
    ensures var gone := CorruptMembers(Corrupts(z[..n])) + GoodMembers(Goods(z[..n]));
            z[i].member in gone <==> i < n
  {
    BatchSplits(z[..n], z[i].member);
    hide Goods, Corrupts;
    assert Has(z[..n], z[i].member) <==> i < n by {
      if i < n {
        assert z[..n][i].member == z[i].member;
      } else {
        assert forall j | 0 <= j < n :: z[..n][j] == z[j] && z[j].member != z[i].member;
      }
    }
  }

  lemma {:induction false} WithoutFirst(z: seq<Entry>, gone: set<Member>, n: nat)
    requires n <= |z| && forall i | 0 <= i < |z| :: z[i].member in gone <==> i < n
    ensures Without(z, gone) == z[n..]
  {
    if n == |z| {
      WithoutAll(z, gone);
    } else {
      WithoutFirst(z[..|z| - 1], gone, n);
    }
  }

  lemma WholeBatch(z: seq<Entry>, n: nat)
    requires ZSet(z) && n <= |z|
    ensures Without(z, CorruptMembers(Corrupts(z[..n])) + GoodMembers(Goods(z[..n]))) == z[n..]
  {
    var gone := CorruptMembers(Corrupts(z[..n])) + GoodMembers(Goods(z[..n]));
    hide ZSet, Goods, Corrupts, CorruptMembers, GoodMembers, Without;
    forall i | 0 <= i < |z|
      ensures z[i].member in gone <==> i < n
    {
      BatchMembers(z, n, i);
    }
    WithoutFirst(z, gone, n);
  }

  ghost predicate Clean(s: Store, now: int, quarantine: nat -> Reply, transfer: nat -> Reply) {
    var batch := s.zset[..BatchSize(s.zset, now)];
    AllRan(quarantine, |Corrupts(batch)|) && AllRan(transfer, |Goods(batch)|)
  }

  // The members the two ZREMs of a flush take out.
  function Removed(z: seq<Entry>, n: nat, quarantine: nat -> Reply, transfer: nat -> Reply): set<Member>
    requires n <= |z|
  {
    var raws, ts := Corrupts(z[..n]), Goods(z[..n]);
    (if quarantine(|raws|).Ran() then CorruptMembers(raws) else {}) + (if transfer(|ts|).Ran() then GoodMembers(ts) else {})
  }

  // An absent pipeline is one that removes nothing.
  lemma Removals(z: seq<Entry>, raws: seq<string>, ts: seq<Task>, q: bool, t: bool)
    ensures var y := if raws == [] || !q then z else Without(z, CorruptMembers(raws));
            (if ts == [] || !t then y else Without(y, GoodMembers(ts)))
            == Without(z, (if q then CorruptMembers(raws) else {}) + (if t then GoodMembers(ts) else {}))
  {
    var a, b := if q then CorruptMembers(raws) else {}, if t then GoodMembers(ts) else {};
    WithoutTwice(z, a, b);
    WithoutNone(z, {});
    WithoutNone(Without(z, a), {});
    assert raws == [] ==> a == {};
    assert ts == [] ==> b == {};
  }

  lemma QuarantineParts(s: Store, raws: seq<string>, replies: nat -> Reply)
    ensures var s' := Quarantine(s, raws, replies);
            && s'.zset == (if raws == [] || !replies(|raws|).Ran() then s.zset else Without(s.zset, CorruptMembers(raws)))
            && s'.broker == s.broker && s'.poison == s.poison + Pushed(raws, replies)
  {
    assert Pushed([], replies) == [];
    hide Without, CorruptMembers;
  }

  lemma TransferParts(s: Store, ts: seq<Task>, replies: nat -> Reply)
    ensures var s' := Transfer(s, ts, replies);
            && s'.zset == (if ts == [] || !replies(|ts|).Ran() then s.zset else Without(s.zset, GoodMembers(ts)))
            && s'.broker == Moved(s.broker, ts, replies) && s'.poison == s.poison
  {
    assert Moved(s.broker, [], replies) == s.broker;
    hide Without, GoodMembers;
  }

  // A flush, whatever the replies, one data structure at a time.
  lemma FlushParts(s: Store, now: int, quarantine: nat -> Reply, transfer: nat -> Reply)
    ensures var n := BatchSize(s.zset, now);
            var s' := Flush(s, now, quarantine, transfer);
            && s'.zset == Without(s.zset, Removed(s.zset, n, quarantine, transfer))
            && s'.broker == Moved(s.broker, Goods(s.zset[..n]), transfer)
            && s'.poison == s.poison + Pushed(Corrupts(s.zset[..n]), quarantine)
  {
    var batch := s.zset[..BatchSize(s.zset, now)];
    var raws, ts := Corrupts(batch), Goods(batch);
    hide BatchSize, Goods, Corrupts, Pushed, Moved, Without, CorruptMembers, GoodMembers, Quarantine, Transfer;
    QuarantineParts(s, raws, quarantine);
    TransferParts(Quarantine(s, raws, quarantine), ts, transfer);
    Removals(s.zset, raws, ts, quarantine(|raws|).Ran(), transfer(|ts|).Ran());
  }

  /** Without failures a flush takes the first min(100, due) members and no
      other: tasks go, in score order, to the end of the stream of their own
      priority, unreadable members, in order, to the poison list, and what is
      left is the rest of the set as it was. */
  lemma CleanFlush(s: Store, now: int, quarantine: nat -> Reply, transfer: nat -> Reply)
    requires ZSet(s.zset) && Clean(s, now, quarantine, transfer)
    ensures var n := BatchSize(s.zset, now);
            var s' := Flush(s, now, quarantine, transfer);
            && s'.zset == s.zset[n..] && ZSet(s'.zset)
            && (forall key :: Log(s'.broker, key) == Log(s.broker, key) + ForStream(Goods(s.zset[..n]), key))
            && s'.poison == s.poison + Corrupts(s.zset[..n])
            && n == Min(100, Ready(s.zset, now))
  {
    var n := BatchSize(s.zset, now);
    var raws, ts := Corrupts(s.zset[..n]), Goods(s.zset[..n]);
    assert n == Min(100, Ready(s.zset, now));
    assert Removed(s.zset, n, quarantine, transfer) == CorruptMembers(raws) + GoodMembers(ts);
    SuffixZSet(s.zset, n);
    PushedAll(raws, quarantine);
    hide ZSet, BatchSize, Goods, Corrupts, Pushed, Moved, Without, QueueName, ForStream, Flush, Ready, Removed, CorruptMembers, GoodMembers;
    FlushParts(s, now, quarantine, transfer);
    WholeBatch(s.zset, n);
    forall key
      ensures Log(Moved(s.broker, ts, transfer), key) == Log(s.broker, key) + ForStream(ts, key)
    {
      MovedAll(s.broker, ts, transfer, key);
    }
  }

  lemma SuffixZSet(z: seq<Entry>, n: nat)
    requires ZSet(z) && n <= |z|
    ensures ZSet(z[n..])
  {
  }

  // ---- Order ----

  // A readable member stands behind the readable ones before it.
  lemma {:induction false} GoodAt(z: seq<Entry>, i: nat)
    requires i < |z| && z[i].member.Good?
    ensures var k := |Goods(z[..i])|;
            k < |Goods(z)| && Goods(z)[k] == z[i].member.task
  {
    var n := |z| - 1;
    if i < n {
      GoodAt(z[..n], i);
      assert z[..n][..i] == z[..i];
    }
  }

  lemma {:induction false} CorruptAt(z: seq<Entry>, i: nat)
    requires i < |z| && z[i].member.Corrupt?
    ensures var k := |Corrupts(z[..i])|;
            k < |Corrupts(z)| && Corrupts(z)[k] == z[i].member.raw
  {
    var n := |z| - 1;
    if i < n {
      CorruptAt(z[..n], i);
      assert z[..n][..i] == z[..i];
    }
  }

  // Two readable members of a batch, with their places among the readable ones.
  lemma TwoGoods(z: seq<Entry>, i: nat, j: nat)
    requires i < j < |z| && z[i].member.Good? && z[j].member.Good?
    ensures var k, l := |Goods(z[..i])|, |Goods(z[..j])|;
            k < l < |Goods(z)| && Goods(z)[k] == z[i].member.task && Goods(z)[l] == z[j].member.task
  {
    GoodAt(z, i);
    GoodAt(z, j);
    GoodAt(z[..j], i);
    assert z[..j][..i] == z[..i];
  }

  lemma TwoCorrupts(z: seq<Entry>, i: nat, j: nat)
    requires i < j < |z| && z[i].member.Corrupt? && z[j].member.Corrupt?
    ensures Precedes(Corrupts(z), z[i].member.raw, z[j].member.raw)
  {
    CorruptAt(z, i);
    CorruptAt(z, j);
    CorruptAt(z[..j], i);
    assert z[..j][..i] == z[..i];
  }

  ghost predicate Distinct<T(!new)>(s: seq<T>) {
    forall i, j | 0 <= i < j < |s| :: s[i] != s[j]
  }

  /** In a flush without failures the first members of the set, in the order of
      the set, are what each stream and the poison list grow by: every member goes
      to the one place it belongs to, once, and a member of lower rank stands
      before any of higher rank there. */
  lemma FlushInOrder(s: Store, now: int, quarantine: nat -> Reply, transfer: nat -> Reply, key: string)
    requires ZSet(s.zset) && Clean(s, now, quarantine, transfer)
    ensures var z := s.zset[..BatchSize(s.zset, now)];
            var s' := Flush(s, now, quarantine, transfer);
            && Log(s.broker, key) <= Log(s'.broker, key)
            && var tail := Log(s'.broker, key)[|Log(s.broker, key)|..];
               && Distinct(tail)
               && (forall t :: t in tail <==> Has(z, Good(t)) && QueueName(t.priority) == key)
               && (forall i, j | 0 <= i < j < |z| && Goes(z[i], key) && Goes(z[j], key) ::
                     Precedes(tail, z[i].member.task, z[j].member.task))
    ensures var z := s.zset[..BatchSize(s.zset, now)];
            var s' := Flush(s, now, quarantine, transfer);
            && s.poison <= s'.poison
            && var tail := s'.poison[|s.poison|..];
               && Distinct(tail)
               && (forall raw :: raw in tail <==> Has(z, Corrupt(raw)))
               && (forall i, j | 0 <= i < j < |z| && z[i].member.Corrupt? && z[j].member.Corrupt? ::
                     Precedes(tail, z[i].member.raw, z[j].member.raw))
  {
    StreamsInOrder(s, now, quarantine, transfer, key);
    PoisonInOrder(s, now, quarantine, transfer);
  }

  // The member is a task for this stream.
  predicate Goes(e: Entry, key: string) {
    e.member.Good? && QueueName(e.member.task.priority) == key
  }

  lemma StreamsInOrder(s: Store, now: int, quarantine: nat -> Reply, transfer: nat -> Reply, key: string)
    requires ZSet(s.zset) && Clean(s, now, quarantine, transfer)
    ensures var z := s.zset[..BatchSize(s.zset, now)];
            var s' := Flush(s, now, quarantine, transfer);
            && Log(s.broker, key) <= Log(s'.broker, key)
            && var tail := Log(s'.broker, key)[|Log(s.broker, key)|..];
               && Distinct(tail)
               && (forall t :: t in tail <==> Has(z, Good(t)) && QueueName(t.priority) == key)
               && (forall i, j | 0 <= i < j < |z| && Goes(z[i], key) && Goes(z[j], key) ::
                     Precedes(tail, z[i].member.task, z[j].member.task))
  {
    var n := BatchSize(s.zset, now);
    var z := s.zset[..n];
    var ts := Goods(z);
    assert AllRan(transfer, |ts|);
    FlushParts(s, now, quarantine, transfer);
    MovedAll(s.broker, ts, transfer, key);
    PrefixZSet(s.zset, n);
    GoodsDistinct(z);
    StreamDistinct(ts, key);
    var tail := ForStream(ts, key);
    hide ZSet, BatchSize, Goods, Corrupts, Pushed, Moved, Without, QueueName, ForStream, Flush, Removed, Has, Clean;
    assert Log(Moved(s.broker, ts, transfer), key)[|Log(s.broker, key)|..] == tail;
    forall t
      ensures t in tail <==> Has(z, Good(t)) && QueueName(t.priority) == key
    {
      StreamHolds(ts, key, t);
      BatchSplits(z, Good(t));
    }
    forall i, j | 0 <= i < j < |z| && Goes(z[i], key) && Goes(z[j], key)
      ensures Precedes(tail, z[i].member.task, z[j].member.task)
    {
      TwoGoods(z, i, j);
      var k, l := |Goods(z[..i])|, |Goods(z[..j])|;
      QueueNames(ts[k].priority, ts[l].priority);
      MovedInOrder(s.broker, ts, transfer, k, l);
    }
  }

  lemma PoisonInOrder(s: Store, now: int, quarantine: nat -> Reply, transfer: nat -> Reply)
    requires ZSet(s.zset) && Clean(s, now, quarantine, transfer)
    ensures var z := s.zset[..BatchSize(s.zset, now)];
            var s' := Flush(s, now, quarantine, transfer);
            && s.poison <= s'.poison
            && var tail := s'.poison[|s.poison|..];
               && Distinct(tail)
               && (forall raw :: raw in tail <==> Has(z, Corrupt(raw)))
               && (forall i, j | 0 <= i < j < |z| && z[i].member.Corrupt? && z[j].member.Corrupt? ::
                     Precedes(tail, z[i].member.raw, z[j].member.raw))
  {
    var n := BatchSize(s.zset, now);
    var z := s.zset[..n];
    var raws := Corrupts(z);
    assert AllRan(quarantine, |raws|);
    FlushParts(s, now, quarantine, transfer);
    PushedAll(raws, quarantine);
    PrefixZSet(s.zset, n);
    CorruptsDistinct(z);
    hide ZSet, BatchSize, Goods, Corrupts, Pushed, Moved, Without, Flush, Removed, Has, Clean;
    forall raw
      ensures raw in raws <==> Has(z, Corrupt(raw))
    {
      BatchSplits(z, Corrupt(raw));
    }
    forall i, j | 0 <= i < j < |z| && z[i].member.Corrupt? && z[j].member.Corrupt?
      ensures Precedes(raws, z[i].member.raw, z[j].member.raw)
    {
      TwoCorrupts(z, i, j);
    }
  }

  lemma {:induction false} ConfirmedExactly(ts: seq<Task>, replies: nat -> Reply)
    requires Distinct(ts)
    ensures Distinct(Confirmed(ts, replies))
    ensures forall t :: t in Confirmed(ts, replies) ==> t in ts
    ensures forall i | 0 <= i < |ts| :: ts[i] in Confirmed(ts, replies) <==> replies(i) == Done
  {
    if ts != [] {
      var n := |ts| - 1;
      ConfirmedExactly(ts[..n], replies);
      assert forall i | 0 <= i < n :: ts[..n][i] == ts[i] != ts[n];
      assert ts[n] !in Confirmed(ts[..n], replies);
    }
  }

  lemma {:induction false} ConfirmedInOrder(ts: seq<Task>, replies: nat -> Reply, i: nat, j: nat)
    requires i < j < |ts| && replies(i) == replies(j) == Done && Distinct(ts)
    ensures Precedes(Confirmed(ts, replies), ts[i], ts[j])
  {
    var n := |ts| - 1;
    var x, y := Confirmed(ts[..n], replies), Confirmed(ts, replies);
    if j < n {
      ConfirmedInOrder(ts[..n], replies, i, j);
      var a, b :| 0 <= a < b < |x| && x[a] == ts[i] && x[b] == ts[j];
      assert y[a] == x[a] && y[b] == x[b];
    } else {
      ConfirmedExactly(ts[..n], replies);
      assert ts[..n][i] in x;
      var a :| 0 <= a < |x| && x[a] == ts[i];
      assert y[a] == ts[i] && y[|x|] == ts[j];
    }
  }

  /** What FlushReady returns, whatever the replies: each confirmed task of the
      batch once and nothing else, in the order of the set.  The command of a
      member is the one at its place among the readable members. */
  lemma FlushedInOrder(z: seq<Entry>, replies: nat -> Reply)
    requires ZSet(z)
    ensures var flushed := Confirmed(Goods(z), replies);
            && Distinct(flushed)
            && (forall t :: t in flushed ==> Has(z, Good(t)))
            && (forall i | 0 <= i < |z| && z[i].member.Good? ::
                  z[i].member.task in flushed <==> replies(|Goods(z[..i])|) == Done)
            && (forall i, j | 0 <= i < j < |z| && z[i].member.Good? && z[j].member.Good? ::
                  z[i].member.task in flushed && z[j].member.task in flushed ==>
                  Precedes(flushed, z[i].member.task, z[j].member.task))
  {
    var ts := Goods(z);
    GoodsDistinct(z);
    ConfirmedExactly(ts, replies);
    hide ZSet, Goods, Confirmed, Has, Precedes;
    var flushed := Confirmed(ts, replies);
    forall t | t in flushed
      ensures Has(z, Good(t))
    {
      BatchSplits(z, Good(t));
    }
    forall i | 0 <= i < |z| && z[i].member.Good?
      ensures z[i].member.task in flushed <==> replies(|Goods(z[..i])|) == Done
    {
      GoodAt(z, i);
    }
    forall i, j | 0 <= i < j < |z| && z[i].member.Good? && z[j].member.Good? && z[i].member.task in flushed && z[j].member.task in flushed
      ensures Precedes(flushed, z[i].member.task, z[j].member.task)
    {
      TwoGoods(z, i, j);
      ConfirmedInOrder(ts, replies, |Goods(z[..i])|, |Goods(z[..j])|);
    }
  }

  // ---- Failures ----

  /** Commands of a pipeline sent over a connection that breaks: some first ones
      are carried out, none after them. */
  ghost predicate Prefix(replies: nat -> Reply) {
    forall i: nat, j: nat | i < j && replies(j).Ran() :: replies(i).Ran()
  }

  /** Whatever happens to the commands: members outside the batch stay, in
      particular all that are not due, and a member leaves the set only with the
      ZREM of its half of the batch. */
  lemma FlushTouchesBatchOnly(s: Store, now: int, quarantine: nat -> Reply, transfer: nat -> Reply, m: Member)
    requires ZSet(s.zset) && Has(s.zset, m)
    ensures var n := BatchSize(s.zset, now);
            var s' := Flush(s, now, quarantine, transfer);
            Has(s'.zset, m) <==>
              !(Has(s.zset[..n], m) && (if m.Good? then transfer(|Goods(s.zset[..n])|).Ran() else quarantine(|Corrupts(s.zset[..n])|).Ran()))
  {
    var n := BatchSize(s.zset, now);
    FlushParts(s, now, quarantine, transfer);
    BatchSplits(s.zset[..n], m);
    WithoutHas(s.zset, Removed(s.zset, n, quarantine, transfer), m);
    hide ZSet, BatchSize, Goods, Corrupts, Pushed, Moved, Without, Flush;
  }

  ghost predicate Kept(s: Store, s': Store, m: Member) {
    Has(s'.zset, m) || (if m.Good? then Appended(s.broker, s'.broker, m.task) else s.poison <= s'.poison && m.raw in s'.poison[|s.poison|..])
  }

  lemma {:induction false} PushedHolds(raws: seq<string>, replies: nat -> Reply, i: nat)
    requires i < |raws| && replies(i).Ran()
    ensures raws[i] in Pushed(raws, replies)
  {
    if i < |raws| - 1 {
      PushedHolds(raws[..|raws| - 1], replies, i);
    }
  }

  /** If a broken connection only cuts pipelines short, no member disappears
      without its copy in its stream or in the poison list. */
  lemma PrefixFlushLosesNothing(s: Store, now: int, quarantine: nat -> Reply, transfer: nat -> Reply, m: Member)
    requires ZSet(s.zset) && Has(s.zset, m) && Prefix(quarantine) && Prefix(transfer)
    ensures Kept(s, Flush(s, now, quarantine, transfer), m)
  {
    var n := BatchSize(s.zset, now);
    var raws, ts := Corrupts(s.zset[..n]), Goods(s.zset[..n]);
    FlushParts(s, now, quarantine, transfer);
    FlushTouchesBatchOnly(s, now, quarantine, transfer, m);
    BatchSplits(s.zset[..n], m);
    hide ZSet, BatchSize, Goods, Corrupts, Pushed, Moved, Without, Flush, Removed, QueueName;
    if Has(s.zset[..n], m) {
      if m.Good? && transfer(|ts|).Ran() {
        var i :| 0 <= i < |ts| && ts[i] == m.task;
        MovedHolds(s.broker, ts, transfer, i);
      } else if m.Corrupt? && quarantine(|raws|).Ran() {
        var i :| 0 <= i < |raws| && raws[i] == m.raw;
        PushedHolds(raws, quarantine, i);
      }
    }
  }

  /** What single refused commands cost: a due task leaves the set without a copy
      exactly when its own XADD was not carried out and the ZREM of the batch
      was. */
  lemma LostExactly(s: Store, now: int, quarantine: nat -> Reply, transfer: nat -> Reply, i: nat)
    requires ZSet(s.zset) && i < |Goods(s.zset[..BatchSize(s.zset, now)])|
    ensures var ts := Goods(s.zset[..BatchSize(s.zset, now)]);
            var s' := Flush(s, now, quarantine, transfer);
            (!Has(s'.zset, Good(ts[i])) && !Appended(s.broker, s'.broker, ts[i])) <==> (!transfer(i).Ran() && transfer(|ts|).Ran())
  {
    var n := BatchSize(s.zset, now);
    var ts := Goods(s.zset[..n]);
    FlushParts(s, now, quarantine, transfer);
    BatchSplits(s.zset[..n], Good(ts[i]));
    PrefixHas(s.zset, n, Good(ts[i]));
    FlushTouchesBatchOnly(s, now, quarantine, transfer, Good(ts[i]));
    PrefixZSet(s.zset, n);
    GoodsDistinct(s.zset[..n]);
    hide ZSet, BatchSize, Goods, Corrupts, Pushed, Without, Flush, Removed, QueueName, Moved;
    if transfer(i).Ran() {
      MovedHolds(s.broker, ts, transfer, i);
    } else {
      NotAppended(s.broker, ts, transfer, i);
    }
  }

  lemma {:induction false} CorruptsDistinct(z: seq<Entry>)
    requires ZSet(z)
    ensures forall i, j | 0 <= i < j < |Corrupts(z)| :: Corrupts(z)[i] != Corrupts(z)[j]
  {
    if z != [] {
      var y := z[..|z| - 1];
      var m := z[|z| - 1].member;
      CorruptsDistinct(y);
      BatchSplits(y, m);
      forall i | 0 <= i < |y|
        ensures y[i].member != m
      {
        assert y[i] == z[i];
      }
    }
  }

  lemma {:induction false} PushedOnly(raws: seq<string>, replies: nat -> Reply, raw: string)
    requires raw in Pushed(raws, replies)
    ensures exists i | 0 <= i < |raws| :: replies(i).Ran() && raws[i] == raw
  {
    var n := |raws| - 1;
    if raw in Pushed(raws[..n], replies) {
      PushedOnly(raws[..n], replies, raw);
      var i :| 0 <= i < n && replies(i).Ran() && raws[..n][i] == raw;
      assert raws[i] == raw;
    }
  }

  /** The same for unreadable members: one is lost exactly when its own RPUSH was
      not carried out and the ZREM of the quarantine was. */
  lemma CorruptLostExactly(s: Store, now: int, quarantine: nat -> Reply, transfer: nat -> Reply, i: nat)
    requires ZSet(s.zset) && i < |Corrupts(s.zset[..BatchSize(s.zset, now)])|
    ensures var raws := Corrupts(s.zset[..BatchSize(s.zset, now)]);
            var s' := Flush(s, now, quarantine, transfer);
            && s.poison <= s'.poison
            && ((!Has(s'.zset, Corrupt(raws[i])) && raws[i] !in s'.poison[|s.poison|..]) <==> (!quarantine(i).Ran() && quarantine(|raws|).Ran()))
  {
    var n := BatchSize(s.zset, now);
    var raws := Corrupts(s.zset[..n]);
    CorruptOfBatch(s, now, i);
    hide ZSet, BatchSize, Goods, Corrupts, Pushed, Without, Flush, Removed, Moved, Has;
    FlushTouchesBatchOnly(s, now, quarantine, transfer, Corrupt(raws[i]));
    FlushParts(s, now, quarantine, transfer);
    if quarantine(i).Ran() {
      PushedHolds(raws, quarantine, i);
    } else if raws[i] in Pushed(raws, quarantine) {
      PushedOnly(raws, quarantine, raws[i]);
    }
  }

  lemma CorruptOfBatch(s: Store, now: int, i: nat)
    requires ZSet(s.zset) && i < |Corrupts(s.zset[..BatchSize(s.zset, now)])|
    ensures var z := s.zset[..BatchSize(s.zset, now)];
            var raws := Corrupts(z);
            && Has(s.zset, Corrupt(raws[i])) && Has(z, Corrupt(raws[i]))
            && forall j | 0 <= j < |raws| && j != i :: raws[j] != raws[i]
  {
    var n := BatchSize(s.zset, now);
    var raws := Corrupts(s.zset[..n]);
    BatchSplits(s.zset[..n], Corrupt(raws[i]));
    PrefixHas(s.zset, n, Corrupt(raws[i]));
    PrefixZSet(s.zset, n);
    CorruptsDistinct(s.zset[..n]);
    hide ZSet, BatchSize, Corrupts, Has;
  }

  lemma PrefixHas(z: seq<Entry>, n: nat, m: Member)
    requires n <= |z| && Has(z[..n], m)
    ensures Has(z, m)
  {
    var i :| 0 <= i < n && z[..n][i].member == m;
    assert z[i].member == m;
  }

  lemma PrefixZSet(z: seq<Entry>, n: nat)
    requires ZSet(z) && n <= |z|
    ensures ZSet(z[..n])
  {
  }

  // ---- Backlog ----

  // One tick of the scheduler, no command failing.
  // Ticks at one instant, whose flushes, if they can read, meet no failure.
  ghost predicate Steady(ticks: seq<TickInput>, now: int) {
    forall i | 0 <= i < |ticks| :: ticks[i].now == now && (ticks[i].read == Done ==> Unfailing(ticks[i]))
  }

  ghost predicate Unfailing(t: TickInput) {
    forall k: nat :: t.quarantine(k).Ran() && t.transfer(k).Ran()
  }

  // How many of the ticks could read.
  function Reads(ticks: seq<TickInput>): nat {
    if ticks == [] then 0 else Reads(ticks[..|ticks| - 1]) + if ticks[|ticks| - 1].read == Done then 1 else 0
  }

  lemma {:induction false} ReadySuffix(z: seq<Entry>, now: int, n: nat)
    requires n <= Ready(z, now)
    ensures Ready(z[n..], now) == Ready(z, now) - n
  {
    if n > 0 {
      ReadySuffix(z[1..], now, n - 1);
      assert z[1..][n - 1..] == z[n..];
    } else {
      assert z[0..] == z;
    }
  }

  lemma OneTick(s: Store, t: TickInput)
    requires ZSet(s.zset) && Unfailing(t)
    ensures var k := Min(100, Ready(s.zset, t.now));
            var s' := Flush(s, t.now, t.quarantine, t.transfer);
            s'.zset == s.zset[k..] && ZSet(s'.zset) && Ready(s'.zset, t.now) == Ready(s.zset, t.now) - k
  {
    assert Clean(s, t.now, t.quarantine, t.transfer);
    hide Flush, Clean, Ready, ZSet, BatchSize;
    CleanFlush(s, t.now, t.quarantine, t.transfer);
    ReadySuffix(s.zset, t.now, Min(100, Ready(s.zset, t.now)));
  }

  // Due members gone after n ticks.
  function Cleared(due: nat, n: nat): nat {
    Min(100 * n, due)
  }

  lemma DrainStep(z: seq<Entry>, mid: seq<Entry>, end: seq<Entry>, due: nat, dueMid: nat, dueEnd: int, n: nat)
    requires n > 0 && due <= |z| && mid == z[Cleared(due, n - 1)..] && dueMid == Max(0, due - 100 * (n - 1))
    requires end == mid[Min(100, dueMid)..] && dueEnd == dueMid - Min(100, dueMid)
    ensures end == z[Cleared(due, n)..] && dueEnd == Max(0, due - 100 * n)
  {
    assert Cleared(due, n - 1) + Min(100, dueMid) == Cleared(due, n);
  }

  /** Each tick that can read clears a hundred due members, readable or not,
      until none is left, and never touches one that is not due; ticks that cannot
      read only cost time. */
  lemma {:induction false} BacklogDrains(s: Store, now: int, ticks: seq<TickInput>)
    requires ZSet(s.zset) && Steady(ticks, now)
    ensures var end := FlushAll(s, ticks).zset;
            && ZSet(end)
            && end == s.zset[Cleared(Ready(s.zset, now), Reads(ticks))..]
            && Ready(end, now) == Max(0, Ready(s.zset, now) - 100 * Reads(ticks))
  {
    hide Flush, ZSet, Ready;
    if ticks == [] {
      assert Cleared(Ready(s.zset, now), 0) == 0;
      assert s.zset[0..] == s.zset;
    } else {
      var n := |ticks| - 1;
      var before, after := FlushAll(s, ticks[..n]), FlushAll(s, ticks);
      BacklogDrains(s, now, ticks[..n]);
      if ticks[n].read == Done {
        hide Cleared;
        OneTick(before, ticks[n]);
        DrainStep(s.zset, before.zset, after.zset, Ready(s.zset, now), Ready(before.zset, now), Ready(after.zset, now), Reads(ticks));
      }
    }
  }

  // ---- Whole series of ticks ----

  lemma {:induction false} WithoutElements(z: seq<Entry>, gone: set<Member>, i: nat)
    requires i < |Without(z, gone)|
    ensures Without(z, gone)[i] in z
  {
    if i < |Without(z[..|z| - 1], gone)| {
      WithoutElements(z[..|z| - 1], gone, i);
    }
  }

  lemma {:induction false} WithoutZSet(z: seq<Entry>, gone: set<Member>)
    requires ZSet(z)
    ensures ZSet(Without(z, gone))
  {
    if z != [] {
      var y := z[..|z| - 1];
      WithoutZSet(y, gone);
      var rest := Without(y, gone);
      forall i | 0 <= i < |rest|
        ensures rest[i].score <= z[|z| - 1].score && rest[i].member != z[|z| - 1].member
      {
        WithoutElements(y, gone, i);
        var j :| 0 <= j < |y| && y[j] == rest[i];
        assert z[j] == rest[i];
      }
    }
  }

  // Streams and poison list only grow, and the set stays a sorted set.
  ghost predicate Onward(s: Store, s': Store) {
    && (forall key :: Log(s.broker, key) <= Log(s'.broker, key))
    && s.poison <= s'.poison
    && (ZSet(s.zset) ==> ZSet(s'.zset))
  }

  lemma FlushOnward(s: Store, now: int, quarantine: nat -> Reply, transfer: nat -> Reply)
    ensures Onward(s, Flush(s, now, quarantine, transfer))
  {
    var n := BatchSize(s.zset, now);
    FlushParts(s, now, quarantine, transfer);
    hide Flush, ZSet, BatchSize, Goods, Corrupts, Pushed, Moved, Without, Removed;
    forall key
      ensures Log(s.broker, key) <= Log(Moved(s.broker, Goods(s.zset[..n]), transfer), key)
    {
      MovedFrame(s.broker, Goods(s.zset[..n]), transfer, key);
    }
    if ZSet(s.zset) {
      WithoutZSet(s.zset, Removed(s.zset, n, quarantine, transfer));
    }
  }

  lemma KeptOnward(s: Store, mid: Store, s': Store, m: Member)
    requires Kept(s, mid, m) && Onward(s, mid) && Onward(mid, s') && (Has(mid.zset, m) ==> Kept(mid, s', m))
    ensures Kept(s, s', m)
  {
    if Has(mid.zset, m) {
      if m.Good? && !Has(s'.zset, m) {
        hide QueueName;
        var key := QueueName(m.task.priority);
        assert Log(s.broker, key) <= Log(mid.broker, key);
        var j :| |Log(mid.broker, key)| <= j < |Log(s'.broker, key)| && Log(s'.broker, key)[j] == m.task;
      }
    } else if m.Good? {
      AppendedStays(s.broker, mid.broker, s'.broker, m.task);
    }
  }

  /** No series of ticks, however many of its reads fail and wherever its
      pipelines break off, makes a member of the set disappear without a copy in
      its stream or in the poison list. */
  lemma {:induction false} PrefixRunLosesNothing(s: Store, ticks: seq<TickInput>, m: Member)
    requires ZSet(s.zset) && Has(s.zset, m)
    requires forall i | 0 <= i < |ticks| :: Prefix(ticks[i].quarantine) && Prefix(ticks[i].transfer)
    ensures Onward(s, FlushAll(s, ticks)) && Kept(s, FlushAll(s, ticks), m)
  {
    if ticks != [] {
      var mid := FlushAll(s, ticks[..|ticks| - 1]);
      var t := ticks[|ticks| - 1];
      PrefixRunLosesNothing(s, ticks[..|ticks| - 1], m);
      hide Flush, ZSet, Prefix, Kept;
      if t.read == Done {
        FlushOnward(mid, t.now, t.quarantine, t.transfer);
        if Has(mid.zset, m) {
          assert ZSet(mid.zset);
          PrefixFlushLosesNothing(mid, t.now, t.quarantine, t.transfer, m);
        }
        KeptOnward(s, mid, Flush(mid, t.now, t.quarantine, t.transfer), m);
      }
    }
  }

  // ---- A flush is a run of the protocol ----

  // The protocol's retry set holds the readable members, its broker is this one.
  ghost predicate Abstracts(st: Protocol.State, s: Store) {
    && st.broker == s.broker
    && (forall t :: t in st.retry <==> Has(s.zset, Good(t)))
  }

  // The flush of `ts` has sent its first n XADDs.
  function Sending(st: Protocol.State, f: nat, ts: seq<Task>, replies: nat -> Reply, n: nat): Protocol.State
    requires n <= |ts|
  {
    st.(broker := Moved(st.broker, ts[..n], replies),
        flushers := st.flushers[f := Protocol.Flusher(ts, seq(n, i requires i >= 0 => replies(i).Ran()))])
  }

  lemma SendNext(st: Protocol.State, f: nat, ts: seq<Task>, replies: nat -> Reply, n: nat)
    requires n < |ts|
    ensures Protocol.DoFlushAdd(Sending(st, f, ts, replies, n), f, replies(n)) == Sending(st, f, ts, replies, n + 1)
  {
    assert ts[..n + 1][..n] == ts[..n];
    assert seq(n, i requires i >= 0 => replies(i).Ran()) + [replies(n).Ran()] == seq(n + 1, i requires i >= 0 => replies(i).Ran());
    hide QueueName;
  }

  lemma {:induction false} SendAll(st: Protocol.State, f: nat, ts: seq<Task>, replies: nat -> Reply, n: nat)
    requires n <= |ts|
    ensures Protocol.Reaches(Sending(st, f, ts, replies, 0), Sending(st, f, ts, replies, n))
  {
    var first, last := Sending(st, f, ts, replies, 0), Sending(st, f, ts, replies, n);
    if n == 0 {
      Protocol.ReachesSelf(first);
    } else {
      var before := Sending(st, f, ts, replies, n - 1);
      SendAll(st, f, ts, replies, n - 1);
      SendNext(st, f, ts, replies, n - 1);
      var e := Protocol.Event.Flush(f, Protocol.Add(replies(n - 1)));
      hide Moved, Protocol.Reaches, Protocol.DoFlushAdd;
      assert Protocol.Next(before, e) == last;
      Protocol.ReachesNext(before, e);
      Protocol.ReachesMore(first, before, last);
    }
  }

  lemma {:induction false} GoodsFew(z: seq<Entry>)
    ensures |Goods(z)| <= |z|
  {
    if z != [] {
      GoodsFew(z[..|z| - 1]);
    }
  }

  lemma FirstSending(st: Protocol.State, f: nat, ts: seq<Task>, replies: nat -> Reply)
    ensures Sending(st, f, ts, replies, 0) == st.(flushers := st.flushers[f := Protocol.Flusher(ts, [])])
  {
    assert ts[..0] == [] && Moved(st.broker, [], replies) == st.broker;
    assert seq(0, i requires i >= 0 => replies(i).Ran()) == [];
  }

  lemma ReadBatch(st: Protocol.State, s: Store, now: int, replies: nat -> Reply, f: nat)
    requires Abstracts(st, s) && ZSet(s.zset) && f !in st.flushers
    ensures var ts := Goods(s.zset[..BatchSize(s.zset, now)]);
            && Protocol.CanFlush(st, f, Protocol.Read(ts))
            && Protocol.Reaches(st, Sending(st, f, ts, replies, 0))
  {
    var n := BatchSize(s.zset, now);
    var ts := Goods(s.zset[..n]);
    GoodsFew(s.zset[..n]);
    assert |ts| <= Protocol.FLUSH_LIMIT;
    PrefixZSet(s.zset, n);
    GoodsDistinct(s.zset[..n]);
    hide ZSet, BatchSize, Goods, Protocol.Reaches;
    forall i | 0 <= i < |ts|
      ensures ts[i] in st.retry
    {
      BatchSplits(s.zset[..n], Good(ts[i]));
      PrefixHas(s.zset, n, Good(ts[i]));
    }
    FirstSending(st, f, ts, replies);
    hide Sending;
    Protocol.ReachesNext(st, Protocol.Event.Flush(f, Protocol.Read(ts)));
  }

  lemma LastSending(st: Protocol.State, f: nat, ts: seq<Task>, replies: nat -> Reply)
    ensures var mid := Sending(st, f, ts, replies, |ts|);
            && f in mid.flushers && mid.flushers[f].batch == ts && |mid.flushers[f].moved| == |ts|
            && mid == st.(broker := Moved(st.broker, ts, replies), flushers := st.flushers[f := mid.flushers[f]])
  {
    assert ts[..|ts|] == ts;
  }

  lemma RemoveBatch(st: Protocol.State, f: nat, ts: seq<Task>, replies: nat -> Reply)
    requires f !in st.flushers
    ensures var mid := Sending(st, f, ts, replies, |ts|);
            && Protocol.CanFlush(mid, f, Protocol.Remove(replies(|ts|)))
            && var st' := Protocol.DoFlushRemove(mid, f, replies(|ts|));
               && st'.broker == Moved(st.broker, ts, replies)
               && st'.retry == (if replies(|ts|).Ran() then st.retry - (set i | 0 <= i < |ts| :: ts[i]) else st.retry)
               && st'.copies == st.copies && st'.locks == st.locks && st'.dlq == st.dlq && st'.flushers == st.flushers
  {
    LastSending(st, f, ts, replies);
    hide Moved, Sending, Protocol.Unmoved;
    var mid := Sending(st, f, ts, replies, |ts|);
    var st' := Protocol.DoFlushRemove(mid, f, replies(|ts|));
    assert st'.flushers == st.flushers;
  }

  lemma RemoveReaches(mid: Protocol.State, f: nat, reply: Reply)
    requires Protocol.CanFlush(mid, f, Protocol.Remove(reply))
    ensures Protocol.Reaches(mid, Protocol.DoFlushRemove(mid, f, reply))
  {
    hide Protocol.Reaches, Protocol.DoFlushRemove;
    Protocol.ReachesNext(mid, Protocol.Event.Flush(f, Protocol.Remove(reply)));
  }

  // The members a flush leaves, on both sides.
  lemma SameRemainder(st: Protocol.State, s: Store, now: int, quarantine: nat -> Reply, transfer: nat -> Reply, t: Task)
    requires Abstracts(st, s) && ZSet(s.zset)
    ensures var ts := Goods(s.zset[..BatchSize(s.zset, now)]);
            Has(Flush(s, now, quarantine, transfer).zset, Good(t))
            <==> t in (if transfer(|ts|).Ran() then st.retry - (set i | 0 <= i < |ts| :: ts[i]) else st.retry)
  {
    var n := BatchSize(s.zset, now);
    BatchSplits(s.zset[..n], Good(t));
    if Has(s.zset[..n], Good(t)) {
      PrefixHas(s.zset, n, Good(t));
    }
    hide Flush, ZSet, BatchSize, Goods, Corrupts;
    if Has(s.zset, Good(t)) {
      FlushTouchesBatchOnly(s, now, quarantine, transfer, Good(t));
    } else {
      FlushParts(s, now, quarantine, transfer);
      WithoutHas(s.zset, Removed(s.zset, n, quarantine, transfer), Good(t));
    }
  }

  /** FlushReady, with any replies to its commands, is a run of the protocol
      model's scheduler steps: what is proved of all runs holds with it. */
  lemma FlushIsARun(st: Protocol.State, s: Store, now: int, quarantine: nat -> Reply, transfer: nat -> Reply, f: nat)
    requires Abstracts(st, s) && ZSet(s.zset) && f !in st.flushers
    ensures exists st' ::
              && Protocol.Reaches(st, st') && Abstracts(st', Flush(s, now, quarantine, transfer))
              && st'.copies == st.copies && st'.locks == st.locks && st'.dlq == st.dlq && st'.flushers == st.flushers
  {
    var ts := Goods(s.zset[..BatchSize(s.zset, now)]);
    FlushParts(s, now, quarantine, transfer);
    hide Flush, ZSet, BatchSize, Goods, Corrupts, Moved, Pushed, Without, Protocol.Reaches, Removed, Protocol.DoFlushRemove;
    ReadBatch(st, s, now, transfer, f);
    SendAll(st, f, ts, transfer, |ts|);
    RemoveBatch(st, f, ts, transfer);
    RemoveReaches(Sending(st, f, ts, transfer, |ts|), f, transfer(|ts|));
    var first, mid := Sending(st, f, ts, transfer, 0), Sending(st, f, ts, transfer, |ts|);
    var st' := Protocol.DoFlushRemove(mid, f, transfer(|ts|));
    Protocol.ReachesMore(st, first, mid);
    Protocol.ReachesMore(st, mid, st');
    forall t
      ensures t in st'.retry <==> Has(Flush(s, now, quarantine, transfer).zset, Good(t))
    {
      SameRemainder(st, s, now, quarantine, transfer, t);
    }
  }
}
