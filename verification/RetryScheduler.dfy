// The delayed retry set and its batch move back into the streams:
// internal/adapters/redis/retry_scheduler.go, internal/worker/delayed_scheduler.go.

module RetryScheduler {
  import opened Wrappers
  import opened Domain
  import opened Clock
  import opened Network
  import opened Streams
  import opened Pipeline
  import Protocol

  // A member of the sorted set: the JSON of a task, or text that is not.
  datatype Member = Good(task: Task) | Corrupt(raw: string)

  datatype Entry = Entry(member: Member, score: int)

  /** The sorted set in rank order; members are unique.  How Redis ranks members
      of equal score is left open. */
  ghost predicate ZSet(z: seq<Entry>) {
    && (forall i, j | 0 <= i < j < |z| :: z[i].score <= z[j].score)
    && (forall i, j | 0 <= i < j < |z| :: z[i].member != z[j].member)
  }

  predicate Has(z: seq<Entry>, m: Member) {
    exists i | 0 <= i < |z| :: z[i].member == m
  }

  // How many members are due; they come first.
  function Ready(z: seq<Entry>, now: int): (n: nat)
    ensures n <= |z|
    ensures forall i | 0 <= i < n :: z[i].score <= now
  {
    if z == [] || z[0].score > now then 0 else 1 + Ready(z[1..], now)
  }

  lemma {:induction false} ReadyIsAll(z: seq<Entry>, now: int)
    requires ZSet(z)
    ensures forall i | Ready(z, now) <= i < |z| :: z[i].score > now
  {
    if z != [] && z[0].score <= now {
      ReadyIsAll(z[1..], now);
      forall i | Ready(z, now) <= i < |z|
        ensures z[i].score > now
      {
        assert z[i] == z[1..][i - 1];
      }
    }
  }

  lemma InsertKeeps(z: seq<Entry>, e: Entry)
    requires ZSet(z) && !Has(z, e.member)
    ensures ZSet(z[..Ready(z, e.score)] + [e] + z[Ready(z, e.score)..])
  {
    ReadyIsAll(z, e.score);
    hide Ready;
    var p := Ready(z, e.score);
    var z' := z[..p] + [e] + z[p..];
    forall i | 0 <= i < |z'|
      ensures i != p ==> z'[i] == z[if i < p then i else i - 1] && z'[i].member != e.member
    {
    }
  }

  // ZRANGEBYSCORE -inf now LIMIT 0 100.
  function BatchSize(z: seq<Entry>, now: int): (n: nat)
    ensures n <= |z|
  {
    Min(Ready(z, now), Protocol.FLUSH_LIMIT)
  }

  function Goods(z: seq<Entry>): seq<Task> {
    if z == [] then []
    else
      var rest := Goods(z[..|z| - 1]);
      var m := z[|z| - 1].member;
      if m.Good? then rest + [m.task] else rest
  }

  function Corrupts(z: seq<Entry>): seq<string> {
    if z == [] then []
    else
      var rest := Corrupts(z[..|z| - 1]);
      var m := z[|z| - 1].member;
      if m.Corrupt? then rest + [m.raw] else rest
  }

  // ZREM of the given members.
  function Without(z: seq<Entry>, gone: set<Member>): seq<Entry> {
    if z == [] then []
    else
      var rest := Without(z[..|z| - 1], gone);
      if z[|z| - 1].member in gone then rest else rest + [z[|z| - 1]]
  }

  function GoodMembers(ts: seq<Task>): set<Member> {
    set i | 0 <= i < |ts| :: Good(ts[i])
  }

  function CorruptMembers(raws: seq<string>): set<Member> {
    set i | 0 <= i < |raws| :: Corrupt(raws[i])
  }

  function Pushed(raws: seq<string>, replies: nat -> Reply): seq<string> {
    if raws == [] then []
    else
      var n := |raws| - 1;
      Pushed(raws[..n], replies) + if replies(n).Ran() then [raws[n]] else []
  }

  function Confirmed(ts: seq<Task>, replies: nat -> Reply): seq<Task> {
    if ts == [] then []
    else
      var n := |ts| - 1;
      Confirmed(ts[..n], replies) + if replies(n) == Done then [ts[n]] else []
  }

  datatype Store = Store(zset: seq<Entry>, broker: Broker, poison: seq<string>)

  // quarantineCorruptMembers: RPUSH each, then one ZREM.
  function Quarantine(s: Store, raws: seq<string>, replies: nat -> Reply): Store {
    if raws == [] then s
    else s.(poison := s.poison + Pushed(raws, replies),
            zset := if replies(|raws|).Ran() then Without(s.zset, CorruptMembers(raws)) else s.zset)
  }

  // The flush pipeline: XADD each, then one ZREM of all.
  function Transfer(s: Store, ts: seq<Task>, replies: nat -> Reply): Store {
    if ts == [] then s
    else s.(broker := Moved(s.broker, ts, replies),
            zset := if replies(|ts|).Ran() then Without(s.zset, GoodMembers(ts)) else s.zset)
  }

  /** FlushReady once its read has succeeded; the two functions give the server's
      reply to each command of the two pipelines. */
  function Flush(s: Store, now: int, quarantine: nat -> Reply, transfer: nat -> Reply): Store {
    var batch := s.zset[..BatchSize(s.zset, now)];
    Transfer(Quarantine(s, Corrupts(batch), quarantine), Goods(batch), transfer)
  }

  // What one tick of the delayed scheduler meets.
  datatype TickInput = TickInput(now: int, read: Reply, quarantine: nat -> Reply, transfer: nat -> Reply)

  function FlushAll(s: Store, ticks: seq<TickInput>): Store {
    if ticks == [] then s
    else
      var before := FlushAll(s, ticks[..|ticks| - 1]);
      var t := ticks[|ticks| - 1];
      if t.read == Done then Flush(before, t.now, t.quarantine, t.transfer) else before
  }

  class Scheduler {
    var store: Store

    constructor (store: Store)
      ensures this.store == store
    {
      this.store := store;
    }

    /** ZADD NX at the second now + delay.  An identical member stays where it
        is. */
    method ScheduleRetry(task: Task, delay: int, now: int, reply: Reply) returns (failed: bool)
      requires ZSet(store.zset)
      modifies this
      ensures ZSet(store.zset) && store == old(store).(zset := store.zset)
      ensures failed <==> reply != Done
      ensures !reply.Ran() || Has(old(store).zset, Good(task)) ==> store.zset == old(store).zset
      ensures reply.Ran() && !Has(old(store).zset, Good(task)) ==>
                exists p | 0 <= p <= |old(store).zset| ::
                  store.zset == old(store).zset[..p] + [Entry(Good(task), Unix(now + delay))] + old(store).zset[p..]
    {
      failed := reply != Done;
      if reply.Ran() && !Has(store.zset, Good(task)) {
        var z, e := store.zset, Entry(Good(task), Unix(now + delay));
        var p := Ready(z, e.score);
        InsertKeeps(z, e);
        hide ZSet, Ready;
        store := store.(zset := z[..p] + [e] + z[p..]);
      }
    }

    method QuarantineCorruptMembers(raws: seq<string>, replies: nat -> Reply)
      modifies this
      ensures store == Quarantine(old(store), raws, replies)
    {
      if raws == [] { return; }
      var pushed: seq<string> := [];
      var i := 0;
      while i < |raws|
        invariant 0 <= i <= |raws|
        invariant pushed == Pushed(raws[..i], replies)
      {
        if replies(i).Ran() {
          pushed := pushed + [raws[i]];
        }
        assert raws[..i + 1][..i] == raws[..i];
        i := i + 1;
      }
      assert raws[..i] == raws;
      store := store.(poison := store.poison + pushed);
      if replies(|raws|).Ran() {
        store := store.(zset := Without(store.zset, CorruptMembers(raws)));
      }
    }

    method TransferTasks(ts: seq<Task>, replies: nat -> Reply) returns (flushed: seq<Task>)
      modifies this
      ensures store == Transfer(old(store), ts, replies)
      ensures flushed == Confirmed(ts, replies)
    {
      flushed := [];
      if ts == [] { return; }
      var i := 0;
      while i < |ts|
        invariant 0 <= i <= |ts|
        invariant store == old(store).(broker := Moved(old(store).broker, ts[..i], replies))
        invariant flushed == Confirmed(ts[..i], replies)
      {
        var t := ts[i];
        if replies(i).Ran() {
          store := store.(broker := XAdd(store.broker, QueueName(t.priority), t));
        }
        if replies(i) == Done {
          flushed := flushed + [t];
        }
        assert ts[..i + 1][..i] == ts[..i];
        i := i + 1;
      }
      assert ts[..i] == ts;
      if replies(|ts|).Ran() {
        store := store.(zset := Without(store.zset, GoodMembers(ts)));
      }
    }

    /** FlushReady at Unix second `now`. */
    method FlushReady(now: int, read: Reply, quarantine: nat -> Reply, transfer: nat -> Reply)
      returns (flushed: seq<Task>, failed: bool)
      modifies this
      ensures failed <==> read != Done
      ensures store == if failed then old(store) else Flush(old(store), now, quarantine, transfer)
      ensures flushed == if failed then [] else Confirmed(Goods(old(store).zset[..BatchSize(old(store).zset, now)]), transfer)
    {
      flushed, failed := [], read != Done;
      if failed { return; }
      var batch := store.zset[..BatchSize(store.zset, now)];
      var tasks: seq<Task> := [];
      var raws: seq<string> := [];
      var i := 0;
      while i < |batch|
        invariant 0 <= i <= |batch|
        invariant tasks == Goods(batch[..i]) && raws == Corrupts(batch[..i])
      {
        match batch[i].member {
          case Good(t) => tasks := tasks + [t];
          case Corrupt(raw) => raws := raws + [raw];
        }
        assert batch[..i + 1][..i] == batch[..i];
        i := i + 1;
      }
      assert batch[..i] == batch;
      QuarantineCorruptMembers(raws, quarantine);
      flushed := TransferTasks(tasks, transfer);
    }

    /** DelayedScheduler.Run for a finite series of ticks: a failed read is
        skipped, the next tick goes on. */
    method Run(ticks: seq<TickInput>)
      modifies this
      ensures store == FlushAll(old(store), ticks)
    {
      var i := 0;
      while i < |ticks|
        invariant 0 <= i <= |ticks|
        invariant store == FlushAll(old(store), ticks[..i])
      {
        hide Flush, BatchSize, Goods, Confirmed;
        var flushed, failed := FlushReady(ticks[i].now, ticks[i].read, ticks[i].quarantine, ticks[i].transfer);
        assert ticks[..i + 1][..i] == ticks[..i];
        i := i + 1;
      }
      assert ticks[..i] == ticks;
    }
  }

  /** Whole seconds: a retry scheduled at instant s for a delay d is not read by
      a flush at or before s + d - 1s, and is due to any flush from s + d on. */
  lemma DueWindow(s: int, d: int, flush: int)
    ensures Unix(s + d) <= Unix(flush) ==> flush > s + d - SECOND
    ensures flush >= s + d ==> Unix(s + d) <= Unix(flush)
  {
  }
}
