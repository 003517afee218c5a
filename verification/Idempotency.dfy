// The attempt-scoped lock store: internal/adapters/redis/scripts.go and
// internal/adapters/redis/idempotency.go.

module Clock {
  // Instants and durations are nanoseconds, as in Go's time package.
  const SECOND: int := 1_000_000_000

  // time.Time.Unix(): whole seconds, rounded down.
  function Unix(t: int): int { t / SECOND }

  // int64(d.Seconds()): rounded towards zero.
  function WholeSeconds(d: int): int {
    if d >= 0 then d / SECOND else -((-d) / SECOND)
  }
}

module Network {
  /** What becomes of one command sent to Redis: it runs and its reply arrives,
      it never runs, or it runs and the caller only sees an error. */
  datatype Reply = Done | NotRun | Unseen {
    predicate Ran() { this != NotRun }
  }
}

module Idempotency {
  import opened Clock
  import opened Network

  datatype Lock = Processing(workerID: string, startedAt: int) | Completed

  type Locks = map<string, Lock>

  // idempotencyLuaScript, run atomically by the server.
  function AcquireScript(locks: Locks, key: string, worker: string, startedAt: int): (r: (Locks, bool)) {
    if key in locks then (locks, false)
    else (locks[key := Processing(worker, startedAt)], true)
  }

  predicate Stale(startedAt: int, nowUnix: int, maxAgeSeconds: int) {
    nowUnix - startedAt >= maxAgeSeconds
  }

  // reclaimStaleLuaScript, run atomically by the server.
  function ReclaimScript(locks: Locks, key: string, worker: string, nowUnix: int, maxAgeSeconds: int): (r: (Locks, bool)) {
    if key in locks && locks[key].Processing? && Stale(locks[key].startedAt, nowUnix, maxAgeSeconds)
    then (locks[key := Processing(worker, nowUnix)], true)
    else (locks, false)
  }

  // SET XX: the key must exist, whoever wrote it.
  function CompleteCommand(locks: Locks, key: string): Locks {
    if key in locks then locks[key := Completed] else locks
  }

  // DEL: unconditional.
  function ClearCommand(locks: Locks, key: string): Locks {
    locks - {key}
  }

  /** Whole-second rounding moves the reclaim threshold by less than a second,
      and only downwards. */
  lemma ReclaimWindow(started: int, now: int, maxAge: int)
    requires maxAge >= 0
    ensures Stale(Unix(started), Unix(now), WholeSeconds(maxAge)) ==> now - started > (WholeSeconds(maxAge) - 1) * SECOND
    ensures now - started >= WholeSeconds(maxAge) * SECOND ==> Stale(Unix(started), Unix(now), WholeSeconds(maxAge))
  {
  }

  // A stored key with the server instant at which its TTL runs out.
  datatype Record = Record(lock: Lock, expires: int)

  // What GET can see at server time `at`.
  function Visible(records: map<string, Record>, at: int): Locks {
    map k | k in records && at < records[k].expires :: records[k].lock
  }

  // A command on a key, run by the server at instant `at`.
  datatype Command =
    | Acquire(worker: string, now: int)
    | Reclaim(worker: string, now: int, maxAge: int)
    | MarkCompleted
    | Clear

  datatype Request = Request(key: string, command: Command, at: int)

  // What the server does with it; every write starts the TTL anew.
  function Served(records: map<string, Record>, ttlSeconds: int, r: Request): map<string, Record> {
    var seen := Visible(records, r.at);
    var until := r.at + ttlSeconds * SECOND;
    match r.command
    case Acquire(worker, now) =>
      if r.key in seen then records else records[r.key := Record(Processing(worker, Unix(now)), until)]
    case Reclaim(worker, now, maxAge) =>
      if r.key in seen && seen[r.key].Processing? && Stale(seen[r.key].startedAt, Unix(now), WholeSeconds(maxAge))
      then records[r.key := Record(Processing(worker, Unix(now)), until)]
      else records
    case MarkCompleted => if r.key in seen then records[r.key := Record(Completed, until)] else records
    case Clear => records - {r.key}
  }

  function ServedAll(records: map<string, Record>, ttlSeconds: int, rs: seq<Request>): map<string, Record> {
    if rs == [] then records
    else Served(ServedAll(records, ttlSeconds, rs[..|rs| - 1]), ttlSeconds, rs[|rs| - 1])
  }

  /** RedisIdempotencyStore over a server that forgets keys as their TTL runs
      out.  `now` is the caller's clock when it builds the command, `at` the
      server's clock when the command runs. */
  class Store {
    const ttlSeconds: int
    var records: map<string, Record>

    constructor (ttlSeconds: int)
      requires ttlSeconds > 0
      ensures this.ttlSeconds == ttlSeconds && records == map[]
    {
      this.ttlSeconds := ttlSeconds;
      records := map[];
    }

    method Set(key: string, lock: Lock, at: int)
      requires ttlSeconds > 0
      modifies this
      ensures records == old(records)[key := Record(lock, at + ttlSeconds * SECOND)]
      ensures Visible(records, at) == Visible(old(records), at)[key := lock]
    {
      records := records[key := Record(lock, at + ttlSeconds * SECOND)];
    }

    method SetProcessing(key: string, worker: string, now: int, at: int, reply: Reply)
      returns (acquired: bool, failed: bool)
      requires ttlSeconds > 0
      modifies this
      ensures reply.Ran() ==> Visible(records, at) == AcquireScript(Visible(old(records), at), key, worker, Unix(now)).0
      ensures !reply.Ran() ==> records == old(records)
      ensures failed <==> reply != Done
      ensures acquired <==> !failed && AcquireScript(Visible(old(records), at), key, worker, Unix(now)).1
      ensures reply.Ran() ==> records == Served(old(records), ttlSeconds, Request(key, Acquire(worker, now), at))
      ensures records != old(records) ==> key in records && records[key].expires == at + ttlSeconds * SECOND
      ensures acquired ==> key in records && records[key] == Record(Processing(worker, Unix(now)), at + ttlSeconds * SECOND)
      ensures forall k | k != key :: (k in records <==> k in old(records)) && (k in records ==> records[k] == old(records)[k])
    {
      acquired, failed := false, reply != Done;
      if reply.Ran() {
        var free := key !in Visible(records, at);
        if free {
          Set(key, Processing(worker, Unix(now)), at);
        }
        acquired := free && !failed;
      }
    }

    method TryReclaimStale(key: string, worker: string, maxAge: int, now: int, at: int, reply: Reply)
      returns (reclaimed: bool, failed: bool)
      requires ttlSeconds > 0
      modifies this
      ensures reply.Ran() ==>
                Visible(records, at) == ReclaimScript(Visible(old(records), at), key, worker, Unix(now), WholeSeconds(maxAge)).0
      ensures !reply.Ran() ==> records == old(records)
      ensures failed <==> reply != Done
      ensures reclaimed <==>
                !failed && ReclaimScript(Visible(old(records), at), key, worker, Unix(now), WholeSeconds(maxAge)).1
      ensures reply.Ran() ==> records == Served(old(records), ttlSeconds, Request(key, Reclaim(worker, now, maxAge), at))
      ensures records != old(records) ==> key in records && records[key].expires == at + ttlSeconds * SECOND
      ensures reclaimed ==> key in records && records[key] == Record(Processing(worker, Unix(now)), at + ttlSeconds * SECOND)
      ensures forall k | k != key :: (k in records <==> k in old(records)) && (k in records ==> records[k] == old(records)[k])
    {
      reclaimed, failed := false, reply != Done;
      if reply.Ran() {
        var seen := Visible(records, at);
        if key in seen && seen[key].Processing? {
          if Unix(now) - seen[key].startedAt >= WholeSeconds(maxAge) {
            Set(key, Processing(worker, Unix(now)), at);
            reclaimed := !failed;
          }
        }
      }
    }

    method SetCompleted(key: string, at: int, reply: Reply) returns (failed: bool)
      requires ttlSeconds > 0
      modifies this
      ensures reply.Ran() ==> Visible(records, at) == CompleteCommand(Visible(old(records), at), key)
      ensures reply.Ran() ==> records == Served(old(records), ttlSeconds, Request(key, MarkCompleted, at))
      ensures reply.Ran() ==>
                if key in old(records) && at < old(records)[key].expires
                then key in records && records[key] == Record(Completed, at + ttlSeconds * SECOND)
                else records == old(records)
      ensures !reply.Ran() ==> records == old(records)
      ensures failed <==> reply != Done
      ensures forall k | k != key :: (k in records <==> k in old(records)) && (k in records ==> records[k] == old(records)[k])
    {
      failed := reply != Done;
      if reply.Ran() && key in Visible(records, at) {
        Set(key, Completed, at);
      }
    }

    /** True means delivered: the attempt was marked completed and the mark has
        not run out, so nobody can acquire the lock or take it over. */
    method IsCompleted(key: string, at: int, reply: Reply) returns (completed: bool, failed: bool)
      ensures failed <==> reply != Done
      ensures completed <==> !failed && key in records && at < records[key].expires && records[key].lock == Completed
      ensures completed ==> forall worker, now :: !AcquireScript(Visible(records, at), key, worker, now).1
      ensures completed ==> forall worker, now, seconds :: !ReclaimScript(Visible(records, at), key, worker, now, seconds).1
    {
      failed := reply != Done;
      var seen := Visible(records, at);
      completed := !failed && key in seen && seen[key] == Completed;
    }

    method ClearProcessing(key: string, at: int, reply: Reply) returns (failed: bool)
      modifies this
      ensures reply.Ran() ==> Visible(records, at) == ClearCommand(Visible(old(records), at), key)
      ensures reply.Ran() ==> records == Served(old(records), ttlSeconds, Request(key, Clear, at)) && key !in records
      ensures !reply.Ran() ==> records == old(records)
      ensures failed <==> reply != Done
      ensures forall k | k != key :: (k in records <==> k in old(records)) && (k in records ==> records[k] == old(records)[k])
    {
      failed := reply != Done;
      if reply.Ran() {
        records := records - {key};
      }
    }
  }

  // The record lasts until then at least.
  predicate HeldUntil(records: map<string, Record>, key: string, until: int) {
    key in records && until <= records[key].expires
  }

  // No request from `since` on, short of a Clear, shortens a TTL that began by then.
  lemma {:induction false} StaysHeld(records: map<string, Record>, ttlSeconds: int, rs: seq<Request>, key: string, since: int)
    requires ttlSeconds > 0 && HeldUntil(records, key, since + ttlSeconds * SECOND)
    requires forall i | 0 <= i < |rs| :: since <= rs[i].at && (rs[i].key == key ==> !rs[i].command.Clear?)
    ensures HeldUntil(ServedAll(records, ttlSeconds, rs), key, since + ttlSeconds * SECOND)
  {
    if rs != [] {
      StaysHeld(records, ttlSeconds, rs[..|rs| - 1], key, since);
    }
  }

  /** Once a lock was acquired at `since`, nobody acquires it again for its whole
      TTL unless somebody clears it: not the same worker and not another, whatever
      takeovers, completions and requests for other keys there are in between.
      Left alone, it can be acquired again from the end of the TTL on and not
      before. */
  lemma AcquiredForTTL(records: map<string, Record>, ttlSeconds: int, key: string, first: Command, since: int,
                       rs: seq<Request>, worker: string, startedAt: int, later: int)
    requires ttlSeconds > 0 && first.Acquire? && key !in Visible(records, since)
    requires forall i | 0 <= i < |rs| :: since <= rs[i].at && (rs[i].key == key ==> !rs[i].command.Clear?)
    ensures var held := Served(records, ttlSeconds, Request(key, first, since));
            && (later < since + ttlSeconds * SECOND ==>
                  !AcquireScript(Visible(ServedAll(held, ttlSeconds, rs), later), key, worker, startedAt).1)
            && ((forall i | 0 <= i < |rs| :: rs[i].key != key) ==>
                  (AcquireScript(Visible(ServedAll(held, ttlSeconds, rs), later), key, worker, startedAt).1
                   <==> since + ttlSeconds * SECOND <= later))
  {
    var held := Served(records, ttlSeconds, Request(key, first, since));
    StaysHeld(held, ttlSeconds, rs, key, since);
    OtherKeysOnly(held, ttlSeconds, rs, key);
  }

  // Requests for other keys leave a record as it is.
  lemma {:induction false} OtherKeysOnly(records: map<string, Record>, ttlSeconds: int, rs: seq<Request>, key: string)
    requires key in records
    ensures (forall i | 0 <= i < |rs| :: rs[i].key != key) ==>
              var after := ServedAll(records, ttlSeconds, rs);
              key in after && after[key] == records[key]
  {
    if rs != [] {
      OtherKeysOnly(records, ttlSeconds, rs[..|rs| - 1], key);
    }
  }

  /** Time alone only forgets keys, and a key lives through its whole TTL: the
      lock map of the protocol model with its expiry step is what callers see. */
  lemma TimeOnlyExpires(records: map<string, Record>, at: int, later: int)
    requires at <= later
    ensures Visible(records, later) ==
            Visible(records, at) - (set k | k in records && at < records[k].expires <= later)
  {
    var gone := set k | k in records && at < records[k].expires <= later;
    assert forall k :: k in Visible(records, later) <==> k in Visible(records, at) && k !in gone;
  }
}
