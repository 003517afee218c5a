// The dead-letter lists and their monitor: internal/adapters/redis/dlq_writer.go
// and internal/worker/dlq_monitor.go.

module DeadLetters {
  import opened Wrappers
  import opened Domain
  import opened Keys
  import opened Network
  import Accounting
  import Invariants
  import Protocol

  // An element of a list: the JSON of an entry, or text that is not.
  datatype Item = Readable(entry: DLQEntry) | Garbled(raw: string)

  type Lists = map<string, seq<Item>>

  function List(l: Lists, key: string): seq<Item> {
    if key in l then l[key] else []
  }

  function KeyOf(e: DLQEntry): string {
    DlqKey(e.task.tenantID, e.task.taskType)
  }

  type Gauges = map<(string, string), nat>

  datatype Listing = Entries(entries: seq<DLQEntry>) | ReadError | Unreadable(index: nat)

  // The entries pushed under one key, oldest first.
  function Filed(dlq: seq<DLQEntry>, key: string): seq<Item> {
    if dlq == [] then []
    else
      var e := dlq[|dlq| - 1];
      Filed(dlq[..|dlq| - 1], key) + if KeyOf(e) == key then [Readable(e)] else []
  }

  // The lists hold what the protocol's history of dead-letter entries says.
  ghost predicate Files(l: Lists, dlq: seq<DLQEntry>) {
    forall key :: List(l, key) == Filed(dlq, key)
  }

  class RedisDLQWriter {
    var lists: Lists
    var gauges: Gauges

    constructor ()
      ensures lists == map[] && gauges == map[]
    {
      lists, gauges := map[], map[];
    }

    /** RPUSH and EXPIRE in one pipeline: the caller is told of a failure if
        either failed, so an entry may be on its list although SendToDLQ failed.
        Afterwards the gauge of the tenant and type shows the depth. */
    method SendToDLQ(entry: DLQEntry, push: Reply, expire: Reply, length: Reply) returns (failed: bool)
      modifies this
      ensures failed <==> push != Done || expire != Done
      ensures lists == if push.Ran() then old(lists)[KeyOf(entry) := List(old(lists), KeyOf(entry)) + [Readable(entry)]] else old(lists)
      ensures gauges == if !failed && length == Done
                        then old(gauges)[(entry.task.tenantID, entry.task.taskType) := |List(old(lists), KeyOf(entry))| + 1]
                        else old(gauges)
    {
      var key := DlqKey(entry.task.tenantID, entry.task.taskType);
      if push.Ran() {
        lists := lists[key := List(lists, key) + [Readable(entry)]];
      }
      failed := push != Done || expire != Done;
      if failed { return; }
      if length == Done {
        var depth := |List(lists, key)|;
        gauges := gauges[(entry.task.tenantID, entry.task.taskType) := depth];
      }
    }

    /** The oldest `limit` entries, oldest first; one unreadable element among
        them fails the whole call at its position. */
    method ListDLQ(tenantID: string, taskType: string, limit: int, reply: Reply) returns (r: Listing)
      ensures limit <= 0 ==> r == Entries([])
      ensures limit > 0 && reply != Done ==> r == ReadError
      ensures limit > 0 && reply == Done ==>
                var raw := List(lists, DlqKey(tenantID, taskType));
                var n := Min(limit, |raw|);
                && !r.ReadError?
                && (r.Entries? ==> |r.entries| == n && forall i | 0 <= i < n :: raw[i] == Readable(r.entries[i]))
                && (r.Unreadable? ==> r.index < n && raw[r.index].Garbled? && forall i | 0 <= i < r.index :: raw[i].Readable?)
    {
      if limit <= 0 { return Entries([]); }
      if reply != Done { return ReadError; }
      var list := List(lists, DlqKey(tenantID, taskType));
      var raw := list[..Min(limit, |list|)];
      var entries: seq<DLQEntry> := [];
      var i := 0;
      while i < |raw|
        invariant 0 <= i <= |raw| && |entries| == i
        invariant forall j | 0 <= j < i :: raw[j] == Readable(entries[j])
      {
        if raw[i].Garbled? { return Unreadable(i); }
        entries := entries + [raw[i].entry];
        i := i + 1;
      }
      r := Entries(entries);
    }

    /** The depth of the list.  What it means for a reachable state is DepthCounts
        below. */
    method DLQDepth(tenantID: string, taskType: string, reply: Reply) returns (depth: nat, failed: bool)
      ensures failed <==> reply != Done
      ensures depth == if failed then 0 else |List(lists, DlqKey(tenantID, taskType))|
    {
      failed := reply != Done;
      depth := if failed then 0 else |List(lists, DlqKey(tenantID, taskType))|;
    }
  }

  /** One push is one more dead-letter entry of the protocol: it lands at the end
      of the list of its own tenant and type, and no other list changes. */
  lemma PushFiles(l: Lists, dlq: seq<DLQEntry>, e: DLQEntry)
    requires Files(l, dlq)
    ensures Files(l[KeyOf(e) := List(l, KeyOf(e)) + [Readable(e)]], dlq + [e])
  {
    assert (dlq + [e])[..|dlq|] == dlq;
    hide KeyOf;
    forall key
      ensures List(l[KeyOf(e) := List(l, KeyOf(e)) + [Readable(e)]], key) == Filed(dlq + [e], key)
    {
      assert List(l, key) == Filed(dlq, key);
    }
  }

  lemma {:induction false} OwnListOnly(dlq: seq<DLQEntry>, t: Task, x: Item)
    requires ValidType(t.taskType) && forall j | 0 <= j < |dlq| :: ValidType(dlq[j].task.taskType)
    ensures x in Filed(dlq, DlqKey(t.tenantID, t.taskType)) <==>
              x.Readable? && x.entry in dlq && x.entry.task.tenantID == t.tenantID && x.entry.task.taskType == t.taskType
  {
    hide DlqKey, ValidType;
    if dlq != [] {
      var n := |dlq| - 1;
      OwnListOnly(dlq[..n], t, x);
      if KeyOf(dlq[n]) == DlqKey(t.tenantID, t.taskType) {
        DlqKeyInjective(dlq[n].task, t);
      }
      assert x.Readable? ==> (x.entry in dlq <==> x.entry in dlq[..n] || x.entry == dlq[n]);
    }
  }

  // Whatever is buried passed Validate when it was enqueued.
  lemma BuriedTypes(st: Protocol.State, j: nat)
    requires Protocol.Reachable(st) && j < |st.dlq|
    ensures ValidType(st.dlq[j].task.taskType)
  {
    Accounting.ReachableSound(st);
    assert Invariants.BuriedOk(st.ledger, st.dlq[j]);
    var o :| o in st.ledger.enqueued && Invariants.Descends(st.dlq[j].task, o);
    assert o.Validate().None?;
  }

  /** In every reachable state the list of a tenant and type holds exactly the
      dead-letter entries of that tenant and type: tenants never share a list,
      whatever characters their names hold. */
  lemma ListsAreTenantScoped(st: Protocol.State, l: Lists, t: Task, x: Item)
    requires Protocol.Reachable(st) && Files(l, st.dlq) && ValidType(t.taskType)
    ensures x in List(l, DlqKey(t.tenantID, t.taskType)) <==>
              x.Readable? && x.entry in st.dlq && x.entry.task.tenantID == t.tenantID && x.entry.task.taskType == t.taskType
  {
    forall j | 0 <= j < |st.dlq|
      ensures ValidType(st.dlq[j].task.taskType)
    {
      BuriedTypes(st, j);
    }
    hide Protocol.Reachable, DlqKey, List, Filed, ValidType;
    OwnListOnly(st.dlq, t, x);
    assert List(l, DlqKey(t.tenantID, t.taskType)) == Filed(st.dlq, DlqKey(t.tenantID, t.taskType));
  }

  // How many dead-letter entries a tenant has of one type.
  function Burials(dlq: seq<DLQEntry>, tenantID: string, taskType: string): nat {
    if dlq == [] then 0
    else
      var t := dlq[|dlq| - 1].task;
      Burials(dlq[..|dlq| - 1], tenantID, taskType) + if t.tenantID == tenantID && t.taskType == taskType then 1 else 0
  }

  lemma {:induction false} FiledCounts(dlq: seq<DLQEntry>, t: Task)
    requires ValidType(t.taskType) && forall j | 0 <= j < |dlq| :: ValidType(dlq[j].task.taskType)
    ensures |Filed(dlq, DlqKey(t.tenantID, t.taskType))| == Burials(dlq, t.tenantID, t.taskType)
  {
    hide DlqKey, ValidType;
    if dlq != [] {
      var n := |dlq| - 1;
      FiledCounts(dlq[..n], t);
      if KeyOf(dlq[n]) == DlqKey(t.tenantID, t.taskType) {
        DlqKeyInjective(dlq[n].task, t);
      }
    }
  }

  /** In every reachable state the depth DLQDepth reads is the number of times a
      task of that tenant and type was buried. */
  lemma DepthCounts(st: Protocol.State, l: Lists, t: Task)
    requires Protocol.Reachable(st) && Files(l, st.dlq) && ValidType(t.taskType)
    ensures |List(l, DlqKey(t.tenantID, t.taskType))| == Burials(st.dlq, t.tenantID, t.taskType)
  {
    forall j | 0 <= j < |st.dlq|
      ensures ValidType(st.dlq[j].task.taskType)
    {
      BuriedTypes(st, j);
    }
    hide Protocol.Reachable, DlqKey, List, Filed, ValidType;
    FiledCounts(st.dlq, t);
    assert List(l, DlqKey(t.tenantID, t.taskType)) == Filed(st.dlq, DlqKey(t.tenantID, t.taskType));
  }

  // ---- The monitor ----

  // The monitor reads key i while the lists are `lists`.
  datatype Look = Look(lists: Lists, reply: Reply)

  predicate Measured(key: string, look: Look) {
    ParseDlqKey(key).Some? && look.reply == Done
  }

  // The gauges after the scrape has gone through `keys`.
  function Scraped(g: Gauges, keys: seq<string>, looks: seq<Look>): Gauges
    requires |keys| == |looks|
  {
    if keys == [] then g
    else
      var n := |keys| - 1;
      var before := Scraped(g, keys[..n], looks[..n]);
      if Measured(keys[n], looks[n]) then
        var (tenantID, taskType) := ParseDlqKey(keys[n]).value;
        before[(tenantID, taskType) := |List(looks[n].lists, DlqKey(tenantID, taskType))|]
      else before
  }

  class DLQMonitor {
    const knownKeys: seq<string>
    var gauges: Gauges

    constructor (knownKeys: seq<string>)
      ensures this.knownKeys == knownKeys && gauges == map[]
    {
      this.knownKeys, gauges := knownKeys, map[];
    }

    /** One scrape.  A key is measured if it parses and its LLEN is answered;
        `alerts` are the measured keys deeper than the threshold, in order. */
    method Scrape(threshold: int, looks: seq<Look>) returns (alerts: seq<nat>)
      requires |looks| == |knownKeys|
      modifies this
      ensures gauges == Scraped(old(gauges), knownKeys, looks)
      ensures forall i | 0 <= i < |looks| ::
                i in alerts <==> ParseDlqKey(knownKeys[i]).Some? && looks[i].reply == Done && |List(looks[i].lists, knownKeys[i])| > threshold
      ensures forall k, l | 0 <= k < l < |alerts| :: alerts[k] < alerts[l] < |looks|
    {
      alerts := [];
      var i := 0;
      while i < |knownKeys|
        invariant 0 <= i <= |knownKeys|
        invariant gauges == Scraped(old(gauges), knownKeys[..i], looks[..i])
        invariant forall a | 0 <= a < i ::
                    a in alerts <==> ParseDlqKey(knownKeys[a]).Some? && looks[a].reply == Done && |List(looks[a].lists, knownKeys[a])| > threshold
        invariant forall k | 0 <= k < |alerts| :: alerts[k] < i
        invariant forall k, l | 0 <= k < l < |alerts| :: alerts[k] < alerts[l]
      {
        var key := knownKeys[i];
        var parsed := ParseDlqKey(key);
        ParsedKeyReformats(key);
        assert knownKeys[..i + 1][..i] == knownKeys[..i] && looks[..i + 1][..i] == looks[..i];
        hide ParseDlqKey, DlqKey, List;
        if parsed.Some? && looks[i].reply == Done {
          var (tenantID, taskType) := parsed.value;
          var depth := |List(looks[i].lists, DlqKey(tenantID, taskType))|;
          gauges := gauges[(tenantID, taskType) := depth];
          if depth > threshold {
            alerts := alerts + [i];
          }
        }
        i := i + 1;
      }
      assert knownKeys[..i] == knownKeys && looks[..i] == looks;
    }
  }

  /** A measured key's own gauge shows the depth of that very key, as of its last
      measurement: no other key ever writes to it. */
  lemma {:induction false} GaugeShowsOwnKey(g: Gauges, keys: seq<string>, looks: seq<Look>, i: nat)
    requires |keys| == |looks| && i < |keys| && ParseDlqKey(keys[i]).Some? && looks[i].reply == Done
    requires forall j | i < j < |keys| && looks[j].reply == Done :: keys[j] != keys[i]
    ensures var name := ParseDlqKey(keys[i]).value;
            name in Scraped(g, keys, looks) && Scraped(g, keys, looks)[name] == |List(looks[i].lists, keys[i])|
  {
    var n := |keys| - 1;
    ParsedKeyReformats(keys[i]);
    ParsedKeyReformats(keys[n]);
    hide ParseDlqKey, DlqKey, List;
    if i < n {
      GaugeShowsOwnKey(g, keys[..n], looks[..n], i);
    }
  }

  /** All other gauges stay. */
  lemma {:induction false} GaugesKept(g: Gauges, keys: seq<string>, looks: seq<Look>, name: (string, string))
    requires |keys| == |looks|
    requires forall i | 0 <= i < |keys| && ParseDlqKey(keys[i]).Some? && looks[i].reply == Done :: keys[i] != DlqKey(name.0, name.1)
    ensures name in Scraped(g, keys, looks) <==> name in g
    ensures name in g ==> Scraped(g, keys, looks)[name] == g[name]
  {
    if keys != [] {
      var n := |keys| - 1;
      GaugesKept(g, keys[..n], looks[..n], name);
      ParsedKeyReformats(keys[n]);
      hide ParseDlqKey, DlqKey, List;
    }
  }

  const DEFAULT_ALERT_THRESHOLD := 100

  // Run's choice of threshold.
  function AlertThreshold(configured: int): int {
    if configured <= 0 then DEFAULT_ALERT_THRESHOLD else configured
  }
}
