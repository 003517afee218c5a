// The string keys the components agree on: attemptKey of
// internal/worker/supervisor.go, dlqKey of internal/adapters/redis/dlq_writer.go
// and parseDLQKey of internal/worker/dlq_monitor.go.

module Keys {
  import opened Wrappers
  import opened Decimal
  import opened Domain

  function AttemptKey(id: string, attempt: int): string {
    id + "#" + Itoa(attempt)
  }

  // A prefix cannot leak over the last separator: the tails hold none.
  lemma LastSeparator(a: string, x: string, b: string, y: string, sep: char)
    requires a + [sep] + x == b + [sep] + y
    requires sep !in x && sep !in y
    ensures a == b && x == y
  {
    var s := a + [sep] + x;
    assert s[|a|] == sep && forall k | |a| < k < |s| :: s[k] == x[k - |a| - 1];
    assert s[|b|] == sep && forall k | |b| < k < |s| :: s[k] == y[k - |b| - 1];
    assert |a| == |b|;
    assert s[..|a|] == a && s[..|b|] == b;
    assert s[|a| + 1..] == x && s[|b| + 1..] == y;
  }

  /** Two deliveries share an idempotency lock only if they are the same attempt
      of the same task, whatever characters the IDs hold. */
  lemma AttemptKeyInjective(id: string, attempt: int, id': string, attempt': int)
    requires AttemptKey(id, attempt) == AttemptKey(id', attempt')
    ensures id == id' && attempt == attempt'
  {
    ItoaChars(attempt, '#');
    ItoaChars(attempt', '#');
    LastSeparator(id, Itoa(attempt), id', Itoa(attempt'), '#');
    ItoaInjective(attempt, attempt');
  }

  const DLQ_PREFIX := "queue:dlq:"

  function DlqKey(tenantID: string, taskType: string): string {
    DLQ_PREFIX + tenantID + ":" + taskType
  }

  // strings.Index(s, c): the first position of c, or -1.
  function IndexOf(s: string, c: char): (r: int)
    ensures -1 <= r < |s|
    ensures r == -1 ==> c !in s
    ensures r >= 0 ==> s[r] == c && c !in s[..r]
  {
    if s == "" then -1
    else if s[0] == c then 0
    else
      var r := IndexOf(s[1..], c);
      if r == -1 then -1
      else
        assert s[..r + 1] == [s[0]] + s[1..][..r];
        r + 1
  }

  function ParseDlqKey(key: string): Option<(string, string)> {
    if !(DLQ_PREFIX <= key) then None
    else
      var rest := key[|DLQ_PREFIX|..];
      var i := IndexOf(rest, ':');
      if i <= 0 || i >= |rest| - 1 then None
      else Some((rest[..i], rest[i + 1..]))
  }

  /** Whatever the monitor accepts re-formats to the key it was configured with,
      so the depth it reads is the depth of that key. */
  lemma ParsedKeyReformats(key: string)
    ensures match ParseDlqKey(key)
            case Some((tenant, kind)) => DlqKey(tenant, kind) == key && tenant != "" && ':' !in tenant && kind != ""
            case None => forall tenant, kind | tenant != "" && kind != "" :: ':' !in tenant ==> DlqKey(tenant, kind) != key
  {
    match ParseDlqKey(key)
    case Some(_) =>
      var rest := key[|DLQ_PREFIX|..];
      var i := IndexOf(rest, ':');
      assert key == DLQ_PREFIX + rest;
      assert rest == rest[..i] + ":" + rest[i + 1..];
    case None =>
      forall tenant, kind | tenant != "" && kind != "" && ':' !in tenant
        ensures DlqKey(tenant, kind) != key
      {
        FormattedKeyParses(tenant, kind);
      }
  }

  /** The exact condition under which the monitor reads back what the writer
      formatted: it never asks that the task type be free of colons, only the
      tenant. */
  lemma FormattedKeyParses(tenant: string, kind: string)
    ensures ParseDlqKey(DlqKey(tenant, kind)) == Some((tenant, kind)) <==> tenant != "" && ':' !in tenant && kind != ""
  {
    var key := DlqKey(tenant, kind);
    var rest := key[|DLQ_PREFIX|..];
    assert key == DLQ_PREFIX + (tenant + ":" + kind);
    assert key[..|DLQ_PREFIX|] == DLQ_PREFIX;
    assert rest == tenant + ":" + kind;
    var i := IndexOf(rest, ':');
    assert rest[|tenant|] == ':';
    if ':' in tenant {
      var j :| 0 <= j < |tenant| && tenant[j] == ':';
      assert rest[j] == ':';
      assert forall k | 0 <= k < i :: rest[k] == rest[..i][k];
      assert i <= j;
    } else {
      assert forall k | 0 <= k < |tenant| :: rest[k] == tenant[k];
      assert forall k | 0 <= k < i :: rest[k] == rest[..i][k];
      assert i == |tenant|;
      assert rest[..i] == tenant && rest[i + 1..] == kind;
    }
  }

  /** Lists never mix tenants or types of validated tasks, although a tenant
      name may hold colons (and is then shown cut short by the monitor). */
  lemma DlqKeyInjective(t: Task, u: Task)
    requires ValidType(t.taskType) && ValidType(u.taskType)
    requires DlqKey(t.tenantID, t.taskType) == DlqKey(u.tenantID, u.taskType)
    ensures t.tenantID == u.tenantID && t.taskType == u.taskType
  {
    var p := DLQ_PREFIX;
    assert p + t.tenantID + ":" + t.taskType == (p + t.tenantID) + [':'] + t.taskType;
    assert p + u.tenantID + ":" + u.taskType == (p + u.tenantID) + [':'] + u.taskType;
    LastSeparator(p + t.tenantID, t.taskType, p + u.tenantID, u.taskType, ':');
    assert (p + t.tenantID)[|p|..] == t.tenantID && (p + u.tenantID)[|p|..] == u.tenantID;
  }
}
