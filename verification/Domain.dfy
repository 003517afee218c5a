// The values that travel through the queue: internal/domain/types.go,
// internal/domain/email_task.go and internal/domain/dlq.go.

module Wrappers {
  datatype Option<+T> = None | Some(value: T)

  function Min(a: int, b: int): int { if a < b then a else b }

  function Max(a: int, b: int): int { if a < b then b else a }

  // x stands before y.
  ghost predicate Precedes<T(!new)>(s: seq<T>, x: T, y: T) {
    exists i, j | 0 <= i < j < |s| :: s[i] == x && s[j] == y
  }

  /** The positions below n, in order, that satisfy p: all of them and no other. */
  function Positions(n: nat, p: nat -> bool): (at: seq<nat>)
    ensures forall k | 0 <= k < |at| :: at[k] < n && p(at[k])
    ensures forall k, l | 0 <= k < l < |at| :: at[k] < at[l]
    ensures forall i | 0 <= i < n && p(i) :: i in at
  {
    if n == 0 then [] else Positions(n - 1, p) + if p(n - 1) then [n - 1] else []
  }

  lemma {:induction false} NoPositions(n: nat, p: nat -> bool)
    ensures Positions(n, p) == [] <==> forall i | 0 <= i < n :: !p(i)
  {
    if n > 0 {
      NoPositions(n - 1, p);
    }
  }
}

module Decimal {
  // Go's decimal rendering of an int ("%d", strconv.Itoa).

  function Digit(d: nat): char
    requires d < 10
  {
    "0123456789"[d]
  }

  function Digits(n: nat): string {
    if n < 10 then [Digit(n)] else Digits(n / 10) + [Digit(n % 10)]
  }

  function Itoa(n: int): string {
    if n < 0 then "-" + Digits(-n) else Digits(n)
  }

  predicate Plain(s: string) {
    forall i :: 0 <= i < |s| ==> '0' <= s[i] <= '9'
  }

  lemma {:induction false} DigitsPlain(n: nat)
    ensures |Digits(n)| > 0 && Plain(Digits(n))
  {
    if n >= 10 {
      DigitsPlain(n / 10);
    }
  }

  lemma DigitInjective(m: nat, n: nat)
    requires m < 10 && n < 10 && Digit(m) == Digit(n)
    ensures m == n
  {
  }

  lemma LastDigit(n: nat)
    ensures var s := Digits(n);
            && |s| > 0 && s[|s| - 1] == Digit(n % 10)
            && (if n < 10 then |s| == 1 else |s| > 1 && s[..|s| - 1] == Digits(n / 10))
  {
    hide Digit;
    DigitsPlain(n / 10);
  }

  lemma {:induction false} DigitsInjective(m: nat, n: nat)
    requires Digits(m) == Digits(n)
    ensures m == n
  {
    LastDigit(m);
    LastDigit(n);
    DigitInjective(m % 10, n % 10);
    hide Digit, Digits;
    if m >= 10 {
      DigitsInjective(m / 10, n / 10);
    }
  }

  lemma ItoaInjective(m: int, n: int)
    requires Itoa(m) == Itoa(n)
    ensures m == n
  {
    var a, b := if m < 0 then -m else m, if n < 0 then -n else n;
    DigitsPlain(a);
    DigitsPlain(b);
    if m < 0 {
      assert Itoa(m)[0] == '-' && Itoa(m)[1..] == Digits(a);
    }
    if n < 0 {
      assert Itoa(n)[0] == '-' && Itoa(n)[1..] == Digits(b);
    }
    DigitsInjective(a, b);
  }

  lemma ItoaChars(n: int, c: char)
    requires c != '-' && !('0' <= c <= '9')
    ensures c !in Itoa(n)
  {
    DigitsPlain(if n < 0 then -n else n);
  }
}

module Domain {
  import opened Wrappers
  import opened Decimal

  datatype Status = Pending | Processing | Completed | Failed | RetryScheduled | Dead

  /** EmailTask.  `streamID` and `streamKey` are the two reserved Metadata
      entries "_stream_id" and "_stream_key"; `metadata` is the rest of the map. */
  datatype Task = Task(
    id: string,
    tenantID: string,
    taskType: string,
    priority: int,
    recipient: string,
    templateID: string,
    templateData: map<string, string>,
    enqueuedAt: int,
    scheduledFor: Option<int>,
    attempt: int,
    maxAttempts: int,
    status: Status,
    lastError: string,
    traceID: string,
    spanID: string,
    metadata: map<string, string>,
    streamID: Option<nat>,
    streamKey: Option<string>
  ) {
    // The first failing field, as Validate reports it.
    function Validate(): Option<string> {
      if tenantID == "" then Some("tenant_id")
      else if recipient == "" then Some("recipient")
      else if !ValidType(taskType) then Some("type")
      else if !ValidPriority(priority) then Some("priority")
      else if maxAttempts <= 0 then Some("max_attempts")
      else None
    }

    predicate IsPoison() {
      "poison" in metadata && metadata["poison"] == "true"
    }

    predicate IsRetryable() {
      !IsPoison() && attempt < maxAttempts
    }
  }

  // The JSON round trip drops nothing a worker reads: two tasks with the same
  // delivery ask for the same e-mail, under the same identity and budget.
  ghost predicate SameDelivery(t: Task, u: Task) {
    && t.id == u.id && t.tenantID == u.tenantID
    && t.taskType == u.taskType && t.priority == u.priority
    && t.recipient == u.recipient && t.templateID == u.templateID && t.templateData == u.templateData
    && t.enqueuedAt == u.enqueuedAt && t.scheduledFor == u.scheduledFor
    && t.maxAttempts == u.maxAttempts
    && t.traceID == u.traceID && t.spanID == u.spanID
    && t.metadata == u.metadata
  }

  datatype Reason = MaxAttemptsExceeded | NonRetryableError

  datatype DLQEntry = DLQEntry(task: Task, reason: Reason, finalError: string)

  predicate ValidType(t: string) {
    t in ["registration", "password_reset", "billing", "marketing", "security", "transactional"]
  }

  function DefaultMaxAttempts(t: string): int {
    if t == "security" then 7
    else if t == "transactional" then 5
    else if t == "marketing" then 3
    else 5
  }

  predicate ValidPriority(p: int) {
    0 <= p <= 3
  }

  function PriorityName(p: int): string {
    if p == 0 then "low"
    else if p == 1 then "normal"
    else if p == 2 then "high"
    else if p == 3 then "critical"
    else "unknown(" + Itoa(p) + ")"
  }

  function QueueName(p: int): string {
    "{queue}:email:" + PriorityName(p)
  }

  // The four keys a consumer reads, most urgent first.
  const PRIORITY_STREAMS: seq<string> := [QueueName(3), QueueName(2), QueueName(1), QueueName(0)]

  // The unknown priorities keep to themselves.
  lemma PriorityNames(p: int, q: int)
    ensures PriorityName(p) == PriorityName(q) ==> p == q
  {
    if !ValidPriority(p) && !ValidPriority(q) && PriorityName(p) == PriorityName(q) {
      var n := |"unknown("|;
      var s := PriorityName(p);
      assert s[n..|s| - 1] == Itoa(p) && s[n..|s| - 1] == Itoa(q);
      ItoaInjective(p, q);
    } else if !ValidPriority(p) {
      assert PriorityName(p)[0] == 'u' && (ValidPriority(q) ==> PriorityName(q)[0] != 'u');
    } else if !ValidPriority(q) {
      assert PriorityName(q)[0] == 'u' && PriorityName(p)[0] != 'u';
    } else {
      assert PriorityName(p)[0] == PriorityName(q)[0] ==> p == q;
    }
  }

  /** A task's stream is one of the four a consumer reads exactly when its
      priority passes Validate, the more urgent the earlier among them, and no two
      priorities share a stream. */
  lemma QueueNames(p: int, q: int)
    ensures ValidPriority(p) <==> QueueName(p) in PRIORITY_STREAMS
    ensures |PRIORITY_STREAMS| == 4 && (0 <= p <= 3 ==> PRIORITY_STREAMS[3 - p] == QueueName(p))
    ensures QueueName(p) == QueueName(q) ==> p == q
  {
    forall x: int, y: int
      ensures QueueName(x) == QueueName(y) ==> x == y
    {
      var n := |"{queue}:email:"|;
      assert QueueName(x)[n..] == PriorityName(x) && QueueName(y)[n..] == PriorityName(y);
      PriorityNames(x, y);
    }
    hide QueueName, PriorityName;
    forall i | 0 <= i < |PRIORITY_STREAMS|
      ensures PRIORITY_STREAMS[i] == QueueName(3 - i)
    {
    }
    if ValidPriority(p) {
      assert PRIORITY_STREAMS[3 - p] == QueueName(p);
    }
  }
}
