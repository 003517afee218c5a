// The SendGrid adapter over its circuit breaker:
// internal/adapters/email/sendgrid_sender.go.

module Sender {
  import opened Wrappers
  import opened Domain
  import opened Breaker
  import Clock
  import Protocol

  const CIRCUIT_MAX_FAILURES := 5
  const CIRCUIT_OPEN_DURATION: int := 30 * Clock.SECOND

  // What became of one request.
  datatype Reply = Cancelled | NotBuilt | NoResponse | Status(code: int)

  /** The world as one Send meets it: when it asks the breaker, what the request
      comes to, and when the breaker is told. */
  datatype Try = Try(asked: int, reply: Reply, told: int)

  // Send's return value; Sent is nil.
  datatype Result = Sent | CircuitOpen | ContextDone | BuildError | RequestError | ClientError(code: int) | ServerError(code: int)

  // The error classes processTask tells apart.
  function Seen(r: Result, error: string): Protocol.SendResult {
    match r
    case Sent => Protocol.Delivered
    case CircuitOpen => Protocol.Permanent(error)
    case ClientError(_) => Protocol.Permanent(error)
    case _ => Protocol.Transient(error)
  }

  // Send behind a breaker that lets it pass.
  function Classify(reply: Reply): Result {
    match reply
    case Cancelled => ContextDone
    case NotBuilt => BuildError
    case NoResponse => RequestError
    case Status(code) =>
      if 200 <= code < 300 then Sent
      else if 400 <= code < 500 then ClientError(code)
      else ServerError(code)
  }

  // What the breaker is told; a client error says nothing about the provider.
  function Reports(t: Try): seq<Report> {
    match Classify(t.reply)
    case Sent => [Success]
    case RequestError => [Failure(t.told)]
    case ServerError(_) => [Failure(t.told)]
    case _ => []
  }

  predicate Posts(reply: Reply) {
    reply.NoResponse? || reply.Status?
  }

  // The provider is down: no answer, or one that is neither success nor the client's fault.
  predicate Down(reply: Reply) {
    Classify(reply).RequestError? || Classify(reply).ServerError?
  }

  /** One result for each task in turn, and what the breaker has been told by
      then. */
  datatype Batch = Batch(history: seq<Report>, results: seq<Result>)

  ghost function SendEach(s: Settings, h: seq<Report>, tries: seq<Try>): (b: Batch)
    ensures |b.results| == |tries|
  {
    if tries == [] then Batch(h, [])
    else
      var n := |tries| - 1;
      var before := SendEach(s, h, tries[..n]);
      if Open(s, before.history, tries[n].asked) then before.(results := before.results + [CircuitOpen])
      else Batch(before.history + Reports(tries[n]), before.results + [Classify(tries[n].reply)])
  }

  // The MultiError: the failed ones, in order.
  function Errors(tasks: seq<Task>, results: seq<Result>): seq<(string, Result)>
    requires |tasks| == |results|
  {
    if tasks == [] then []
    else
      var n := |tasks| - 1;
      Errors(tasks[..n], results[..n]) + if results[n].Sent? then [] else [(tasks[n].id, results[n])]
  }

  function Unsent(results: seq<Result>): nat -> bool {
    (i: nat) => i < |results| && !results[i].Sent?
  }

  // The errors of the tasks at these positions.
  function ErrorsAt(tasks: seq<Task>, results: seq<Result>, at: seq<nat>): (errs: seq<(string, Result)>)
    requires |tasks| == |results| && forall k | 0 <= k < |at| :: at[k] < |tasks|
    ensures |errs| == |at|
    ensures forall k | 0 <= k < |at| :: errs[k] == (tasks[at[k]].id, results[at[k]])
  {
    seq(|at|, k requires 0 <= k < |at| => (tasks[at[k]].id, results[at[k]]))
  }

  // The tasks a POST was made for.
  function Posted(tasks: seq<Task>, tries: seq<Try>, results: seq<Result>): seq<Task>
    requires |tasks| == |tries| == |results|
  {
    if tasks == [] then []
    else
      var n := |tasks| - 1;
      Posted(tasks[..n], tries[..n], results[..n]) +
      if !results[n].CircuitOpen? && Posts(tries[n].reply) then [tasks[n]] else []
  }

  class SendGridSender {
    const breaker: CircuitBreaker
    ghost var posted: seq<Task>

    constructor ()
      ensures Valid() && fresh(breaker) && posted == [] && breaker.history == []
      ensures breaker.settings == Settings(5, 30_000_000_000)
    {
      breaker := new CircuitBreaker(CIRCUIT_MAX_FAILURES, CIRCUIT_OPEN_DURATION);
      posted := [];
    }

    ghost predicate Valid()
      reads this, breaker
    {
      breaker.Valid()
    }

    method Send(task: Task, t: Try) returns (r: Result)
      requires Valid()
      modifies this, breaker
      ensures Valid()
      ensures r.CircuitOpen? <==> Open(breaker.settings, old(breaker.history), t.asked)
      ensures if r.CircuitOpen? then breaker.history == old(breaker.history) else
                match t.reply
                case Cancelled => r == ContextDone && breaker.history == old(breaker.history)
                case NotBuilt => r == BuildError && breaker.history == old(breaker.history)
                case NoResponse => r == RequestError && breaker.history == old(breaker.history) + [Failure(t.told)]
                case Status(code) =>
                  && (200 <= code < 300 ==> r == Sent && breaker.history == old(breaker.history) + [Success])
                  && (400 <= code < 500 ==> r == ClientError(code) && breaker.history == old(breaker.history))
                  && (code < 200 || 300 <= code < 400 || 500 <= code ==>
                        r == ServerError(code) && breaker.history == old(breaker.history) + [Failure(t.told)])
      ensures posted == old(posted) + if !r.CircuitOpen? && (t.reply.NoResponse? || t.reply.Status?) then [task] else []
    {
      var ok := breaker.Allow(t.asked);
      hide Open;
      if !ok { return CircuitOpen; }
      if t.reply.Cancelled? { return ContextDone; }
      if t.reply.NotBuilt? { return BuildError; }
      posted := posted + [task];
      if t.reply.NoResponse? {
        breaker.RecordFailure(t.told);
        return RequestError;
      }
      var code := t.reply.code;
      if code >= 200 && code < 300 {
        breaker.RecordSuccess();
        return Sent;
      } else if code >= 400 && code < 500 {
        return ClientError(code);
      } else {
        breaker.RecordFailure(t.told);
        return ServerError(code);
      }
    }

    /** SendBatch goes through all the tasks whatever happens and returns nil
        exactly when every one was sent. */
    method SendBatch(tasks: seq<Task>, tries: seq<Try>) returns (err: Option<seq<(string, Result)>>)
      requires Valid() && |tasks| == |tries|
      modifies this, breaker
      ensures Valid()
      ensures var b := SendEach(breaker.settings, old(breaker.history), tries);
              && breaker.history == b.history
              && posted == old(posted) + Posted(tasks, tries, b.results)
              && (err.None? <==> forall i | 0 <= i < |tasks| :: b.results[i].Sent?)
              && (err.Some? ==> err.value == Errors(tasks, b.results) == ErrorsAt(tasks, b.results, Positions(|tasks|, Unsent(b.results))))
    {
      var errs: seq<(string, Result)> := [];
      ghost var results: seq<Result> := [];
      ghost var h, p := breaker.history, posted;
      var i := 0;
      assert SendEach(breaker.settings, h, []) == Batch(h, []) && p + Posted([], [], []) == p;
      while i < |tasks|
        invariant 0 <= i <= |tasks| && |results| == i
        invariant Valid()
        invariant Sofar(breaker.settings, h, p, tasks, tries, breaker.history, posted, results, errs)
      {
        hide Sofar, Open, Posts;
        ghost var h1, p1 := breaker.history, posted;
        var r := Send(tasks[i], tries[i]);
        assert r == (if Open(breaker.settings, h1, tries[i].asked) then CircuitOpen else Classify(tries[i].reply));
        assert breaker.history == h1 + if r.CircuitOpen? then [] else Reports(tries[i]);
        hide Reports, Classify;
        OneMore(breaker.settings, h, p, tasks, tries, h1, p1, results, errs, r, breaker.history, posted);
        results := results + [r];
        if !r.Sent? {
          errs := errs + [(tasks[i].id, r)];
        }
        i := i + 1;
      }
      assert tasks[..i] == tasks && tries[..i] == tries;
      NoErrors(tasks, results);
      ErrorsAreUnsent(tasks, results);
      hide SendEach, Posted, Errors, ErrorsAt, Positions, Unsent;
      err := if |errs| > 0 then Some(errs) else None;
    }
  }

  // Where the batch stands after |results| tasks.
  ghost predicate Sofar(s: Settings, h: seq<Report>, p: seq<Task>, tasks: seq<Task>, tries: seq<Try>,
                        history: seq<Report>, posted: seq<Task>, results: seq<Result>, errs: seq<(string, Result)>)
  {
    var n := |results|;
    && |tasks| == |tries| && n <= |tasks|
    && SendEach(s, h, tries[..n]) == Batch(history, results)
    && posted == p + Posted(tasks[..n], tries[..n], results)
    && errs == Errors(tasks[..n], results)
  }

  lemma OneMore(s: Settings, h: seq<Report>, p: seq<Task>, tasks: seq<Task>, tries: seq<Try>,
                history: seq<Report>, posted: seq<Task>, results: seq<Result>, errs: seq<(string, Result)>,
                r: Result, history': seq<Report>, posted': seq<Task>)
    requires Sofar(s, h, p, tasks, tries, history, posted, results, errs) && |results| < |tasks|
    requires var t := tries[|results|];
             && r == (if Open(s, history, t.asked) then CircuitOpen else Classify(t.reply))
             && history' == history + (if r.CircuitOpen? then [] else Reports(t))
             && posted' == posted + if !r.CircuitOpen? && Posts(t.reply) then [tasks[|results|]] else []
    ensures Sofar(s, h, p, tasks, tries, history', posted', results + [r], errs + if r.Sent? then [] else [(tasks[|results|].id, r)])
  {
    var n := |results|;
    NotOpen(tries[n].reply);
    hide Open, Reports, Classify, Posts;
    assert tasks[..n + 1][..n] == tasks[..n] && tries[..n + 1][..n] == tries[..n] && (results + [r])[..n] == results;
    assert history + [] == history;
    var q := Posted(tasks[..n], tries[..n], results);
    var more := if !r.CircuitOpen? && Posts(tries[n].reply) then [tasks[n]] else [];
    assert (p + q) + more == p + (q + more);
  }

  lemma NotOpen(reply: Reply)
    ensures !Classify(reply).CircuitOpen?
  {
  }

  lemma {:induction false} NoErrors(tasks: seq<Task>, results: seq<Result>)
    requires |tasks| == |results|
    ensures Errors(tasks, results) == [] <==> forall i | 0 <= i < |tasks| :: results[i].Sent?
  {
    if tasks != [] {
      NoErrors(tasks[..|tasks| - 1], results[..|tasks| - 1]);
    }
  }

  lemma {:induction false} SamePositions(n: nat, p: nat -> bool, q: nat -> bool)
    requires forall i | 0 <= i < n :: p(i) <==> q(i)
    ensures Positions(n, p) == Positions(n, q)
  {
    if n > 0 {
      SamePositions(n - 1, p, q);
    }
  }

  lemma UnsentNext(results: seq<Result>)
    requires results != []
    ensures var n := |results| - 1;
            Positions(|results|, Unsent(results)) == Positions(n, Unsent(results[..n])) + if results[n].Sent? then [] else [n]
  {
    SamePositions(|results| - 1, Unsent(results), Unsent(results[..|results| - 1]));
  }

  lemma ErrorsAtNext(tasks: seq<Task>, results: seq<Result>, at: seq<nat>)
    requires |tasks| == |results| > 0 && forall k | 0 <= k < |at| :: at[k] < |tasks| - 1
    ensures var n := |tasks| - 1;
            && ErrorsAt(tasks, results, at) == ErrorsAt(tasks[..n], results[..n], at)
            && ErrorsAt(tasks, results, at + [n]) == ErrorsAt(tasks[..n], results[..n], at) + [(tasks[n].id, results[n])]
  {
  }

  /** The MultiError lists the tasks that were not sent, in order, and no other. */
  lemma {:induction false} ErrorsAreUnsent(tasks: seq<Task>, results: seq<Result>)
    requires |tasks| == |results|
    ensures Errors(tasks, results) == ErrorsAt(tasks, results, Positions(|tasks|, Unsent(results)))
  {
    if tasks != [] {
      var n := |tasks| - 1;
      ErrorsAreUnsent(tasks[..n], results[..n]);
      UnsentNext(results);
      var at := Positions(n, Unsent(results[..n]));
      ErrorsAtNext(tasks, results, at);
      hide Positions, Unsent, ErrorsAt;
    }
  }

  // Later tasks change nothing for earlier ones.
  lemma {:induction false} BatchPrefix(s: Settings, h: seq<Report>, tries: seq<Try>, k: nat)
    requires k <= |tries|
    ensures SendEach(s, h, tries).results[..k] == SendEach(s, h, tries[..k]).results
    decreases |tries|
  {
    var n := |tries| - 1;
    if k <= n {
      BatchPrefix(s, h, tries[..n], k);
      assert tries[..n][..k] == tries[..k];
      hide Open, Reports, Classify;
      assert SendEach(s, h, tries).results[..n] == SendEach(s, h, tries[..n]).results;
    } else {
      assert tries[..k] == tries;
    }
  }

  /** Every task of a batch gets its own try, whatever became of those before it:
      it is refused if what the breaker was told by then has it open, and has the
      result of its own request otherwise. */
  lemma EachInTurn(s: Settings, h: seq<Report>, tries: seq<Try>, i: nat)
    requires i < |tries|
    ensures var told := SendEach(s, h, tries[..i]).history;
            var r, reply := SendEach(s, h, tries).results[i], tries[i].reply;
            && (r.CircuitOpen? <==> Open(s, told, tries[i].asked))
            && (!r.CircuitOpen? ==>
                  && (r.ContextDone? <==> reply.Cancelled?) && (r.BuildError? <==> reply.NotBuilt?)
                  && (r.RequestError? <==> reply.NoResponse?)
                  && (r.Sent? <==> reply.Status? && 200 <= reply.code < 300)
                  && (r.ClientError? <==> reply.Status? && 400 <= reply.code < 500))
  {
    BatchPrefix(s, h, tries, i + 1);
    assert tries[..i + 1][..i] == tries[..i];
    hide Open;
    assert SendEach(s, h, tries[..i + 1]).results[i] == SendEach(s, h, tries).results[..i + 1][i];
  }

  // ---- A provider that answers ----

  // The breaker was told of no failure.
  lemma SuccessesStayClosed(s: Settings, h: seq<Report>, more: seq<Report>, t: int)
    requires !Open(s, h, t) && forall i | 0 <= i < |more| :: more[i].Success?
    ensures !Open(s, h + more, t)
  {
    BreakerRefinesHistory(s, h, t);
    BreakerRefinesHistory(s, h + more, t);
    if more == [] {
      assert h + more == h;
    } else {
      assert (h + more)[|h + more| - 1].Success?;
    }
  }

  // 2xx or 4xx.
  predicate Answers(reply: Reply) {
    reply.Status? && (200 <= reply.code < 300 || 400 <= reply.code < 500)
  }

  predicate Answered(reply: Reply, r: Result) {
    reply.Status? && r == if reply.code < 300 then Sent else ClientError(reply.code)
  }

  // Such a request that the breaker lets pass.
  lemma OneAnswered(s: Settings, h: seq<Report>, t: Try)
    requires Answers(t.reply) && !Open(s, h, t.asked)
    ensures Answered(t.reply, Classify(t.reply)) && Posts(t.reply) && !Classify(t.reply).CircuitOpen?
    ensures |Reports(t)| <= 1 && forall i | 0 <= i < |Reports(t)| :: Reports(t)[i].Success?
  {
  }

  // The batch so far was answered, and the breaker told of successes only.
  ghost predicate Served(h: seq<Report>, tasks: seq<Task>, tries: seq<Try>, b: Batch)
    requires |tasks| == |tries|
  {
    && |b.results| == |tries|
    && (forall i | 0 <= i < |tries| :: Answered(tries[i].reply, b.results[i]))
    && Posted(tasks, tries, b.results) == tasks
    && h <= b.history && forall i | |h| <= i < |b.history| :: b.history[i].Success?
  }

  lemma OneServed(h: seq<Report>, tasks: seq<Task>, tries: seq<Try>, b: Batch, more: seq<Report>, r: Result)
    requires |tasks| == |tries| > 0 && Served(h, tasks[..|tasks| - 1], tries[..|tasks| - 1], b)
    requires Answered(tries[|tasks| - 1].reply, r) && Posts(tries[|tasks| - 1].reply) && !r.CircuitOpen?
    requires forall i | 0 <= i < |more| :: more[i].Success?
    ensures Served(h, tasks, tries, Batch(b.history + more, b.results + [r]))
  {
    hide Answered, Posts;
    var results := b.results + [r];
    assert results[..|tasks| - 1] == b.results;
    assert tasks[..|tasks| - 1] + [tasks[|tasks| - 1]] == tasks;
  }

  /** While the provider answers each request by success or a client error, and
      the breaker lets the batch start, the breaker refuses nothing, however many
      client errors there are: every task is posted, each has the result of its
      own reply, and the breaker hears of successes only. */
  lemma {:induction false} AnsweredBatch(s: Settings, h: seq<Report>, tasks: seq<Task>, tries: seq<Try>)
    requires |tasks| == |tries|
    requires forall i | 0 <= i < |tries| :: Answers(tries[i].reply) && !Open(s, h, tries[i].asked)
    ensures Served(h, tasks, tries, SendEach(s, h, tries))
  {
    if tries != [] {
      var n := |tries| - 1;
      var before := SendEach(s, h, tries[..n]);
      hide Open, Answers, Answered, Classify, Reports, Posts;
      AnsweredBatch(s, h, tasks[..n], tries[..n]);
      assert before.history == h + before.history[|h|..];
      SuccessesStayClosed(s, h, before.history[|h|..], tries[n].asked);
      hide Served;
      OneAnswered(s, before.history, tries[n]);
      OneServed(h, tasks, tries, before, Reports(tries[n]), Classify(tries[n].reply));
    }
  }

  // ---- An outage ----

  /** Every request of the batch fails, the breaker lets the batch start, and the
      batch is over before the breaker would open again. */
  ghost predicate Outage(s: Settings, h: seq<Report>, tries: seq<Try>) {
    && (forall i | 0 <= i < |tries| :: Down(tries[i].reply) && !Open(s, h, tries[i].asked))
    && (forall i, j | 0 <= i < j < |tries| :: tries[j].asked <= tries[i].told + s.openDuration)
  }

  // Failures that still fit before the breaker trips.
  function Room(s: Settings, h: seq<Report>): (n: int)
    ensures 1 <= n <= s.Limit()
  {
    ReplayCounts(s, h);
    s.Limit() - Count(s, h)
  }

  // The breaker after k failed requests, k within the room.
  lemma FailureRun(s: Settings, h: seq<Report>, told: seq<int>)
    requires |told| <= Room(s, h)
    ensures var b, b' := Replay(s, h), Replay(s, h + Told(told));
            if |told| < Room(s, h) then b'.consecutive == b.consecutive + |told| && b'.openUntil == b.openUntil
            else b'.openUntil == Some(told[|told| - 1] + s.openDuration)
    decreases |told|
  {
    ReplayCounts(s, h);
    hide Count;
    if told == [] {
      assert h + Told(told) == h;
    } else {
      var n := |told| - 1;
      FailureRun(s, h, told[..n]);
      assert (h + Told(told))[..|h| + n] == h + Told(told[..n]);
    }
  }

  function Told(told: seq<int>): (r: seq<Report>)
    ensures |r| == |told|
    ensures forall i | 0 <= i < |told| :: r[i] == Failure(told[i])
  {
    seq(|told|, i requires 0 <= i < |told| => Failure(told[i]))
  }

  function ToldTimes(tries: seq<Try>): (r: seq<int>)
    ensures |r| == |tries|
    ensures forall i | 0 <= i < |tries| :: r[i] == tries[i].told
  {
    seq(|tries|, i requires 0 <= i < |tries| => tries[i].told)
  }

  // The breaker lets the next request pass exactly while there is room.
  lemma OutageGate(s: Settings, h: seq<Report>, tries: seq<Try>)
    requires tries != [] && Outage(s, h, tries)
    ensures var n := |tries| - 1;
            var k := Min(n, Room(s, h));
            Open(s, h + Told(ToldTimes(tries[..k])), tries[n].asked) <==> n >= Room(s, h)
  {
    var n := |tries| - 1;
    var told := ToldTimes(tries[..Min(n, Room(s, h))]);
    FailureRun(s, h, told);
    BreakerRefinesHistory(s, h, tries[n].asked);
    BreakerRefinesHistory(s, h + Told(told), tries[n].asked);
  }

  lemma DownReports(t: Try)
    requires Down(t.reply)
    ensures Reports(t) == [Failure(t.told)]
  {
  }

  // What a batch comes to in an outage: the first `room` requests fail and are
  // reported, the others are not made.
  ghost predicate Exhausted(h: seq<Report>, tries: seq<Try>, room: nat, b: Batch) {
    var n := Min(|tries|, room);
    && |b.results| == |tries|
    && b.history == h + Told(ToldTimes(tries[..n]))
    && forall i | 0 <= i < |tries| :: b.results[i] == if i < n then Classify(tries[i].reply) else CircuitOpen
  }

  lemma OneTried(h: seq<Report>, tries: seq<Try>, room: nat, b: Batch)
    requires tries != [] && |tries| <= room && Exhausted(h, tries[..|tries| - 1], room, b)
    ensures var t := tries[|tries| - 1];
            Exhausted(h, tries, room, Batch(b.history + [Failure(t.told)], b.results + [Classify(t.reply)]))
  {
    hide Classify;
    var n := |tries| - 1;
    assert tries[..|tries|] == tries && tries[..n][..n] == tries[..n];
    assert Told(ToldTimes(tries)) == Told(ToldTimes(tries[..n])) + [Failure(tries[n].told)];
  }

  lemma OneRefused(h: seq<Report>, tries: seq<Try>, room: nat, b: Batch)
    requires |tries| > room && Exhausted(h, tries[..|tries| - 1], room, b)
    ensures Exhausted(h, tries, room, b.(results := b.results + [CircuitOpen]))
  {
    hide Classify;
    assert tries[..|tries| - 1][..room] == tries[..room];
  }

  lemma {:induction false} OutageRun(s: Settings, h: seq<Report>, tries: seq<Try>)
    requires Outage(s, h, tries)
    ensures Exhausted(h, tries, Room(s, h), SendEach(s, h, tries))
  {
    if tries == [] {
      assert h + Told(ToldTimes(tries)) == h;
    } else {
      var n := |tries| - 1;
      assert Outage(s, h, tries[..n]) && Down(tries[n].reply);
      hide Open, Room, Outage, Reports, Classify, Down;
      OutageRun(s, h, tries[..n]);
      OutageGate(s, h, tries);
      DownReports(tries[n]);
      var before := SendEach(s, h, tries[..n]);
      assert before.history == h + Told(ToldTimes(tries[..Min(n, Room(s, h))])) by {
        assert tries[..n][..Min(n, Room(s, h))] == tries[..Min(n, Room(s, h))];
      }
      hide Exhausted;
      if n < Room(s, h) {
        OneTried(h, tries, Room(s, h), before);
      } else {
        OneRefused(h, tries, Room(s, h), before);
      }
    }
  }

  lemma {:induction false} AllFail(tasks: seq<Task>, results: seq<Result>)
    requires |tasks| == |results| && forall i | 0 <= i < |tasks| :: !results[i].Sent?
    ensures |Errors(tasks, results)| == |tasks|
    ensures forall i | 0 <= i < |tasks| :: Errors(tasks, results)[i] == (tasks[i].id, results[i])
  {
    if tasks != [] {
      AllFail(tasks[..|tasks| - 1], results[..|tasks| - 1]);
    }
  }

  lemma {:induction false} FirstPosted(tasks: seq<Task>, tries: seq<Try>, results: seq<Result>, k: nat)
    requires |tasks| == |tries| == |results|
    requires forall i | 0 <= i < |tasks| :: Posts(tries[i].reply) && (results[i].CircuitOpen? <==> i >= k)
    ensures Posted(tasks, tries, results) == tasks[..Min(|tasks|, k)]
  {
    if tasks != [] {
      var n := |tasks| - 1;
      FirstPosted(tasks[..n], tries[..n], results[..n], k);
    }
  }

  lemma OutageReplies(s: Settings, h: seq<Report>, tries: seq<Try>)
    requires Outage(s, h, tries)
    ensures forall i | 0 <= i < |tries| :: Posts(tries[i].reply) && Classify(tries[i].reply) !in {Sent, CircuitOpen}
  {
  }

  /** While the provider is down, a batch of n costs it at most maxFailures - c
      requests, c being the failures already counted: the first tasks are tried,
      the breaker refuses all the others, and the MultiError lists every task in
      order. */
  lemma OutageBound(s: Settings, h: seq<Report>, tasks: seq<Task>, tries: seq<Try>)
    requires |tasks| == |tries| && Outage(s, h, tries)
    ensures var b := SendEach(s, h, tries);
            var k := Min(|tasks|, s.Limit() - Replay(s, h).consecutive);
            && 0 <= Replay(s, h).consecutive < s.Limit()
            && Posted(tasks, tries, b.results) == tasks[..k]
            && |Errors(tasks, b.results)| == |tasks|
            && (forall i | 0 <= i < |tasks| ::
                  Errors(tasks, b.results)[i] == (tasks[i].id, if i < k then Classify(tries[i].reply) else CircuitOpen))
  {
    hide SendEach, Replay, Count, Open, Posted, Errors;
    ReplayCounts(s, h);
    OutageRun(s, h, tries);
    var b := SendEach(s, h, tries);
    OutageReplies(s, h, tries);
    hide Outage, Classify, Posts;
    FirstPosted(tasks, tries, b.results, Room(s, h));
    AllFail(tasks, b.results);
  }

  // ---- What the worker makes of it ----

  /** Where Send's error leads the worker: delivered tasks are acknowledged; an
      open breaker and a client error bury the task at once; every other error
      retries it while IsRetryable lets it, and buries it as exhausted after
      that. */
  lemma WhereErrorsLead(st: Protocol.State, c: nat, r: Result, error: string)
    requires Protocol.CanWork(st, c, Protocol.Send(Seen(r, error)))
    ensures var st' := Protocol.DoSend(st, c, Seen(r, error));
            && c in st'.copies
            && var t, pc := st.copies[c].task, st'.copies[c].pc;
               && (pc == Protocol.AckSent <==> r.Sent?)
               && (pc == Protocol.DeadLetter(NonRetryableError) <==> r.CircuitOpen? || r.ClientError?)
               && (pc == Protocol.Schedule <==> !r.Sent? && !r.CircuitOpen? && !r.ClientError? && t.IsRetryable())
               && (pc == Protocol.DeadLetter(MaxAttemptsExceeded) <==> !r.Sent? && !r.CircuitOpen? && !r.ClientError? && !t.IsRetryable())
               && (pc == Protocol.Schedule ==> st'.copies[c].task.attempt == t.attempt + 1)
  {
    hide Protocol.Onward, Protocol.SameRecords;
  }
}
