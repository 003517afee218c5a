// internal/adapters/redis/producer.go.

module Producer {
  import opened Wrappers
  import opened Domain
  import opened Network
  import opened Streams
  import opened Pipeline
  import Protocol

  // Why a task was not confirmed: the failing field, or the command's own error.
  datatype Cause = Invalid(field: string) | Refused

  datatype TaskError = TaskError(id: string, cause: Cause)

  datatype Result = Accepted | ContextDone | Errors(errors: seq<TaskError>)

  // Where the context is cancelled, if at all: before anything is sent, or while
  // the command is under way.
  datatype Cancellation = Never | Before | During

  function Faulty(tasks: seq<Task>): nat -> bool {
    (i: nat) => i < |tasks| && tasks[i].Validate().Some?
  }

  function Unconfirmed(replies: nat -> Reply): nat -> bool {
    (i: nat) => replies(i) != Done
  }

  // Every field is present and in range.
  predicate Complete(t: Task) {
    && t.tenantID != "" && t.recipient != "" && ValidType(t.taskType)
    && 0 <= t.priority <= 3 && t.maxAttempts > 0
  }

  lemma CompleteIsValid(t: Task)
    ensures Complete(t) <==> t.Validate().None?
  {
  }

  lemma NoFaults(tasks: seq<Task>)
    ensures Positions(|tasks|, Faulty(tasks)) == [] <==> forall i | 0 <= i < |tasks| :: Complete(tasks[i])
  {
    NoPositions(|tasks|, Faulty(tasks));
    hide Complete, Task.Validate, Positions;
    forall i | 0 <= i < |tasks|
      ensures Faulty(tasks)(i) <==> !Complete(tasks[i])
    {
      CompleteIsValid(tasks[i]);
    }
  }

  lemma AllConfirmed(n: nat, replies: nat -> Reply)
    ensures Positions(n, Unconfirmed(replies)) == [] <==> forall i | 0 <= i < n :: replies(i) == Done
  {
    NoPositions(n, Unconfirmed(replies));
    hide Positions;
    assert forall i :: 0 <= i < n ==> (Unconfirmed(replies)(i) <==> replies(i) != Done);
  }

  predicate Rejects(r: Result, id: string, field: string) {
    r == Errors([TaskError(id, Invalid(field))])
  }

  // The errors of the invalid tasks at these positions.
  function Invalids(tasks: seq<Task>, at: seq<nat>): (errs: seq<TaskError>)
    requires forall k | 0 <= k < |at| :: at[k] < |tasks| && tasks[at[k]].Validate().Some?
    ensures |errs| == |at|
    ensures forall k | 0 <= k < |at| :: errs[k] == TaskError(tasks[at[k]].id, Invalid(tasks[at[k]].Validate().value))
  {
    seq(|at|, k requires 0 <= k < |at| => TaskError(tasks[at[k]].id, Invalid(tasks[at[k]].Validate().value)))
  }

  // The errors of the unconfirmed tasks at these positions.
  function Refusals(tasks: seq<Task>, at: seq<nat>): (errs: seq<TaskError>)
    requires forall k | 0 <= k < |at| :: at[k] < |tasks|
    ensures |errs| == |at|
    ensures forall k | 0 <= k < |at| :: errs[k] == TaskError(tasks[at[k]].id, Refused)
  {
    seq(|at|, k requires 0 <= k < |at| => TaskError(tasks[at[k]].id, Refused))
  }

  class RedisProducer {
    var broker: Broker

    constructor (broker: Broker)
      ensures this.broker == broker
    {
      this.broker := broker;
    }

    /** Enqueue; `span` are the trace and span ID of the producer's own span, if
        it has a valid one.  `stored` is the task as it then is. */
    method Enqueue(task: Task, span: Option<(string, string)>, cancelled: Cancellation, reply: Reply) returns (stored: Task, r: Result)
      modifies this
      ensures stored == task.(traceID := stored.traceID, spanID := stored.spanID)
      ensures task.tenantID == "" ==> Rejects(r, task.id, "tenant_id")
      ensures task.tenantID != "" && task.recipient == "" ==> Rejects(r, task.id, "recipient")
      ensures task.tenantID != "" && task.recipient != "" && !ValidType(task.taskType) ==> Rejects(r, task.id, "type")
      ensures task.tenantID != "" && task.recipient != "" && ValidType(task.taskType) && !(0 <= task.priority <= 3) ==>
                Rejects(r, task.id, "priority")
      ensures task.tenantID != "" && task.recipient != "" && ValidType(task.taskType) && 0 <= task.priority <= 3 && task.maxAttempts <= 0 ==>
                Rejects(r, task.id, "max_attempts")
      ensures broker != old(broker) || r == Accepted ==>
                && task.tenantID != "" && task.recipient != "" && ValidType(task.taskType)
                && 0 <= task.priority <= 3 && task.maxAttempts > 0
      ensures match task.Validate()
              case Some(field) => broker == old(broker) && stored == task && r == Errors([TaskError(task.id, Invalid(field))])
              case None =>
                if cancelled.Before? then broker == old(broker) && stored == task && r == ContextDone
                else
                  && (if span.Some? then (stored.traceID, stored.spanID) == span.value else stored == task)
                  && broker == (if reply.Ran() then XAdd(old(broker), QueueName(task.priority), stored) else old(broker))
                  && r == if reply == Done then Accepted
                          else if cancelled.During? then ContextDone
                          else Errors([TaskError(task.id, Refused)])
    {
      stored := task;
      var err := task.Validate();
      if err.Some? { return stored, Errors([TaskError(task.id, Invalid(err.value))]); }
      if cancelled.Before? { return stored, ContextDone; }
      if span.Some? {
        stored := stored.(traceID := span.value.0, spanID := span.value.1);
      }
      if reply.Ran() {
        broker := XAdd(broker, QueueName(stored.priority), stored);
      }
      if reply != Done {
        return stored, if cancelled.During? then ContextDone else Errors([TaskError(task.id, Refused)]);
      }
      r := Accepted;
    }

    /** The validation pass: one error for each invalid task, in order. */
    method ValidateAll(tasks: seq<Task>) returns (errs: seq<TaskError>)
      ensures errs == Invalids(tasks, Positions(|tasks|, Faulty(tasks)))
      ensures errs == [] <==> forall i | 0 <= i < |tasks| :: Complete(tasks[i])
    {
      errs := [];
      NoFaults(tasks);
      hide Complete, Task.Validate;
      var i := 0;
      while i < |tasks|
        invariant 0 <= i <= |tasks|
        invariant errs == Invalids(tasks, Positions(i, Faulty(tasks)))
      {
        var err := tasks[i].Validate();
        if err.Some? {
          errs := errs + [TaskError(tasks[i].id, Invalid(err.value))];
        }
        i := i + 1;
      }
    }

    // pipe.XAdd for every task, and pipe.Exec.
    method SendAll(tasks: seq<Task>, replies: nat -> Reply)
      modifies this
      ensures broker == Moved(old(broker), tasks, replies)
    {
      var i := 0;
      while i < |tasks|
        invariant 0 <= i <= |tasks|
        invariant broker == Moved(old(broker), tasks[..i], replies)
      {
        if replies(i).Ran() {
          broker := XAdd(broker, QueueName(tasks[i].priority), tasks[i]);
        }
        assert tasks[..i + 1][..i] == tasks[..i];
        i := i + 1;
      }
      assert tasks[..i] == tasks;
    }

    /** The pipeline's results: one error for each task whose command did not
        confirm, in order. */
    method CollectErrors(tasks: seq<Task>, replies: nat -> Reply) returns (errs: seq<TaskError>)
      ensures errs == Refusals(tasks, Positions(|tasks|, Unconfirmed(replies)))
    {
      errs := [];
      var i := 0;
      while i < |tasks|
        invariant 0 <= i <= |tasks|
        invariant errs == Refusals(tasks, Positions(i, Unconfirmed(replies)))
      {
        if replies(i) != Done {
          errs := errs + [TaskError(tasks[i].id, Refused)];
        }
        i := i + 1;
      }
    }

    /** EnqueueBatch.  With any invalid task no stream changes, and the error has
        one entry for each of them; otherwise the whole batch is sent, whatever
        single commands do, and the error has one entry for each task not
        confirmed - unless the context ended meanwhile, which hides that tasks
        may have been written. */
    method EnqueueBatch(tasks: seq<Task>, cancelled: Cancellation, replies: nat -> Reply) returns (r: Result)
      modifies this
      ensures broker != old(broker) ==> forall i | 0 <= i < |tasks| :: Complete(tasks[i])
      ensures r == Accepted <==> tasks == [] || (!cancelled.Before? && forall i | 0 <= i < |tasks| :: Complete(tasks[i]) && replies(i) == Done)
      ensures var invalid := Positions(|tasks|, Faulty(tasks));
              var refused := Positions(|tasks|, Unconfirmed(replies));
              if invalid != [] then
                broker == old(broker) && r == Errors(Invalids(tasks, invalid))
              else if tasks != [] && cancelled.Before? then
                broker == old(broker) && r == ContextDone
              else
                && broker == Moved(old(broker), tasks, replies)
                && r == if refused == [] then Accepted else if cancelled.During? then ContextDone else Errors(Refusals(tasks, refused))
    {
      NoFaults(tasks);
      AllConfirmed(|tasks|, replies);
      hide Complete, Positions, Faulty, Unconfirmed, Moved;
      if tasks == [] { return Accepted; }
      var errs := ValidateAll(tasks);
      if |errs| > 0 { return Errors(errs); }
      if cancelled.Before? { return ContextDone; }
      SendAll(tasks, replies);
      errs := CollectErrors(tasks, replies);
      if |errs| > 0 && cancelled.During? { return ContextDone; }
      r := if |errs| > 0 then Errors(errs) else Accepted;
    }
  }

  /** A confirmed batch is on its streams to the last task, each in the stream of
      its own priority and in batch order. */
  lemma AcceptedBatch(b: Broker, tasks: seq<Task>, replies: nat -> Reply, key: string)
    requires Positions(|tasks|, Unconfirmed(replies)) == []
    ensures Log(Moved(b, tasks, replies), key) == Log(b, key) + ForStream(tasks, key)
    ensures forall i, j | 0 <= i < j < |tasks| && QueueName(tasks[i].priority) == QueueName(tasks[j].priority) == key ::
              Precedes(ForStream(tasks, key), tasks[i], tasks[j])
    ensures forall t :: t in ForStream(tasks, key) <==> t in tasks && QueueName(t.priority) == key
  {
    AllConfirmed(|tasks|, replies);
    MovedAll(b, tasks, replies, key);
    hide QueueName;
    forall i, j | 0 <= i < j < |tasks| && QueueName(tasks[i].priority) == QueueName(tasks[j].priority) == key
      ensures Precedes(ForStream(tasks, key), tasks[i], tasks[j])
    {
      QueueNames(tasks[i].priority, tasks[j].priority);
      MovedInOrder(b, tasks, replies, i, j);
      assert Log(Moved(b, tasks, replies), key)[|Log(b, key)|..] == ForStream(tasks, key);
    }
    forall t
      ensures t in ForStream(tasks, key) <==> t in tasks && QueueName(t.priority) == key
    {
      StreamHolds(tasks, key, t);
    }
  }

  /** A batch is a run of Enqueue steps of the protocol, whatever single commands
      do: all that is proved of its runs holds of written tasks. */
  lemma {:induction false} BatchIsARun(st: Protocol.State, tasks: seq<Task>, replies: nat -> Reply)
    requires forall i | 0 <= i < |tasks| :: tasks[i].Validate().None?
    ensures exists st' ::
              && Protocol.Reaches(st, st') && st'.broker == Moved(st.broker, tasks, replies)
              && st'.ledger.enqueued == st.ledger.enqueued + (set t | t in Written(tasks, replies))
  {
    if tasks == [] {
      Protocol.ReachesSelf(st);
      assert st.ledger.enqueued + (set t | t in Written(tasks, replies)) == st.ledger.enqueued;
    } else {
      var n := |tasks| - 1;
      BatchIsARun(st, tasks[..n], replies);
      hide Protocol.Reaches, QueueName;
      var w := Written(tasks[..n], replies);
      var mid :| Protocol.Reaches(st, mid) && mid.broker == Moved(st.broker, tasks[..n], replies)
                 && mid.ledger.enqueued == st.ledger.enqueued + (set t | t in w);
      if replies(n).Ran() {
        var e := Protocol.Enqueue(tasks[n]);
        var st' := Protocol.Next(mid, e);
        Protocol.ReachesNext(mid, e);
        Protocol.ReachesMore(st, mid, st');
        assert (set t | t in Written(tasks, replies)) == (set t | t in w) + {tasks[n]};
        assert st'.broker == Moved(st.broker, tasks, replies);
      } else {
        assert Written(tasks, replies) == w;
        assert mid.broker == Moved(st.broker, tasks, replies);
      }
    }
  }
}
