# E-mail queue: a verified model of the delivery protocol

This project models an e-mail delivery service built on Redis: producers append
tasks to four priority streams, worker goroutines take them from a consumer
group, send them through SendGrid under attempt-scoped idempotency locks, and
either acknowledge them, park them in a sorted set for a later retry, or push
them to a dead-letter list; a scheduler moves due retries back into the streams.

The centre is one state machine, `Protocol`, whose steps are the individual
Redis commands and provider calls of any number of producers, workers and
schedulers.  They interleave freely, every process may die between any two of
its steps, and every command may fail or run without its reply arriving
(`Network.Reply`).  What is proved of it holds in every reachable state or on
every run:

* no task is lost (`NoLoss`), and exactly what a refused `XADD` costs;
* how often a task can be sent, sent successfully or buried (`Accounting`,
  `Guarantees`, with `FullBudget` for the bound that is reached), and that
  acknowledgements remove the message they mean;
* work runs out (`Termination`): the steps taken on a task are paid for out of
  a potential that only enqueuing and redelivery raise, and from every reachable
  state a run leads the task to rest (`Rest`);
* rest means success or burial, exactly one of them (`Settlement`);
* with clocks, when the lock keeps workers apart, and exactly when not (`Lease`);
* a takeover, a cleared lock, an expired lock and a refused `XADD` do each break
  what the guarantees except them from (`Witnesses`).

Around it the imperative components are classes with their loops, proved
against specifications.  Their effects are steps of the protocol: the worker
program is a run of it (`Supervisor`), and so are a poll and a claim of the
consumer (`Streams`, `PollRuns`), a batch of the producer (`Producer`,
`Pipeline`) and a flush of the retry set (`RetryScheduler`, `FlushReady`); the
errors of the sender lead to its positions (`Sender`), the waits of its retries
are those of the back-off (`Backoff`), and its burials fill the dead-letter lists
the monitor reads (`DeadLetters`).  The lock store (`Idempotency`) runs the
protocol's lock scripts over keys with a TTL.  The circuit breaker (`Breaker`)
and the semaphore with its drain (`WorkerPool`) are machines of their own.

`dafny verify dfyconfig.toml` checks everything.

## Where code and documentation differ

The model follows the code.

* `IsRetryable` compares with `<` and attempts count from 0, so the attempt
  numbered MaxAttempts is sent too, one more than internal/domain/email_task.go:59
  says.  Every valid task enqueued at attempt 0 and not poison has a run that sends
  it MaxAttempts + 1 times (`FullBudget.BudgetIsReached`).  With no lock reopened
  that happens exactly when the attempt numbered MaxAttempts is sent, all attempts
  before having failed and been postponed (`Guarantees.FullBudget`).
* The supervisor increments Attempt before it asks for the delay, so the first
  retry waits for exponent 1, 2 to 2.4 seconds (`Backoff.RetryWait`,
  `Backoff.FirstRetryWait`), not for attempt 0 as
  internal/domain/retry_policy.go:23 says.
* internal/worker/supervisor.go:221 logs "processing anyway" when SetProcessing
  fails; the code takes the branch of a lock not acquired.
* The poison mark a panic leaves is on the in-memory copy only, for Nack writes
  nothing; a panic is a crash of its worker in the model.
* internal/adapters/redis/retry_scheduler.go:95 says that tasks of failed XADDs
  stay in the set; the ZREM of the batch removes them
  (`FlushReady.LostExactly`, `Witnesses.FlushCanDropATask`).
* Validate does not look at Attempt; attempt ranges are stated relative to the
  attempt a task was enqueued with.
* A SendToDLQ whose EXPIRE fails, or whose reply is lost, reports failure although
  the entry is stored (`DeadLetters.RedisDLQWriter.SendToDLQ`); the lock is then
  cleared, and the same attempt can be redelivered and sent successfully
  (`Witnesses.BuriedAndSent`).
* The reclaim threshold defaults to 30 seconds, as does the HTTP timeout of the
  sender.  A worker is safe from being joined exactly as long as no clock shows a
  second that many seconds after the second of its own reading, while its TTL lasts
  (`Lease.LeaseExclusion`, `Lease.JoinedExactlyWhenLate`).

## Model

| member | source | states |
|---|---|---|
| `Domain.QueueNames` | internal/domain/types.go:84-96 | a task's stream is one of the four the consumers read exactly when its priority is valid, critical standing first and low last among them, and no two priorities, known or not, share a stream |
| `Keys.AttemptKeyInjective` | internal/worker/supervisor.go:132-138 | two deliveries share a lock only if they are the same attempt of the same task, even when IDs contain '#' |
| `Keys.FormattedKeyParses` | internal/worker/dlq_monitor.go:100-112 | the monitor reads back what the writer formatted if and only if the tenant is non-empty without ':' and the type non-empty |
| `Keys.ParsedKeyReformats` | internal/worker/dlq_monitor.go:100-112 | every accepted key re-formats to itself, and every rejected one is the key of no such tenant and type |
| `Keys.DlqKeyInjective` | internal/adapters/redis/dlq_writer.go:20-23 | valid tasks share a dead-letter key only if tenant and type agree |
| `Idempotency.ReclaimWindow` | internal/adapters/redis/idempotency.go:161-170 | a stale verdict means the lock is older than the whole-second threshold less a second, and any lock as old as the threshold is stale |
| `Idempotency.Store.SetProcessing` | internal/adapters/redis/idempotency.go:65-84 | the lock is acquired only if no unexpired record exists, and then names the worker and its clock and lives for the whole TTL from the instant of the command; an error or lost reply reports not acquired, the record may exist all the same |
| `Idempotency.Store.TryReclaimStale` | internal/adapters/redis/idempotency.go:161-184 | only an unexpired, processing and stale record changes hands, it then lives for a whole new TTL, and no other key is touched |
| `Idempotency.Store.SetCompleted` | internal/adapters/redis/idempotency.go:90-121 | an existing record becomes completed, for a whole new TTL, whoever holds it; a missing one is left missing without an error |
| `Idempotency.Store.IsCompleted` | internal/adapters/redis/idempotency.go:123-139 | true exactly when the reply arrived and the stored record is completed and has not run out; then neither script would hand the lock to anybody |
| `Idempotency.Store.ClearProcessing` | internal/adapters/redis/idempotency.go:147-152 | the record is gone whatever it was, and no other key is touched |
| `Idempotency.TimeOnlyExpires` | internal/adapters/redis/scripts.go:37-38 | as time passes records only disappear, they never change |
| `Idempotency.AcquiredForTTL` | internal/adapters/redis/scripts.go:24-39 | after a lock was acquired no request for it acquires it again before its TTL has passed, whatever takeovers, completions and requests for other keys there are, unless it is cleared; left alone it can be acquired exactly from the end of the TTL on |
| `Streams.XAckRemovesOne` | internal/adapters/redis/consumer.go:230-246 | acknowledging takes one message out of circulation and leaves every other as live as it was |
| `Streams.BatchIsRouted` | internal/adapters/redis/consumer.go:177-198 | every task a poll hands out is the message of the slot its metadata names, apart from that metadata |
| `Streams.ClaimableIsRouted` | internal/adapters/redis/consumer.go:291-303 | every claimed task is a pending, idle message of the stream, stamped with its own slot |
| `Streams.Consumer.ReadStream` | internal/adapters/redis/consumer.go:144-197 | one stream's next messages, in order, move to the pending list and no message stops being live |
| `Streams.Consumer.ReadAll` | internal/adapters/redis/consumer.go:144-197 | the streams are read one after the other, each up to ten messages, in order |
| `Streams.ReadEachKeeps` | internal/adapters/redis/consumer.go:144-151 | reading any streams loses no message: what was live stays live, and nothing is added |
| `Streams.ReadEachAdvances` | internal/adapters/redis/consumer.go:144-151 | each stream read advances by exactly what was available of it, at most ten |
| `Streams.Consumer.Poll` | internal/adapters/redis/consumer.go:125-198 | a pass hands out up to ten new messages of each priority, most urgent stream first; without a reply it hands out none, though they may have been delivered; no message stops being live |
| `Streams.PollWindow` | internal/adapters/redis/consumer.go:131-198 | of each stream a poll hands out exactly the new messages with the ten lowest IDs, those of a more urgent stream before those of a less urgent one, and older ones of a stream first |
| `Streams.Consumer.ClaimStream` | internal/adapters/redis/consumer.go:275-303 | at most a batch of the stream's pending idle messages, oldest first |
| `Streams.Consumer.ClaimStale` | internal/adapters/redis/consumer.go:268-307 | the claimable messages of all four streams, most urgent stream first; the first failing stream makes the call fail and return nothing; the pending list keeps all |
| `Streams.ClaimWindow` | internal/adapters/redis/consumer.go:268-307 | a pending message idle for long enough is claimed unless a hundred older ones of its stream are, more urgent streams first and older messages of a stream first |
| `Streams.Consumer.Acknowledge` | internal/adapters/redis/consumer.go:230-246 | the slot named by the task's metadata, and no other, leaves the pending list if the command ran; a delivered message then is out of circulation, every other message is as live as it was |
| `PollRuns.PollIsARun` | internal/adapters/redis/consumer.go:139-198 | a poll, with any reply, is a run of delivery steps of the protocol whose new goroutines hold exactly the tasks returned |
| `PollRuns.ClaimIsARun` | internal/adapters/redis/consumer.go:268-307 | a claim is a run of claim steps of the protocol, one new goroutine for each task, from the slot it names |
| `Accounting.SoundKept` | internal/worker/supervisor.go:163-324 | every step of any process keeps the invariant: records descend from enqueued tasks and lie in their own stream, copies name their own delivery, completed locks follow a success, and per lock sends, grants, failures and hand-offs balance |
| `Accounting.ReachableSound` | internal/worker/supervisor.go:72-119 | that invariant holds in every reachable state |
| `NoLoss.AcknowledgeKeeps` | internal/worker/supervisor.go:258-303 | an acknowledgement never removes the last trace of an attempt: its task is settled or has a later record |
| `NoLoss.RemoveKeeps` | internal/adapters/redis/retry_scheduler.go:143-165 | the ZREM of a flush loses a member only if that member's XADD was not carried out |
| `NoLoss.NothingLostKept` | internal/worker/supervisor.go:216-324 | every step keeps each attempt ever created settled, on its way or recorded as dropped |
| `NoLoss.NoTaskIsLost` | internal/worker/supervisor.go:140-155 | in every reachable state each enqueued task was sent, is in a dead-letter list, is on its way at its attempt or a later one, or was dropped by a flush |
| `NoLoss.NoAttemptIsLost` | internal/worker/supervisor.go:306-315 | the same for every attempt ever created, so a retry is never forgotten in favour of an earlier record |
| `NoLoss.NothingIsLost` | internal/adapters/redis/retry_scheduler.go:138-159 | if pipelines are at worst cut short, nothing is ever dropped: settled or on its way, after every run |
| `Guarantees.SendAccounting` | internal/worker/supervisor.go:216-255 | per attempt: sends are at most grants plus takeovers, grants at most one plus clears plus expiries, each failure leads to at most one burial or retry, and a completed lock means a successful send |
| `Guarantees.OutcomeBound` | internal/worker/supervisor.go:216-324 | successful sends and burials of a task together number at most its distinct enqueued attempts plus the times a lock was taken over, cleared or expired |
| `Guarantees.SendBudget` | internal/domain/email_task.go:116-125 | a task enqueued at attempt 0 is sent at most MaxAttempts + 1 times plus once for each reopened lock, and never for an attempt outside that range |
| `Guarantees.FullBudget` | internal/domain/email_task.go:120-125 | with no lock reopened the task was sent MaxAttempts + 1 times if and only if the attempt numbered MaxAttempts was sent, and then every attempt before failed once and was postponed |
| `FullBudget.BudgetIsReached` | internal/domain/email_task.go:59-60 | every valid task at attempt 0 that is not poison has a reachable state, with one enqueue and no lock reopened, in which it was sent MaxAttempts + 1 times |
| `Guarantees.AtMostOneOutcome` | internal/worker/supervisor.go:202-260 | if no lock of the task is reopened, duplicates, lost acks, re-flushes and crashes notwithstanding, it is sent successfully once or buried once, never both, and no later attempt is ever created |
| `Guarantees.NoLaterRecord` | internal/worker/supervisor.go:306-315 | after the attempt that ended the task no higher attempt has a record |
| `Guarantees.RecordRange` | internal/worker/supervisor.go:273-308 | every stored or buried record, and the copy in every worker, is an enqueued task, fields unchanged, at an attempt between the enqueued one and the budget; retries have failed at least once; "max attempts exceeded" is only said at the end of the budget or of poison |
| `Guarantees.AcknowledgeHitsOwnDelivery` | internal/adapters/redis/consumer.go:217-246 | in every reachable state a worker's acknowledgement removes the pending entry its copy came from and no other, although retries carry old routing metadata along |
| `Termination.StepPaid` | internal/worker/supervisor.go:163-324 | every step lowers the potential of a task if it is on the task, and never raises it except by what an enqueue grants or a redelivery adds |
| `Termination.ComesToRest` | internal/domain/email_task.go:116-125 | on every run the steps on a task number at most ten for each attempt of its budget, the first included, per enqueue, and three more than that per redelivery of one of its records, whatever fails or dies |
| `Rest.SpentIsAtRest` | internal/worker/supervisor.go:163-324 | the potential is zero exactly when no worker, no stream, no retry set and no flush has the task |
| `Rest.NeverStuck` | internal/worker/delayed_scheduler.go:46-61 | while the potential is not spent some step that redelivers nothing moves the task or what is ahead of it in its stream or batch |
| `Rest.LeadsToRest` | internal/worker/delayed_scheduler.go:46-61 | from every sound state such steps lead the task to rest, by the potential and then what is ahead of it |
| `Rest.CanComeToRest` | internal/worker/supervisor.go:163-324 | from every reachable state a run that redelivers nothing of the task brings it to rest |
| `Settlement.StepCarries` | internal/worker/supervisor.go:216-315 | a step in which nothing fails for the task keeps every attempt settled, in a worker's hands, succeeded by the next, or on its way to a worker |
| `Settlement.RestMeansSettled` | internal/worker/supervisor.go:254-324 | after any run without faults for the task, an enqueued task at rest was sent or is in a dead-letter list |
| `Settlement.CanBeSettled` | internal/worker/supervisor.go:254-324 | every run without faults for the task can be continued without faults to a state where the task was sent or buried and is at rest |
| `Settlement.ExactlyOneOutcome` | internal/worker/supervisor.go:254-324 | if also no worker took over one of its locks, exactly one attempt was sent successfully once or buried once, no other was either, and it was sent at most MaxAttempts + 1 times |
| `Witnesses.TakeoverSendsTwice` | internal/worker/supervisor.go:232-250 | every valid task has a reachable state in which one takeover led to two successful sends |
| `Witnesses.BuriedAndSent` | internal/worker/supervisor.go:291-297 | every valid task has a reachable state in which one cleared lock, after a burial whose reply was lost, led to a burial and a successful send of the same attempt |
| `Witnesses.ExpirySendsTwice` | internal/adapters/redis/idempotency.go:103-116 | every valid task has a reachable state in which one expired lock led to two successful sends |
| `Witnesses.FlushCanDropATask` | internal/adapters/redis/retry_scheduler.go:159-176 | every valid retryable task has a reachable state in which a refused XADD and a served ZREM left it neither settled nor on its way |
| `Supervisor.PromiseKept` | internal/worker/supervisor.go:225-303 | whenever a worker is about to acknowledge, the outcome it acknowledges is already on record |
| `Supervisor.Goroutine.SetProcessing` | internal/worker/supervisor.go:217-222 | with others interfering, acquired exactly if the command met no lock and its reply came; a command that met none left a processing lock with the worker's name, one more grant; the copy goes on to Send if acquired and to the duplicate check if not, errors included |
| `Supervisor.Goroutine.IsCompleted` | internal/worker/supervisor.go:223-230 | true exactly if the command met a completed lock and its reply came; then the duplicate is acknowledged, otherwise the takeover is tried |
| `Supervisor.Goroutine.TryReclaimStale` | internal/worker/supervisor.go:232-245 | true exactly if the command met a stale processing lock and its reply came; then the goroutine goes on to Send, otherwise it gives its copy up and no message changes |
| `Supervisor.Goroutine.SendEmail` | internal/worker/supervisor.go:254-308 | success leads to the acknowledgement; a failure puts its error on the task and leads to the dead-letter list if it is permanent, the task poison or its attempt not below the budget, and to a retry of the next attempt otherwise |
| `Supervisor.Goroutine.PassGate` | internal/worker/supervisor.go:215-250 | the goroutine passes with its copy unchanged, by an acquired or a taken-over lock, or ends as the acknowledged duplicate of a recorded success, or because the lock is held, having acknowledged nothing |
| `Supervisor.Goroutine.Conclude` | internal/worker/supervisor.go:258-303 | what is acknowledged is on record then, and the copy is let go |
| `Supervisor.Goroutine.GiveUp` | internal/worker/supervisor.go:140-155 | a failed hand-off ends in one call that clears the lock if it runs; nothing is acknowledged and no message changes |
| `Supervisor.Goroutine.BuryTask` | internal/worker/supervisor.go:279-303 | if the push ran the list grows by one entry: the delivered task with the error Send returned, that error, and as the reason "non-retryable error" exactly for permanent failures; the task ends buried, on record, or handed back |
| `Supervisor.Goroutine.RetryTask` | internal/worker/supervisor.go:306-324 | if the command ran the retry set gains the delivered task with the error Send returned, one attempt further; the task ends rescheduled, on record, or handed back |
| `Supervisor.Goroutine.HandleFailure` | internal/worker/supervisor.go:271-324 | permanent errors and spent budgets go to the dead-letter list and are never rescheduled, all others to the retry set and are never buried, with the very entry or record that error makes of the delivered task; then the acknowledgement, or after a failed hand-off the clearing of the lock |
| `Supervisor.Goroutine.DeliverEmail` | internal/worker/supervisor.go:252-324 | from Send on, the calls are those of the outcome, in order |
| `Supervisor.Goroutine.ProcessTask` | internal/worker/supervisor.go:163-324 | with arbitrary steps of all others between its calls, the goroutine is a run of the protocol, makes exactly the calls of its outcome in order, lets go of its copy, ends with its outcome on record and counts it; after a failed Send the next call writes exactly what that error makes of the delivered task |
| `Lease.FreeToTake` | internal/adapters/redis/scripts.go:58-73 | if workers are timely, a lock that can be acquired or reclaimed, or that runs out, has no live holder |
| `Lease.LeaseExclusion` | internal/worker/supervisor.go:202-250 | on every timed run of the protocol in which no worker holds a lock beyond the whole-second threshold on any clock, nor beyond the TTL, at most one worker is between acquiring and releasing the lock of an attempt, and the lock is its own |
| `Lease.SecondToSpare` | internal/adapters/redis/idempotency.go:161-170 | finishing a second before the threshold suffices |
| `Lease.ReleaseTouchesOwnLock` | internal/adapters/redis/idempotency.go:90-152 | SetCompleted and ClearProcessing, which never check the holder, then meet the caller's own lock, change no other, and leave no other holder of it |
| `Lease.CompletedIsFinal` | internal/adapters/redis/idempotency.go:86-121 | on such runs a completed record stays as it is until its TTL runs out |
| `Lease.JoinedExactlyWhenLate` | internal/adapters/redis/scripts.go:58-73 | a second worker handed the same attempt can join a holder if and only if the most advanced clock shows a second at least the threshold after that of the holder's reading |
| `Backoff.DelayWindow` | internal/domain/retry_policy.go:61-89 | for every attempt, negative ones counting as 0, and every draw the delay is at least the capped exponential, at most the cap and at most the exponential stretched by the jitter |
| `Backoff.PossibleDelays` | internal/domain/retry_policy.go:71-89 | the delays an attempt can get are exactly the capped exponential and the longer ones up to the cap that fall short of the whole jitter share |
| `Backoff.DelaysGrow` | internal/domain/retry_policy.go:61-89 | any later attempt waits no less than any earlier one, whatever the two draws |
| `Backoff.RetryWait` | internal/worker/supervisor.go:306-308 | the record a worker stores after a failed attempt waits by the back-off of the attempt after the delivered one |
| `Backoff.FirstRetryWait` | internal/domain/email_task.go:137-142 | the first retry can wait for any time from 2 seconds up to, not including, 2.4, and for no other |
| `Backoff.LateRetryWait` | internal/domain/retry_policy.go:35-59 | from the tenth retry on every wait is exactly a quarter of an hour |
| `Backoff.TaskDelayBound` | internal/domain/email_task.go:137-142 | the waits before attempts 1 to n of a task sum to at most n quarters of an hour and at most 1.2 * (2^(n+1) - 2) seconds |
| `Backoff.TotalDelayBound` | internal/domain/retry_policy.go:71-89 | for any policy the delays of attempts 1 to n sum to at most n times the cap and at most (1 + jitter) * base * (2^(n+1) - 2) |
| `RetryScheduler.Scheduler.ScheduleRetry` | internal/adapters/redis/retry_scheduler.go:66-90 | a new member enters at its due second, an identical one stays where it is, and the set stays ordered and free of duplicates |
| `RetryScheduler.Scheduler.QuarantineCorruptMembers` | internal/adapters/redis/retry_scheduler.go:199-253 | the loop and its pipeline push what the server carries out, in order, and remove all members by one ZREM or none |
| `RetryScheduler.Scheduler.TransferTasks` | internal/adapters/redis/retry_scheduler.go:138-192 | the pipeline appends what the server carries out and removes the batch by one ZREM or not; the result lists the confirmed tasks in order |
| `RetryScheduler.Scheduler.FlushReady` | internal/adapters/redis/retry_scheduler.go:98-193 | the first hundred due members are split and moved as the specification `Flush` says, for every combination of replies, and the confirmed tasks are returned; a failed read changes nothing |
| `RetryScheduler.Scheduler.Run` | internal/worker/delayed_scheduler.go:37-62 | a series of ticks is the series of flushes whose reads succeeded |
| `RetryScheduler.DueWindow` | internal/adapters/redis/retry_scheduler.go:72-76 | a retry scheduled at s for a delay d is never flushed at or before s + d - 1 second and always due from s + d on |
| `FlushReady.CleanFlush` | internal/adapters/redis/retry_scheduler.go:98-193 | without failures exactly the first min(100, due) members leave: tasks in score order to the end of the stream of their own priority, corrupt ones in order to the poison list |
| `FlushReady.FlushInOrder` | internal/adapters/redis/retry_scheduler.go:117-159 | without failures every stream grows by exactly the batch's tasks of its priority and the poison list by exactly its corrupt members, each once, and a member of lower rank in the sorted set stands before any of higher rank |
| `FlushReady.FlushedInOrder` | internal/adapters/redis/retry_scheduler.go:167-193 | whatever the replies, exactly the tasks of the batch whose own XADD was confirmed are returned, once each and in score order |
| `FlushReady.FlushTouchesBatchOnly` | internal/adapters/redis/retry_scheduler.go:102-165 | whatever fails, a member leaves the set if and only if it is in the batch and its ZREM ran |
| `FlushReady.PrefixFlushLosesNothing` | internal/adapters/redis/retry_scheduler.go:138-165 | with pipelines cut short at any point, no member disappears without its copy in its stream or in the poison list |
| `FlushReady.LostExactly` | internal/adapters/redis/retry_scheduler.go:147-176 | with single refused commands a task is lost if and only if its XADD was not carried out and the ZREM was |
| `FlushReady.CorruptLostExactly` | internal/adapters/redis/retry_scheduler.go:209-248 | an unreadable member is lost if and only if its RPUSH was not carried out and the ZREM of the quarantine was |
| `FlushReady.BacklogDrains` | internal/worker/delayed_scheduler.go:46-61 | if n of a series of ticks can read and meet no failure, max(0, due - 100n) due members are left, corrupt ones never block the window, and ticks that cannot read change nothing |
| `FlushReady.PrefixRunLosesNothing` | internal/worker/delayed_scheduler.go:46-61 | no series of ticks with cut-short pipelines loses a member |
| `FlushReady.FlushIsARun` | internal/adapters/redis/retry_scheduler.go:98-193 | FlushReady with any replies is a run of the protocol's scheduler steps |
| `Pipeline.MovedWritten` | internal/adapters/redis/producer.go:159-166 | a pipeline of XADDs makes each stream grow by exactly the written tasks of its priority, in batch order |
| `Pipeline.MovedInOrder` | internal/adapters/redis/producer.go:159-166 | two written tasks of the same priority stand in their stream in the order of the batch, whatever became of the other commands |
| `Breaker.BreakerRefinesHistory` | internal/adapters/email/circuit_breaker.go:30-63 | for every timed history of reports the breaker refuses at t if and only if its latest trip, a failure whose streak is a multiple of maxFailures, has seen no success and t is within openDuration of it |
| `Breaker.ReplayCounts` | internal/adapters/email/circuit_breaker.go:47-57 | the counter is the number of failures since the last success modulo maxFailures, and stays below it |
| `Breaker.ShortStreaksNeverOpen` | internal/adapters/email/circuit_breaker.go:47-57 | without maxFailures failures in a row the breaker never opens |
| `Breaker.CircuitBreaker.Allow` | internal/adapters/email/circuit_breaker.go:30-38 | allows exactly when the history of reports does not have the breaker open |
| `Breaker.CircuitBreaker.RecordSuccess` | internal/adapters/email/circuit_breaker.go:40-45 | the two fields are those of the history with one more success |
| `Breaker.CircuitBreaker.RecordFailure` | internal/adapters/email/circuit_breaker.go:47-63 | the two fields are those of the history with one more failure |
| `Sender.SendGridSender.Send` | internal/adapters/email/sendgrid_sender.go:66-143 | an open breaker refuses without a request; only 2xx is a success and reported as one, 4xx is the client's error and not reported, every other status and a request without an answer fail and are reported as failures, a cancelled or unbuilt request is neither |
| `Sender.SendGridSender.SendBatch` | internal/adapters/email/sendgrid_sender.go:146-157 | all tasks are tried in order, nil means all were sent, and otherwise the error lists the unsent ones, in order, and no other |
| `Sender.EachInTurn` | internal/adapters/email/sendgrid_sender.go:146-157 | each task of a batch is refused exactly if the breaker is open by what it was told before, and otherwise has the result of its own request, whatever became of the others |
| `Sender.AnsweredBatch` | internal/adapters/email/sendgrid_sender.go:103-132 | while the provider answers by success or client errors the breaker refuses nothing: every task is posted and has the result of its own reply, and the breaker hears of successes only |
| `Sender.OutageBound` | internal/adapters/email/sendgrid_sender.go:66-157 | in an outage a batch of n makes exactly min(n, maxFailures - c) requests, for its first tasks, the rest is refused by the breaker, and the error lists all n in order |
| `Sender.WhereErrorsLead` | internal/worker/supervisor.go:277-308 | in the protocol an open breaker and a client error lead to a burial at once, every other error to a retry while the budget lasts and to a burial as exhausted after that |
| `Producer.RedisProducer.Enqueue` | internal/adapters/redis/producer.go:61-117 | the first field that is missing or out of range is named in the error, and such a task or a cancelled context writes nothing; else the task, changed at most in its trace IDs, is at the end of its stream if the command ran |
| `Producer.RedisProducer.ValidateAll` | internal/adapters/redis/producer.go:132-142 | the errors are those of exactly the tasks with a field missing or out of range, in order |
| `Producer.RedisProducer.CollectErrors` | internal/adapters/redis/producer.go:173-178 | the errors are those of exactly the unconfirmed tasks, in order |
| `Producer.RedisProducer.SendAll` | internal/adapters/redis/producer.go:159-168 | the pipeline's appends, as far as the server carries them out |
| `Producer.RedisProducer.EnqueueBatch` | internal/adapters/redis/producer.go:127-193 | one task with a field missing or out of range keeps all streams as they are and the error counts such tasks; otherwise the whole batch is sent, nil means all confirmed, and the error lists exactly the unconfirmed ones unless the context ended meanwhile |
| `Producer.AcceptedBatch` | internal/adapters/redis/producer.go:119-193 | a confirmed batch is on its streams completely, each task in the stream of its priority and no other, in batch order |
| `Producer.BatchIsARun` | internal/adapters/redis/producer.go:159-168 | a batch of valid tasks with any replies is a run of Enqueue steps of the protocol for exactly the written tasks |
| `DeadLetters.RedisDLQWriter.SendToDLQ` | internal/adapters/redis/dlq_writer.go:47-87 | the entry is at the end of its own list if RPUSH ran, even where a failed EXPIRE makes the call fail; after a successful call the gauge shows the new depth if LLEN is answered |
| `DeadLetters.RedisDLQWriter.ListDLQ` | internal/adapters/redis/dlq_writer.go:91-110 | the oldest entries up to the limit in order, or the position of the first unreadable one among them |
| `DeadLetters.DepthCounts` | internal/adapters/redis/dlq_writer.go:112-119 | in every reachable state the length DLQDepth reads is the number of burials of that tenant and type |
| `DeadLetters.PushFiles` | internal/adapters/redis/dlq_writer.go:57-65 | a push extends the list of its tenant and type as the protocol's burial does, and no other |
| `DeadLetters.ListsAreTenantScoped` | internal/adapters/redis/dlq_writer.go:57-65 | in every reachable state a list holds exactly the burials of its own tenant and type, whatever characters tenant names hold |
| `DeadLetters.DLQMonitor.Scrape` | internal/worker/dlq_monitor.go:72-98 | every key is visited, malformed and unanswered ones are skipped, and exactly the measured ones deeper than the threshold alert, in order |
| `DeadLetters.GaugeShowsOwnKey` | internal/worker/dlq_monitor.go:81-87 | the gauge of a measured key shows the depth of that very key at its last measurement |
| `DeadLetters.GaugesKept` | internal/worker/dlq_monitor.go:74-87 | gauges of keys that were not measured stay |
| `WorkerPool.StepConserves` | internal/worker/supervisor.go:163-171 | every step keeps tokens = launched + running workers at most PoolSize and the counter = running + released workers |
| `WorkerPool.Conservation` | internal/worker/supervisor.go:123-130 | so in every interleaving at most PoolSize workers are in their bodies |
| `WorkerPool.ReleaseNeverBlocks` | internal/worker/supervisor.go:167-171 | the channel receive that gives a token back never blocks |
| `WorkerPool.DrainIsQuietExactlyWithoutTokens` | internal/worker/supervisor.go:350-396 | when the counter is zero no body will run any more if and only if no token is held |
| `WorkerPool.GaugeUnbounded` | internal/worker/supervisor.go:167-171 | the active-worker counter can reach any number, since tokens are returned before it is decremented |
| `WorkerPool.Dispatcher.TryDispatch` | internal/worker/supervisor.go:123-130 | a worker is launched exactly when a slot is free |
| `WorkerPool.Dispatcher.Drain` | internal/worker/supervisor.go:378-396 | returns at the first look at a zero counter, or at the deadline; on success no worker is in its body, and processing has ended exactly if no token is held |

## Left out

- Redis itself: the client, its connections and the Lua interpreter are left out; a command or script is one atomic step with a reply that may be lost.
- JSON and hashes: encoding is taken to round-trip, marshalling never fails, the digest of a script is not modelled; "corrupt" members and list elements are a constructor of their own. Unparseable stream messages are not modelled.
- Floating point: back-off uses exact reals with truncation at the end, and the random draw is a parameter.
- Time in the protocol: clock readings and idle times are arbitrary there, so its theorems hold for any clocks; timed claims are in `Lease`, which runs the protocol with clocks, in `Breaker`, `Sender` and `RetryScheduler.DueWindow`.
- Clocks: `Lease` assumes that a worker's clock is ahead of the server's by at most a constant and says nothing of clocks that are set back.
- Message IDs: an ID is the position in its stream; streams are never trimmed.
- Consumer-group loss and re-creation at "$", data lost by Redis, and expiry of dead-letter and poison lists are excluded; the groups exist before the first enqueue.
- XAUTOCLAIM: a claim sees all idle pending messages of a stream from the start; the server's scan limit is left out.
- Sorted-set ties: the order of members with equal scores is left open.
- Provider: a message SendGrid accepted while its reply was lost is a failed Send, so "sent successfully" means that Send returned nil.
- Panics and permanent outages: such a task is redelivered for ever, so nothing but safety is claimed there; `Termination.ComesToRest` counts redeliveries without bounding them, and `Settlement.RestMeansSettled` excludes faults on the task's own calls.
- Rest.LeadsToRest: a run that leads to rest exists; that the schedulers of goroutines and of Redis find one is not claimed.
- DeadLetters.DLQMonitor.Scrape: the ticker around it, which only picks interval and threshold, is left out but for `AlertThreshold`.
- EnqueueDelayed: writes to a set that no code in the repository flushes, so nothing is claimed about its delivery.
- HTTP routes, middleware, health checks, configuration, logging, tracing, metrics other than the gauges named above, process wiring and the stub sender would only add easy members.
