# PierceMQ: a verified model of the job queue

PierceMQ keeps every job as a PostgreSQL row and uses Redis streams only to hand job
references to workers. This project models the transactions over the `jobs`, `job_events`,
`job_idempotency` and `retry_idempotency` tables, the processes around them, and proves what
holds over every run.

The layers, lowest first:

- `Lifecycle` - one row, the eleven changes made to it (insert, claim, heartbeat, completion,
  failure, promotion, gate opening, reclaim, replay, cancel, purge), and theorems about the
  whole sequence of changes one job goes through.
- `Ledger` - all tables, one clock, fresh ids; a step is a clock advance or one transaction.
  Its invariant holds in every reachable state. `Guarantees` and `Series` hold the run theorems.
- `World` - the system around the tables: XADDs still to be made, stream entries and pending
  lists that may be lost or duplicated, a lagging replica, dispatcher and handlers. `Workers`
  is the consumer and worker code, proved to make exactly the moves of `World`. `Timeouts` is about
  handlers that outlive their limit.
- `Batches`, `Store` - the jobs store as a class that changes its tables in place; every method
  is proved against the row changes of `Lifecycle` and `Ledger`, and every batch is a run of
  ledger steps. `Ticks` holds the scheduler's and the reaper's tick, `Api` the HTTP handlers'
  writes, `Queue` the routing of queue names.
- `Locks` - the batch claimers split into select-and-lock, per-row update and commit, down to runs
  of the ledger.
- `Recovery` - from any reachable tables and empty streams, which jobs can still be claimed;
  `Rescue` - its paths as plays of `World`; `Starvation` - which jobs cannot, whatever other
  processes do, and the exact conditions.
- `RetryKeys` - keyed replay requests among each other and all other transactions.
- `RateLimit` - the token bucket; `Wire` - the stream entry formats; `Legacy` - the Redis-only
  retry path and its dead-letter queue.

Clock readings, fresh UUIDs, the answer of a locking SELECT, cron evaluation, and the
library text forms of UUIDs, timestamps and JSON are parameters.

## Where the code and its promises differ

- A claim of a row whose `attempt_count` is 32767 is a database error (SMALLINT), so such a
  row can never run again (`Starvation.HopelessStays`).
- A scheduler tick is two transactions with two clock readings, and one job can be in both
  batches: pushed by a sweep, claimed and failed in between. That can happen if and only if the
  job has a second attempt and the second reading is at least 20s after the promotion
  (`Ticks.TwiceInOneTickExactly`); below that every job is pushed at most once
  (`Ticks.TickPushesOnce`). When the second claim fails, the jobs the first one promoted are
  pushed by no tick and wait for the sweep (`Ticks.Scheduler.Tick`).
- Unroutable pending rows are swept again on every tick and fill the batch, which is taken
  oldest first: an undispatched pending job is reached if and only if fewer such older rows
  than one sweep batch exist (`Starvation.SweepReachesExactly`). A replica that lags back to
  before those rows got stuck can still bring the job back (`Starvation.OlderSnapshotRescues`).
- The API accepts a cron expression that never fires. Its next time lies in the past, so its
  follow-up is due in the tick that made it (`Starvation.BackwardCronSpins`), the series never
  comes to rest (`Starvation.SpinsForever`), and a full scheduler batch of such series hides
  every later scheduled job (`Starvation.DueReachesExactly`). Running and pending jobs are not
  affected (`Recovery.NoJobIsLost`).
- A handler that ignores its cancelled context outlives its timeout while the job is retried,
  so two handlers of one job can be alive without any reclaim or replay: if and only if it has
  at least two attempts (`Timeouts.TwoHandlersExactly`). The bounds count timeouts
  (`World.DuplicatesDoNotMultiplyWork`) or attempts (`Timeouts.AliveWithinBudget`).
- A worker acknowledges the entry even when the database refuses to record the result; the row
  then stays running until the reaper finds it (`Workers.Consumer.Finish`).
- The reaper does not look at `max_retry`, so the attempt bound counts reclaims
  (`Guarantees.AttemptsOverRuns`).
- Series cancellation leaves exactly the eligible members another transaction holds
  (`Store.JobsStore.CancelSeries`).
- `claimable` admits scheduled rows. The series law of the tables alone counts claims made
  while scheduled; in the whole system there are none (`World.SeriesConservationInSystem`).
- A retry key is spent without a replay when its first use meets a job that is not failed, or
  when the process dies between binding the key and replaying (`Api.KeyReplaysOnce`,
  `RetryKeys.CarryDecides`).
- The limiter reads the clock before taking its lock, so requests may be applied out of the
  order of their readings and tokens can go below zero; they stay within bounds if and only if
  each step back is covered by the tokens left (`RateLimit.TokensStayExactly`).
- In the legacy path every XADD beyond the cap may trim the oldest entry: one post more than
  the cap loses an unread message without a crash (`Legacy.TrimLosesUnread`). A trim loses a
  message if and only if the oldest entry is not acknowledged yet, and one of the dead-letter
  stream always does (`Legacy.TrimLosesExactly`). Two handlers of one redelivered
  entry both requeue it (`Legacy.FailKeepsOneCopyExactly`).
- The legacy decoder ignores Go's plain `int`, so a task decoded without passing through Redis
  loses its attempt (`Wire.TaskRoundTrip`).

## Model

| member | source | states |
|---|---|---|
| Lifecycle.BackoffIsCappedExponential | internal/storage/jobs/jobs_lifecycle.go:271-287 | clamping the shift at 5 never changes the delay: it is min(5m, 10s * 2^attempt) for every attempt >= 0 |
| Lifecycle.BackoffDelays | internal/storage/jobs/jobs_lifecycle.go:271-287 | the delays themselves: 10s, 20s, 40s, 80s, 160s for attempts 0 to 4, then 300s |
| Lifecycle.ChangeKeepsShape | internal/storage/jobs/jobs_lifecycle.go:133-138 | each change of an existing row keeps the column pattern of its status |
| Lifecycle.ShapeHolds | internal/storage/jobs/jobs_lifecycle.go:107-267 | over a whole life the row has the column pattern of its status (token iff running or completed, completed_at iff terminal, gate only if pending or cancelled, running has worker, start and a later heartbeat) and keeps its identity columns |
| Lifecycle.AuditLogReplays | internal/storage/jobs/jobs_lifecycle.go:74-100 | a job's events chain from NULL, end in the row's status and count its attempts since the last replay; a purged job's log ends in completed or cancelled |
| Lifecycle.EventsAreTimed | internal/storage/jobs/jobs_lifecycle.go:74-100 | the latest event has the time and the job of the latest change that leaves one |
| Lifecycle.StatusFollowsDiagram | internal/storage/jobs/jobs_lifecycle.go:107-267 | each change takes the status where the state diagram says, a failure to failed exactly when attempts >= max_retry |
| Lifecycle.PurgedAfterRetention | internal/storage/jobs/jobs_retention.go:29-35 | in one life only a job completed or cancelled before the cutoff is purged, and nothing happened to it since |
| Lifecycle.DeadTokenStaysDead | internal/storage/jobs/jobs_lifecycle.go:155-267 | a token handed out and no longer held is never accepted again |
| Lifecycle.TokenEndsOnce | internal/storage/jobs/jobs_lifecycle.go:177-267 | after one completion, failure or reclaim of a token no use of it succeeds in that life |
| Lifecycle.TerminalIsFinal | internal/storage/jobs/jobs_lifecycle.go:22-24 | after completed or cancelled only the purge can follow, and nothing after it |
| Lifecycle.GateIsKept | internal/storage/jobs/jobs_scheduler.go:150-205 | a backoff gate stays until it has passed, the job is cancelled or it is gone |
| Lifecycle.BackoffIsRespected | internal/storage/jobs/jobs_lifecycle.go:128-130 | in one life no claim comes before the failure time plus its backoff |
| Lifecycle.NotClaimedEarly | internal/storage/jobs/jobs_scheduler.go:46-49 | when no claim takes a scheduled row, no claim is before scheduled_at (a minute before for a job created pending) |
| Lifecycle.AttemptsAreBounded | internal/storage/jobs/jobs_lifecycle.go:238-247 | claims <= (replays + 1) * max(1, max_retry) + reclaims |
| Lifecycle.StatusChangesMakeProgress | internal/storage/jobs/jobs_lifecycle.go:133-140 | without reclaims and replays (attempts left, status rank) strictly decreases at every status change |
| Lifecycle.AttemptsCountTokens | internal/storage/jobs/jobs_lifecycle.go:133-140 | the tokens issued since the last replay are exactly attempt_count many |
| Lifecycle.ReclaimedTokensAreFew | internal/storage/jobs/jobs_reaper.go:65-68 | tokens taken away by the reaper are at most the reclaims |
| Ledger.StepKeepsSound | internal/storage/jobs/jobs_lifecycle.go:107-267 | every transaction and clock advance keeps the invariant of the tables: lives, log, index and tokens agree |
| Ledger.TouchKeepsKeys | internal/storage/jobs/jobs_queueries.go:122-138 | every row change keeps the idempotency index equal to the keys of the live rows |
| Ledger.ReachableIsSound | internal/storage/jobs/jobs_lifecycle.go:107-267 | the invariant holds in every reachable state |
| Guarantees.RowsKeepShape | internal/storage/jobs/jobs_lifecycle.go:107-267 | in every reachable state every row has the column pattern of its status |
| Guarantees.ColumnsTellHistory | internal/storage/jobs/jobs_lifecycle.go:107-267 | in every reachable state started_at is the job's first claim, heartbeat_at its latest claim or beat, worker, token, last_error and gate those of the latest claim or failure not undone since, and completed_at the time it ended |
| Guarantees.RetentionIsKept | internal/storage/jobs/jobs_retention.go:29-35 | in any run a purged job was completed or cancelled before the purge's cutoff, so none goes within the retention after its end and no failed job goes |
| Guarantees.AuditLogAgrees | internal/storage/jobs/jobs_lifecycle.go:74-100 | in every reachable state a job's stored events replay to its row, or to a terminal status once purged |
| Guarantees.IdempotencyIndexAgrees | internal/storage/jobs/jobs_queueries.go:122-138 | in every reachable state the index maps a key to a job iff that row exists and carries it, so no two live jobs share a key |
| Guarantees.BackoffOverRuns | internal/storage/jobs/jobs_lifecycle.go:249-252 | in any run no claim of a job comes before the end of the backoff of an earlier failure, whatever else happens |
| Guarantees.AttemptsOverRuns | internal/storage/jobs/jobs_lifecycle.go:238-247 | in any run the claims of a job, still stored or purged, are bounded by replays, max_retry and reclaims |
| Guarantees.TokenEndsOnceOverRuns | internal/storage/jobs/jobs_lifecycle.go:177-267 | in any run a token is ended at most once and never used afterwards, on any job |
| Guarantees.FencedForever | internal/storage/jobs/jobs_lifecycle.go:155-267 | once nobody holds an issued token, heartbeat, completion and failure with it are refused in every continuation |
| Guarantees.HeartbeatKeepsOwnership | internal/storage/jobs/jobs_reaper.go:40-77 | beats never more than staleAfter apart keep the job with its holder against every other process, and its completion or failure then succeeds |
| Series.SeriesConservation | internal/storage/jobs/jobs_scheduler.go:68-144 | whatever the schedule: members scheduled + cancelled while scheduled + claimed while scheduled + promotions that ended the series = 1, and every other promotion created one member |
| Series.FireTimesIncreaseExactly | internal/storage/jobs/jobs_scheduler.go:99-144 | fire times of a series strictly increase iff no promotion got a next time at or before the promoted member's |
| Series.FireTimesIncrease | internal/storage/jobs/jobs_scheduler.go:99-144 | they do while every promotion's next time lies in its future |
| Series.MembersAreAlike | internal/storage/jobs/jobs_scheduler.go:118-137 | in every reachable state all members a series ever had share type, payload, queue, priority, retries, owner, expression and zone |
| Series.SuccessorsFollow | internal/storage/jobs/jobs_scheduler.go:99-144 | in every reachable state each member but the first was inserted right after a promotion in its series, without key or attempts, created at the promotion's reading and due when the series' expression next fires in its zone; and each promotion with a next time has that member behind it |
| Series.SeriesEndsForGood | internal/storage/jobs/jobs_ops.go:206-211 | a series without a scheduled member never gets one again |
| World.PlaysAreRuns | internal/broker/consumer.go:172-225 | every play of the whole system is a run of the ledger |
| World.MoveKeepsStreamsReleased | internal/reaper/reaper.go:118-173 | nothing owed to a stream, on it or listed by the replica as unscheduled names a scheduled row |
| World.NothingRunsEarly | internal/api/handlers/enqueue.go:206-242 | in the whole system no claim takes a scheduled row, and none is before scheduled_at (a minute before for a job created pending) |
| World.SeriesConservationInSystem | internal/storage/jobs/jobs_scheduler.go:68-144 | in the whole system members scheduled + members cancelled while scheduled + promotions that ended the series = 1 |
| World.MoveKeepsDispatches | internal/dispatcher/dispatcher.go:26-59 | every dispatch in flight is single, was handed its token, and while queued or running still holds its row or was reclaimed |
| World.DuplicatesDoNotMultiplyWork | internal/broker/consumer.go:172-225 | however entries are duplicated: handler runs have distinct tokens, runs since the last replay <= attempt_count, handlers alive at once, those outliving their timeout included, <= 1 + reclaims + timeouts |
| World.MoveKeepsTimeouts | internal/worker/worker.go:475-510 | a dispatch times out at most once, and a handler outliving its slot is one that timed out |
| Timeouts.AliveWithinBudget | internal/worker/worker.go:475-510 | handlers of a job alive at once, those outliving their timeout included, are at most (replays + 1) * max(1, max_retry) + reclaims |
| Timeouts.TimeoutForks | internal/worker/worker.go:475-510 | from any state where a held job with an attempt left is running, the system can reach two handlers of it alive without a further reclaim or replay |
| Timeouts.TwoHandlersExactly | internal/worker/worker.go:475-510 | a job enqueued pending can have two handlers alive without reclaim and replay iff max_retry >= 2 |
| Batches.TouchAllRow | internal/storage/jobs/jobs_reaper.go:65-77 | a batch changes each of its rows once and no other |
| Batches.TouchAllIsRun | internal/storage/jobs/jobs_scheduler.go:180-198 | a batch transaction is a run of single ledger steps at one clock value |
| Batches.BatchSizes | internal/storage/jobs/jobs_scheduler.go:32-40 | batches are 100 unless given and at most 1000, purges 1000 and at most 10000 |
| Batches.DueSelected | internal/storage/jobs/jobs_scheduler.go:46-49 | the due rows, earliest first: a row left out means a full batch due no later |
| Batches.MaturedSelected | internal/storage/jobs/jobs_scheduler.go:163-168 | the pending rows whose gate is over, longest over first |
| Batches.StaleSelected | internal/storage/jobs/jobs_reaper.go:40-46 | the running rows silent since before the cutoff, longest silent first |
| Batches.PendingSelected | internal/storage/jobs/jobs_lifecycle.go:294-299 | the ungated pending rows created before the cutoff, oldest first |
| Batches.ExpiredSelected | internal/storage/jobs/jobs_retention.go:29-35 | the completed and cancelled rows that ended before the cutoff, first to end first |
| Batches.FireAllRows | internal/storage/jobs/jobs_scheduler.go:68-94 | every due row of a batch becomes pending, each recurring one leaves exactly its follow-up, nothing else changes |
| Batches.FireAllIsRun | internal/storage/jobs/jobs_scheduler.go:32-94 | a promotion batch is a run of ledger steps |
| Store.JobsStore.CreateJob | internal/storage/jobs/jobs_queueries.go:39-169 | inserts the normalised row, its key and first event, or reports a duplicate exactly when a live row carries the key, changing nothing |
| Store.JobsStore.ClaimRunning | internal/storage/jobs/jobs_lifecycle.go:107-151 | makes the claim, refuses exactly missing, unclaimable or gated rows, and on success the caller's token holds the row |
| Store.JobsStore.Heartbeat | internal/storage/jobs/jobs_lifecycle.go:155-171 | refreshes the heartbeat exactly for the holder |
| Store.JobsStore.Complete | internal/storage/jobs/jobs_lifecycle.go:177-210 | completes exactly for the holder, at the time of the call, keeping the token and every other column |
| Store.JobsStore.FailOrRetry | internal/storage/jobs/jobs_lifecycle.go:217-267 | exactly for the holder: failed now iff attempts >= max_retry, else pending with the backoff gate, with the error as last_error |
| Store.JobsStore.ListStalePending | internal/storage/jobs/jobs_lifecycle.go:294-318 | returns the listed jobs of the replica in order |
| Store.JobsStore.ClaimDueScheduled | internal/storage/jobs/jobs_scheduler.go:32-94 | promotes the selected rows with their follow-ups and returns them |
| Store.PromotedAsStored | internal/storage/jobs/jobs_scheduler.go:68-94 | the jobs a promotion returns are the rows it left |
| Store.JobsStore.ScheduleFollowup | internal/storage/jobs/jobs_scheduler.go:99-144 | inserts the next occurrence iff the row has a series, an expression and a next time: the parent's work, payload included, without key, attempts and run columns |
| Store.JobsStore.ClaimDueRetries | internal/storage/jobs/jobs_scheduler.go:150-205 | opens the gates of the selected rows and returns them |
| Store.MaturedAsStored | internal/storage/jobs/jobs_scheduler.go:180-205 | the jobs whose gate was opened are returned with the columns now stored |
| Store.JobsStore.ClaimStaleRunning | internal/storage/jobs/jobs_reaper.go:26-86 | returns the selected rows to pending without worker and token |
| Store.OrphanedAsStored | internal/storage/jobs/jobs_reaper.go:65-86 | the reclaimed jobs are returned with the columns now stored |
| Store.JobsStore.RetryJob | internal/storage/jobs/jobs_ops.go:78-116 | replays exactly failed jobs with a zeroed attempt count |
| Store.JobsStore.CancelJob | internal/storage/jobs/jobs_ops.go:125-161 | cancels exactly not-yet-running jobs |
| Store.JobsStore.CancelSeries | internal/storage/jobs/jobs_ops.go:212-272 | cancels the selected members; the eligible members left are exactly those another transaction held |
| Store.CancelledRow | internal/storage/jobs/jobs_ops.go:212-272 | each unlocked not-yet-running member of the caller's is cancelled now, and every other row is left alone |
| Store.JobsStore.DeleteOldJobs | internal/storage/jobs/jobs_retention.go:15-60 | deletes up to limit expired rows and then the orphan keys, leaving exactly the keys of the remaining rows |
| Store.JobsStore.RecordRetryKey | internal/storage/jobs/jobs_ops.go:36-63 | binds a new key, reports a replay of the same job and a conflict with another |
| Store.PurgeAll | internal/storage/jobs/jobs_retention.go:29-54 | purging a batch row by row equals removing its rows and their keys at once |
| Locks.UpdateNeverMisses | internal/storage/jobs/jobs_scheduler.go:63-73 | the status-guarded UPDATE always matches a row its transaction has locked |
| Locks.StepKeepsLocksSound | internal/storage/jobs/jobs_reaper.go:40-85 | under every interleaving locked batches are pairwise disjoint and open transactions undisturbed |
| Locks.CommitIsAtomic | internal/storage/jobs/jobs_scheduler.go:46-94 | a commit equals doing its whole batch at that moment: distinct eligible rows, no more than its LIMIT |
| Locks.LocksRefineAtomic | internal/storage/jobs/jobs_scheduler.go:32-94 | every interleaving of lock-level steps ends as its visible transactions one after the other, each within its LIMIT |
| Locks.LocksRefineLedger | internal/storage/jobs/jobs_scheduler.go:32-94 | when those commit in the order of their times with fresh ids and unused keys, the rows at the end are those of a reachable ledger state |
| Queue.PoolRoutes | internal/queue/queue.go:30-62 | an explicit -high or -low suffix wins over priority, a bare pool name follows priority |
| Queue.NamesLeadToStreams | internal/queue/queue.go:10-62 | any spelling of a pool's name, in any case and with white space around, leads to "stream:queue:", the pool's long name, and ":high" or ":low" as suffix or priority say |
| Queue.TrimsExactly | internal/queue/queue.go:30-32 | trimming takes the white space around a text and nothing else |
| Queue.RoutableExactly | internal/queue/queue.go:30-62 | a name is routable iff trimmed and lower-cased it is a known pool with -high, -low or nothing after it |
| Ticks.PushedExactly | internal/scheduler/scheduler.go:83-111 | an entry is pushed iff some listed job reaches its stream with it |
| Ticks.PushesOnce | internal/scheduler/scheduler.go:83-111 | distinct jobs give at most one entry each |
| Ticks.BatchesAreDisjoint | internal/scheduler/scheduler.go:83-92 | whatever other processes commit between the two transactions of a tick, while its readings are less than 20s apart the two batches share no job |
| Ticks.TwiceInOneTickExactly | internal/scheduler/scheduler.go:83-92 | a job promoted by a tick can be matured by the same tick iff it has a second attempt and the second reading is at least 20s after the promotion |
| Ticks.TickPushesOnce | internal/scheduler/scheduler.go:83-111 | with closer readings, under any interference, a tick pushes each job at most once, and exactly the promoted and matured jobs that reach their stream |
| Ticks.Scheduler.constructor | internal/scheduler/scheduler.go:48-62 | a batch size of zero or less becomes 100 |
| Ticks.Scheduler.Tick | internal/scheduler/scheduler.go:83-111 | promotes one batch, then, after any ledger run of others, opens one batch of gates, pushes both and counts the pushes; failed pushes change no row, and a failing claim means no push at all |
| Ticks.SkippingKeeps | internal/reaper/reaper.go:138-173 | the sweep keeps exactly the listed jobs not just reclaimed |
| Ticks.ReaperPushesOnce | internal/reaper/reaper.go:138-173 | a reaper tick pushes no job twice; re-enqueued <= reclaimed <= batch and swept <= batch |
| Ticks.Reaper.constructor | internal/reaper/reaper.go:79-101 | defaults for batch, stale and sweep age |
| Ticks.Reaper.ReclaimBatch | internal/reaper/reaper.go:142-153 | takes one batch of stale rows back to pending, pushes those that reach their stream and names all of them |
| Ticks.Reaper.SweepBatch | internal/reaper/reaper.go:155-166 | pushes the listed jobs of the replica that were not just reclaimed |
| Ticks.Reaper.Tick | internal/reaper/reaper.go:138-173 | reclaims and pushes one batch, then sweeps the replica's old pending jobs except those; nothing after a failing claim, no sweep after a failing listing |
| Ticks.SweepAll | internal/reaper/reaper.go:155-173 | pushes exactly the listed jobs not in the reclaimed set |
| Ticks.PushOne | internal/reaper/reaper.go:118-133 | one entry iff the queue is routable, Redis is there and accepts |
| Ticks.StreamPusher.AddJobRefToStream | internal/broker/stream_producer.go:37-55 | appends one entry, or nothing when it fails |
| Workers.Consumer.DispatchTask | internal/dispatcher/dispatcher.go:52-59 | queues the job unless the context ends first |
| Workers.Consumer.ClaimEntry | internal/broker/consumer.go:191-224 | a refused claim is acknowledged, a claim the database fails on is not; a claimed job is queued, or given back and acknowledged |
| Workers.EntryOutcomes | internal/broker/consumer.go:191-224 | by the row an entry names: missing, not waiting or gated, it is acknowledged; at the SMALLINT limit it stays; else the job is claimed and queued, or given back as a failed attempt and acknowledged |
| Workers.Consumer.ProcessRef | internal/broker/consumer.go:172-225 | claim, dispatch, give back and acknowledge are exactly the system's delivery moves, also when giving back cannot be recorded |
| Workers.Consumer.PickUp | internal/worker/worker.go:512-515 | a worker's start is the system's start move |
| Workers.Consumer.HeartbeatJob | internal/worker/worker.go:407-419 | a beat while the handler runs is the system's heartbeat move |
| Workers.Consumer.Returned | internal/worker/worker.go:556-557 | a handler's return is the system's return move |
| Workers.Consumer.TimedOut | internal/worker/worker.go:492-506 | a handler over its limit releases its slot and lives on, as in the system's timeout move, unless its result is there already |
| Workers.Consumer.LateResultDropped | internal/worker/worker.go:484-490 | a late handler's end changes nothing else |
| Workers.Consumer.Finish | internal/worker/worker.go:556-581 | a recorded result of the holder completes the row iff there is no error, else fails it iff attempts >= max_retry and sends it back behind its backoff otherwise, with the error as last_error; result first, acknowledgement after, is the system's move; when the result cannot be recorded the entry is acknowledged all the same and the row stays |
| Workers.ResultIsRecorded | internal/worker/worker.go:421-438 | a result changes its own row only, for the holder only, and which way is decided by error, attempts and max_retry |
| Workers.RedeliveryIsAbsorbed | internal/worker/worker.go:561-567 | an entry left by a crash after completion is redelivered without any change and acknowledged |
| Recovery.SelectExists | internal/storage/jobs/jobs_scheduler.go:46-49 | a locking SELECT always has an answer |
| Recovery.PathIsRun | internal/reaper/reaper.go:138-173 | every recovery continuation is a run of the ledger |
| Recovery.BatchDrains | internal/scheduler/scheduler.go:83-111 | a batch takes its rows out of its own WHERE clause and puts none in except follow-ups of series firing into the past |
| Recovery.SpinnersDoNotGrow | internal/storage/jobs/jobs_scheduler.go:68-144 | firing never adds to the waiting series rows whose next time may lie in the past |
| Recovery.NoJobIsLost | internal/reaper/reaper.go:138-173 | from every reachable database with empty streams, scheduler, reaper and consumers can get each routable job claimed anew: running and gated ones always, a scheduled one when fewer series rows than a scheduler batch may fire into the past, an ungated pending one when fewer stuck rows than a sweep batch are as old |
| Rescue.PathsArePlays | internal/broker/consumer.go:172-225 | every path of scheduler, reaper and consumers is a play of the whole system, to the same tables and at least its entries |
| Rescue.NoJobIsLostInSystem | internal/reaper/reaper.go:138-173 | from every attainable state of the whole system, whatever was lost, each such job can be handed out again under a new token |
| Starvation.StarvedStays | internal/storage/jobs/jobs_lifecycle.go:294-318 | on every continuation of any process that cancels no row ahead, with sweeps of any snapshot taken since the rows ahead got stuck, a job behind a full sweep batch of older stuck rows stays as it is or is itself cancelled |
| Starvation.OlderSnapshotRescues | internal/storage/jobs/jobs_lifecycle.go:294-299 | a snapshot from before the row ahead was promoted gets the job claimed although it hides behind a full batch |
| Starvation.SweepReachesExactly | internal/storage/jobs/jobs_lifecycle.go:294-318 | an undispatched pending job can be claimed, by the queue's own processes or by any continuation that cancels no older stuck row, iff it is routable, below the SMALLINT limit and behind fewer older stuck rows than one batch |
| Starvation.BehindStays | internal/storage/jobs/jobs_scheduler.go:46-49 | on every continuation that cancels nothing ahead and promotes in turn, a scheduled job behind a full batch of series firing into the past stays scheduled or is itself cancelled |
| Starvation.DueReachesExactly | internal/storage/jobs/jobs_scheduler.go:32-94 | a scheduled job can be claimed iff it is routable, below the SMALLINT limit and behind fewer waiting series with all times before its own than one scheduler batch |
| Starvation.HopelessStays | internal/broker/consumer.go:172-225 | an unroutable job, or one at the SMALLINT limit, that is not running is never claimed on any continuation |
| Starvation.BackwardCronSpins | internal/storage/jobs/jobs_scheduler.go:99-144 | a follow-up is due again in the tick that made it iff the series has a next time and it is not in the future |
| Starvation.SpinsForever | internal/storage/jobs/jobs_scheduler.go:99-144 | a series whose next time is never in the future keeps a due member on every continuation that cancels none, however often it fires, so every later scheduler batch fires something |
| RateLimit.LevelIsLeastAllowance | internal/api/middleware/ratelimit.go:81-91 | the tokens before a request are the least allowance over all earlier-or-equal requests |
| RateLimit.ExactTokenBucket | internal/api/middleware/ratelimit.go:65-92 | a request is accepted iff for every earlier-or-equal one accepted since + 1 <= burst + rps * elapsed |
| RateLimit.TokensBounded | internal/api/middleware/ratelimit.go:81-91 | tokens never exceed burst, and are never negative while clock readings do not go back |
| RateLimit.TokensCanGoNegative | internal/api/middleware/ratelimit.go:65-92 | a request applied after one with a later clock reading can leave fewer than no tokens |
| RateLimit.TokensStayExactly | internal/api/middleware/ratelimit.go:81-91 | tokens stay between 0 and burst iff every step back of the clock is covered by the tokens left at that moment |
| RateLimit.WindowBound | internal/api/middleware/ratelimit.go:65-92 | in every window, whatever the order of its clock readings, at most burst + rps * (latest - first reading) requests are accepted |
| RateLimit.SpacedCallerIsNeverRefused | internal/api/middleware/ratelimit.go:65-92 | requests at least 1/rps apart are never refused |
| RateLimit.RateLimiter.Allow | internal/api/middleware/ratelimit.go:40-92 | with the configured rate and burst, 20 and 40 if unset: a request is answered yes iff for every earlier-or-equal one since the bucket was created yes answers since + 1 <= burst + rate * elapsed, for clock readings in any order and whoever else calls; the 100001st bucket drops the others |
| RateLimit.BurstAtOnce | internal/api/middleware/ratelimit.go:65-92 | a fresh bucket accepts exactly burst requests at one instant |
| Wire.AtoiItoa | internal/task/tasks.go:211-224 | every 64-bit number survives its decimal text |
| Wire.TextIsDecimal | internal/task/tasks.go:127-136 | a number's text is its decimal digits |
| Wire.AtoiOfOthers | internal/task/tasks.go:211-224 | a plus sign is allowed, numbers beyond 64 bits are cut, what starts with no digit is zero |
| Wire.NumbersAreRead | internal/task/tasks.go:211-224 | a number field reads as its text, its integer, its float cut toward zero, or zero |
| Wire.ToJobFields | internal/task/tasks.go:127-152 | writes the entry whose fields FieldsOf states and whose reading ReadsTheSameJob and ReadsThePayload state |
| Wire.FieldsOf | internal/task/tasks.go:127-152 | each column under its name as text, the optional ones only when set, a stored payload as it is |
| Wire.JobFromFields | internal/task/tasks.go:158-209 | fails exactly on a missing or malformed identity; the rest defaults |
| Wire.IdentityDecides | internal/task/tasks.go:158-209 | any entry is a job iff it has a job id that parses and a nonempty type, job_type before type; what it lacks reads as zero |
| Wire.RoundTrip | internal/task/tasks.go:127-209 | reading is the same through Redis or not, and only a job without a type is refused |
| Wire.ReadsTheSameJob | internal/task/tasks.go:127-209 | id, type, status, queue, counters, times and a nonempty key of the job read are those of the job written |
| Wire.ReadsThePayload | internal/task/tasks.go:144-205 | a stored payload comes back as it is, else the marshalled one; it is decoded to the JSON object it is, or kept as text |
| Wire.StoredJobsAreUnchanged | internal/task/tasks.go:127-209 | a job with a stored payload comes back unchanged |
| Wire.ReferencesAreAllText | internal/task/tasks.go:123-152 | Redis changes no field of a job reference |
| Wire.TaskRoundTrip | internal/task/tasks.go:72-121 | a legacy task survives Redis; decoded directly it loses its attempt |
| Wire.TasksReadExactly | internal/task/tasks.go:88-121 | which entries read as a legacy task, with what attempt, and the error of each other one |
| Wire.FormatsAreDisjoint | internal/task/tasks.go:72-209 | neither decoder accepts the other encoder's entry, before or after Redis |
| Legacy.RequeueIsRead | internal/broker/consumer.go:286-316 | a requeued entry is understood exactly when the original is |
| Legacy.CopiesCarryTheTask | internal/broker/consumer.go:286-349 | in any run every requeued and dead-lettered copy carries the fields of the message it descends from, the attempt apart |
| Legacy.ConsumerCounts | internal/broker/consumer.go:351-366 | the consumer reads from an entry exactly the attempt a requeue counts from |
| Legacy.DlqIsPerStream | internal/broker/consumer.go:372-377 | different streams have different dead-letter streams, none of them consumed |
| Legacy.DlqOf | internal/broker/consumer.go:372-377 | the dead-letter stream of stream:queue:P:L is dlq:queue:P:L |
| Legacy.EffectiveMaxLen | internal/broker/redis.go:29-42 | the cap is the configured one when positive, else 50000 |
| Legacy.NoTaskIsDropped | internal/broker/consumer.go:286-349 | under crashes, redelivery, double handling and any trimming short of an only copy, every posted message keeps a copy in the stream, done or dead-lettered |
| Legacy.MoveKeepsCopy | internal/broker/consumer.go:286-349 | no delivery, success, failure, crash or repeated handling removes a message's last copy |
| Legacy.TrimLosesExactly | internal/broker/consumer.go:299-305 | after any careful run a trim hits some message's only copy iff it is one of the dead-letter stream or the oldest entry is still waiting or pending |
| Legacy.TrimKeepsCopiesExactly | internal/broker/consumer.go:299-305 | after any careful run that lost nothing every message has a copy, and still has after a trim iff that hits the stream and its oldest entry is acknowledged |
| Legacy.TrimLosesUnread | internal/broker/redis.go:29-42 | cap + 1 posts and the trim they allow lose the first message, unread and without any crash |
| Legacy.LostForGood | internal/broker/consumer.go:286-349 | nothing brings such a message back |
| Legacy.ExactlyOneCopy | internal/broker/consumer.go:286-349 | without crash and double handling a message never has two copies, and has exactly one while no trim hits an only copy |
| Legacy.FailKeepsOneCopyExactly | internal/broker/consumer.go:279-349 | after any careful run a failure leaves no message two copies iff the entry was trimmed, or is still pending and nothing crashes, or the message had no copy left |
| Legacy.BuriedAfterThreeRetries | internal/broker/consumer.go:279-284 | a message posted with attempt a is requeued at most max(0, 3 - a) times, and exactly that often before retries dead-letter it |
| Legacy.KeepsFailing | internal/broker/consumer.go:279-349 | a message that always fails is requeued exactly max(0, 3 - a) times, each entry counting one more, and then dead-lettered |
| Legacy.DoubleHandlingForks | internal/broker/consumer.go:286-316 | two handlers of one entry leave two waiting copies |
| Legacy.ReasonsOverRuns | internal/broker/consumer.go:279-349 | every dead-lettered entry is there for its stated reason |
| Legacy.RedisStore.RetryJob | internal/broker/consumer.go:286-316 | adds the copy with one more attempt before acknowledging; a trimmed entry or failed XADD changes nothing |
| Legacy.RedisStore.MoveToDeadLetterQueue | internal/broker/consumer.go:318-349 | dead-letters the entry before acknowledging it |
| Legacy.RedisStore.TrimStream | internal/broker/consumer.go:299-305 | an XADD's trimming of a stream beyond its cap drops the oldest entry, as the stream model's trim move |
| Legacy.RedisStore.TrimDeadLetters | internal/broker/consumer.go:333-339 | an XADD's trimming of a dead-letter stream beyond its cap drops its oldest entry |
| Legacy.RedisStore.HandleJobFailure | internal/broker/consumer.go:279-284 | a recorded failure is exactly the failure move of the stream model |
| Legacy.RedisStore.ProcessMalformed | internal/broker/consumer.go:140-145 | an entry no decoder accepts is dead-lettered at once |
| Api.AcceptedIsNewRow | internal/api/handlers/enqueue.go:171-213 | whatever the API accepts is an insert every run may start from; a series head waits for its first cron time |
| Api.AcceptedExactly | internal/api/handlers/enqueue.go:150-213 | a request is accepted iff its type is known, its payload is at most 15 KB and its schedule, given one way only, reads; else the payload is too large or the request bad |
| Api.RequestedRow | internal/api/handlers/enqueue.go:146-213 | the row it becomes, column by column: trimmed type and queue, payload, priority, retries 3 if unset, the header's key before the body's, owner, and series or time as asked, scheduled iff over a minute away |
| Api.DefaultQueueIsRoutable | internal/api/handlers/enqueue.go:151-161 | a request that names no queue gets a routable one |
| Api.KeyReplaysOnce | internal/api/handlers/jobs.go:211-245 | over any requests a retry key replays a job once iff it was new, its first use met a failed job and the process did not die between binding and replaying, else never |
| RetryKeys.KeyCausesOneReplay | internal/api/handlers/jobs.go:219-289 | in every play of requests, crashes and all other transactions the replay changes caused under one key are at most one, of the job the key is bound to, and every replay change has one cause |
| RetryKeys.CarryDecides | internal/api/handlers/jobs.go:250-271 | a bound key's open request replays iff it is carried out while its job is failed; carried out or dead, the key is spent |
| RetryKeys.SpentForGood | internal/storage/jobs/jobs_ops.go:36-63 | no continuation replays under a spent key |
| RetryKeys.PlaysAreRuns | internal/api/handlers/jobs.go:219-289 | the tables go through a run of the ledger meanwhile |
| Api.Handlers.Admit | internal/api/handlers/enqueue.go:132-213 | the checks, in order, refuse or give exactly the job that every accepted request stands for |
| Api.Handlers.Enqueue | internal/api/handlers/enqueue.go:132-272 | refused and duplicate requests change nothing; otherwise one row, and one entry iff it is pending, routable and accepted |
| Api.Handlers.Retry | internal/api/handlers/jobs.go:219-289 | a resent key changes nothing, another job's key conflicts, a fresh one replays a failed job and pushes it once, unless the process dies after binding it |
| Api.Handlers.Cancel | internal/api/handlers/jobs.go:174-209 | cancels one job, or the owner's unlocked not-yet-running members of the series |

## Left out

- One clock: database time, tick time and handler time are one monotone clock; skew between transaction start and commit time is not modelled.
- Fresh ids: job ids, claim tokens and series ids are assumed never reused, even after a purge.
- Locks.LocksRefineAtomic: the lock-level machine has the rows only, without events and clock; all other transactions are atomic steps.
- Locks.LocksRefineLedger: for transactions that commit in the order of their times; a batch that commits after a later one, under an earlier timestamp, is not a ledger run.
- Driver and connection errors of the database, except the SMALLINT overflow of a claim, a failing transaction of a tick and a result that cannot be recorded; an error after a commit that did happen is not modelled.
- Store.JobsStore.ClaimDueScheduled: asks that stored `max_retry` values are nonzero SMALLINTs, which every reachable state has (`Guarantees.RowsKeepShape`).
- Ticks.Reaper.Tick: proved with no other process between its transactions, which read and write nothing in common: the sweep reads an arbitrary old snapshot.
- Workers.Consumer.ProcessRef: the branch without a job store is the stream model of `Legacy`; an acknowledgement Redis refuses is a redelivery (`Workers.RedeliveryIsAbsorbed`).
- Workers.Consumer.Finish: for jobs with a claim; a job without one takes the path of `Legacy`.
- Api.Handlers.Enqueue: JSON decoding, body limits, authentication and HTTP status texts are outside; the decoded request is the input.
- Recovery.NoJobIsLost: states, as `Rescue.NoJobIsLostInSystem` does, that a continuation exists; nothing is said about fairness, worker pool liveness or how long it takes.
- Starvation.SweepReachesExactly: for distinct creation times and ungated stuck rows; ties in created_at may be broken either way by the database. No snapshot is older than the start, and batches run with no lock held by others.
- Rescue.PathsArePlays: for sweeps that read the present rows; redelivery keeps a copy of each entry the path goes on to use.
- Starvation.DueReachesExactly: for series that always fire into the future or have all their times before the job's; a second scheduler that skips locked rows may promote out of turn.
- RateLimit.RateLimiter.Allow: exact real arithmetic and fixed limits; float rounding and configuration changes are not modelled.
- Wire.RoundTrip: UUID, timestamp and JSON text are assumed to parse back what they print, timestamps in years 0 to 9999; field names no decoder reads are not represented.
- Legacy.RedisStore.HandleJobFailure: for the attempt the consumer reads from the entry, which is cut to 16 bits; a dispatch failure of an entry counting more would pass the uncut number.
- Legacy.RedisStore.MoveToDeadLetterQueue: the entry's time stamp and source stream fields are not represented.
- Queue.RoutableExactly: Unicode lower-casing is modelled as far as it can produce a pool name.
- The queued status is never written by this code; it is handled wherever the code tests for it.
- Monthly partition maintenance, the reconnect backoff of the read loop, pagination, statistics and list queries are not modelled.
- The handlers for mail, files and commands, JWT and API keys, the dashboard, command line, configuration and migrations.
