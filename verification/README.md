# A verified model of aioq

aioq is a job queue. Brokers hold jobs and indexes over them, and workers claim, run, retry and finish
jobs. This project models the behaviour that is hard to see from one function and proves what it keeps:

- **SQL brokers under concurrency** (`sql_machine.dfy`, `sql_records.dfy`, `mysql_claim.dfy`, `sql_broker.dfy`).
  Every statement is one atomic step on the job table, and any number of enqueuers, workers, completers, cancellers,
  retriers and purgers interleave. Held jobs are exactly the running rows and have one holder; a completed row is never
  left; no released job has an open dependency; no wake-up is lost; the rows record every attempt, so that in every run
  a job is made again at most as often as its retries allow. MySQL's claim is a transaction of several
  statements over row locks, and it refines the one-statement claim of the table machine. The counting
  dependency test, the batched enqueue and the loop over dependents equal their plain forms.
- **The in-process broker and its worker** (`memory_spec.dfy`, `ready_index.dfy`, `memory_broker.dfy`,
  `worker.dfy`, `drain.dfy`). The broker is a class over its dictionaries and sorted ready lists; each method
  is proved against a specification on the job table alone, and says exactly when the lists stay a correct index.
  About that specification: the fast pick is the plain query, no job waits for nothing, and draining a
  dependency graph ends, in a state that is characterised completely.
- **The Redis broker** (`redis_lists.dfy`, `redis_queues.dfy`, `redis_index.dfy`, `redis_stats.dfy`,
  `redis_calls.dfy`, `redis_due.dfy`, `redis_broker.dfy`, `redis_runs.dfy`, `redis_due_runs.dfy`,
  `redis_wakeup.dfy`). Tiered lists and deferred sets implement one flat priority queue; status and queue sets agree
  with the records as time passes; statistics and purging match a full scan; the records evolve as the in-process
  broker's table; over whole runs of calls it is settled when the index stays right and when no job comes out before
  its time; and command by command, under interleaving, no wake-up is lost.
- **Small cores**: backoff (`retry.dfy`), the life of a job and its hook trace (`attempts.dfy`), what the end of an
  attempt means for the calls after it (`outcomes.dfy`), worker slots
  (`slots.dfy`), cron schedules, fire locks and fleets of workers (`cron.dfy`, `cron_loop.dfy`,
  `cron_fleet.dfy`), statistics (`statistics.dfy`).

`jobs.dfy` holds the job record, the statuses and the two claim orders. A run of a state machine is a list of
actions, each enabled in the state where it is taken.

## Where the code is narrower than its documentation

Each item has an exact condition, proved in both directions, and inputs that the code can receive and that
fail it.

- `acquire_cron_lock` is documented to succeed for exactly one caller per key. It does if and only if every
  attempt falls within the ttl of the first one (`Cron.FiresExactlyOnce`; for a fleet of workers
  `CronFleet.FleetFiresOnceExactly`). A later attempt wins again (`Cron.LateAttemptWins`,
  `CronFleet.LateAttemptFiresAgain`).
- `compute_retry_delay` with a positive base stays between 0 and the cap only for a cap that is not negative
  (`Retry.DelayRangeExactly`, whose proof has the failing draw).
- `retry_job` does not look at dependencies (`SqlMachine.RetrySafeExactly`): a job cancelled while it waits and
  then retried is pending with its dependencies open (`SqlMachine.RetryReleasesEarly`). Purging a dependency is safe
  if and only if no released row that stays, no client about to write a runnable job and no client about to promote a
  waiting row names it (`SqlMachine.PurgeSafeExactly`). It fails for a dependent that is released already
  (`SqlMachine.PurgeLeavesOpen`) and for one between its check and its write
  (`SqlMachine.PurgeBetweenCheckAndWrite`). These two are the only actions after which the guarantee can break
  (`SqlMachine.ActionIsSafeExactly`).
- A batched `enqueue_many` leaves the table of enqueueing one by one, for runnable jobs with different ids, if and only
  if no job whose dependencies are all completed at first names an id that an earlier job of the batch stores
  (`SqlBroker.BatchIsOneByOneExactly`, `SqlBroker.BatchDiffersOnReplacedRow`).
- The ready lists of the in-process broker stay an index of the runnable jobs nobody has taken, in order, not after
  every call. An enqueue keeps them so if and only if a job that is listed already stays runnable and in its queue,
  and any other ends runnable or waiting (`MemoryBroker.Broker.Enqueue`, `ReadyIndex.ListingIndexesExactly`,
  `ReadyIndex.WaitingIndexesExactly`); a listed job that moves to another queue ends in two lists
  (`ReadyIndex.ListedJobMayNotMove`). An update has its own condition (`ReadyIndex.UpdateIndexesExactly`). A retry keeps
  them so if and only if no worker has the job (`MemoryBroker.Broker.RetryJob`): a job that is taken, cancelled before
  its worker looks at it again and retried is listed for a second worker while the first may still run it
  (`MemorySpec.TakenJobIsRetried`).
- The Redis index agrees with the records after a write if and only if the write renews every expiring entry
  of its job (`RedisIndex.WriteAgreesExactly`). Cancelling leaves the id in its pending list and a retry pushes
  it again. A retry keeps the index in agreement, as long as later retries are clean too, if and only if the job does
  not keep its result, or no list and no worker has its id any more (`RedisRuns.RetryIsSafeExactly`). Otherwise the
  job can be popped again after it completed; starting it then leaves an old entry beside a live record
  (`RedisRuns.RelapseDisagrees`), and clearing that entry deletes the record
  (`RedisIndex.StaleEntryDeletesLiveRecord`).
- A Redis dequeue returns only due jobs over every run of punctual calls (`RedisDueRuns.EveryPunctualRunIsDue`), and
  after a call that is not punctual some further run returns a job before its `run_at`
  (`RedisDueRuns.CallIsSafeExactly`). An enqueue or update is punctual if the stored job is due, or no list has its id
  and no deferred entry of it comes earlier, and each job that it wakes is due; every other call is punctual. Both
  ways to fail have their input: a deferred job that waits is woken early (`RedisDueRuns.WaiterIsReturnedEarly`), and
  a job that is listed twice after a cancel and a retry is popped while its next attempt is still to come
  (`RedisDueRuns.LeftoverIsReturnedEarly`).
- A cancelled job stays cancelled in the SQL brokers, whatever interleaves (`SqlMachine.CancelledStays`), but not in the
  Redis broker. A promotion there writes back the record that it read, which equals a guarded update if and only if
  nobody else has written the record since (`RedisWakeUp.PromotionIsGuardedExactly`). A cancel in between is lost
  (`RedisWakeUp.PromotionUndoesCancel`).
- An expiring entry splits back into its id and queue if and only if the id has no bar
  (`RedisIndex.PartitionUndoesMember`).

## Model

| member | source | states |
|---|---|---|
| Jobs.CandidateLessTotal | src/aioq/backends/memory.py:82-84 | the in-process candidate order compares any two different jobs, one way only, by higher priority and then by earlier time |
| Jobs.StringLessExactly | src/aioq/backends/memory.py:82-84 | its ties go by queue name and id as Python compares strings: a proper prefix first, and otherwise by the first different character |
| Jobs.CandidateLessTransitive | src/aioq/backends/memory.py:82-84 | the in-process candidate order is transitive |
| Retry.JitteredDelayBound | src/aioq/retry.py:30-40 | with backoff and a cap of at least 0, every jittered delay lies between 0 and the delay before jitter, for every base and attempt number |
| Retry.DelayRangeExactly | src/aioq/retry.py:30-40 | every draw gives a delay in that range if and only if the base is not positive or the cap not negative |
| Retry.UnjitteredMonotone | src/aioq/retry.py:32-35 | the delay before jitter never decreases with the attempt number |
| Retry.TotalWaitBound | src/aioq/worker.py:301-310 | the waits of n retries add up to at most min(base * (2^n - 1), n * cap) |
| Attempts.RunStatus | src/aioq/worker.py:241-293 | an attempt ends completed, retrying, dead or failed, each exactly in its case, with the retry count and queue that go with it |
| Attempts.LifecycleTrace | src/aioq/worker.py:241-345 | for any list of attempts that has a success or more attempts than the retry budget, the hook trace of a job is (start retry)^k, start, and one closing event; it ends completed exactly when a success comes within the retry budget, and otherwise dead exactly with a dead letter queue |
| Attempts.UnfinishedTrace | src/aioq/worker.py:286-324 | for any other list the trace is (start retry) once per attempt, and the job is still retrying |
| Attempts.FreshLifecycle | src/aioq/worker.py:286-345 | from retries = 0 a job retries at most max_retries times, and exactly that often when it ends failed or dead |
| Attempts.LifecyclePrefix | src/aioq/worker.py:241-293 | the trace of the first attempts starts the trace of all of them |
| Outcomes.WaitOf | src/aioq/retry.py:25-40 | the wait before a retry is the base delay without backoff, and with backoff the drawn share of the base delay doubled after each retry, or of the cap if that is less |
| Outcomes.RetryShows | src/aioq/worker.py:295-324 | after a failed attempt with retries left the record shows one retry more, the error and no start or worker, in its own queue, to run again or, with a dependency open, to wait |
| Outcomes.RetryComesDue | src/aioq/worker.py:295-324 | a job whose attempt failed with retries left can be taken again exactly from the end of the attempt plus the wait on, or at once if there is no wait |
| Outcomes.EndShows | src/aioq/worker.py:268-345 | after its last attempt a job shows when it ended, who made it, the result if it is wanted, and the error of that attempt only |
| Outcomes.UnknownTaskFails | src/aioq/worker.py:228-233 | a job of an unknown task fails at once with an error that names the task, whatever retries and dead letter queue it has |
| Outcomes.PurgeGoesByEnd | src/aioq/backends/memory.py:226-248 | a job that ended is purged if and only if its status is wanted and its last attempt ended by the cutoff, whenever it was enqueued |
| Outcomes.CancelledGoesByEnqueue | src/aioq/backends/memory.py:226-248 | a job without an end is purged by the time it was enqueued |
| Outcomes.RetryStartsOver | src/aioq/backends/memory.py:145-153 | exactly failed and cancelled jobs are retried by hand; they start clean, pending and due, and in their next life, whatever its attempts, they have all their retries |
| Outcomes.FailedLifeStartsOver | src/aioq/worker.py:286-345 | every job whose life ended failed is retried by hand, can be taken at once and has its whole budget again |
| Outcomes.DeadLifeStartsOver | src/aioq/backends/base.py:162-171 | every job whose life ended dead is replayed in its dead letter queue with its whole budget, and can be taken at once unless a dependency is open |
| Outcomes.CancelStops | src/aioq/backends/memory.py:134-143 | exactly pending, retrying and waiting jobs are cancelled, and nobody takes them then |
| Outcomes.IdleCanBeCancelled | src/aioq/backends/memory.py:134-143 | a job can be cancelled right after its enqueue, waiting or not, and between a failed attempt and its retry |
| SqlMachine.InvKept | src/aioq/backends/postgres.py:171-263 | every step of every client keeps exclusive holding, fresh ids and the clients' memories of the table |
| SqlMachine.ExclusiveHoldingKept | src/aioq/backends/postgres.py:178-200 | holding a job and its row running stay the same thing, with one holder, across claim, outcome writes, promotion, cancel, retry and purge |
| SqlMachine.EveryRunIsExclusive | src/aioq/backends/postgres.py:171-202 | in every interleaving each running row has exactly one holder and no other row has any |
| SqlMachine.CompletedStays | src/aioq/backends/postgres.py:204-263 | no step changes the status of a completed row |
| SqlMachine.CompletedIsFinal | src/aioq/backends/postgres.py:204-263 | over any continuation of a run a completed row stays completed as long as it exists |
| SqlMachine.CancelledStays | src/aioq/backends/postgres.py:254-263 | only an explicit retry takes a row out of cancelled; promotion never does |
| SqlMachine.PurgedStaysAway | src/aioq/backends/postgres.py:204-230 | an id whose row was purged never has a row again |
| SqlMachine.DependencySafeKept | src/aioq/backends/base.py:173-193 | every step keeps all dependencies of released jobs completed, even between a check and its write |
| SqlMachine.EveryRespectfulRunIsDependencySafe | src/aioq/backends/sql.py:160-172 | in every reachable state a job that is neither waiting nor cancelled has all its dependencies completed, given that every retry and every purge so far respects dependencies |
| SqlMachine.RetrySafeExactly | src/aioq/backends/postgres.py:235-252 | a retry keeps dependency safety if and only if the job's dependencies are completed |
| SqlMachine.RetryReleasesEarly | src/aioq/backends/postgres.py:235-252 | for every job with a dependency: enqueued, cancelled and retried alone on an empty table, it is pending with its dependency open |
| SqlMachine.PurgeSafeExactly | src/aioq/backends/base.py:157-160 | a purge leaves released rows and clients' plans safe, and keeps every respectful continuation safe, if and only if no released row that stays, no client about to write a runnable job and no client about to promote a waiting row names a purged id |
| SqlMachine.ActionIsSafeExactly | src/aioq/backends/postgres.py:171-263 | after an action every respectful continuation keeps dependency safety if and only if the action respects dependencies itself, which all but retries and purges do |
| SqlMachine.PurgeBetweenCheckAndWrite | src/aioq/backends/postgres.py:115-120 | for every job that completed and a dependent that has been checked but not written: purging the first leaves the table safe, and the write then releases the second without its dependency |
| SqlMachine.PurgeLeavesOpen | src/aioq/backends/base.py:157-160 | for every job that completed and a dependent enqueued after it: purging the first leaves the second released without its dependency |
| SqlMachine.NothingForgottenKept | src/aioq/backends/sql.py:160-172 | whenever a waiting row has all dependencies completed, some client has still to decide about it |
| SqlMachine.NoLostWakeUp | src/aioq/backends/postgres.py:115-120 | once all promotions in flight are done, no waiting row has all its dependencies completed |
| SqlRecords.CopiesKept | src/aioq/worker.py:228-259 | in every interleaving a worker's copy of its job stays equal to the row, or is one failed attempt ahead of it |
| SqlRecords.EnqueueIsStored | src/aioq/backends/postgres.py:132-169 | when a new job is written, whatever happened since it was handed in, the row is that job, pending or waiting |
| SqlRecords.AttemptIsStored | src/aioq/backends/postgres.py:204-233 | the start of an attempt and its end, unless it is made again, leave in the row the whole record that the attempt makes of it, dead letter queue included, and change no other row |
| SqlRecords.RetryIsStored | src/aioq/backends/postgres.py:132-169 | when a retry is written, whatever happened since its attempt failed, the row is that of the attempt with one retry more and the time of the next attempt; error, start and worker stay those of the running attempt |
| SqlRecords.RetriesAreBounded | src/aioq/worker.py:286-324 | in every run, the attempts of a job that are made again since its enqueue or last retry by hand are no more than its retries allow, and exactly as many when an attempt ends it failed or dead |
| SqlRecords.RetriesAreAtMostMax | src/aioq/worker.py:286-324 | so a job is never made again more than max_retries times in a row, whatever the clients do |
| SqlRecords.NoEarlyClaim | src/aioq/backends/postgres.py:178-200 | in every interleaving a deferred job and a job whose attempt failed with a wait are not claimed before their time, unless somebody retries them by hand |
| SqlRecords.CancelStatement | src/aioq/backends/postgres.py:254-263 | the statement cancels exactly pending, retrying and waiting rows and changes nothing but the status |
| SqlRecords.RetryStatement | src/aioq/backends/postgres.py:235-252 | the statement retries exactly failed and cancelled rows, which can then be claimed at any time and have all their retries |
| SqlRecords.FailedRowIsRetried | src/aioq/backends/postgres.py:235-252 | a row whose attempt has just ended failed can be retried by hand |
| MySqlClaim.InvKept | src/aioq/backends/mysql.py:266-288 | every step of every transaction keeps each locked row with the one transaction that works on it |
| MySqlClaim.NoSharedRow | src/aioq/backends/mysql.py:246-254 | no row is locked or claimed by two transactions |
| MySqlClaim.FirstIsMostUrgent | src/aioq/backends/mysql.py:246-254 | the row a transaction locks has the highest priority of all due, runnable, unlocked rows of its queues, and the earliest time among those |
| MySqlClaim.EveryRunIsExclusive | src/aioq/backends/mysql.py:237-288 | the same in every reachable state of any number of workers |
| MySqlClaim.TransactionRefinesClaim | src/aioq/backends/mysql.py:266-288 | the committed table changes only at a commit, and then as the one-statement claim changes it; the returned row is the committed one |
| MySqlClaim.CommitIsClaim | src/aioq/backends/mysql.py:277-285 | a commit is an enabled claim of the table machine, with the same table and the same job returned |
| MySqlClaim.LockedRowIsFrozen | src/aioq/backends/mysql.py:246-254 | between lock and end no other client changes the row |
| MySqlClaim.RollbackRestores | src/aioq/backends/mysql.py:286-288 | a roll-back leaves the row as it was when it was locked, and unlocked |
| MySqlClaim.EndsWithoutLock | src/aioq/backends/mysql.py:266-288 | a transaction that commits, rolls back or finds no row is over and holds no lock; finding no row changes nothing |
| MySqlClaim.ClaimedRowStaysClaimed | src/aioq/backends/mysql.py:277-285 | a committed claim is not claimed again unless some client writes the row in between |
| SqlBroker.CountTestsAll | src/aioq/backends/sql.py:168-172 | over ids without repeats, counting completed rows tests that every id names one |
| SqlBroker.Broker.AllDepsCompleted | src/aioq/backends/sql.py:168-172 | for every list, with or without repeats, the counting form answers whether every id names a completed row |
| SqlBroker.BatchIsOneByOneExactly | src/aioq/backends/postgres.py:122-130 | for runnable jobs with different ids, checking all and then upserting all and looking again gives the table of enqueueing one by one if and only if no job whose dependencies are all completed at first names an id that an earlier job of the batch stores |
| SqlBroker.Broker.EnqueueMany | src/aioq/backends/postgres.py:122-130 | the three loops check all, upsert all and look again at the waiting ones; for new work this leaves the table of the base class's loop over enqueue, and for runnable jobs with different ids exactly under the condition of BatchIsOneByOneExactly |
| SqlBroker.Broker.Enqueue | src/aioq/backends/postgres.py:115-169 | the job is checked, written and looked at again; a row that was there takes its queue, retries, run time, priority and dependencies and keeps the rest, a new one is the job with nothing of an attempt |
| SqlBroker.BatchIsStored | src/aioq/backends/postgres.py:122-169 | the same for every job of a batch with different ids, against the table before the batch |
| SqlBroker.BatchDiffersOnReplacedRow | src/aioq/backends/mysql.py:191-199 | an input for which the two differ: a batch that replaces a completed row a later job depends on |
| SqlBroker.Broker.ResolveDependents | src/aioq/backends/sql.py:160-166 | whatever extra rows were fetched, the waiting dependents with nothing open become pending and nothing else changes |
| SqlBroker.Broker.UpdateJob | src/aioq/backends/postgres.py:204-233 | the stored columns change, and a completion promotes as in the in-process broker |
| MemorySpec.BestIsUnique | src/aioq/backends/memory.py:72-91 | the plain query has one answer |
| MemorySpec.BestIsMostUrgent | src/aioq/backends/memory.py:72-91 | the job picked has the highest priority of all due jobs nobody has taken, the earliest time among those, and then the least queue name and id |
| MemorySpec.BestIsFirstInSql | src/aioq/backends/postgres.py:182-193 | the in-process choice satisfies the WHERE and ORDER BY of the SQL claim over the whole job map |
| MemorySpec.CompletingPromotesExactly | src/aioq/backends/memory.py:112-129 | completing a job promotes exactly the waiting jobs whose last open dependency it was |
| MemorySpec.PromoteInSteps | src/aioq/backends/memory.py:115-129 | visiting dependents one by one, in any order, is promoting them together |
| MemorySpec.UpdateKeepsWakeClosed | src/aioq/backends/memory.py:112-129 | after an update no waiting job has all its dependencies completed |
| MemorySpec.EnqueueKeepsWakeClosed | src/aioq/backends/memory.py:56-63 | nor after an enqueue |
| MemorySpec.OthersKeepWakeClosed | src/aioq/backends/memory.py:134-153 | nor after cancel, retry, replay and purge |
| MemorySpec.ProcessKeepsWakeClosed | src/aioq/worker.py:228-259 | nor after a worker processed a job |
| MemorySpec.TakenJobIsRetried | src/aioq/backends/memory.py:134-153 | a job popped by a worker and cancelled before the worker looks at it again can be retried: it is then pending although it is taken |
| ReadyIndex.SortList | src/aioq/backends/memory.py:70 | the re-sorted list has the same ids, once each, and of any two the earlier one has no lower priority, and at the same priority no later time |
| ReadyIndex.ListingIndexesExactly | src/aioq/backends/memory.py:56-70 | after a job was stored and listed, the ready lists index the new table if and only if the job is runnable and, where it was listed before, has kept its queue |
| ReadyIndex.WaitingIndexesExactly | src/aioq/backends/memory.py:56-63 | after a waiting job was stored they do if and only if it was not listed |
| ReadyIndex.UpdateIndexesExactly | src/aioq/backends/memory.py:112-114 | after an update of any job they do if and only if a listed job keeps its place, a taken one does not start to wait, and any other does not become runnable |
| ReadyIndex.UnlistIndexes | src/aioq/backends/memory.py:89-91 | removing one id from its list leaves an index of the other available jobs |
| MemoryBroker.Broker.AllDepsCompleted | src/aioq/backends/base.py:184-193 | the loop answers whether every id names a completed job |
| MemoryBroker.Broker.MakeReady | src/aioq/backends/memory.py:65-70 | the list of the job's queue has the job once, beside the ids it had, and is sorted; the other lists are as before |
| MemoryBroker.Broker.PromoteIfReady | src/aioq/backends/memory.py:121-129 | a waiting job becomes pending and listed exactly when nothing it names is open |
| MemoryBroker.Broker.Enqueue | src/aioq/backends/memory.py:56-63 | for any job the table becomes that of the specification, and the lists stay its index if and only if a listed job stays runnable and in its queue and any other ends runnable or waiting |
| ReadyIndex.ListedJobMayNotMove | src/aioq/backends/memory.py:56-70 | enqueueing a listed job with another queue ends with its id in two lists, which are no index of the new table |
| MemoryBroker.Broker.UpdateJob | src/aioq/backends/memory.py:112-119 | for any job the table becomes that of the specification, dependents included, and the lists stay its index if and only if the update fits |
| MemoryBroker.Broker.PromoteDependents | src/aioq/backends/memory.py:115-119 | the loop over dependents promotes exactly the overdue ones |
| MemoryBroker.Broker.CancelJob | src/aioq/backends/memory.py:134-143 | a pending, retrying or waiting job is cancelled and leaves its list; any other call changes nothing and answers false |
| MemoryBroker.Broker.RetryJob | src/aioq/backends/memory.py:145-153 | a failed or cancelled job is reset, pending and listed, and the lists stay an index if and only if no worker has it; any other call changes nothing |
| MemoryBroker.Broker.ReplayDeadJob | src/aioq/backends/base.py:162-171 | a dead job is reset and enqueued with its dependencies looked at; any other call changes nothing |
| MemoryBroker.Broker.PopRunnable | src/aioq/backends/memory.py:72-91 | scanning the lists returns nothing exactly when no due candidate exists in the whole table, and otherwise takes the one of highest priority and, among those, of earliest time |
| MemoryBroker.Broker.Dequeue | src/aioq/backends/memory.py:93-104 | polling returns the most urgent candidate at one of the clock readings, or there was none at any |
| MemoryBroker.Broker.QueueStats | src/aioq/backends/memory.py:174-179 | the nested dictionary has exactly the queues in use and the positive count of each status |
| MemoryBroker.Broker.Purge | src/aioq/backends/memory.py:226-248 | exactly the wanted jobs finished by the cutoff are gone and counted, their list entries with them, and expired locks are dropped |
| Statistics.StatsAreDetermined | src/aioq/backends/memory.py:174-179 | what the statistics are said to count leaves only one dictionary |
| Statistics.BumpCounts | src/aioq/backends/memory.py:177-178 | counting one more job keeps the dictionary right |
| WorkerLoop.Worker.Process | src/aioq/worker.py:228-259 | processing a taken job changes the broker and emits the hooks as the attempt's outcome says, including unknown tasks and late cancellation |
| WorkerLoop.Worker.HandleFailure | src/aioq/worker.py:286-293 | a failure reschedules, buries or fails the job by its retries and dead letter queue |
| WorkerLoop.Worker.RescheduleJob | src/aioq/worker.py:295-324 | a retry is enqueued with its count, delay and cleared fields |
| WorkerLoop.Worker.BuryJob | src/aioq/worker.py:326-338 | a buried job is dead, in its dead letter queue, and off the ready lists |
| WorkerLoop.Worker.WorkOnce | src/aioq/worker.py:96-125 | one claim takes the best due job of the table and processes it with its hooks, and is one round of a drain when everything is due |
| Drain.EnqueueExtends | src/aioq/backends/memory.py:56-63 | enqueueing a fresh job that names only earlier ones keeps the graph drainable |
| Drain.EnqueuesAreQuiet | src/aioq/backends/base.py:41-44 | any list of new jobs that name only earlier ones, enqueued one after the other, makes a graph that can be drained |
| Drain.CancelKeepsQuiet | src/aioq/backends/memory.py:134-143 | so does cancelling between rounds |
| Drain.TurnEffect | src/aioq/worker.py:228-345 | a round ends the attempt of the taken job; otherwise only waiting jobs with nothing open move, to pending |
| Drain.TurnKeepsQuiet | src/aioq/worker.py:228-345 | a round keeps wake-up closure, dependency safety and the enqueue order |
| Drain.TurnDropsMeasure | src/aioq/worker.py:286-293 | a round lowers the number of attempts that jobs may still make |
| Drain.DrainTerminates | src/aioq/worker.py:286-293 | a drain has at most as many rounds as there are attempts left at its start |
| Drain.RoundIsPossible | src/aioq/backends/memory.py:72-91 | while something is runnable, another round can be taken |
| Drain.DrainedState | src/aioq/backends/memory.py:56-129 | when nothing is left to take, nothing is pending, retrying or running, and a job that was not cancelled waits exactly when a direct or transitive dependency ended failed, dead or cancelled |
| Drain.WaitingIsBlocked | src/aioq/backends/base.py:173-193 | a job left waiting has a chain of dependencies to a bad end |
| Drain.ReleasedIsNotBlocked | src/aioq/backends/base.py:173-193 | a released job has no such chain |
| Drain.RunsAfterItsDependencies | src/aioq/backends/base.py:173-193 | every job that is taken comes after rounds that completed each of its dependencies, or they were completed at the start |
| Drain.HooksFollowLife | src/aioq/worker.py:241-345 | in any drain the hooks emitted for a known job are the trace of its life up to there, and its record is what its attempts made of it |
| RedisLists.ClampPriority | src/aioq/backends/redis.py:65-71 | the result is the least supported tier that is not below the priority, or the highest tier |
| RedisLists.ClampMonotone | src/aioq/backends/redis.py:65-71 | a higher priority never gets a lower tier |
| RedisLists.PendingNamesDiffer | src/aioq/backends/redis.py:74-75 | two pending keys are equal only for the same queue and tier, whatever characters queue names have |
| RedisLists.DeferredNamesDiffer | src/aioq/backends/redis.py:78-79 | nor are two deferred keys |
| RedisLists.PendingIsNotDeferred | src/aioq/backends/redis.py:74-79 | no pending key is a deferred key |
| RedisLists.RangeIsDue | src/aioq/backends/redis.py:50 | the score range holds exactly the due members |
| RedisLists.ZAddKeeps | src/aioq/backends/redis.py:171-174 | adding a member keeps the set sorted and replaces its own old score |
| RedisLists.ChunkMoves | src/aioq/backends/redis.py:53-57 | moving a chunk after the earlier ones has the effect of moving them at once |
| RedisLists.PopsOldThenPushed | src/aioq/backends/redis.py:56 | pops from the right give the old entries first and then the moved ones in score order |
| RedisLists.PromotionConserves | src/aioq/backends/redis.py:46-62 | no id is lost, doubled or invented by a promotion |
| RedisLists.PushShows | src/aioq/backends/redis.py:175-176 | pushing on a tier's list is arriving in the flat queue |
| RedisLists.PopShows | src/aioq/backends/redis.py:203 | popping a list from the right removes the oldest arrival of its queue and tier from the flat queue |
| RedisLists.ScanFindsNext | src/aioq/backends/redis.py:198-203 | the priority-major scan stops at the list of the entry that is first by (tier descending, queue position, arrival) |
| RedisLists.NextIsUnique | src/aioq/backends/redis.py:198-203 | the flat queue has one next entry, so the scan's answer is determined |
| RedisLists.HigherBandFirst | src/aioq/backends/redis.py:198-203 | no pop takes a job while one of a higher priority band, above 0 or above 5, is listed for its queues |
| RedisQueues.Queues.Push | src/aioq/backends/redis.py:169-176 | a job due later joins its deferred set, any other arrives in the flat queue |
| RedisQueues.Queues.PromoteKey | src/aioq/backends/redis.py:49-59 | the chunked loop of one key pair equals one unchunked move and returns its size |
| RedisQueues.Queues.PromoteScript | src/aioq/backends/redis.py:46-62 | every due id of the listed keys moves exactly once to the list of its own key, every other id stays, and the number moved is returned |
| RedisQueues.Queues.PromoteDeferred | src/aioq/backends/redis.py:186-193 | the script is given every tier of every queue and nothing else |
| RedisQueues.Queues.Pop | src/aioq/backends/redis.py:195-203 | the pop returns the flat queue's next entry for the queues, or there is none |
| RedisQueues.Queues.Take | src/aioq/backends/redis.py:195-203 | a dequeue promotes exactly the due ids of its queues and then takes the flat queue's next entry |
| RedisIndex.PartitionUndoesMember | src/aioq/backends/redis.py:444 | an expiring member splits back into id and queue if and only if the id has no bar |
| RedisIndex.WriteAgreesExactly | src/aioq/backends/redis.py:146-184 | a write keeps index and records in agreement if and only if it renews every expiring entry of its job |
| RedisIndex.UnfinishedRenews | src/aioq/backends/redis.py:146-184 | writing a live job that is not completed always does |
| RedisIndex.PromoteAgrees | src/aioq/backends/redis.py:240-246 | promotion keeps agreement |
| RedisIndex.ForgetAgrees | src/aioq/backends/redis.py:414-434 | deleting a job with what its record says, or clearing up after a gone record, keeps agreement |
| RedisIndex.TickAgrees | src/aioq/backends/redis.py:180-182 | records expiring as the clock moves keep agreement |
| RedisIndex.DueIsGone | src/aioq/backends/redis.py:436-446 | a due expiring entry never belongs to a live record |
| RedisIndex.TidyIsExact | src/aioq/backends/redis.py:436-446 | with no entry due, the sets are what a full scan of the records would build |
| RedisIndex.StaleEntryDeletesLiveRecord | src/aioq/backends/redis.py:180-182 | when a write does not renew an entry, the record is deleted by a later reap although it is live |
| RedisRuns.InvKept | src/aioq/backends/redis.py:146-264 | every call, worker step and expiry keeps agreement, and each id whose result is kept in at most one place, if it is not an unclean retry |
| RedisRuns.EveryCleanRunAgrees | src/aioq/backends/redis.py:146-264 | over every run of calls, workers and clock advances with clean retries only, index and records agree all the time |
| RedisRuns.RetryIsSafeExactly | src/aioq/backends/redis.py:248-256 | after a retry every run with clean retries agrees all the time if and only if the job does not keep its result or no list and no worker has its id |
| RedisRuns.UncleanRetryBreaks | src/aioq/backends/redis.py:248-264 | after any other retry some run without a further retry ends in disagreement |
| RedisRuns.RelapseDisagrees | src/aioq/backends/redis.py:248-264 | for every new job that keeps its result: cancelled while listed, retried, completed by one worker and popped and started by another, it ends as a live record beside a stale expiring entry |
| RedisStats.PipelineCounts | src/aioq/backends/redis.py:319-323 | the flat list has the eight intersections of each queue in turn |
| RedisStats.SliceCounts | src/aioq/backends/redis.py:325-334 | slicing the flat list gives every queue its own positive counts |
| RedisStats.StatsCount | src/aioq/backends/redis.py:307-335 | on an exact index they are the counts of a full scan |
| RedisCalls.UpdateAsInMemory | src/aioq/backends/redis.py:221-246 | with every waiting job registered, an update changes the records as it changes the in-process table, and they stay registered |
| RedisCalls.EnqueueKeepsRegistered | src/aioq/backends/redis.py:132-136 | an enqueue keeps every waiting job registered with each of its dependencies |
| RedisBroker.Broker.PromoteIfReady | src/aioq/backends/redis.py:229-246 | an overdue job becomes pending and arrives once in the flat queue; any other call changes nothing |
| RedisBroker.Broker.Enqueue | src/aioq/backends/redis.py:128-144 | the records change as in the in-process broker, the job is registered with its dependencies and arrives in the flat queue or in its deferred set as it should, agreement is kept if the write renews, and where only due jobs could be popped this stays so if and only if the enqueue is punctual |
| RedisBroker.Broker.UpdateJob | src/aioq/backends/redis.py:221-227 | exactly the registered overdue dependents of a completed job become pending, each is pushed once, and the whole index follows; only due jobs can be popped after it, if so before, if and only if the update is punctual |
| RedisBroker.Broker.CancelJob | src/aioq/backends/redis.py:258-264 | as in the in-process broker on the records, while the queue keeps the id; what can be popped stays due |
| RedisBroker.Broker.RetryJob | src/aioq/backends/redis.py:248-256 | as in the in-process broker on the records, and the id is pushed again; what can be popped stays due |
| RedisBroker.Broker.ReplayDeadJob | src/aioq/backends/base.py:162-171 | as in the in-process broker on the records; the job arrives once in the flat queue unless it has to wait, and is registered; what can be popped stays due |
| RedisBroker.Broker.Dequeue | src/aioq/backends/redis.py:195-214 | exactly the due ids of the queues are promoted and the next entry after that is popped; its record is returned, and a gone record is cleared up; while only due jobs are listed the job is due |
| RedisDue.WakeKeepsDueExactly | src/aioq/backends/redis.py:229-246 | a promotion of any set of jobs leaves only due jobs to be popped if and only if it was so before and each woken job is due |
| RedisDue.WriteKeepsDueExactly | src/aioq/backends/redis.py:153-184 | a write of a job does, if and only if the job is due, or no list has its id and each deferred entry of it comes at or after its time or after the record's deadline |
| RedisDue.CallKeepsDueExactly | src/aioq/backends/redis.py:128-264 | every call (enqueue, update, cancel, retry, replay, dequeue, purge, reaping, time) does, if and only if it is punctual, which can be looked up before the call |
| RedisDueRuns.EveryPunctualRunIsDue | src/aioq/backends/redis.py:195-214 | over every run of punctual calls from the empty database every dequeue returns a job whose time has come, and what is listed or deferred will be due |
| RedisDueRuns.CallIsSafeExactly | src/aioq/backends/redis.py:128-264 | after any call, all runs of punctual calls return due jobs only, if and only if the call was punctual |
| RedisDueRuns.HigherBandIsReturned | src/aioq/backends/redis.py:195-203 | of two due jobs enqueued in one queue of an empty database, any dequeue returns the later one if its priority is in a higher band |
| RedisDueRuns.WaiterIsReturnedEarly | src/aioq/backends/redis.py:229-246 | from the empty database, for every deferred job that waits for a job which is enqueued, popped and completed: the completion lists it, and the next dequeue of its queue returns it before its time |
| RedisDueRuns.LeftoverIsReturnedEarly | src/aioq/backends/redis.py:248-264 | and for every plain job cancelled while listed, retried, popped once and failed with a delay: the other copy is returned before the retry's time |
| RedisBroker.Broker.ReapExpired | src/aioq/backends/redis.py:436-446 | reaping touches no live record and no live job's dependents, removes exactly the due entries and leaves an exact index |
| RedisBroker.Broker.QueueStats | src/aioq/backends/redis.py:307-335 | the statistics are those of a full scan of the records |
| RedisBroker.Broker.Purge | src/aioq/backends/redis.py:392-412 | exactly the live jobs of the wanted statuses that finished by the cutoff are deleted and counted |
| RedisWakeUp.InvKept | src/aioq/backends/redis.py:128-144 | every command of every client keeps waiting jobs registered and stored as checked |
| RedisWakeUp.NothingForgottenKept | src/aioq/backends/redis.py:221-246 | whenever a waiting record has all dependencies completed, some client has still to decide about it |
| RedisWakeUp.NoLostWakeUp | src/aioq/backends/redis.py:128-144 | once all promotions in flight are done, no waiting record has all its dependencies completed |
| RedisWakeUp.ReleaseHasSeenAll | src/aioq/backends/redis.py:128-246 | in every interleaving an enqueue lets a job run, and a promotion wakes one, only after it has seen each dependency completed |
| RedisWakeUp.RecordsAreHandedIn | src/aioq/backends/redis.py:146-184 | in every interleaving each record is the job of some call as it was handed in, except that an enqueue may make it wait and a promotion pending again |
| RedisWakeUp.PromotionIsGuardedExactly | src/aioq/backends/redis.py:229-246 | a promotion acts as one guarded by the waiting status if and only if the record is still as it was read, or as another promotion left it |
| RedisWakeUp.PromotionUndoesCancel | src/aioq/backends/redis.py:229-264 | whenever a client is about to promote a job, another can cancel it to the end, and the promotion makes it pending again |
| Slots.ConservedKept | src/aioq/worker.py:96-129 | every step keeps free slots plus the main loop's slot plus in-flight tasks equal to the concurrency |
| Slots.EveryRunConserves | src/aioq/worker.py:96-129 | so it holds in every reachable state, across dequeue errors, empty dequeues, completions and stop |
| Slots.DrainedMeansDone | src/aioq/worker.py:153-157 | when draining ends every claimed job has ended and all slots are free |
| Slots.StopTakesAtMostOne | src/aioq/worker.py:91-97 | once stop is requested a worker takes at most the one job it may be waiting for |
| Slots.ExitsOnlyOnStop | src/aioq/worker.py:91-129 | the main loop ends only after a stop request or a cancellation |
| Cron.LockKeyInjective | src/aioq/cron.py:47-49 | two lock keys are equal only for the same name and second |
| Cron.VisitsEveryPoint | src/aioq/cron.py:37-45 | taking the next occurrence after each one visits every schedule point after the start, in order |
| Cron.WinsAreApart | src/aioq/backends/memory.py:213-220 | two acquisitions of one key are at least the ttl apart, purges in between or not |
| Cron.DropsExactlyTheFree | src/aioq/backends/memory.py:239-246 | a purge keeps exactly the locks that still refuse an attempt |
| Cron.FiresExactlyOnce | src/aioq/worker.py:184-211 | an occurrence fires exactly once across the fleet if and only if every attempt comes within the ttl of the first |
| Cron.LateAttemptWins | src/aioq/backends/memory.py:216-219 | an attempt at or past the ttl of the first gets the lock again |
| CronLoop.CronWorker.Tick | src/aioq/worker.py:188-211 | one pass attempts every occurrence that has come, once, moves its entry to the next one, and fires exactly the attempts that win their lock |
| CronLoop.AttemptIsSchedulePoint | src/aioq/worker.py:184-194 | what the loop attempts of a cron are its schedule points after the start, in order and without gaps, and the entry is the next one |
| CronFleet.Fleet.Attempt | src/aioq/worker.py:190-211 | with attempts of several workers in any order, every worker has fired exactly what it won in the common history |
| CronFleet.Fleet.Tick | src/aioq/worker.py:188-211 | the same for whole passes |
| CronFleet.Fleet.Sweep | src/aioq/backends/memory.py:239-246 | and for purges in between |
| CronFleet.HistoryIsRun | src/aioq/backends/memory.py:213-220 | every such history is a run of the lock dictionary |
| CronFleet.FleetFiresOnceExactly | src/aioq/worker.py:184-211 | an occurrence is fired by exactly one worker, once, if and only if every attempt of any worker comes within the ttl of the first |
| CronFleet.LateAttemptFiresAgain | src/aioq/backends/memory.py:216-219 | an attempt of another worker at or past the ttl fires it a second time |

## Left out

- MemoryBroker.Broker.PopRunnable: is proved for lists that are an index, as are the other calls; what a call on lists
  that are no index any more does is not modelled.
- SqlBroker.Broker.EnqueueMany: has the exact condition for runnable jobs with different ids; with repeated ids a later
  job can hide the difference, and only the one direction is proved.
- MemoryBroker.Broker.Dequeue: polls at given clock readings; waiting and the poll interval are not modelled.
- WorkerLoop.Worker.Process: takes the job value that the broker's table holds, which in the original is the
  same object, so aliasing between the table, the worker and hook bodies is not captured.
- RedisBroker.Broker.Dequeue: does not wait when all lists are empty.
- RedisBroker.Broker.ReapExpired: takes expiring entries as pairs; PartitionUndoesMember says when the stored
  text splits into that pair.
- RedisBroker.Broker.QueueStats: does not sort the queue names, which only orders the dictionary.
- RedisIndex.TickAgrees: uses one clock for the Redis server and its clients, and a record is gone from the
  moment its deadline is reached.
- Redis calls that overlap: index agreement is for calls that run to completion; under interleaving only the
  wake-up is claimed. Lists with two copies of an id are possible and covered, see above.
- SqlMachine.EveryRunIsExclusive: a claim may take any due runnable row, so the result holds for every claim
  order; that the row is the first by priority and time is proved for the MySQL transaction and the in-process
  broker. Ids are fresh.
- RedisRuns.EveryCleanRunAgrees: lists and deferred sets are counted by id, without order and due times, which the
  queue model has; a listed id may be popped at any time, as other workers may take what is ahead of it.
- RedisWakeUp.NoLostWakeUp: has no purge, reaping or expiry of records, so dependencies do not vanish there.
- `replay_dead_job` under concurrency: it is two writes, and is modelled only where calls do not interleave.
- Crash recovery: the code has none, so a worker that disappears while it holds a job is not modelled.
- Timestamps: the schedule's occurrences are whole seconds, as croniter gives them; other times are reals.
- Rounding and overflow of floating point in delays.
- croniter: the schedule points of an expression are given, in increasing order.
- Task functions and hook bodies: an attempt succeeds or fails with any text; hooks only leave a trace.
- JSON, pydantic, SQL text, connections, pools and schema set-up.
- `list_jobs`, worker registration and heartbeats, `ack` and `nack`, the command line, dashboard and metrics.
