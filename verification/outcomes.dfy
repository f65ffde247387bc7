/** What the end of an attempt means for the calls that follow it (src/aioq/worker.py, src/aioq/backends/memory.py):
    when a retry can be taken, what a finished job shows, when it is purged, and how it starts over. */
module Outcomes {
  import opened Jobs
  import opened Attempts
  import opened MemorySpec
  import Retry

  // ---------------------------------------------------------------- the wait before a retry

  /** The base delay, doubled after each further retry. */
  function Doubled(baseDelay: real, n: nat): real
    requires n >= 1
  {
    if n == 1 then baseDelay else 2.0 * Doubled(baseDelay, n - 1)
  }

  lemma {:induction false} DoubledIsPow(baseDelay: real, n: nat)
    requires n >= 1
    ensures Doubled(baseDelay, n) == baseDelay * Retry.Pow2(n - 1)
  {
    if n > 1 {
      DoubledIsPow(baseDelay, n - 1);
      TwiceTheProduct(baseDelay, Retry.Pow2(n - 2));
    }
  }

  lemma TwiceTheProduct(a: real, p: real)
    ensures 2.0 * (a * p) == a * (2.0 * p)
  {
  }

  /** Without backoff every wait is the base delay; with backoff it is the drawn share of the doubled delay or the cap,
      whichever is less. A base of at most 0 means no wait. */
  lemma WaitOf(j: JobData, draw: real)
    requires j.retries >= 1
    ensures j.retryDelay <= 0.0 ==> RetryDelayOf(j, draw) == 0.0
    ensures j.retryDelay > 0.0 && !j.retryBackoff ==> RetryDelayOf(j, draw) == j.retryDelay
    ensures j.retryDelay > 0.0 && j.retryBackoff && Doubled(j.retryDelay, j.retries) <= j.retryBackoffMax ==>
              RetryDelayOf(j, draw) == Doubled(j.retryDelay, j.retries) * draw
    ensures j.retryDelay > 0.0 && j.retryBackoff && Doubled(j.retryDelay, j.retries) >= j.retryBackoffMax ==>
              RetryDelayOf(j, draw) == j.retryBackoffMax * draw
  {
    DoubledIsPow(j.retryDelay, j.retries);
  }

  /** The worker's processing of a taken job ends with a retry. */
  predicate EndsInRetry(s: Store, j: JobData, tasks: set<string>, a: Attempt) {
    && j.taskName in tasks && j.id in s.jobs && s.jobs[j.id] == j && j.status !in {Cancelled, Completed}
    && a.outcome.Failure? && j.retries < j.maxRetries
  }

  lemma ProcessReschedules(s: Store, j: JobData, tasks: set<string>, a: Attempt)
    requires EndsInRetry(s, j, tasks, a)
    ensures var s' := Process(s, j, tasks, a).0;
            && j.id in s'.jobs && j.id !in s'.held
            && s'.jobs[j.id] == (if AllCompleted(s.jobs, j.dependsOn) then Run(j, a) else Run(j, a).(status := Waiting))
  {
    var started, ended := Begin(j, a), Run(j, a);
    var s1 := Update(s, started);
    assert s1.jobs == s.jobs[j.id := started];
    forall d | d in j.dependsOn
      ensures d in s1.jobs && s1.jobs[d].status == Completed <==> d in s.jobs && s.jobs[d].status == Completed
    {
    }
    assert AllCompleted(s1.jobs, j.dependsOn) <==> AllCompleted(s.jobs, j.dependsOn);
    if !AllCompleted(s.jobs, j.dependsOn) {
      var d :| d in j.dependsOn && !(d in s.jobs && s.jobs[d].status == Completed);
      assert !AllCompleted(s1.jobs[j.id := ended.(status := Waiting)], j.dependsOn);
      PromoteOne(s1.jobs[j.id := ended.(status := Waiting)], j.id);
    }
  }

  /** What a failed attempt with retries left leaves on the record. */
  lemma RetryShows(s: Store, j: JobData, tasks: set<string>, a: Attempt)
    requires EndsInRetry(s, j, tasks, a)
    ensures var s' := Process(s, j, tasks, a).0;
            && j.id in s'.jobs && j.id !in s'.held
            && var r := s'.jobs[j.id];
               && r.retries == j.retries + 1 && r.error == Some(a.outcome.error) && r.queue == j.queue
               && r.startedAt.None? && r.workerId.None? && r.maxRetries == j.maxRetries && r.priority == j.priority
               && r.status == if AllCompleted(s.jobs, j.dependsOn) then Retrying else Waiting
  {
    ProcessReschedules(s, j, tasks, a);
  }

  /** A failed attempt with retries left and its dependencies completed is taken again exactly from the end of the
      attempt plus the wait on, and at once if there is no wait. */
  lemma RetryComesDue(s: Store, j: JobData, tasks: set<string>, a: Attempt, queues: seq<string>, now: real)
    requires EndsInRetry(s, j, tasks, a)
    requires AllCompleted(s.jobs, j.dependsOn) && j.queue in queues
    ensures var wait := RetryDelayOf(j.(retries := j.retries + 1), a.draw);
            CanPop(Process(s, j, tasks, a).0, queues, now, j.id) <==> wait <= 0.0 || now >= a.endedAt + wait
  {
    ProcessReschedules(s, j, tasks, a);
  }

  // ---------------------------------------------------------------- what a finished job shows

  /** After its last attempt a job shows when that ended, which worker made it, and its result or its error: a wanted
      result is stored, and an earlier attempt's error is gone. A job that failed is in its dead letter queue, if it
      has one with a name. */
  lemma EndShows(s: Store, j: JobData, tasks: set<string>, a: Attempt)
    requires j.taskName in tasks && j.id in s.jobs && s.jobs[j.id] == j && j.status != Cancelled
    requires !(a.outcome.Failure? && j.retries < j.maxRetries)
    ensures var s' := Process(s, j, tasks, a).0;
            && j.id in s'.jobs && j.id !in s'.held
            && var r := s'.jobs[j.id];
               && r.completedAt == Some(a.endedAt) && r.startedAt == Some(a.startedAt) && r.workerId == Some(a.worker)
               && (a.outcome.Success? ==> r.status == Completed && r.error.None?)
               && (a.outcome.Success? && j.saveResult ==> r.result == Some(a.outcome.result))
               && (a.outcome.Success? && !j.saveResult ==> r.result == j.result)
               && (a.outcome.Failure? ==>
                     && r.error == Some(a.outcome.error)
                     && (if j.deadLetterQueue.None? || |j.deadLetterQueue.value| == 0
                         then r.status == Failed && r.queue == j.queue
                         else r.status == Dead && Some(r.queue) == j.deadLetterQueue))
  {
    var s1 := Update(s, Begin(j, a));
    var ended := Run(j, a);
    if ended.status == Completed {
      assert Update(s1, ended).jobs[j.id] == ended;
    }
  }

  /** A job of a task that the worker does not know fails at once, whatever retries and dead letter queue it has. */
  lemma UnknownTaskFails(s: Store, j: JobData, tasks: set<string>, a: Attempt)
    requires j.taskName !in tasks
    ensures var (s', events) := Process(s, j, tasks, a);
            && j.id in s'.jobs && j.id !in s'.held && events == [OnFailure]
            && s'.jobs[j.id] == j.(status := Failed, error := Some("Unknown task: " + j.taskName),
                                   completedAt := Some(a.endedAt))
  {
  }

  /** A finished job is purged by when it ended, not by when it was enqueued. */
  lemma PurgeGoesByEnd(s: Store, j: JobData, tasks: set<string>, a: Attempt, wanted: set<Status>, cutoff: real)
    requires j.taskName in tasks && j.id in s.jobs && s.jobs[j.id] == j && j.status != Cancelled
    requires !(a.outcome.Failure? && j.retries < j.maxRetries)
    ensures var s' := Process(s, j, tasks, a).0;
            && j.id in s'.jobs
            && (j.id in Purge(s', wanted, cutoff).jobs <==> s'.jobs[j.id].status !in wanted || cutoff < a.endedAt)
  {
    EndShows(s, j, tasks, a);
  }

  /** A job that never ran is purged by when it was enqueued. */
  lemma CancelledGoesByEnqueue(s: Store, id: string, wanted: set<Status>, cutoff: real)
    requires id in s.jobs && s.jobs[id].completedAt.None?
    ensures id in Purge(s, wanted, cutoff).jobs <==> s.jobs[id].status !in wanted || cutoff < s.jobs[id].enqueuedAt
  {
  }

  // ---------------------------------------------------------------- starting over

  /** A life made of enough attempts, whose last record is stored. */
  predicate LifeEnded(s: Store, id: string, start: JobData, attempts: seq<Attempt>) {
    && Enough(start, attempts) && id in s.jobs && s.jobs[id] == Lifecycle(start, attempts).0
  }

  /** From here on the job has the whole budget again: whatever the attempts of its next life, it is made again at most
      max_retries times, and exactly so if it ends badly. */
  ghost predicate WholeBudget(j: JobData, maxRetries: int) {
    forall next | Enough(j, next) ::
      var end := Lifecycle(j, next).0;
      var allowed := if maxRetries < 0 then 0 else maxRetries;
      0 <= end.retries <= allowed && (end.status in {Failed, Dead} ==> end.retries == allowed)
  }

  lemma FreshHasWholeBudget(j: JobData)
    requires j.retries == 0
    ensures WholeBudget(j, j.maxRetries)
  {
    forall next | Enough(j, next)
      ensures var end := Lifecycle(j, next).0;
              var allowed := if j.maxRetries < 0 then 0 else j.maxRetries;
              0 <= end.retries <= allowed && (end.status in {Failed, Dead} ==> end.retries == allowed)
    {
      FreshLifecycle(j, next);
    }
  }

  lemma {:induction false} LifeKeepsLimit(start: JobData, attempts: seq<Attempt>)
    ensures var end := Lifecycle(start, attempts).0;
            end.maxRetries == start.maxRetries && end.id == start.id && end.dependsOn == start.dependsOn
    decreases |attempts|
  {
    if attempts != [] {
      LifecycleUnfolds(start, attempts);
      LifeKeepsLimit(Run(start, attempts[0]), attempts[1..]);
    }
  }

  /** Nothing of the earlier attempts is left on the job. */
  ghost predicate CleanStart(j: JobData) {
    && j.retries == 0 && j.error.None? && j.result.None? && j.startedAt.None? && j.completedAt.None?
    && j.workerId.None? && forall now :: j.Due(now)
  }

  /** Exactly failed and cancelled jobs are retried by hand, and these start over with the whole budget. */
  lemma RetryStartsOver(s: Store, id: string)
    ensures var (s', done) := RetryJob(s, id);
            && (done <==> id in s.jobs && s.jobs[id].status in {Failed, Cancelled})
            && (!done ==> s' == s)
            && (done ==>
                  && s' == s.(jobs := s.jobs[id := s'.jobs[id]]) && s'.jobs[id].status == Pending
                  && CleanStart(s'.jobs[id]) && WholeBudget(s'.jobs[id], s.jobs[id].maxRetries))
  {
    if id in s.jobs {
      FreshHasWholeBudget(Restarted(s.jobs[id]));
    }
  }

  /** A job whose life ended failed is retried, can be taken at once and has its whole budget again. */
  lemma FailedLifeStartsOver(s: Store, id: string, start: JobData, attempts: seq<Attempt>, queues: seq<string>,
                             now: real)
    requires LifeEnded(s, id, start, attempts) && Lifecycle(start, attempts).0.status == Failed && id !in s.held
    ensures var (s', done) := RetryJob(s, id);
            && done && CleanStart(s'.jobs[id]) && WholeBudget(s'.jobs[id], start.maxRetries)
            && s'.jobs[id].status == Pending && (CanPop(s', queues, now, id) <==> s.jobs[id].queue in queues)
  {
    LifeKeepsLimit(start, attempts);
    RetryStartsOver(s, id);
  }

  /** A job whose life ended dead is replayed from its dead letter queue with its whole budget, at once unless a
      dependency is open by now. */
  lemma DeadLifeStartsOver(s: Store, id: string, start: JobData, attempts: seq<Attempt>, queues: seq<string>,
                           now: real)
    requires LifeEnded(s, id, start, attempts) && Lifecycle(start, attempts).0.status == Dead
    requires start.id == id
    ensures var (s', done) := ReplayDeadJob(s, id);
            && done && id in s'.jobs
            && CleanStart(s'.jobs[id]) && WholeBudget(s'.jobs[id], start.maxRetries)
            && s'.jobs[id].status == (if AllCompleted(s.jobs, start.dependsOn) then Pending else Waiting)
            && start.HasDeadLetterQueue() && s'.jobs[id].queue == start.deadLetterQueue.value
            && (CanPop(s', queues, now, id)
                <==> AllCompleted(s.jobs, start.dependsOn) && start.deadLetterQueue.value in queues)
  {
    var j := Restarted(s.jobs[id]);
    LifeKeepsLimit(start, attempts);
    LifecycleTrace(start, attempts);
    EnqueuedAsChecked(s, j);
    FreshHasWholeBudget(ReplayDeadJob(s, id).0.jobs[id]);
  }

  /** An enqueue that replaces no completed record leaves the job as the check found it. */
  lemma EnqueuedAsChecked(s: Store, j: JobData)
    requires j.status != Waiting && (j.id in s.jobs ==> s.jobs[j.id].status != Completed)
    ensures var s' := Enqueue(s, j);
            j.id in s'.jobs && j.id !in s'.held
            && s'.jobs[j.id] == if AllCompleted(s.jobs, j.dependsOn) then j else j.(status := Waiting)
  {
    var stored := s.jobs[j.id := j.(status := Waiting)];
    PromoteOne(stored, j.id);
    if !AllCompleted(s.jobs, j.dependsOn) {
      var d :| d in j.dependsOn && !(d in s.jobs && s.jobs[d].status == Completed);
      assert !AllCompleted(stored, j.dependsOn);
    }
  }

  // ---------------------------------------------------------------- cancelling

  /** Exactly pending, retrying and waiting jobs can be cancelled, and then nobody takes them. */
  lemma CancelStops(s: Store, id: string, queues: seq<string>, now: real)
    ensures var (s', done) := CancelJob(s, id);
            && (done <==> id in s.jobs && s.jobs[id].status in {Pending, Retrying, Waiting})
            && (!done ==> s' == s)
            && (done ==>
                  s' == s.(jobs := s.jobs[id := s.jobs[id].(status := Cancelled)]) && !CanPop(s', queues, now, id))
  {
  }

  /** A job can be cancelled as soon as it is enqueued, whether it waits or not, and between an attempt and its
      retry. */
  lemma IdleCanBeCancelled(s: Store, j: JobData, tasks: set<string>, a: Attempt)
    ensures j.status == Pending ==> CancelJob(Enqueue(s, j), j.id).1
    ensures EndsInRetry(s, j, tasks, a) ==> CancelJob(Process(s, j, tasks, a).0, j.id).1
  {
    if EndsInRetry(s, j, tasks, a) {
      ProcessReschedules(s, j, tasks, a);
    }
  }
}
