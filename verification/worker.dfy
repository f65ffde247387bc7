/** The worker's handling of one job (src/aioq/worker.py) against the in-process broker. */
module WorkerLoop {
  import opened Jobs
  import opened Attempts
  import opened MemoryBroker
  import Spec = MemorySpec
  import Drain

  class Worker {
    const workerId: string
    const tasks: set<string>
    const broker: Broker
    /** The hook events emitted so far. */
    var hooks: seq<Event>

    constructor (workerId: string, tasks: set<string>, broker: Broker)
      ensures this.workerId == workerId && this.tasks == tasks && this.broker == broker && hooks == []
    {
      this.workerId, this.tasks, this.broker, hooks := workerId, tasks, broker, [];
    }

    /** Runs a job this worker has taken. The job is the broker's own record unless a purge has
        dropped it; the attempt says what the task function does and when. */
    method Process(job: JobData, a: Attempt)
      requires broker.Valid() && job.id in broker.held && a.worker == workerId
      requires job.id in broker.jobs ==> broker.jobs[job.id] == job
      modifies this, broker
      ensures broker.cronLocks == old(broker.cronLocks)
      ensures broker.Valid()
      ensures var (store, events) := Spec.Process(old(broker.Contents()), job, tasks, a);
              broker.Contents() == store && hooks == old(hooks) + events
    {
      if job.taskName !in tasks {
        FailJob(job, Spec.UnknownTaskError(job.taskName), a.endedAt);
        return;
      }
      if job.id in broker.jobs && broker.jobs[job.id].status == Cancelled {
        GiveBack(job.id);
        return;
      }
      Execute(job, a);
    }

    /** Marks the job running, runs it and stores the outcome. */
    method Execute(job: JobData, a: Attempt)
      requires broker.Valid() && job.id in broker.held && a.worker == workerId
      modifies `hooks, broker
      ensures broker.cronLocks == old(broker.cronLocks)
      ensures broker.Valid() && hooks == old(hooks) + [OnStart, ClosingEvent(Run(job, a))]
      ensures broker.Contents() == Spec.StoreOutcome(Spec.Update(old(broker.Contents()), Begin(job, a)), Run(job, a))
    {
      var j := job.(status := Running);
      j := j.(startedAt := Some(a.startedAt), workerId := Some(workerId));
      j := j.(error := None);
      assert j == Begin(job, a);
      broker.UpdateJob(j);
      hooks := hooks + [OnStart];
      match a.outcome
      case Success(result) => FinishJob(j, result, a.endedAt);
      case Failure(error) => HandleFailure(j, error, a);
    }

    method HandleFailure(job: JobData, error: string, a: Attempt)
      requires broker.Valid() && job.id in broker.held && a.outcome == Failure(error)
      modifies `hooks, broker
      ensures broker.cronLocks == old(broker.cronLocks)
      ensures broker.Valid() && hooks == old(hooks) + [ClosingEvent(Conclude(job, a))]
      ensures broker.Contents() == Spec.StoreOutcome(old(broker.Contents()), Conclude(job, a))
    {
      if job.retries < job.maxRetries {
        RescheduleJob(job, error, a.endedAt, a.draw);
      } else if job.HasDeadLetterQueue() {
        BuryJob(job, error, a.endedAt);
      } else {
        FailJob(job, error, a.endedAt);
      }
    }

    /** Leaves a cancelled job alone; only the proof's record of it changes. */
    method GiveBack(id: string)
      requires broker.Valid() && id in broker.jobs && broker.jobs[id].status == Cancelled
      modifies broker`held
      ensures broker.Valid()
      ensures broker.Contents() == old(broker.Contents()).(held := old(broker.held) - {id})
    {
      ReadyIndex.IndexesIgnoresUnavailable(broker.ready, broker.jobs, broker.jobs, broker.held, broker.held - {id});
      broker.held := broker.held - {id};
    }

    method FinishJob(job: JobData, result: string, now: real)
      requires broker.Valid() && job.id in broker.held
      modifies `hooks, broker
      ensures broker.cronLocks == old(broker.cronLocks)
      ensures broker.Valid() && hooks == old(hooks) + [OnSuccess]
      ensures broker.Contents() == Spec.Update(old(broker.Contents()), HandleSuccess(job, result, now))
    {
      var j := job.(status := Completed, completedAt := Some(now));
      if j.saveResult {
        j := j.(result := Some(result));
      }
      broker.UpdateJob(j);
      hooks := hooks + [OnSuccess];
    }

    method RescheduleJob(job: JobData, error: string, now: real, draw: real)
      requires broker.Valid() && job.id in broker.held
      modifies `hooks, broker
      ensures broker.cronLocks == old(broker.cronLocks)
      ensures broker.Valid() && hooks == old(hooks) + [OnRetry]
      ensures broker.Contents() == Spec.Enqueue(old(broker.Contents()), ScheduleRetry(job, error, now, draw))
    {
      var j := job.(retries := job.retries + 1, status := Retrying, error := Some(error));
      var delay := RetryDelayOf(j, draw);
      j := j.(runAt := if delay > 0.0 then Some(now + delay) else None);
      j := j.(startedAt := None, workerId := None);
      ReadyIndex.UnlistedFits(broker.jobs, broker.held, j);
      broker.Enqueue(j);
      hooks := hooks + [OnRetry];
    }

    method BuryJob(job: JobData, error: string, now: real)
      requires broker.Valid() && job.id in broker.held
      modifies `hooks, broker
      ensures broker.cronLocks == old(broker.cronLocks)
      ensures broker.Valid() && hooks == old(hooks) + [OnDead]
      ensures broker.Contents() == Spec.Update(old(broker.Contents()), MoveToDlq(job, error, now))
    {
      var j := job.(status := Dead, error := Some(error), completedAt := Some(now));
      if j.HasDeadLetterQueue() {
        j := j.(queue := j.deadLetterQueue.value);
      }
      broker.UpdateJob(j);
      hooks := hooks + [OnDead];
    }

    method FailJob(job: JobData, error: string, now: real)
      requires broker.Valid() && job.id in broker.held
      modifies `hooks, broker
      ensures broker.cronLocks == old(broker.cronLocks)
      ensures broker.Valid() && hooks == old(hooks) + [OnFailure]
      ensures broker.Contents() == Spec.Update(old(broker.Contents()), Fail(job, error, now))
    {
      broker.UpdateJob(job.(status := Failed, error := Some(error), completedAt := Some(now)));
      hooks := hooks + [OnFailure];
    }

    /** One tick: claim a job and run it. When everything runnable is due this is one round of a drain. */
    method WorkOnce(queues: seq<string>, now: real, a: Attempt) returns (turn: Option<Drain.Turn>)
      requires broker.Valid() && a.worker == workerId
      modifies this, broker
      ensures broker.cronLocks == old(broker.cronLocks)
      ensures broker.Valid()
      ensures turn.None? ==>
                && broker.Contents() == old(broker.Contents()) && hooks == old(hooks)
                && forall id :: !Spec.CanPop(old(broker.Contents()), queues, now, id)
      ensures turn.Some? ==>
                && turn.value == Drain.Turn(queues, now, turn.value.id, a)
                && Spec.IsBest(old(broker.Contents()), queues, now, turn.value.id)
                && Spec.MostUrgent(old(broker.Contents()), queues, now, old(broker.jobs)[turn.value.id])
                && broker.Contents() == Spec.Process(Spec.Claim(old(broker.Contents()), turn.value.id),
                                                     old(broker.jobs)[turn.value.id], tasks, a).0
                && hooks == old(hooks) + Drain.EventsOf(old(broker.Contents()), tasks, turn.value)
                && (Drain.EverythingDue(old(broker.Contents()), turn.value) ==>
                      Drain.TakesTurn(old(broker.Contents()), tasks, turn.value, broker.Contents()))
    {
      var job := broker.Dequeue(queues, [now]);
      if job.None? {
        return None;
      }
      Process(job.value, a);
      return Some(Drain.Turn(queues, now, job.value.id, a));
    }
  }
}
