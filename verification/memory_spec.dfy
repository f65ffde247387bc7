/** What the in-process broker (src/aioq/backends/memory.py) means, without its ready lists: a table
    of jobs and the set of ids that workers have taken and not given back. */
module MemorySpec {
  import opened Jobs
  import opened Attempts
  import MySqlClaim

  datatype Store = Store(jobs: JobMap, held: set<string>)

  predicate WellKeyed(jobs: JobMap) {
    forall id | id in jobs :: jobs[id].id == id
  }

  // ---------------------------------------------------------------- picking a job

  predicate CanPop(s: Store, queues: seq<string>, now: real, id: string) {
    && id in s.jobs && id !in s.held && Runnable(s.jobs[id].status)
    && s.jobs[id].queue in queues && s.jobs[id].Due(now)
  }

  /** The plain query: the least due candidate over the whole job table. */
  ghost predicate IsBest(s: Store, queues: seq<string>, now: real, id: string) {
    && CanPop(s, queues, now, id)
    && forall c | CanPop(s, queues, now, c) :: c == id || CandidateLess(s.jobs[id], s.jobs[c])
  }

  /** The job has the highest priority of all that can be popped, and the earliest time among those; further ties go
      by queue name and then id. */
  ghost predicate MostUrgent(s: Store, queues: seq<string>, now: real, j: JobData) {
    forall id | CanPop(s, queues, now, id) ::
      var c := s.jobs[id];
      && c.priority <= j.priority
      && (c.priority == j.priority ==> j.enqueuedAt <= c.enqueuedAt)
      && (c.priority == j.priority && c.enqueuedAt == j.enqueuedAt ==>
            if c.queue == j.queue then j.id == c.id || exists n: nat :: DiffersAt(j.id, c.id, n)
            else exists n: nat :: DiffersAt(j.queue, c.queue, n))
  }

  lemma BestIsMostUrgent(s: Store, queues: seq<string>, now: real, id: string)
    requires WellKeyed(s.jobs) && IsBest(s, queues, now, id)
    ensures MostUrgent(s, queues, now, s.jobs[id])
  {
    var j := s.jobs[id];
    forall other | CanPop(s, queues, now, other)
      ensures var c := s.jobs[other];
              && c.priority <= j.priority && (c.priority == j.priority ==> j.enqueuedAt <= c.enqueuedAt)
              && (c.priority == j.priority && c.enqueuedAt == j.enqueuedAt ==>
                    if c.queue == j.queue then j.id == c.id || exists n: nat :: DiffersAt(j.id, c.id, n)
                    else exists n: nat :: DiffersAt(j.queue, c.queue, n))
    {
      StringLessExactly(j.queue, s.jobs[other].queue);
      StringLessExactly(j.id, s.jobs[other].id);
      StringLessTotal(j.queue, j.queue);
    }
  }

  lemma BestIsUnique(s: Store, queues: seq<string>, now: real, a: string, b: string)
    requires WellKeyed(s.jobs) && IsBest(s, queues, now, a) && IsBest(s, queues, now, b)
    ensures a == b
  {
    CandidateLessTotal(s.jobs[a], s.jobs[b]);
  }

  /** The best candidate is what the SQL claim selects when the taken jobs are the locked rows. */
  lemma BestIsFirstInSql(s: Store, queues: seq<string>, now: real, id: string, sql: MySqlClaim.State)
    requires WellKeyed(s.jobs) && IsBest(s, queues, now, id)
    requires sql.rows == s.jobs && sql.locks.Keys == s.held && sql.now == now
    ensures MySqlClaim.FirstCandidate(sql, (set q | q in queues), id)
  {
    forall c | MySqlClaim.Candidate(sql, (set q | q in queues), c)
      ensures !ClaimKeyLess(s.jobs[c], s.jobs[id])
    {
      assert CanPop(s, queues, now, c);
    }
  }

  function Claim(s: Store, id: string): Store {
    s.(held := s.held + {id})
  }

  // ---------------------------------------------------------------- storing and waking

  predicate Overdue(jobs: JobMap, id: string) {
    id in jobs && jobs[id].status == Waiting && AllCompleted(jobs, jobs[id].dependsOn)
  }

  /** Promotion of the jobs in `ids` that wait for nothing any more. */
  function Promote(jobs: JobMap, ids: set<string>): (r: JobMap)
    ensures r.Keys == jobs.Keys
    ensures forall id | id in jobs ::
              r[id] == if id in ids && Overdue(jobs, id) then jobs[id].(status := Pending) else jobs[id]
  {
    map id | id in jobs :: if id in ids && Overdue(jobs, id) then jobs[id].(status := Pending) else jobs[id]
  }

  lemma PromoteOne(jobs: JobMap, id: string)
    ensures Promote(jobs, {id})
         == if Overdue(jobs, id) then jobs[id := jobs[id].(status := Pending)] else jobs
  {
  }

  function Dependents(jobs: JobMap, id: string): set<string> {
    set c | c in jobs && id in jobs[c].dependsOn
  }

  function CheckDependencies(jobs: JobMap, j: JobData): JobData {
    if AllCompleted(jobs, j.dependsOn) then j else j.(status := Waiting)
  }

  function Enqueue(s: Store, j: JobData): Store {
    var j' := CheckDependencies(s.jobs, j);
    var jobs := s.jobs[j.id := j'];
    Store(if j'.status == Waiting then Promote(jobs, {j.id}) else jobs, s.held - {j.id})
  }

  /** A worker keeps a job it updates to running and gives it back with its last update. */
  function Update(s: Store, j: JobData): Store {
    var jobs := s.jobs[j.id := j];
    Store(if j.status == Completed then Promote(jobs, Dependents(jobs, j.id)) else jobs,
          if Terminal(j.status) then s.held - {j.id} else s.held)
  }

  function CancelJob(s: Store, id: string): (Store, bool) {
    if id in s.jobs && Cancellable(s.jobs[id].status) then
      (s.(jobs := s.jobs[id := s.jobs[id].(status := Cancelled)]), true)
    else (s, false)
  }

  /** The job as a retry by hand or a replay stores it. */
  function Restarted(j: JobData): JobData {
    j.ResetForReplay().(status := Pending)
  }

  function RetryJob(s: Store, id: string): (Store, bool) {
    if id in s.jobs && Retriable(s.jobs[id].status) then
      (s.(jobs := s.jobs[id := Restarted(s.jobs[id])]), true)
    else (s, false)
  }

  /** Replaying goes through enqueue, so it does look at dependencies. */
  function ReplayDeadJob(s: Store, id: string): (Store, bool) {
    if id in s.jobs && s.jobs[id].status == Dead then
      (Enqueue(s, Restarted(s.jobs[id])), true)
    else (s, false)
  }

  function Doomed(jobs: JobMap, wanted: set<Status>, cutoff: real): set<string> {
    set id | id in jobs && jobs[id].status in wanted && jobs[id].FinishedAt() <= cutoff
  }

  function Purge(s: Store, wanted: set<Status>, cutoff: real): Store {
    s.(jobs := s.jobs - Doomed(s.jobs, wanted, cutoff))
  }

  // ---------------------------------------------------------------- wake-up closure

  /** No waiting job has all its dependencies completed. */
  ghost predicate WakeClosed(jobs: JobMap) {
    forall id :: !Overdue(jobs, id)
  }

  /** Promotion does not touch completed jobs, so it never makes another job overdue. */
  lemma PromoteKeepsCompleted(jobs: JobMap, ids: set<string>, deps: seq<string>)
    ensures AllCompleted(Promote(jobs, ids), deps) <==> AllCompleted(jobs, deps)
  {
    var r := Promote(jobs, ids);
    forall d
      ensures d in r && r[d].status == Completed <==> d in jobs && jobs[d].status == Completed
    {
    }
  }

  /** Promoting one dependent after the other, in any order, is promoting them together. */
  lemma PromoteInSteps(jobs: JobMap, seen: set<string>, next: string)
    ensures Promote(Promote(jobs, seen), {next}) == Promote(jobs, seen + {next})
  {
    var r := Promote(jobs, seen);
    forall id | id in jobs
      ensures Overdue(r, id) <==> Overdue(jobs, id) && id !in seen
    {
      PromoteKeepsCompleted(jobs, seen, jobs[id].dependsOn);
    }
  }

  lemma UpdateKeepsWakeClosed(s: Store, j: JobData)
    requires WakeClosed(s.jobs) && j.status != Waiting
    ensures WakeClosed(Update(s, j).jobs)
  {
    var jobs := s.jobs[j.id := j];
    var r := Update(s, j).jobs;
    forall id
      ensures !Overdue(r, id)
    {
      if id in r && r[id].status == Waiting {
        PromoteKeepsCompleted(jobs, Dependents(jobs, j.id), r[id].dependsOn);
        assert id in s.jobs && s.jobs[id] == r[id] && !Overdue(s.jobs, id);
      }
    }
  }

  /** Completing a job promotes exactly the waiting jobs whose last open dependency it was, and
      changes nothing else. */
  lemma CompletingPromotesExactly(s: Store, j: JobData, id: string)
    requires WellKeyed(s.jobs) && WakeClosed(s.jobs) && j.status == Completed
    requires id in s.jobs && id != j.id
    ensures var lastOpen := s.jobs[id].status == Waiting && j.id in s.jobs[id].dependsOn
                            && forall d | d in s.jobs[id].dependsOn && d != j.id ::
                                 d in s.jobs && s.jobs[d].status == Completed;
            Update(s, j).jobs[id] == if lastOpen then s.jobs[id].(status := Pending) else s.jobs[id]
  {
    var jobs := s.jobs[j.id := j];
    assert jobs[id] == s.jobs[id] && !Overdue(s.jobs, id);
  }

  /** Enqueueing overwrites the job's own record, so that record matters only if it was completed. */
  lemma EnqueueIgnoresOwnRecord(s: Store, own: JobData, j: JobData)
    requires own.id == j.id && own.status != Completed
    requires j.id in s.jobs ==> s.jobs[j.id].status != Completed
    ensures Enqueue(Store(s.jobs[j.id := own], s.held + {j.id}), j) == Enqueue(s, j)
  {
    assert AllCompleted(s.jobs[j.id := own], j.dependsOn) <==> AllCompleted(s.jobs, j.dependsOn);
    assert s.jobs[j.id := own][j.id := CheckDependencies(s.jobs, j)] == s.jobs[j.id := CheckDependencies(s.jobs, j)];
    assert s.held + {j.id} - {j.id} == s.held - {j.id};
  }

  lemma EnqueueKeepsWakeClosed(s: Store, j: JobData)
    requires WakeClosed(s.jobs) && Runnable(j.status)
    ensures WakeClosed(Enqueue(s, j).jobs)
  {
    var j' := CheckDependencies(s.jobs, j);
    var jobs := s.jobs[j.id := j'];
    var r := Enqueue(s, j).jobs;
    forall id
      ensures !Overdue(r, id)
    {
      if id in r && r[id].status == Waiting {
        PromoteKeepsCompleted(jobs, {j.id}, r[id].dependsOn);
        if id != j.id {
          assert s.jobs[id] == r[id] && !Overdue(s.jobs, id);
        }
      }
    }
  }

  /** The other public operations complete nothing and make nothing wait. */
  lemma OthersKeepWakeClosed(s: Store, id: string, wanted: set<Status>, cutoff: real)
    requires WellKeyed(s.jobs) && WakeClosed(s.jobs)
    ensures WakeClosed(CancelJob(s, id).0.jobs)
    ensures WakeClosed(RetryJob(s, id).0.jobs)
    ensures WakeClosed(ReplayDeadJob(s, id).0.jobs)
    ensures WakeClosed(Purge(s, wanted, cutoff).jobs)
  {
    forall jobs: JobMap | jobs in {CancelJob(s, id).0.jobs, RetryJob(s, id).0.jobs, Purge(s, wanted, cutoff).jobs}
      ensures WakeClosed(jobs)
    {
      forall c
        ensures !Overdue(jobs, c)
      {
        if Overdue(jobs, c) {
          assert Overdue(s.jobs, c);
        }
      }
    }
    if id in s.jobs && s.jobs[id].status == Dead {
      EnqueueKeepsWakeClosed(s, Restarted(s.jobs[id]));
    }
  }

  /** A job that is popped, cancelled before its worker looked at it again, and retried: it can be listed again while
      it is still taken, and nothing keeps the worker from running it. */
  lemma TakenJobIsRetried(s: Store, queues: seq<string>, now: real, id: string)
    requires CanPop(s, queues, now, id)
    ensures var (cancelled, done) := CancelJob(Claim(s, id), id);
            var (retried, again) := RetryJob(cancelled, id);
            done && again && id in retried.held && retried.jobs[id].status == Pending
  {
  }

  // ---------------------------------------------------------------- the worker

  function UnknownTaskError(taskName: string): string {
    "Unknown task: " + taskName
  }

  /** The broker call that ends an attempt: a rescheduled job is enqueued, any other updated. */
  function StoreOutcome(s: Store, ended: JobData): Store {
    if ended.status == Retrying then Enqueue(s, ended) else Update(s, ended)
  }

  /** One `_process` call on a taken job: the new store and the hook events. */
  function Process(s: Store, j: JobData, tasks: set<string>, a: Attempt): (Store, seq<Event>) {
    if j.taskName !in tasks then
      (Update(s, Fail(j, UnknownTaskError(j.taskName), a.endedAt)), [OnFailure])
    else if j.id in s.jobs && s.jobs[j.id].status == Cancelled then
      (s.(held := s.held - {j.id}), [])
    else
      var started := Begin(j, a);
      var s' := Update(s, started);
      var ended := Conclude(started, a);
      (StoreOutcome(s', ended), [OnStart, ClosingEvent(ended)])
  }

  lemma ProcessKeepsWakeClosed(s: Store, j: JobData, tasks: set<string>, a: Attempt)
    requires WakeClosed(s.jobs)
    ensures WakeClosed(Process(s, j, tasks, a).0.jobs)
  {
    if j.taskName !in tasks {
      UpdateKeepsWakeClosed(s, Fail(j, UnknownTaskError(j.taskName), a.endedAt));
    } else if !(j.id in s.jobs && s.jobs[j.id].status == Cancelled) {
      var started := Begin(j, a);
      var ended := Conclude(started, a);
      UpdateKeepsWakeClosed(s, started);
      if ended.status == Retrying {
        EnqueueKeepsWakeClosed(Update(s, started), ended);
      } else {
        UpdateKeepsWakeClosed(Update(s, started), ended);
      }
    }
  }
}
