/** The in-process broker (src/aioq/backends/memory.py) as it updates its dictionaries and lists.
    Each method is one call; calls do not interleave because no critical section suspends. */
module MemoryBroker {
  import opened Jobs
  import Spec = MemorySpec
  import opened ReadyIndex
  import Statistics
  import Cron

  class Broker {
    var jobs: JobMap
    var ready: ReadyLists
    var cronLocks: map<string, real>
    /** The ids workers have taken and not given back; only the proof needs them. */
    ghost var held: set<string>

    constructor ()
      ensures Valid() && Contents() == Spec.Store(map[], {}) && cronLocks == map[]
    {
      jobs, ready, cronLocks, held := map[], map[], map[], {};
    }

    ghost function Contents(): Spec.Store
      reads `jobs, `held
    {
      Spec.Store(jobs, held)
    }

    /** The ready lists hold exactly the runnable jobs nobody has taken, once each, sorted. */
    ghost predicate Valid()
      reads `jobs, `ready, `held
    {
      Spec.WellKeyed(jobs) && Indexes(ready, jobs, held) && HeldActive(jobs, held)
    }

    method AllDepsCompleted(deps: seq<string>) returns (ok: bool)
      ensures ok == AllCompleted(jobs, deps)
    {
      var i := 0;
      while i < |deps|
        invariant 0 <= i <= |deps|
        invariant AllCompleted(jobs, deps[..i])
      {
        if deps[i] !in jobs || jobs[deps[i]].status != Completed {
          assert deps[i] in deps;
          return false;
        }
        i := i + 1;
      }
      assert deps[..i] == deps;
      return true;
    }

    /** What the lists need to be sorted at all. */
    ghost predicate Sound()
      reads `jobs, `ready, `held
    {
      Spec.WellKeyed(jobs) && AllListable(ready, jobs) && HeldActive(jobs, held)
    }

    method MakeReady(id: string)
      requires id in jobs && AllListable(ready, jobs)
      modifies `ready
      ensures Relisted(old(ready), jobs, id, ready) && AllListable(ready, jobs) && KeepsListed(old(ready), ready)
    {
      var queue := ListOf(ready, jobs[id].queue);
      if id !in queue {
        queue := queue + [id];
      }
      queue := SortList(queue, jobs);
      ready := ready[jobs[id].queue := queue];
    }

    method PromoteIfReady(id: string)
      requires Sound()
      modifies `jobs, `ready
      ensures Sound() && jobs == Spec.Promote(old(jobs), {id})
      ensures if Spec.Overdue(old(jobs), id) then Relisted(old(ready), jobs, id, ready) else ready == old(ready)
      ensures KeepsListed(old(ready), ready) && (old(Valid()) ==> Valid())
    {
      Spec.PromoteOne(jobs, id);
      if id !in jobs || jobs[id].status != Waiting {
        return;
      }
      var ok := AllDepsCompleted(jobs[id].dependsOn);
      if !ok {
        return;
      }
      ghost var before, lists := jobs, ready;
      jobs := jobs[id := jobs[id].(status := Pending)];
      MakeReady(id);
      if old(Valid()) {
        PromotionIndexes(lists, before, held, id, ready);
      }
    }

    /** Any job. The lists stay an index exactly when a job that is listed already stays runnable and in its queue,
        and any other ends runnable or waiting. */
    method Enqueue(job: JobData)
      requires Valid()
      modifies this
      ensures Contents() == Spec.Enqueue(old(Contents()), job) && cronLocks == old(cronLocks)
      ensures Valid() <==> EnqueueFits(old(jobs), old(held), jobs[job.id])
    {
      var job' := job;
      if job.dependsOn != [] {
        var ok := AllDepsCompleted(job.dependsOn);
        if !ok {
          job' := job'.(status := Waiting);
        }
      }
      StoreChecked(job');
    }

    /** Storing a checked job: it is listed, or looked at again if it waits. */
    method StoreChecked(job: JobData)
      requires Valid()
      modifies `jobs, `ready, `held
      ensures jobs == Stored(old(jobs), job) && held == old(held) - {job.id}
      ensures Valid() <==> EnqueueFits(old(jobs), old(held), jobs[job.id])
    {
      ghost var before, lists, taken := jobs, ready, held;
      jobs := jobs[job.id := job];
      held := held - {job.id};
      if job.status != Waiting {
        MakeReady(job.id);
        ListingIndexesExactly(lists, before, taken, job, ready);
      } else {
        PromoteIfReady(job.id);
        StoredWaiting(lists, before, taken, job, ready, jobs);
      }
    }

    /** Stores a job and, if it completed, wakes its dependents; the lists stay an index exactly when this fits. */
    method UpdateJob(job: JobData)
      requires Valid()
      modifies this
      ensures Contents() == Spec.Update(old(Contents()), job) && cronLocks == old(cronLocks)
      ensures Valid() <==> UpdateFits(old(ready), old(jobs), old(held), job)
    {
      UpdateIndexesExactly(ready, jobs, held, job);
      jobs := jobs[job.id := job];
      held := HeldAfter(held, job);
      if job.status == Completed {
        ghost var stored := jobs;
        PromoteDependents(job.id);
        CompletedStays(stored, Spec.Dependents(stored, job.id), job.id);
        CompletedFits(old(ready), old(jobs), old(held), job, ready, jobs, held);
      }
    }

    /** The loop of update_job over the jobs that name `finished`, in whatever order. */
    method PromoteDependents(finished: string)
      requires Sound()
      modifies `jobs, `ready
      ensures Sound() && KeepsListed(old(ready), ready) && (old(Valid()) ==> Valid())
      ensures jobs == Spec.Promote(old(jobs), Spec.Dependents(old(jobs), finished))
    {
      var dependents := set c | c in jobs && finished in jobs[c].dependsOn;
      ghost var seen: set<string> := {};
      ghost var before, lists, valid := jobs, ready, Valid();
      ghost var all := Spec.Dependents(before, finished);
      assert dependents == all;
      while dependents != {}
        invariant Sound() && KeepsListed(lists, ready) && (valid ==> Valid())
        invariant jobs == Spec.Promote(before, seen)
        invariant seen + dependents == all
        decreases dependents
      {
        var next :| next in dependents;
        Spec.PromoteInSteps(before, seen, next);
        PromoteIfReady(next);
        SeenGrows(seen, dependents, next);
        dependents, seen := dependents - {next}, seen + {next};
      }
      assert seen == all;
    }

    method CancelJob(id: string) returns (ok: bool)
      requires Valid()
      modifies `jobs, `ready
      ensures Valid() && (Contents(), ok) == Spec.CancelJob(old(Contents()), id)
      ensures ok <==> id in old(jobs) && old(jobs)[id].status in {Pending, Retrying, Waiting}
    {
      if id !in jobs || !Cancellable(jobs[id].status) {
        return false;
      }
      UnlistIndexes(ready, jobs, held, id);
      CancelledIsUnlisted(Unlist(ready, jobs[id].queue, id), jobs, held, id);
      jobs := jobs[id := jobs[id].(status := Cancelled)];
      if jobs[id].queue in ready && id in ready[jobs[id].queue] {
        ready := ready[jobs[id].queue := RemoveFirst(ready[jobs[id].queue], id)];
      }
      return true;
    }

    /** A cancelled job that a worker has taken and not looked at again is listed although it is taken. */
    method RetryJob(id: string) returns (ok: bool)
      requires Valid()
      modifies `jobs, `ready
      ensures (Contents(), ok) == Spec.RetryJob(old(Contents()), id)
      ensures ok <==> id in old(jobs) && old(jobs)[id].status in {Failed, Cancelled}
      ensures Valid() <==> !(ok && id in held)
      ensures ok ==> Listed(ready, jobs[id].queue, id)
    {
      if id !in jobs || !Retriable(jobs[id].status) {
        return false;
      }
      ghost var before, lists := jobs, ready;
      var job := jobs[id].ResetForReplay();
      jobs := jobs[id := job.(status := Pending)];
      MakeReady(id);
      ListingIndexesExactly(lists, before, held, jobs[id], ready);
      if id in held {
        ListedAndHeld(ready, jobs, held, id);
      } else {
        assert held - {id} == held;
      }
      return true;
    }

    /** get_job, update_job and enqueue in a row, as no other call comes in between. */
    method ReplayDeadJob(id: string) returns (ok: bool)
      requires Valid()
      modifies this
      ensures Valid() && (Contents(), ok) == Spec.ReplayDeadJob(old(Contents()), id)
      ensures cronLocks == old(cronLocks)
    {
      if id !in jobs || jobs[id].status != Dead {
        return false;
      }
      var job := jobs[id].ResetForReplay().(status := Pending);
      RestartIsUnlisted(ready, jobs, held, id);
      Spec.EnqueueIgnoresOwnRecord(Contents(), job, job);
      jobs := jobs[id := job];
      held := held + {id};
      UnlistedFits(jobs, held, job);
      Enqueue(job);
      return true;
    }

    /** `best` beats every candidate among the ids seen so far. */
    ghost predicate BestOf(queues: seq<string>, now: real, seen: set<string>, best: Option<JobData>)
      reads this
    {
      match best
      case None => forall c | c in seen :: !Spec.CanPop(Contents(), queues, now, c)
      case Some(j) =>
        && Spec.CanPop(Contents(), queues, now, j.id) && jobs[j.id] == j
        && forall c | c in seen && Spec.CanPop(Contents(), queues, now, c) :: c == j.id || CandidateLess(j, jobs[c])
    }

    /** Scans the ready lists of `queues`, and finds what the plain query over all jobs would find. */
    method PopRunnable(queues: seq<string>, now: real) returns (job: Option<JobData>)
      requires Valid()
      modifies `ready, `held
      ensures Valid()
      ensures job.None? ==> held == old(held) && forall id :: !Spec.CanPop(old(Contents()), queues, now, id)
      ensures job.Some? ==>
                && Spec.IsBest(old(Contents()), queues, now, job.value.id) && job.value == jobs[job.value.id]
                && Contents() == Spec.Claim(old(Contents()), job.value.id)
                && Spec.MostUrgent(old(Contents()), queues, now, job.value)
    {
      var best: Option<JobData> := None;
      ghost var seen: set<string> := {};
      var i := 0;
      while i < |queues|
        invariant 0 <= i <= |queues| && ready == old(ready) && held == old(held)
        invariant forall q, id | q in queues[..i] && Listed(ready, q, id) :: id in seen
        invariant BestOf(queues, now, seen, best)
      {
        var ids := ListOf(ready, queues[i]);
        var k := 0;
        while k < |ids|
          invariant 0 <= k <= |ids| && ready == old(ready) && held == old(held)
          invariant forall q, id | q in queues[..i] && Listed(ready, q, id) :: id in seen
          invariant forall id | id in ids[..k] :: id in seen
          invariant BestOf(queues, now, seen, best)
        {
          if ids[k] in jobs && jobs[ids[k]].Due(now) {
            var job := jobs[ids[k]];
            assert Listed(ready, queues[i], ids[k]) && Belongs(jobs, held, queues[i], ids[k]);
            if best.None? {
              best := Some(job);
            } else {
              CandidateOrder(best.value, job);
              if CandidateLess(job, best.value) {
                best := Some(job);
              }
            }
          }
          seen := seen + {ids[k]};
          k := k + 1;
        }
        assert ids[..k] == ids && queues[..i + 1] == queues[..i] + [queues[i]];
        i := i + 1;
      }
      assert queues[..i] == queues;
      forall id | Spec.CanPop(Contents(), queues, now, id)
        ensures id in seen
      {
        assert Belongs(jobs, held, jobs[id].queue, id);
      }
      if best.None? {
        return None;
      }
      UnlistIndexes(ready, jobs, held, best.value.id);
      var queue := best.value.queue;
      Spec.BestIsMostUrgent(Contents(), queues, now, best.value.id);
      assert Belongs(jobs, held, queue, best.value.id);
      ready := ready[queue := RemoveFirst(ready[queue], best.value.id)];
      held := held + {best.value.id};
      return best;
    }

    /** Polls once per clock reading until something is due. */
    method Dequeue(queues: seq<string>, clock: seq<real>) returns (job: Option<JobData>)
      requires Valid()
      modifies `ready, `held
      ensures Valid()
      ensures job.None? ==>
                held == old(held) && forall now, id | now in clock :: !Spec.CanPop(old(Contents()), queues, now, id)
      ensures job.Some? ==>
                && (exists now | now in clock ::
                      && Spec.IsBest(old(Contents()), queues, now, job.value.id)
                      && Spec.MostUrgent(old(Contents()), queues, now, job.value))
                && job.value == jobs[job.value.id] && Contents() == Spec.Claim(old(Contents()), job.value.id)
    {
      var i := 0;
      while i < |clock|
        invariant 0 <= i <= |clock| && Valid() && held == old(held)
        invariant forall now, id | now in clock[..i] :: !Spec.CanPop(Contents(), queues, now, id)
      {
        job := PopRunnable(queues, clock[i]);
        if job.Some? {
          assert job.value.status != Cancelled;
          return;
        }
        assert clock[..i + 1] == clock[..i] + [clock[i]];
        i := i + 1;
      }
      forall now, id | now in clock
        ensures !Spec.CanPop(old(Contents()), queues, now, id)
      {
        assert now in clock[..i] && Contents() == old(Contents());
      }
      return None;
    }

    method QueueStats() returns (stats: Statistics.Stats)
      requires Valid()
      ensures Statistics.CountsEveryJob(stats, jobs)
    {
      stats := map[];
      var todo := jobs.Keys;
      ghost var counted: JobMap := map[];
      while todo != {}
        invariant todo <= jobs.Keys && counted == jobs - todo
        invariant Statistics.CountsEveryJob(stats, counted)
        decreases todo
      {
        var id :| id in todo;
        Statistics.BumpCounts(stats, counted, jobs[id]);
        stats := Statistics.Bump(stats, jobs[id].queue, jobs[id].status);
        todo, counted := todo - {id}, counted[id := jobs[id]];
      }
      assert counted == jobs;
    }

    method AcquireCronLock(key: string, now: real, ttl: real) returns (won: bool)
      modifies `cronLocks
      ensures (cronLocks, won) == Cron.Acquire(old(cronLocks), key, now, ttl)
    {
      if key in cronLocks && cronLocks[key] > now {
        return false;
      }
      cronLocks := cronLocks[key := now + ttl];
      return true;
    }

    method Purge(wanted: set<Status>, cutoff: real, now: real) returns (removed: nat)
      requires Valid()
      modifies `jobs, `ready, `cronLocks
      ensures Valid() && Contents() == Spec.Purge(old(Contents()), wanted, cutoff)
      ensures removed == |Spec.Doomed(old(jobs), wanted, cutoff)|
      ensures cronLocks == Cron.DropExpired(old(cronLocks), now)
    {
      var doomed := set id | id in jobs && jobs[id].status in wanted && jobs[id].FinishedAt() <= cutoff;
      assert doomed == Spec.Doomed(jobs, wanted, cutoff);
      var todo := doomed;
      while todo != {}
        invariant todo <= doomed && jobs == old(jobs) - (doomed - todo)
        invariant Valid() && cronLocks == old(cronLocks)
        decreases todo
      {
        var id :| id in todo;
        Discard(id);
        todo := todo - {id};
      }
      cronLocks := Cron.DropExpired(cronLocks, now);
      return |doomed|;
    }

    /** Drops one job and its list entry. */
    method Discard(id: string)
      requires Valid() && id in jobs
      modifies `jobs, `ready
      ensures Valid() && jobs == old(jobs) - {id}
    {
      var queue := jobs[id].queue;
      UnlistIndexes(ready, jobs, held, id);
      PurgedIsUnlisted(Unlist(ready, queue, id), jobs, held, id);
      jobs := jobs - {id};
      if queue in ready && id in ready[queue] {
        ready := ready[queue := RemoveFirst(ready[queue], id)];
      }
    }
  }
}
