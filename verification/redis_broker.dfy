/** The Redis broker (src/aioq/backends/redis.py), call by call, each running to completion: record
    keys and index sets as fields, the pending and deferred keys in an object of their own. */
module RedisBroker {
  import opened Jobs
  import Spec = MemorySpec
  import opened RedisIndex
  import opened RedisLists
  import opened RedisStats
  import opened RedisCalls
  import opened RedisDue
  import RedisQueues
  import Statistics

  class Broker {
    var records: JobMap
    var expiry: map<string, real>
    var all: set<string>
    var byStatus: set<(Status, string)>
    var byQueue: set<(string, string)>
    var expiring: map<(string, string), real>
    var now: real
    /** Pairs (dependency, job waiting for it). */
    var dependents: set<(string, string)>
    const queues: RedisQueues.Queues

    constructor ()
      ensures queues.Valid() && fresh(queues) && Agreement(Contents()) && records == map[] && queues.flat == []
    {
      records, expiry, all, byStatus, byQueue, expiring, now := map[], map[], {}, {}, {}, map[], 0.0;
      dependents := {};
      queues := new RedisQueues.Queues();
    }

    function Contents(): Index
      reads `records, `expiry, `all, `byStatus, `byQueue, `expiring, `now
    {
      Index(records, expiry, all, byStatus, byQueue, expiring, now)
    }

    ghost function Database(): Db
      reads this, queues
    {
      Db(Contents(), queues.flat, queues.deferred, dependents)
    }

    method AllDepsCompleted(deps: seq<string>) returns (ok: bool)
      ensures ok == AllCompleted(records, deps)
    {
      var i := 0;
      while i < |deps|
        invariant 0 <= i <= |deps|
        invariant AllCompleted(records, deps[..i])
      {
        if deps[i] !in records || records[deps[i]].status != Completed {
          assert deps[i] in deps;
          return false;
        }
        i := i + 1;
      }
      assert deps[..i] == deps;
      return true;
    }

    /** The removals of the write pipeline: the id leaves the sets its old record names. */
    method LeaveOldSets(job: JobData)
      modifies `byStatus, `byQueue
      ensures byStatus == if job.id in records && records[job.id].status != job.status
                          then old(byStatus) - {(records[job.id].status, job.id)} else old(byStatus)
      ensures byQueue == if job.id in records && records[job.id].queue != job.queue
                         then old(byQueue) - {(records[job.id].queue, job.id)} else old(byQueue)
    {
      if job.id in records {
        var previous := records[job.id];
        if previous.status != job.status {
          byStatus := byStatus - {(previous.status, job.id)};
        }
        if previous.queue != job.queue {
          byQueue := byQueue - {(previous.queue, job.id)};
        }
      }
    }

    /** The part of the write pipeline that stores the record and fixes up its index entries. */
    method StoreRecord(job: JobData)
      modifies `records, `expiry, `all, `byStatus, `byQueue, `expiring
      ensures Contents() == Write(old(Contents()), job)
    {
      LeaveOldSets(job);
      records, expiry := records[job.id := job], expiry - {job.id};
      all := all + {job.id};
      byStatus := byStatus + {(job.status, job.id)};
      byQueue := byQueue + {(job.queue, job.id)};
      SetDeadline(job);
    }

    /** A saved result is not kept for ever. */
    method SetDeadline(job: JobData)
      modifies `expiry, `expiring
      ensures if KeepsResult(job)
              then
                && expiry == old(expiry)[job.id := now + job.resultTtl as real]
                && expiring == old(expiring)[(job.id, job.queue) := now + job.resultTtl as real]
              else
                expiry == old(expiry) && expiring == old(expiring)
    {
      if job.status == Completed && job.saveResult && job.resultTtl > 0 {
        expiry := expiry[job.id := now + job.resultTtl as real];
        expiring := expiring[(job.id, job.queue) := now + job.resultTtl as real];
      }
    }

    method WriteJob(job: JobData, push: bool)
      requires queues.Valid()
      modifies `records, `expiry, `all, `byStatus, `byQueue, `expiring, queues
      ensures queues.Valid() && Contents() == Write(old(Contents()), job)
      ensures (queues.flat, queues.deferred)
           == if push && job.status != Waiting
              then Queued(old(queues.flat), old(queues.deferred), job.id,
                          KeyOf(job.queue, job.priority), job.runAt, now)
              else (old(queues.flat), old(queues.deferred))
    {
      StoreRecord(job);
      if push && job.status != Waiting {
        queues.Push(job.id, job.queue, job.priority, job.runAt, now);
      }
    }

    method PromoteIfReady(id: string)
      requires queues.Valid()
      modifies `records, `expiry, `byStatus, queues
      ensures queues.Valid() && Contents() == PromoteIn(old(Contents()), id)
      ensures queues.deferred == old(queues.deferred)
      ensures queues.flat == old(queues.flat) + Wakes(old(records), id)
    {
      if id !in records || records[id].status != Waiting {
        return;
      }
      var ok := AllDepsCompleted(records[id].dependsOn);
      if !ok {
        return;
      }
      var job := records[id].(status := Pending);
      byStatus := byStatus - {(Waiting, id)};
      byStatus := byStatus + {(Pending, id)};
      records, expiry := records[id := job], expiry - {id};
      queues.Push(id, job.queue, job.priority, None, now);
    }

    /** Registers a job with each of its dependencies. */
    method Register(id: string, deps: seq<string>)
      modifies `dependents
      ensures dependents == old(dependents) + set d | d in deps :: (d, id)
    {
      var i := 0;
      while i < |deps|
        invariant 0 <= i <= |deps|
        invariant dependents == old(dependents) + set d | d in deps[..i] :: (d, id)
      {
        dependents := dependents + {(deps[i], id)};
        assert deps[..i + 1] == deps[..i] + [deps[i]];
        i := i + 1;
      }
      assert deps[..i] == deps;
    }

    /** The records change as the job table of the in-process broker does. */
    method Enqueue(job: JobData)
      requires queues.Valid()
      modifies this, queues
      ensures queues.Valid()
      ensures records == Spec.Enqueue(Spec.Store(old(records), {}), job).jobs
      ensures Agreement(old(Contents())) && Renews(old(Contents()), Spec.CheckDependencies(old(records), job)) ==>
                Agreement(Contents())
      ensures var job' := Spec.CheckDependencies(old(records), job);
              && Contents() == Stored(old(Contents()), job')
              && (queues.flat, queues.deferred)
                 == Enqueued(old(Contents()), old(queues.flat), old(queues.deferred), job')
      ensures dependents == old(dependents) + set d | d in job.dependsOn :: (d, job.id)
      ensures Steps(old(Database()), Call.Enqueue(job), Database())
      ensures KeepsDueExactly(old(Database()), Call.Enqueue(job), Database())
    {
      ghost var before := Database();
      Register(job.id, job.dependsOn);
      var job' := job;
      if job.dependsOn != [] {
        var ok := AllDepsCompleted(job.dependsOn);
        if !ok {
          job' := job'.(status := Waiting);
        }
      }
      EnqueueAgrees(Contents(), job);
      StoreChecked(job');
      StepIsExact(before, Call.Enqueue(job), Database());
    }

    /** The write, and the second look at a job that waits. */
    method StoreChecked(job: JobData)
      requires queues.Valid()
      modifies `records, `expiry, `all, `byStatus, `byQueue, `expiring, queues
      ensures queues.Valid() && Contents() == Stored(old(Contents()), job)
      ensures (queues.flat, queues.deferred)
           == Enqueued(old(Contents()), old(queues.flat), old(queues.deferred), job)
    {
      WriteJob(job, true);
      if job.status == Waiting {
        PromoteIfReady(job.id);
      }
    }

    method UpdateJob(job: JobData) returns (ghost pushed: seq<string>)
      requires queues.Valid()
      modifies `records, `expiry, `all, `byStatus, `byQueue, `expiring, queues
      ensures queues.Valid() && records == Woken(old(records), job, dependents)
      ensures Contents() == Updated(old(Contents()), job, dependents)
      ensures Agreement(old(Contents())) && Renews(old(Contents()), job) ==> Agreement(Contents())
      ensures queues.deferred == old(queues.deferred)
      ensures forall id :: id in pushed <==> id in records && records[id] != old(records)[job.id := job][id]
      ensures job.status != Completed ==> pushed == []
      ensures (forall i, k | 0 <= i < k < |pushed| :: pushed[i] != pushed[k])
           && queues.flat == old(queues.flat) + Pushes(records, pushed)
      ensures Steps(old(Database()), Call.Update(job, pushed), Database())
      ensures KeepsDueExactly(old(Database()), Call.Update(job, pushed), Database())
    {
      ghost var before := Database();
      pushed := StoreAndWake(job);
      UpdateIsStep(before, job, pushed, Database());
      UpdateShows(before, job, pushed, Database());
      StepIsExact(before, Call.Update(job, pushed), Database());
    }

    /** The write without a push, and the promotions after a completion. */
    method StoreAndWake(job: JobData) returns (ghost pushed: seq<string>)
      requires queues.Valid()
      modifies `records, `expiry, `all, `byStatus, `byQueue, `expiring, queues
      ensures queues.Valid() && Contents() == Updated(old(Contents()), job, dependents)
      ensures Agreement(old(Contents())) && Renews(old(Contents()), job) ==> Agreement(Contents())
      ensures PushedOnce(old(records)[job.id := job], LooksAt(old(Database()), job), pushed)
      ensures queues.deferred == old(queues.deferred)
      ensures queues.flat == old(queues.flat) + Pushes(old(records)[job.id := job], pushed)
    {
      ghost var agreed := Agreement(Contents()) && Renews(Contents(), job);
      if agreed {
        WriteAgreesExactly(Contents(), job);
      }
      WriteJob(job, false);
      pushed := [];
      if job.status == Completed {
        pushed := PromoteRegistered(job.id);
      }
    }

    /** The loop of update_job over the registered dependents, in whatever order. */
    method PromoteRegistered(finished: string) returns (ghost pushed: seq<string>)
      requires queues.Valid()
      modifies `records, `expiry, `byStatus, queues
      ensures queues.Valid() && Contents() == PromoteAllIn(old(Contents()), Registered(dependents, finished))
      ensures Agreement(old(Contents())) ==> Agreement(Contents())
      ensures queues.deferred == old(queues.deferred)
      ensures PushedOnce(old(records), Registered(dependents, finished), pushed)
      ensures queues.flat == old(queues.flat) + Pushes(old(records), pushed)
    {
      var todo := Registered(dependents, finished);
      ghost var seen: set<string> := {};
      ghost var ix, before, flat := Contents(), records, queues.flat;
      pushed := [];
      NobodyWoken(before, flat);
      PromoteNoneIn(ix);
      while todo != {}
        invariant queues.Valid() && queues.deferred == old(queues.deferred)
        invariant Agreement(old(Contents())) ==> Agreement(Contents())
        invariant seen + todo == Registered(dependents, finished) && seen !! todo
        invariant WokenSoFar(before, flat, seen, pushed, records, queues.flat)
        invariant Contents() == PromoteAllIn(ix, seen)
        decreases todo
      {
        var next :| next in todo;
        PromoteNextIn(ix, seen, next);
        WokenNext(before, flat, seen, pushed, Contents(), queues.flat, next);
        PromoteIfReady(next);
        pushed := if Spec.Overdue(before, next) then pushed + [next] else pushed;
        todo, seen := todo - {next}, seen + {next};
      }
      assert seen == Registered(dependents, finished);
    }

    /** The id stays in its pending list. */
    method CancelJob(id: string) returns (ok: bool)
      requires queues.Valid() && Agreement(Contents())
      modifies `records, `expiry, `all, `byStatus, `byQueue, `expiring, queues
      ensures queues.Valid() && Agreement(Contents())
      ensures var (store, done) := Spec.CancelJob(Spec.Store(old(records), {}), id);
              records == store.jobs && ok == done
      ensures ok <==> id in old(records) && old(records)[id].status in {Pending, Retrying, Waiting}
      ensures Contents() == if ok then Write(old(Contents()), records[id]) else old(Contents())
      ensures queues.flat == old(queues.flat) && queues.deferred == old(queues.deferred)
      ensures ok ==> Steps(old(Database()), Call.Cancel(id), Database())
      ensures OnlyDueIn(old(Database())) ==> OnlyDueIn(Database())
    {
      if id !in records || !Cancellable(records[id].status) {
        return false;
      }
      ghost var before := Database();
      AgreementIsSane(before, queues.pending);
      var job := records[id].(status := Cancelled);
      UnfinishedRenews(Contents(), job);
      ghost var pushed := UpdateJob(job);
      StepIsExact(before, Call.Cancel(id), Database());
      return true;
    }

    /** The id is pushed again, even if its list still has it. */
    method RetryJob(id: string) returns (ok: bool)
      requires queues.Valid() && Agreement(Contents())
      modifies `records, `expiry, `all, `byStatus, `byQueue, `expiring, queues
      ensures queues.Valid() && Agreement(Contents())
      ensures var (store, done) := Spec.RetryJob(Spec.Store(old(records), {}), id);
              records == store.jobs && ok == done
      ensures ok <==> id in old(records) && old(records)[id].status in {Failed, Cancelled}
      ensures Contents() == if ok then Write(old(Contents()), records[id]) else old(Contents())
      ensures queues.deferred == old(queues.deferred)
      ensures queues.flat == if ok then old(queues.flat) + [Arrival(id, KeyOf(records[id].queue, records[id].priority))]
                             else old(queues.flat)
      ensures ok ==> Steps(old(Database()), Call.Retry(id), Database())
      ensures OnlyDueIn(old(Database())) ==> OnlyDueIn(Database())
    {
      if id !in records || !Retriable(records[id].status) {
        return false;
      }
      ghost var before := Database();
      AgreementIsSane(before, queues.pending);
      var job := records[id].ResetForReplay().(status := Pending);
      UnfinishedRenews(Contents(), job);
      WriteAgreesExactly(Contents(), job);
      WriteJob(job, true);
      StepIsExact(before, Call.Retry(id), Database());
      return true;
    }

    /** An update and an enqueue in a row: the job arrives in the flat queue unless it has to wait. */
    method ReplayDeadJob(id: string) returns (ok: bool)
      requires queues.Valid() && Agreement(Contents())
      modifies this, queues
      ensures queues.Valid() && Agreement(Contents())
      ensures var (store, done) := Spec.ReplayDeadJob(Spec.Store(old(records), {}), id);
              records == store.jobs && ok == done
      ensures queues.deferred == old(queues.deferred)
      ensures queues.flat == if ok && records[id].status != Waiting
                             then old(queues.flat) + [Arrival(id, KeyOf(records[id].queue, records[id].priority))]
                             else old(queues.flat)
      ensures Contents() == if ok then Write(Write(old(Contents()), records[id].(status := Pending)), records[id])
                            else old(Contents())
      ensures dependents == old(dependents) + if ok then set d | d in records[id].dependsOn :: (d, id) else {}
      ensures ok ==> Steps(old(Database()), Call.Replay(id), Database())
      ensures OnlyDueIn(old(Database())) ==> OnlyDueIn(Database())
    {
      if id !in records || records[id].status != Dead {
        return false;
      }
      ghost var before := Database();
      AgreementIsSane(before, queues.pending);
      var job := records[id].ResetForReplay().(status := Pending);
      Restart(job);
      ReplayIs(before, id, Database());
      StepIsExact(before, Call.Replay(id), Database());
      return true;
    }

    /** The two writes of a replay. */
    method Restart(job: JobData)
      requires queues.Valid() && Agreement(Contents())
      requires job.id in records && records[job.id].status == Dead && job == Spec.Restarted(records[job.id])
      modifies this, queues
      ensures queues.Valid() && Agreement(Contents())
      ensures Steps(old(Database()), Call.Replay(job.id), Database())
    {
      ghost var before := Database();
      ghost var pushed := UpdateJob(job);
      ghost var between := Database();
      Enqueue(job);
      RestartIs(before, job, pushed, between, Database());
    }

    method ForgetJob(id: string, queue: Option<string>, st: Option<Status>)
      modifies `records, `expiry, `all, `byStatus, `byQueue, `dependents
      ensures Contents() == Forget(old(Contents()), id, queue, st)
      ensures dependents == set p | p in old(dependents) && p.0 != id
    {
      records, expiry := records - {id}, expiry - {id};
      dependents := set p | p in dependents && p.0 != id;
      all := all - {id};
      if queue.Some? {
        byQueue := byQueue - {(queue.value, id)};
      }
      if st.Some? {
        byStatus := byStatus - {(st.value, id)};
      } else {
        byStatus := set p | p in byStatus && p.1 != id;
      }
    }

    /** Promotes what is due, pops the next id and reads its record; an id whose record is gone is
        cleared from the status sets. */
    method Dequeue(names: seq<string>)
      returns (job: Option<JobData>, ghost popped: Option<string>, ghost keys: seq<Key>)
      requires queues.Valid() && Agreement(Contents())
      modifies this, queues
      ensures queues.Valid() && Agreement(Contents()) && records == old(records)
      ensures forall k :: k in keys <==> k.queue in names && k.tier in TIERS
      ensures DueLeave(keys, now, old(queues.deferred), queues.deferred)
      ensures TakesNext(old(queues.flat) + Moved(old(queues.deferred), keys, now), names, popped, queues.flat)
      ensures job == if popped.Some? && popped.value in records then Some(records[popped.value]) else None
      ensures Contents() == if popped.Some? && job.None? then Forget(old(Contents()), popped.value, None, None)
                            else old(Contents())
      ensures dependents == if popped.Some? && job.None? then set p | p in old(dependents) && p.0 != popped.value
                            else old(dependents)
      ensures Steps(old(Database()), Call.Dequeue(names, keys, popped), Database())
      ensures job == Returned(old(Database()), Call.Dequeue(names, keys, popped))
      ensures OnlyDueIn(old(Database())) ==> OnlyDueIn(Database()) && (job.Some? ==> job.value.Due(now))
    {
      ghost var before := Database();
      AgreementIsSane(before, queues.pending);
      var id;
      id, keys := queues.Take(names, now);
      DequeueIsExact(before, names, keys, id, queues.flat, queues.deferred);
      popped := id;
      if id.None? {
        return None, popped, keys;
      }
      if id.value !in records {
        ForgetAgrees(Contents(), id.value, None, None);
        ForgetJob(id.value, None, None);
        return None, popped, keys;
      }
      return Some(records[id.value]), popped, keys;
    }

    /** Time passes: Redis drops the records whose deadline is reached. */
    method Advance(to: real)
      requires Agreement(Contents()) && now <= to
      modifies `records, `expiry, `now
      ensures Agreement(Contents()) && Contents() == Tick(old(Contents()), to)
      ensures Steps(old(Database()), Call.Advance(to), Database())
      ensures OnlyDueIn(old(Database())) ==> OnlyDueIn(Database())
    {
      ghost var before := Database();
      TickAgrees(before.ix, to);
      AdvanceIsExact(before, to);
      var gone := set id | id in expiry && expiry[id] <= to;
      records, expiry, now := records - gone, expiry - gone, to;
      assert Contents() == Tick(before.ix, to);
    }

    /** Clears what is still listed for expired records; no live record is touched. */
    method ReapExpired()
      requires Agreement(Contents())
      modifies `records, `expiry, `all, `byStatus, `byQueue, `expiring, `dependents
      ensures Agreement(Contents()) && NothingLapsed(Contents()) && Exact(Contents())
      ensures records == old(records) && expiring == old(expiring) - Due(old(Contents()))
      ensures KeepsDependents(old(dependents), dependents, records)
    {
      var due := set m | m in expiring && expiring[m] <= now;
      ghost var seen: set<(string, string)> := {};
      var todo := due;
      while todo != {}
        invariant Agreement(Contents()) && records == old(records) && expiring == old(expiring)
        invariant due == Due(Contents()) && seen + todo == due && Cleared(Contents(), seen)
        invariant KeepsDependents(old(dependents), dependents, records)
        decreases todo
      {
        var member :| member in todo;
        DueIsGone(Contents(), member);
        ClearNext(Contents(), seen, member);
        ForgetJob(member.0, Some(member.1), Some(Completed));
        todo, seen := todo - {member}, seen + {member};
      }
      assert seen == due;
      ReapedIsTidy(Contents());
      expiring := expiring - due;
      TidyIsExact(Contents());
    }

    method QueueStats() returns (stats: Statistics.Stats)
      requires Agreement(Contents())
      modifies `records, `expiry, `all, `byStatus, `byQueue, `expiring, `dependents
      ensures Agreement(Contents()) && records == old(records)
      ensures Statistics.CountsEveryJob(stats, records)
      ensures KeepsDependents(old(dependents), dependents, records)
    {
      ReapExpired();
      var names := QueueNames(Contents());
      var counts := PipelineCounts(Contents(), names);
      stats := SliceCounts(Contents(), names, counts);
      StatsCount(stats, names, Contents());
    }

    /** Scans one status set after the other and deletes the jobs that finished by the cutoff. */
    method Purge(statuses: seq<Status>, cutoff: real) returns (removed: nat)
      requires Agreement(Contents())
      modifies `records, `expiry, `all, `byStatus, `byQueue, `expiring, `dependents
      ensures Agreement(Contents()) && Purged(old(records), AsSet(statuses), cutoff, records, removed)
      ensures KeepsDependents(old(dependents), dependents, records)
    {
      ReapExpired();
      removed := 0;
      ghost var before := records;
      var i := 0;
      NothingPurged(before, cutoff);
      while i < |statuses|
        invariant 0 <= i <= |statuses| && Agreement(Contents())
        invariant Purged(before, AsSet(statuses[..i]), cutoff, records, removed)
        invariant KeepsDependents(old(dependents), dependents, records)
      {
        ghost var between := records;
        var n := PurgeStatus(statuses[i], cutoff);
        PurgedNext(before, statuses, i, cutoff, between, removed, records, n);
        removed := removed + n;
        i := i + 1;
      }
      assert statuses[..i] == statuses;
    }

    method PurgeStatus(st: Status, cutoff: real) returns (removed: nat)
      requires Agreement(Contents())
      modifies `records, `expiry, `all, `byStatus, `byQueue, `dependents
      ensures Agreement(Contents()) && Purged(old(records), {st}, cutoff, records, removed)
      ensures KeepsDependents(old(dependents), dependents, records)
    {
      var ids := StatusIds(Contents(), st);
      ghost var before, gone: set<string> := records, {};
      AllListed(Contents(), st);
      removed := 0;
      while ids != {}
        invariant Agreement(Contents()) && PurgedBut(before, st, cutoff, ids, gone, records, removed)
        invariant KeepsDependents(old(dependents), dependents, records)
        decreases ids
      {
        var id :| id in ids;
        PurgedStep(before, st, cutoff, ids, gone, records, removed, id);
        if id in records && records[id].FinishedAt() <= cutoff {
          ForgetAgrees(Contents(), id, Some(records[id].queue), Some(records[id].status));
          ForgetJob(id, Some(records[id].queue), Some(records[id].status));
          removed, gone := removed + 1, gone + {id};
        }
        ids := ids - {id};
      }
      assert gone == Spec.Doomed(before, {st}, cutoff);
    }
  }

  /** Only dependents of jobs without a record were dropped. */
  ghost predicate KeepsDependents(before: set<(string, string)>, after: set<(string, string)>, records: JobMap) {
    after <= before && forall p | p in before && p.0 in records :: p in after
  }

  /** A job that waits after the check is not overdue once it is stored. */
  lemma WaitingIsNotOverdue(records: JobMap, j: JobData)
    requires j.status == Pending && (j.id in records ==> records[j.id].status != Completed)
    ensures var j' := Spec.CheckDependencies(records, j); !Spec.Overdue(records[j.id := j'], j.id)
  {
  }

  /** What a replay's write followed by an enqueue comes to. */
  lemma ReplayStores(ix: Index, flat: Flat, sets: SortedSets, j: JobData)
    requires Agreement(ix) && j.id in ix.records && ix.records[j.id].status == Dead
    requires j.status == Pending && j.runAt.None?
    ensures Renews(ix, j)
    ensures var ix1 := Write(ix, j);
            var j' := Spec.CheckDependencies(ix1.records, j);
            && Agreement(ix1) && Renews(ix1, j') && Stored(ix1, j') == Write(ix1, j')
            && Enqueued(ix1, flat, sets, j')
               == (if j'.status == Waiting then flat else flat + [Arrival(j.id, KeyOf(j.queue, j.priority))], sets)
            && Spec.Enqueue(Spec.Store(ix1.records, {}), j).jobs == Spec.Enqueue(Spec.Store(ix.records, {}), j).jobs
  {
    UnfinishedRenews(ix, j);
    WriteAgreesExactly(ix, j);
    var ix1 := Write(ix, j);
    UnfinishedRenews(ix1, Spec.CheckDependencies(ix1.records, j));
    WaitingIsNotOverdue(ix1.records, j);
    assert flat + [] == flat;
    Spec.EnqueueIgnoresOwnRecord(Spec.Store(ix.records, {}), j, j);
    EnqueueIgnoresHeld(ix1.records, j);
  }

  lemma PushedAmong(records: JobMap, seen: set<string>, pushed: seq<string>)
    requires PushedOnce(records, seen, pushed)
    ensures pushed != [] ==> seen != {}
  {
    assert pushed != [] ==> pushed[0] in pushed;
  }

  /** An update and an enqueue of a restarted job make a replay. */
  lemma RestartIs(d: Db, job: JobData, pushed: seq<string>, between: Db, d': Db)
    requires Agreement(d.ix) && job.id in d.ix.records && d.ix.records[job.id].status == Dead
    requires job == Spec.Restarted(d.ix.records[job.id])
    requires UpdateStep(d, job, pushed, between) && EnqueueStep(between, job, d')
    ensures Steps(d, Call.Replay(job.id), d') && Agreement(d'.ix)
  {
    ReplayStores(d.ix, d.flat, d.sets, job);
    EnqueueAgrees(Write(d.ix, job), job);
    PushedAmong(d.ix.records[job.id := job], LooksAt(d, job), pushed);
    assert between.flat == d.flat;
  }

  /** What an update changes in the records. */
  lemma UpdateShows(d: Db, job: JobData, pushed: seq<string>, d': Db)
    requires UpdateStep(d, job, pushed, d')
    ensures d'.ix.records == Woken(d.ix.records, job, d.dependents)
    ensures forall id :: id in pushed <==> id in d'.ix.records && d'.ix.records[id] != d.ix.records[job.id := job][id]
    ensures (job.status != Completed ==> pushed == []) && forall i, k | 0 <= i < k < |pushed| :: pushed[i] != pushed[k]
    ensures d'.flat == d.flat + Pushes(d'.ix.records, pushed)
  {
    PushedAmong(d.ix.records[job.id := job], LooksAt(d, job), pushed);
    SamePushes(d.ix.records[job.id := job], d'.ix.records, pushed);
  }

  /** What a replay leaves, in the terms of the in-process broker. */
  lemma ReplayIs(d: Db, id: string, d': Db)
    requires Agreement(d.ix) && Steps(d, Call.Replay(id), d')
    ensures d'.ix.records == Spec.ReplayDeadJob(Spec.Store(d.ix.records, {}), id).0.jobs
    ensures id in d'.ix.records && d'.sets == d.sets
    ensures var j := d'.ix.records[id];
            && d'.flat == (if j.status == Waiting then d.flat else d.flat + [Arrival(id, KeyOf(j.queue, j.priority))])
            && d'.ix == Write(Write(d.ix, j.(status := Pending)), j)
            && d'.dependents == d.dependents + set x | x in j.dependsOn :: (x, id)
  {
    var j := Spec.Restarted(d.ix.records[id]);
    var ix1 := Write(d.ix, j);
    ReplayStores(d.ix, d.flat, d.sets, j);
    EnqueueAgrees(ix1, j);
    assert d'.ix.records[id] == Spec.CheckDependencies(ix1.records, j);
  }

  lemma EnqueueIgnoresHeld(records: JobMap, j: JobData)
    ensures Spec.Enqueue(Spec.Store(records, {} + {j.id}), j).jobs == Spec.Enqueue(Spec.Store(records, {}), j).jobs
  {
  }

  function AsSet(statuses: seq<Status>): set<Status> {
    set st | st in statuses
  }

  /** SMEMBERS of a status set. */
  function StatusIds(ix: Index, st: Status): set<string> {
    set p | p in ix.byStatus && p.0 == st :: p.1
  }

  /** Exactly the finished jobs of the wanted statuses are gone, and they were counted. */
  ghost predicate Purged(before: JobMap, wanted: set<Status>, cutoff: real, records: JobMap, removed: nat) {
    var doomed := Spec.Doomed(before, wanted, cutoff);
    records == before - doomed && removed == |doomed|
  }

  /** A purge of one status with the ids in `rest` still to look at. */
  ghost predicate PurgedBut(before: JobMap, st: Status, cutoff: real, rest: set<string>, gone: set<string>,
                            records: JobMap, removed: nat) {
    && gone <= Spec.Doomed(before, {st}, cutoff) <= gone + rest
    && records == before - gone && removed == |gone|
    && forall id | id in rest && id in before :: before[id].status == st
  }

  lemma NothingPurged(before: JobMap, cutoff: real)
    ensures Purged(before, AsSet([]), cutoff, before, 0)
  {
    assert Spec.Doomed(before, AsSet([]), cutoff) == {};
  }

  lemma PurgedNext(before: JobMap, statuses: seq<Status>, i: nat, cutoff: real, between: JobMap, removed: nat,
                   records: JobMap, n: nat)
    requires i < |statuses| && Purged(before, AsSet(statuses[..i]), cutoff, between, removed)
    requires Purged(between, {statuses[i]}, cutoff, records, n)
    ensures Purged(before, AsSet(statuses[..i + 1]), cutoff, records, removed + n)
  {
    assert AsSet(statuses[..i + 1]) == AsSet(statuses[..i]) + {statuses[i]};
    DoomedNext(before, AsSet(statuses[..i]), statuses[i], cutoff);
    DropTwice(before, Spec.Doomed(before, AsSet(statuses[..i]), cutoff), Spec.Doomed(between, {statuses[i]}, cutoff));
  }

  lemma DoomedNext(before: JobMap, wanted: set<Status>, st: Status, cutoff: real)
    ensures var gone := Spec.Doomed(before, wanted, cutoff);
            var more := Spec.Doomed(before - gone, {st}, cutoff);
            Spec.Doomed(before, wanted + {st}, cutoff) == gone + more && gone !! more
  {
    var gone := Spec.Doomed(before, wanted, cutoff);
    forall id
      ensures id in Spec.Doomed(before, wanted + {st}, cutoff)
              <==> id in gone || id in Spec.Doomed(before - gone, {st}, cutoff)
    {
    }
  }

  lemma DropTwice(jobs: JobMap, a: set<string>, b: set<string>)
    ensures jobs - a - b == jobs - (a + b)
  {
  }

  lemma PurgedStep(before: JobMap, st: Status, cutoff: real, rest: set<string>, gone: set<string>, records: JobMap,
                   removed: nat, id: string)
    requires PurgedBut(before, st, cutoff, rest, gone, records, removed) && id in rest
    ensures id in records ==> id !in gone && records[id] == before[id]
    ensures if id in records && records[id].FinishedAt() <= cutoff
            then PurgedBut(before, st, cutoff, rest - {id}, gone + {id}, records - {id}, removed + 1)
            else PurgedBut(before, st, cutoff, rest - {id}, gone, records, removed)
  {
    DropTwice(before, gone, {id});
  }

  lemma AllListed(ix: Index, st: Status)
    requires Agreement(ix)
    ensures forall cutoff :: PurgedBut(ix.records, st, cutoff, StatusIds(ix, st), {}, ix.records, 0)
  {
    forall id | id in ix.records
      ensures id in StatusIds(ix, st) <==> ix.records[id].status == st
    {
      assert LiveListed(ix, id);
      assert ix.records[id].status == st ==> (st, id).1 in StatusIds(ix, st);
    }
  }
}
