/** What the calls of the Redis broker (src/aioq/backends/redis.py) do to the records with their indexes, the flat
    queue and the deferred sets, as functions on these values. */
module RedisCalls {
  import opened Jobs
  import Spec = MemorySpec
  import opened RedisIndex
  import opened RedisLists

  /** What an update wakes: the registered dependents of a completed job. */
  function Woken(records: JobMap, j: JobData, dependents: set<(string, string)>): JobMap {
    var records' := records[j.id := j];
    if j.status == Completed then Spec.Promote(records', Registered(dependents, j.id)) else records'
  }

  function Registered(dependents: set<(string, string)>, id: string): set<string> {
    set p | p in dependents && p.0 == id :: p.1
  }

  /** The arrival a promotion adds, if the job is overdue. */
  function Wakes(records: JobMap, id: string): Flat {
    if Spec.Overdue(records, id) then [Arrival(id, KeyOf(records[id].queue, records[id].priority))] else []
  }

  /** The arrivals of several promoted jobs, in the order they were pushed. */
  function Pushes(records: JobMap, ids: seq<string>): Flat
    requires forall id | id in ids :: id in records
  {
    seq(|ids|, i requires 0 <= i < |ids| => Arrival(ids[i], KeyOf(records[ids[i]].queue, records[ids[i]].priority)))
  }

  lemma PushesNext(records: JobMap, ids: seq<string>, id: string)
    requires id in records && forall c | c in ids :: c in records
    ensures forall c | c in ids + [id] :: c in records
    ensures var j := records[id];
            Pushes(records, ids + [id]) == Pushes(records, ids) + [Arrival(id, KeyOf(j.queue, j.priority))]
  {
  }

  /** Every waiting job is registered with each of its dependencies. */
  ghost predicate AllRegistered(records: JobMap, dependents: set<(string, string)>) {
    forall c, d | c in records && records[c].status == Waiting && d in records[c].dependsOn :: (d, c) in dependents
  }

  /** With every waiting job registered, an update does to the records what it does to the job table of
      the in-process broker. */
  lemma UpdateAsInMemory(records: JobMap, j: JobData, dependents: set<(string, string)>)
    requires Spec.WakeClosed(records) && AllRegistered(records, dependents) && j.status != Waiting
    ensures Woken(records, j, dependents) == Spec.Update(Spec.Store(records, {}), j).jobs
    ensures AllRegistered(Woken(records, j, dependents), dependents)
  {
    var records' := records[j.id := j];
    forall id | Spec.Overdue(records', id)
      ensures id in Spec.Dependents(records', j.id)
      ensures id in Registered(dependents, j.id)
    {
      assert !Spec.Overdue(records, id);
      assert j.id in records[id].dependsOn;
      assert (j.id, id) in dependents;
    }
  }

  lemma EnqueueKeepsRegistered(records: JobMap, j: JobData, dependents: set<(string, string)>)
    requires AllRegistered(records, dependents)
    ensures var dependents' := dependents + set d | d in j.dependsOn :: (d, j.id);
            AllRegistered(Spec.Enqueue(Spec.Store(records, {}), j).jobs, dependents')
  {
  }

  /** The flat queue and the deferred sets once a checked job is written and looked at again: a job due later
      joins its deferred set, any other that does not wait arrives in the flat queue. */
  function Enqueued(ix: Index, flat: Flat, sets: SortedSets, j: JobData): (Flat, SortedSets) {
    if j.status == Waiting then (flat + Wakes(ix.records[j.id := j], j.id), sets)
    else Queued(flat, sets, j.id, KeyOf(j.queue, j.priority), j.runAt, ix.now)
  }

  /** The index after an update: the write, and the promotions that a completion leads to. */
  function Updated(ix: Index, j: JobData, dependents: set<(string, string)>): Index {
    if j.status == Completed then PromoteAllIn(Write(ix, j), Registered(dependents, j.id)) else Write(ix, j)
  }

  /** The records and the flat queue once the jobs in `seen` were looked at; `pushed` lists the woken
      ones, once each. */
  ghost predicate WokenSoFar(before: JobMap, flat: Flat, seen: set<string>, pushed: seq<string>, records: JobMap,
                             flat': Flat) {
    && records == Spec.Promote(before, seen) && PushedOnce(before, seen, pushed)
    && flat' == flat + Pushes(before, pushed)
  }

  lemma NobodyWoken(before: JobMap, flat: Flat)
    ensures WokenSoFar(before, flat, {}, [], before, flat)
  {
    assert flat + Pushes(before, []) == flat;
  }

  lemma WokenNext(before: JobMap, flat: Flat, seen: set<string>, pushed: seq<string>, ix: Index, flat': Flat,
                  next: string)
    requires WokenSoFar(before, flat, seen, pushed, ix.records, flat') && next !in seen
    ensures WokenSoFar(before, flat, seen + {next}, if Spec.Overdue(before, next) then pushed + [next] else pushed,
                       PromoteIn(ix, next).records, flat' + Wakes(ix.records, next))
    ensures Agreement(ix) ==> Agreement(PromoteIn(ix, next))
  {
    Spec.PromoteInSteps(before, seen, next);
    PromoteInRecords(ix, next);
    if Agreement(ix) {
      PromoteAgrees(ix, next);
    }
    NextWake(before, seen, pushed, next);
    ConcatIsAssociative(flat, Pushes(before, pushed), Wakes(before, next));
  }

  /** The index once a checked job is written and looked at again. */
  function Stored(ix: Index, j: JobData): Index {
    if j.status == Waiting then PromoteIn(Write(ix, j), j.id) else Write(ix, j)
  }

  lemma EnqueueAgrees(ix: Index, j: JobData)
    ensures var j' := Spec.CheckDependencies(ix.records, j);
            && Stored(ix, j').records == Spec.Enqueue(Spec.Store(ix.records, {}), j).jobs
            && (Agreement(ix) && Renews(ix, j') ==> Agreement(Stored(ix, j')))
  {
    var j' := Spec.CheckDependencies(ix.records, j);
    PromoteInRecords(Write(ix, j'), j'.id);
    if Agreement(ix) && Renews(ix, j') {
      WriteAgreesExactly(ix, j');
      PromoteAgrees(Write(ix, j'), j'.id);
    }
  }

  /** `pushed` lists, once each, the overdue jobs among those seen. */
  ghost predicate PushedOnce(records: JobMap, seen: set<string>, pushed: seq<string>) {
    && (forall id :: id in pushed <==> id in seen && Spec.Overdue(records, id))
    && (forall i, k | 0 <= i < k < |pushed| :: pushed[i] != pushed[k])
  }

  lemma NextWake(records: JobMap, seen: set<string>, pushed: seq<string>, next: string)
    requires PushedOnce(records, seen, pushed) && next !in seen
    ensures Wakes(Spec.Promote(records, seen), next) == Wakes(records, next)
    ensures var pushed' := if Spec.Overdue(records, next) then pushed + [next] else pushed;
            && PushedOnce(records, seen + {next}, pushed')
            && Pushes(records, pushed') == Pushes(records, pushed) + Wakes(records, next)
  {
    if next in records {
      Spec.PromoteKeepsCompleted(records, seen, records[next].dependsOn);
    }
    if Spec.Overdue(records, next) {
      PushesNext(records, pushed, next);
    }
  }

  lemma SamePushes(before: JobMap, records: JobMap, pushed: seq<string>)
    requires forall id | id in pushed :: id in before
    requires records.Keys == before.Keys
    requires forall id | id in before :: records[id] == before[id] || records[id] == before[id].(status := Pending)
    ensures Pushes(records, pushed) == Pushes(before, pushed)
  {
  }
}
