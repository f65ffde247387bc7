/** When does the Redis broker (src/aioq/backends/redis.py) hand out only jobs that are due? What each call makes of
    the records, the flat queue and the deferred sets, and which calls let a job out before its run_at. */
module RedisDue {
  import opened Jobs
  import Spec = MemorySpec
  import opened RedisIndex
  import opened RedisLists
  import opened RedisCalls

  // ---------------------------------------------------------------- the calls

  /** All that the broker keeps: the records and their indexes, the flat queue with the deferred sets, and the
      pairs (dependency, job waiting for it). */
  datatype Db = Db(ix: Index, flat: Flat, sets: SortedSets, dependents: set<(string, string)>)

  /** A call with what it showed: an update the jobs it pushed, a dequeue its keys and the popped id. Purge and
      Reap are about one job or member each. */
  datatype Call =
    | Enqueue(job: JobData)
    | Update(job: JobData, pushed: seq<string>)
    | Cancel(id: string)
    | Retry(id: string)
    | Replay(id: string)
    | Dequeue(queues: seq<string>, keys: seq<Key>, popped: Option<string>)
    | Purge(id: string)
    | Reap(id: string, queue: string)
    | Advance(now: real)

  ghost predicate EnqueueStep(d: Db, job: JobData, d': Db) {
    var j := Spec.CheckDependencies(d.ix.records, job);
    && d'.ix == Stored(d.ix, j) && (d'.flat, d'.sets) == Enqueued(d.ix, d.flat, d.sets, j)
    && d'.dependents == d.dependents + set x | x in job.dependsOn :: (x, job.id)
  }

  /** The jobs that an update looks at after its write. */
  function LooksAt(d: Db, job: JobData): set<string> {
    if job.status == Completed then Registered(d.dependents, job.id) else {}
  }

  ghost predicate UpdateStep(d: Db, job: JobData, pushed: seq<string>, d': Db) {
    var records := d.ix.records[job.id := job];
    && PushedOnce(records, LooksAt(d, job), pushed)
    && d' == d.(ix := Updated(d.ix, job, d.dependents), flat := d.flat + Pushes(records, pushed))
  }

  function WithoutDependents(dependents: set<(string, string)>, id: string): set<(string, string)> {
    set p | p in dependents && p.0 != id
  }

  ghost predicate DequeueStep(d: Db, queues: seq<string>, keys: seq<Key>, popped: Option<string>, d': Db) {
    var gone := popped.Some? && popped.value !in d.ix.records;
    && (forall k :: k in keys <==> k.queue in queues && k.tier in TIERS)
    && DueLeave(keys, d.ix.now, d.sets, d'.sets)
    && TakesNext(d.flat + Moved(d.sets, keys, d.ix.now), queues, popped, d'.flat)
    && d'.ix == (if gone then Forget(d.ix, popped.value, None, None) else d.ix)
    && d'.dependents == if gone then WithoutDependents(d.dependents, popped.value) else d.dependents
  }

  /** One call, running to completion. */
  ghost predicate Steps(d: Db, c: Call, d': Db) {
    match c
    case Enqueue(job) => EnqueueStep(d, job, d')
    case Update(job, pushed) => UpdateStep(d, job, pushed, d')
    case Cancel(id) =>
      && id in d.ix.records && Cancellable(d.ix.records[id].status)
      && d' == d.(ix := Write(d.ix, d.ix.records[id].(status := Cancelled)))
    case Retry(id) =>
      && id in d.ix.records && Retriable(d.ix.records[id].status)
      && var j := Spec.Restarted(d.ix.records[id]);
         d' == d.(ix := Write(d.ix, j), flat := d.flat + [Arrival(id, KeyOf(j.queue, j.priority))])
    case Replay(id) =>
      && id in d.ix.records && d.ix.records[id].status == Dead
      && var j := Spec.Restarted(d.ix.records[id]); EnqueueStep(d.(ix := Write(d.ix, j)), j, d')
    case Dequeue(queues, keys, popped) => DequeueStep(d, queues, keys, popped, d')
    case Purge(id) =>
      && id in d.ix.records
      && var j := d.ix.records[id];
         d' == d.(ix := Forget(d.ix, id, Some(j.queue), Some(j.status)),
                  dependents := WithoutDependents(d.dependents, id))
    case Reap(id, queue) =>
      && (id, queue) in Due(d.ix) && id !in d.ix.records
      && var f := Forget(d.ix, id, Some(queue), Some(Completed));
         d' == d.(ix := f.(expiring := f.expiring - {(id, queue)}), dependents := WithoutDependents(d.dependents, id))
    case Advance(now) => d.ix.now <= now && d' == d.(ix := Tick(d.ix, now))
  }

  /** The job that a call hands out. */
  function Returned(d: Db, c: Call): Option<JobData> {
    if c.Dequeue? && c.popped.Some? && c.popped.value in d.ix.records then Some(d.ix.records[c.popped.value]) else None
  }

  // ---------------------------------------------------------------- only due jobs

  function Deadline(ix: Index, id: string): Option<real> {
    if id in ix.expiry then Some(ix.expiry[id]) else None
  }

  /** When the entry is promoted its job is due, or gone. */
  predicate EntryIsSafe(j: JobData, deadline: Option<real>, x: Entry, now: real) {
    j.Due(now) || j.runAt.value <= x.score || (deadline.Some? && deadline.value <= x.score)
  }

  predicate ArrivalIsDue(ix: Index, a: Arrival) {
    a.id in ix.records ==> ix.records[a.id].Due(ix.now)
  }

  predicate EntryIsLate(ix: Index, x: Entry) {
    x.id in ix.records ==> EntryIsSafe(ix.records[x.id], Deadline(ix, x.id), x, ix.now)
  }

  /** Every listed job is due or gone, and every deferred one will be when its entry is promoted. */
  ghost predicate OnlyDue(ix: Index, flat: Flat, sets: SortedSets) {
    && (forall a | a in flat :: ArrivalIsDue(ix, a))
    && (forall k, x | x in SetAt(sets, k) :: EntryIsLate(ix, x))
  }

  ghost predicate OnlyDueIn(d: Db) {
    OnlyDue(d.ix, d.flat, d.sets)
  }

  /** Only completed live records have a deadline, and it is still to come. */
  ghost predicate GoodIndex(ix: Index) {
    && Spec.WellKeyed(ix.records)
    && forall id | id in ix.expiry :: ix.expiry[id] > ix.now && id in ix.records && ix.records[id].status == Completed
  }

  lemma AgreementIsGood(ix: Index)
    requires Agreement(ix)
    ensures GoodIndex(ix)
  {
    assert forall id | id in ix.expiry :: DeadlineFits(ix, id);
  }

  ghost predicate Sane(d: Db) {
    GoodIndex(d.ix) && forall k | k in d.sets :: IsSortedSet(d.sets[k])
  }

  // ---------------------------------------------------------------- popping

  /** What a promotion makes arrive comes from a due entry. */
  lemma {:induction false} MovedComesFrom(sets: SortedSets, keys: seq<Key>, now: real, a: Arrival)
    requires a in Moved(sets, keys, now)
    ensures exists x :: x in SetAt(sets, a.key) && x.id == a.id && x.score <= now
  {
    var n := |keys| - 1;
    if a in Moved(sets, keys[..n], now) {
      MovedComesFrom(sets, keys[..n], now, a);
    } else {
      var z := SetAt(sets, keys[n]);
      var ids := RangeByScore(z, now);
      var i :| 0 <= i < |ids| && Arrivals(keys[n], ids)[i] == a;
      assert z[i] in z && z[i].id == a.id && z[i].score <= now;
    }
  }

  /** After the promotion of a dequeue everything that can be popped is due. */
  lemma PromotionKeepsDue(ix: Index, flat: Flat, sets: SortedSets, sets': SortedSets, keys: seq<Key>)
    requires GoodIndex(ix) && OnlyDue(ix, flat, sets) && DueLeave(keys, ix.now, sets, sets')
    ensures OnlyDue(ix, flat + Moved(sets, keys, ix.now), sets')
  {
    var promoted := flat + Moved(sets, keys, ix.now);
    forall a | a in promoted
      ensures ArrivalIsDue(ix, a)
    {
      if a !in flat {
        MovedComesFrom(sets, keys, ix.now, a);
        var x :| x in SetAt(sets, a.key) && x.id == a.id && x.score <= ix.now;
        assert EntryIsLate(ix, x);
      }
    }
    forall k, x | x in SetAt(sets', k)
      ensures EntryIsLate(ix, x)
    {
      assert x in SetAt(sets, k);
    }
  }

  lemma PopKeepsDue(ix: Index, flat: Flat, sets: SortedSets, i: nat)
    requires OnlyDue(ix, flat, sets) && i < |flat|
    ensures OnlyDue(ix, Without(flat, i), sets) && ArrivalIsDue(ix, flat[i])
  {
    assert flat[i] in flat;
    assert forall a | a in Without(flat, i) :: a in flat;
  }

  /** Dropping a record takes nothing back. */
  lemma ForgetKeepsDue(ix: Index, flat: Flat, sets: SortedSets, id: string, queue: Option<string>, st: Option<Status>)
    requires OnlyDue(ix, flat, sets)
    ensures OnlyDue(Forget(ix, id, queue, st), flat, sets)
  {
    var f := Forget(ix, id, queue, st);
    forall a | a in flat
      ensures ArrivalIsDue(f, a)
    {
      assert ArrivalIsDue(ix, a);
    }
    forall k, x | x in SetAt(sets, k)
      ensures EntryIsLate(f, x)
    {
      assert EntryIsLate(ix, x);
    }
  }

  /** A dequeue that finds only due jobs returns one, and leaves only due jobs behind. */
  lemma DequeueKeepsDue(d: Db, queues: seq<string>, keys: seq<Key>, popped: Option<string>, d': Db)
    requires Sane(d) && OnlyDueIn(d) && DequeueStep(d, queues, keys, popped, d')
    ensures OnlyDueIn(d')
    ensures popped.Some? && popped.value in d.ix.records ==> d.ix.records[popped.value].Due(d.ix.now)
  {
    PromotionKeepsDue(d.ix, d.flat, d.sets, d'.sets, keys);
    var promoted := d.flat + Moved(d.sets, keys, d.ix.now);
    if popped.Some? {
      var i: nat :| IsNext(promoted, queues, i) && promoted[i].id == popped.value && d'.flat == Without(promoted, i);
      PopKeepsDue(d.ix, promoted, d'.sets, i);
      if popped.value !in d.ix.records {
        ForgetKeepsDue(d.ix, d'.flat, d'.sets, popped.value, None, None);
      }
    }
  }

  /** Time only makes jobs due, and drops records. */
  lemma TickKeepsDue(ix: Index, flat: Flat, sets: SortedSets, now: real)
    requires OnlyDue(ix, flat, sets) && ix.now <= now
    ensures OnlyDue(Tick(ix, now), flat, sets)
  {
    var t := Tick(ix, now);
    forall a | a in flat
      ensures ArrivalIsDue(t, a)
    {
      assert ArrivalIsDue(ix, a);
    }
    forall k, x | x in SetAt(sets, k)
      ensures EntryIsLate(t, x)
    {
      assert EntryIsLate(ix, x);
    }
  }

  // ---------------------------------------------------------------- writing

  /** The deadline that a write leaves on the record. */
  function DeadlineAfter(ix: Index, j: JobData): Option<real> {
    if KeepsResult(j) then Some(ix.now + j.resultTtl as real) else None
  }

  /** The job is due, or no list has its id and no deferred entry of it comes before its time. */
  ghost predicate NothingEarly(ix: Index, flat: Flat, sets: SortedSets, j: JobData) {
    || j.Due(ix.now)
    || ((forall a | a in flat :: a.id != j.id)
        && forall k, x | x in SetAt(sets, k) && x.id == j.id :: EntryIsSafe(j, DeadlineAfter(ix, j), x, ix.now))
  }

  /** Storing a job keeps everything due exactly when nothing brings it early. */
  lemma WriteKeepsDueExactly(ix: Index, flat: Flat, sets: SortedSets, j: JobData)
    requires OnlyDue(ix, flat, sets)
    ensures OnlyDue(Write(ix, j), flat, sets) <==> NothingEarly(ix, flat, sets, j)
  {
    var w := Write(ix, j);
    forall a | a in flat
      ensures ArrivalIsDue(w, a) <==> (a.id == j.id ==> j.Due(ix.now))
    {
      assert ArrivalIsDue(ix, a);
    }
    forall k, x | x in SetAt(sets, k)
      ensures EntryIsLate(w, x) <==> (x.id == j.id ==> EntryIsSafe(j, DeadlineAfter(ix, j), x, ix.now))
    {
      assert EntryIsLate(ix, x);
      assert x.id != j.id ==> Deadline(w, x.id) == Deadline(ix, x.id);
    }
  }

  // ---------------------------------------------------------------- promoting dependents

  ghost predicate WokenAreDue(ix: Index, ids: set<string>) {
    forall id | id in ids && Spec.Overdue(ix.records, id) :: ix.records[id].Due(ix.now)
  }

  /** The arrivals name exactly the overdue jobs among `ids`. */
  ghost predicate PushedFor(records: JobMap, ids: set<string>, pushed: Flat) {
    && (forall a | a in pushed :: a.id in ids && Spec.Overdue(records, a.id))
    && (forall id | id in ids && Spec.Overdue(records, id) :: exists a :: a in pushed && a.id == id)
  }

  lemma PromotionKeepsTimes(ix: Index, ids: set<string>)
    requires GoodIndex(ix)
    ensures forall a: Arrival :: ArrivalIsDue(PromoteAllIn(ix, ids), a) <==> ArrivalIsDue(ix, a)
    ensures forall x: Entry :: EntryIsLate(PromoteAllIn(ix, ids), x) <==> EntryIsLate(ix, x)
  {
    var p := PromoteAllIn(ix, ids);
    forall x: Entry
      ensures EntryIsLate(p, x) <==> EntryIsLate(ix, x)
    {
      assert Deadline(p, x.id) == Deadline(ix, x.id);
    }
  }

  /** A promotion does not look at run_at: it keeps everything due exactly when the woken jobs are due. */
  lemma WakeKeepsDueExactly(ix: Index, flat: Flat, sets: SortedSets, ids: set<string>, pushed: Flat)
    requires GoodIndex(ix) && PushedFor(ix.records, ids, pushed)
    ensures OnlyDue(PromoteAllIn(ix, ids), flat + pushed, sets) <==> OnlyDue(ix, flat, sets) && WokenAreDue(ix, ids)
  {
    var p := PromoteAllIn(ix, ids);
    PromotionKeepsTimes(ix, ids);
    if OnlyDue(p, flat + pushed, sets) {
      forall a | a in flat
        ensures ArrivalIsDue(ix, a)
      {
        assert a in flat + pushed && ArrivalIsDue(p, a);
      }
      forall id | id in ids && Spec.Overdue(ix.records, id)
        ensures ix.records[id].Due(ix.now)
      {
        var a :| a in pushed && a.id == id;
        assert a in flat + pushed && ArrivalIsDue(p, a);
      }
    }
    if OnlyDue(ix, flat, sets) && WokenAreDue(ix, ids) {
      forall a | a in flat + pushed
        ensures ArrivalIsDue(p, a)
      {
        assert a in flat || a in pushed;
      }
    }
  }

  lemma PushesAreFor(records: JobMap, ids: set<string>, pushed: seq<string>)
    requires PushedOnce(records, ids, pushed)
    ensures PushedFor(records, ids, Pushes(records, pushed))
  {
    var arrivals := Pushes(records, pushed);
    forall a | a in arrivals
      ensures a.id in ids && Spec.Overdue(records, a.id)
    {
      var i :| 0 <= i < |arrivals| && arrivals[i] == a;
      assert pushed[i] in pushed;
    }
    forall id | id in ids && Spec.Overdue(records, id)
      ensures exists a :: a in arrivals && a.id == id
    {
      var i :| 0 <= i < |pushed| && pushed[i] == id;
      assert arrivals[i] in arrivals && arrivals[i].id == id;
    }
  }

  lemma WakesAreFor(records: JobMap, id: string)
    ensures PushedFor(records, {id}, Wakes(records, id))
  {
    if Spec.Overdue(records, id) {
      assert Wakes(records, id)[0] in Wakes(records, id);
    }
  }

  lemma PromoteInIsAll(ix: Index, id: string)
    ensures PromoteIn(ix, id) == PromoteAllIn(ix, {id})
  {
    PromoteNoneIn(ix);
    PromoteNextIn(ix, {}, id);
    assert {} + {id} == {id};
  }

  lemma WriteIsGood(ix: Index, j: JobData)
    requires GoodIndex(ix)
    ensures GoodIndex(Write(ix, j))
  {
  }

  lemma PromoteIsGood(ix: Index, ids: set<string>)
    requires GoodIndex(ix)
    ensures GoodIndex(PromoteAllIn(ix, ids))
  {
  }

  // ---------------------------------------------------------------- update and enqueue

  /** An update lets nothing out early: neither its own job nor one that it wakes. */
  ghost predicate UpdateIsPunctual(d: Db, j: JobData) {
    NothingEarly(d.ix, d.flat, d.sets, j) && WokenAreDue(Write(d.ix, j), LooksAt(d, j))
  }

  lemma UpdateKeepsDueExactly(d: Db, j: JobData, pushed: seq<string>, d': Db)
    requires Sane(d) && OnlyDueIn(d) && UpdateStep(d, j, pushed, d')
    ensures OnlyDueIn(d') <==> UpdateIsPunctual(d, j)
  {
    var w, ids := Write(d.ix, j), LooksAt(d, j);
    WriteKeepsDueExactly(d.ix, d.flat, d.sets, j);
    WriteIsGood(d.ix, j);
    PromoteNoneIn(w);
    assert d'.ix == PromoteAllIn(w, ids);
    PushesAreFor(w.records, ids, pushed);
    WakeKeepsDueExactly(w, d.flat, d.sets, ids, Pushes(w.records, pushed));
  }

  /** An enqueue of a checked job lets nothing out early. One that does not wait renews its own entry, if it is
      deferred at all. */
  ghost predicate EnqueueIsPunctual(ix: Index, flat: Flat, sets: SortedSets, j: JobData) {
    if j.status == Waiting then NothingEarly(ix, flat, sets, j) && WokenAreDue(Write(ix, j), {j.id})
    else NothingEarly(ix, flat, sets - {KeyOf(j.queue, j.priority)}, j)
  }

  /** Queueing a job that was just written, by its own run_at. */
  lemma QueueingKeepsDueExactly(ix: Index, flat: Flat, sets: SortedSets, j: JobData)
    requires OnlyDue(ix, flat, sets) && forall k | k in sets :: IsSortedSet(sets[k])
    ensures var k := KeyOf(j.queue, j.priority);
            var (flat', sets') := Queued(flat, sets, j.id, k, j.runAt, ix.now);
            OnlyDue(Write(ix, j), flat', sets') <==> NothingEarly(ix, flat, sets - {k}, j)
  {
    var k := KeyOf(j.queue, j.priority);
    if j.Due(ix.now) {
      DueJobIsQueued(ix, flat, sets, j);
    } else {
      DroppingKeepsDue(ix, flat, sets, k);
      WriteKeepsDueExactly(ix, flat, sets - {k}, j);
      LaterJobIsQueued(ix, flat, sets, j, k);
    }
  }

  /** The renewed set of the job's own key is not what could bring it early. */
  lemma LaterJobIsQueued(ix: Index, flat: Flat, sets: SortedSets, j: JobData, k: Key)
    requires OnlyDue(ix, flat, sets) && IsSortedSet(SetAt(sets, k)) && j.runAt.Some?
    ensures var sets' := sets[k := ZAdd(SetAt(sets, k), Entry(j.id, j.runAt.value))];
            OnlyDue(Write(ix, j), flat, sets') <==> OnlyDue(Write(ix, j), flat, sets - {k})
  {
    var w := Write(ix, j);
    var z := ZAdd(SetAt(sets, k), Entry(j.id, j.runAt.value));
    RenewedIsLate(ix, sets, j, k);
    ReplacedSet(w, flat, sets, k, z);
  }

  lemma RenewedIsLate(ix: Index, sets: SortedSets, j: JobData, k: Key)
    requires (forall x | x in SetAt(sets, k) :: EntryIsLate(ix, x)) && IsSortedSet(SetAt(sets, k)) && j.runAt.Some?
    ensures forall x | x in ZAdd(SetAt(sets, k), Entry(j.id, j.runAt.value)) :: EntryIsLate(Write(ix, j), x)
  {
    var w, e := Write(ix, j), Entry(j.id, j.runAt.value);
    ZAddKeeps(SetAt(sets, k), e);
    forall x | x in ZAdd(SetAt(sets, k), e)
      ensures EntryIsLate(w, x)
    {
      assert x == e || (EntryIsLate(ix, x) && x.id != j.id && Deadline(w, x.id) == Deadline(ix, x.id));
    }
  }

  lemma ReplacedSet(ix: Index, flat: Flat, sets: SortedSets, k: Key, z: SortedSet)
    requires forall x | x in z :: EntryIsLate(ix, x)
    ensures OnlyDue(ix, flat, sets[k := z]) <==> OnlyDue(ix, flat, sets - {k})
  {
    var with, without := sets[k := z], sets - {k};
    assert forall o :: SetAt(with, o) == if o == k then z else SetAt(sets, o);
    assert forall o :: SetAt(without, o) == if o == k then [] else SetAt(sets, o);
    forall o, x | x in SetAt(with, o) && o != k
      ensures x in SetAt(without, o)
    {
    }
  }

  lemma DueJobIsQueued(ix: Index, flat: Flat, sets: SortedSets, j: JobData)
    requires OnlyDue(ix, flat, sets) && j.Due(ix.now)
    ensures OnlyDue(Write(ix, j), flat + [Arrival(j.id, KeyOf(j.queue, j.priority))], sets)
  {
    WriteKeepsDueExactly(ix, flat, sets, j);
  }

  lemma DroppingKeepsDue(ix: Index, flat: Flat, sets: SortedSets, k: Key)
    requires OnlyDue(ix, flat, sets)
    ensures OnlyDue(ix, flat, sets - {k})
  {
    assert forall o :: SetAt(sets - {k}, o) == if o == k then [] else SetAt(sets, o);
  }

  lemma EnqueueKeepsDueExactly(d: Db, job: JobData, d': Db)
    requires Sane(d) && OnlyDueIn(d) && EnqueueStep(d, job, d')
    ensures OnlyDueIn(d')
            <==> EnqueueIsPunctual(d.ix, d.flat, d.sets, Spec.CheckDependencies(d.ix.records, job))
  {
    var j := Spec.CheckDependencies(d.ix.records, job);
    if j.status == Waiting {
      var w := Write(d.ix, j);
      WriteKeepsDueExactly(d.ix, d.flat, d.sets, j);
      WriteIsGood(d.ix, j);
      PromoteInIsAll(w, j.id);
      WakesAreFor(w.records, j.id);
      WakeKeepsDueExactly(w, d.flat, d.sets, {j.id}, Wakes(w.records, j.id));
    } else {
      QueueingKeepsDueExactly(d.ix, d.flat, d.sets, j);
    }
  }

  // ---------------------------------------------------------------- every call

  /** What a call must not do: store or queue a job so that it comes out before its time, or wake one that is not
      due yet. A caller can look this up before the call. */
  ghost predicate Punctual(d: Db, c: Call) {
    match c
    case Enqueue(job) =>
      EnqueueIsPunctual(d.ix, d.flat, d.sets, Spec.CheckDependencies(d.ix.records, job))
    case Update(job, _) => UpdateIsPunctual(d, job)
    case _ => true
  }

  lemma RestartKeepsDue(d: Db, id: string, d': Db)
    requires Sane(d) && OnlyDueIn(d) && Steps(d, Replay(id), d')
    ensures OnlyDueIn(d')
  {
    var j := Spec.Restarted(d.ix.records[id]);
    var w := d.(ix := Write(d.ix, j));
    WriteKeepsDueExactly(d.ix, d.flat, d.sets, j);
    WriteIsGood(d.ix, j);
    EnqueueKeepsDueExactly(w, j, d');
  }

  /** Whatever is cancelled has no deadline, so its time has come as before. */
  lemma CancelKeepsDue(d: Db, id: string, d': Db)
    requires Sane(d) && OnlyDueIn(d) && Steps(d, Cancel(id), d')
    ensures OnlyDueIn(d')
  {
    var j := d.ix.records[id].(status := Cancelled);
    WriteKeepsDueExactly(d.ix, d.flat, d.sets, j);
    assert Deadline(d.ix, id) == None;
    if !j.Due(d.ix.now) {
      assert forall a | a in d.flat :: ArrivalIsDue(d.ix, a);
      forall k, x | x in SetAt(d.sets, k) && x.id == id
        ensures EntryIsSafe(j, DeadlineAfter(d.ix, j), x, d.ix.now)
      {
        assert EntryIsLate(d.ix, x);
      }
    }
  }

  lemma ReapKeepsDue(ix: Index, flat: Flat, sets: SortedSets, id: string, queue: string)
    requires OnlyDue(ix, flat, sets)
    ensures var f := Forget(ix, id, Some(queue), Some(Completed));
            OnlyDue(f.(expiring := f.expiring - {(id, queue)}), flat, sets)
  {
    var f := Forget(ix, id, Some(queue), Some(Completed));
    var r := f.(expiring := f.expiring - {(id, queue)});
    ForgetKeepsDue(ix, flat, sets, id, Some(queue), Some(Completed));
    forall a | a in flat
      ensures ArrivalIsDue(r, a)
    {
      assert ArrivalIsDue(f, a);
    }
    forall k, x | x in SetAt(sets, k)
      ensures EntryIsLate(r, x)
    {
      assert EntryIsLate(f, x);
    }
  }

  /** Every call keeps everything due exactly when it is punctual. */
  lemma CallKeepsDueExactly(d: Db, c: Call, d': Db)
    requires Sane(d) && OnlyDueIn(d) && Steps(d, c, d')
    ensures OnlyDueIn(d') <==> Punctual(d, c)
  {
    match c
    case Enqueue(job) => EnqueueKeepsDueExactly(d, job, d');
    case Update(job, pushed) => UpdateKeepsDueExactly(d, job, pushed, d');
    case Cancel(id) => CancelKeepsDue(d, id, d');
    case Retry(id) => DueJobIsQueued(d.ix, d.flat, d.sets, Spec.Restarted(d.ix.records[id]));
    case Replay(id) => RestartKeepsDue(d, id, d');
    case Dequeue(queues, keys, popped) => DequeueKeepsDue(d, queues, keys, popped, d');
    case Purge(id) =>
      ForgetKeepsDue(d.ix, d.flat, d.sets, id, Some(d.ix.records[id].queue), Some(d.ix.records[id].status));
    case Reap(id, queue) => ReapKeepsDue(d.ix, d.flat, d.sets, id, queue);
    case Advance(now) => TickKeepsDue(d.ix, d.flat, d.sets, now);
  }

  lemma AgreementIsSane(d: Db, lists: Lists)
    requires Agreement(d.ix) && GoodQueues(lists, d.sets, d.flat)
    ensures Sane(d)
  {
    AgreementIsGood(d.ix);
  }

  lemma UpdateIsStep(d: Db, job: JobData, pushed: seq<string>, d': Db)
    requires d'.ix == Updated(d.ix, job, d.dependents) && d'.sets == d.sets && d'.dependents == d.dependents
    requires PushedOnce(d.ix.records[job.id := job], LooksAt(d, job), pushed)
    requires d'.flat == d.flat + Pushes(d.ix.records[job.id := job], pushed)
    ensures UpdateStep(d, job, pushed, d')
  {
  }

  lemma AdvanceIsExact(d: Db, now: real)
    requires d.ix.now <= now
    ensures Steps(d, Advance(now), d.(ix := Tick(d.ix, now)))
    ensures OnlyDueIn(d) ==> OnlyDueIn(d.(ix := Tick(d.ix, now)))
  {
    if OnlyDueIn(d) {
      TickKeepsDue(d.ix, d.flat, d.sets, now);
    }
  }

  /** What a dequeue that pops `popped` leaves. */
  function AfterDequeue(d: Db, popped: Option<string>, flat: Flat, sets: SortedSets): Db {
    if popped.Some? && popped.value !in d.ix.records
    then Db(Forget(d.ix, popped.value, None, None), flat, sets, WithoutDependents(d.dependents, popped.value))
    else d.(flat := flat, sets := sets)
  }

  lemma DequeueIsExact(d: Db, queues: seq<string>, keys: seq<Key>, popped: Option<string>, flat: Flat, sets: SortedSets)
    requires (forall k :: k in keys <==> k.queue in queues && k.tier in TIERS) && DueLeave(keys, d.ix.now, d.sets, sets)
    requires TakesNext(d.flat + Moved(d.sets, keys, d.ix.now), queues, popped, flat) && Sane(d)
    ensures DequeueStep(d, queues, keys, popped, AfterDequeue(d, popped, flat, sets))
    ensures OnlyDueIn(d) ==>
              && OnlyDueIn(AfterDequeue(d, popped, flat, sets))
              && (popped.Some? && popped.value in d.ix.records ==> d.ix.records[popped.value].Due(d.ix.now))
  {
    if OnlyDueIn(d) {
      DequeueKeepsDue(d, queues, keys, popped, AfterDequeue(d, popped, flat, sets));
    }
  }

  /** Before the call only due jobs could be popped: then the same holds after it exactly when it is punctual. */
  ghost predicate KeepsDueExactly(d: Db, c: Call, d': Db) {
    Sane(d) && OnlyDueIn(d) ==> (OnlyDueIn(d') <==> Punctual(d, c))
  }

  lemma StepIsExact(d: Db, c: Call, d': Db)
    requires Steps(d, c, d')
    ensures KeepsDueExactly(d, c, d')
  {
    if Sane(d) && OnlyDueIn(d) {
      CallKeepsDueExactly(d, c, d');
    }
  }
}
