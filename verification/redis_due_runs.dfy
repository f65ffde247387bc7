/** Whole runs of Redis broker calls (src/aioq/backends/redis.py): when does no dequeue hand out a job before its
    run_at? */
module RedisDueRuns {
  import opened Jobs
  import opened Attempts
  import Spec = MemorySpec
  import opened RedisIndex
  import opened RedisLists
  import opened RedisCalls
  import opened RedisDue

  const EMPTY := Db(Index(map[], map[], {}, {}, {}, map[], 0.0), [], map[], {})

  ghost predicate IsRun(dbs: seq<Db>, calls: seq<Call>) {
    |dbs| == |calls| + 1 && forall k | 0 <= k < |calls| :: Steps(dbs[k], calls[k], dbs[k + 1])
  }

  ghost predicate AllPunctual(dbs: seq<Db>, calls: seq<Call>)
    requires |calls| <= |dbs|
  {
    forall k | 0 <= k < |calls| :: Punctual(dbs[k], calls[k])
  }

  /** The call hands out no job before its time. */
  predicate ReturnsDue(d: Db, c: Call) {
    Returned(d, c).Some? ==> Returned(d, c).value.Due(d.ix.now)
  }

  // ---------------------------------------------------------------- what every call keeps

  ghost predicate TierKeys(sets: SortedSets) {
    forall k, x | x in SetAt(sets, k) :: k.tier in TIERS
  }

  ghost predicate Inv(d: Db) {
    Sane(d) && TierKeys(d.sets)
  }

  ghost predicate GoodSets(sets: SortedSets) {
    (forall k | k in sets :: IsSortedSet(sets[k])) && TierKeys(sets)
  }

  lemma QueuedSetsAreGood(flat: Flat, sets: SortedSets, id: string, queue: string, priority: int,
                          runAt: Option<real>, now: real)
    requires GoodSets(sets)
    ensures GoodSets(Queued(flat, sets, id, KeyOf(queue, priority), runAt, now).1)
  {
    if runAt.Some? && runAt.value > now {
      var k, e := KeyOf(queue, priority), Entry(id, runAt.value);
      ZAddKeeps(SetAt(sets, k), e);
      NewSetIsGood(sets, k, ZAdd(SetAt(sets, k), e));
    }
  }

  lemma NewSetIsGood(sets: SortedSets, k: Key, z: SortedSet)
    requires GoodSets(sets) && k.tier in TIERS && IsSortedSet(z)
    ensures GoodSets(sets[k := z])
  {
    var sets' := sets[k := z];
    forall o, x | x in SetAt(sets', o)
      ensures o.tier in TIERS
    {
      assert o != k ==> x in SetAt(sets, o);
    }
  }

  lemma PromotedSetsAreGood(keys: seq<Key>, now: real, sets: SortedSets, sets': SortedSets)
    requires GoodSets(sets) && DueLeave(keys, now, sets, sets')
    ensures GoodSets(sets')
  {
    forall k | k in sets'
      ensures IsSortedSet(sets'[k])
    {
      assert sets'[k] == SetAt(sets', k);
      SuffixIsSortedSet(SetAt(sets, k), DueCount(SetAt(sets, k), now));
    }
    forall k, x | x in SetAt(sets', k)
      ensures k.tier in TIERS
    {
      assert x in SetAt(sets, k);
    }
  }

  lemma EnqueueKeepsInv(d: Db, job: JobData, d': Db)
    requires Inv(d) && EnqueueStep(d, job, d')
    ensures Inv(d')
  {
    var j := Spec.CheckDependencies(d.ix.records, job);
    var w := Write(d.ix, j);
    WriteIsGood(d.ix, j);
    PromoteInIsAll(w, j.id);
    PromoteIsGood(w, {j.id});
    QueuedSetsAreGood(d.flat, d.sets, j.id, j.queue, j.priority, j.runAt, d.ix.now);
  }

  lemma UpdateKeepsInv(d: Db, job: JobData, pushed: seq<string>, d': Db)
    requires Inv(d) && UpdateStep(d, job, pushed, d')
    ensures Inv(d')
  {
    WriteIsGood(d.ix, job);
    PromoteIsGood(Write(d.ix, job), Registered(d.dependents, job.id));
  }

  lemma ForgetIsGood(ix: Index, id: string, queue: Option<string>, st: Option<Status>)
    requires GoodIndex(ix)
    ensures GoodIndex(Forget(ix, id, queue, st))
  {
  }

  lemma TickIsGood(ix: Index, now: real)
    requires GoodIndex(ix) && ix.now <= now
    ensures GoodIndex(Tick(ix, now))
  {
  }

  lemma DequeueKeepsInv(d: Db, keys: seq<Key>, popped: Option<string>, d': Db)
    requires Inv(d) && DueLeave(keys, d.ix.now, d.sets, d'.sets)
    requires d'.ix == d.ix || (popped.Some? && d'.ix == Forget(d.ix, popped.value, None, None))
    ensures Inv(d')
  {
    PromotedSetsAreGood(keys, d.ix.now, d.sets, d'.sets);
    if popped.Some? {
      ForgetIsGood(d.ix, popped.value, None, None);
    }
  }

  lemma InvKept(d: Db, c: Call, d': Db)
    requires Inv(d) && Steps(d, c, d')
    ensures Inv(d')
  {
    match c
    case Enqueue(job) => EnqueueKeepsInv(d, job, d');
    case Update(job, pushed) => UpdateKeepsInv(d, job, pushed, d');
    case Cancel(id) => WriteIsGood(d.ix, d.ix.records[id].(status := Cancelled));
    case Retry(id) => WriteIsGood(d.ix, Spec.Restarted(d.ix.records[id]));
    case Replay(id) =>
      var j := Spec.Restarted(d.ix.records[id]);
      WriteIsGood(d.ix, j);
      EnqueueKeepsInv(d.(ix := Write(d.ix, j)), j, d');
    case Dequeue(_, keys, popped) => DequeueKeepsInv(d, keys, popped, d');
    case Purge(id) => ForgetIsGood(d.ix, id, Some(d.ix.records[id].queue), Some(d.ix.records[id].status));
    case Reap(id, queue) => ForgetIsGood(d.ix, id, Some(queue), Some(Completed));
    case Advance(now) => TickIsGood(d.ix, now);
  }

  /** Over every run of punctual calls from the empty database, all listed and deferred jobs are or will be due, and
      every dequeue hands out a job whose time has come. */
  lemma EveryPunctualRunIsDue(dbs: seq<Db>, calls: seq<Call>, k: nat)
    requires IsRun(dbs, calls) && dbs[0] == EMPTY && k < |dbs| && AllPunctual(dbs, calls)
    ensures OnlyDueIn(dbs[k])
    ensures k < |calls| ==> ReturnsDue(dbs[k], calls[k])
  {
    PunctualRunIsDue(dbs, calls, k);
  }

  lemma {:induction false} PunctualRunIsDue(dbs: seq<Db>, calls: seq<Call>, k: nat)
    requires IsRun(dbs, calls) && AllPunctual(dbs, calls) && k < |dbs|
    requires Inv(dbs[0]) && OnlyDueIn(dbs[0])
    ensures Inv(dbs[k]) && OnlyDueIn(dbs[k])
    ensures k < |calls| ==> ReturnsDue(dbs[k], calls[k])
  {
    if k > 0 {
      PunctualRunIsDue(dbs, calls, k - 1);
      assert Steps(dbs[k - 1], calls[k - 1], dbs[k]) && Punctual(dbs[k - 1], calls[k - 1]);
      InvKept(dbs[k - 1], calls[k - 1], dbs[k]);
      CallKeepsDueExactly(dbs[k - 1], calls[k - 1], dbs[k]);
    }
    if k < |calls| {
      assert Steps(dbs[k], calls[k], dbs[k + 1]);
      DequeueIsDue(dbs[k], calls[k], dbs[k + 1]);
    }
  }

  lemma DequeueIsDue(d: Db, c: Call, d': Db)
    requires Inv(d) && OnlyDueIn(d) && Steps(d, c, d')
    ensures ReturnsDue(d, c)
  {
    if c.Dequeue? {
      DequeueKeepsDue(d, c.queues, c.keys, c.popped, d');
    }
  }

  // ---------------------------------------------------------------- what a call that is not punctual leads to

  /** Every run of punctual calls from here hands out due jobs only. */
  ghost predicate SafeFrom(d: Db) {
    forall dbs, calls | IsRun(dbs, calls) && dbs[0] == d && AllPunctual(dbs, calls) :: AllReturnDue(dbs, calls)
  }

  ghost predicate AllReturnDue(dbs: seq<Db>, calls: seq<Call>)
    requires |calls| <= |dbs|
  {
    forall k | 0 <= k < |calls| :: ReturnsDue(dbs[k], calls[k])
  }

  lemma ReturnsEarly(d: Db, c: Call, d': Db)
    requires Steps(d, c, d') && Punctual(d, c) && !ReturnsDue(d, c)
    ensures !SafeFrom(d)
  {
    var dbs, calls := [d, d'], [c];
    assert IsRun(dbs, calls) && dbs[0] == d && AllPunctual(dbs, calls);
    assert !ReturnsDue(dbs[0], calls[0]);
  }

  lemma UnsafeBefore(d: Db, c: Call, d': Db)
    requires Steps(d, c, d') && Punctual(d, c) && !SafeFrom(d')
    ensures !SafeFrom(d)
  {
    var dbs, calls :| IsRun(dbs, calls) && dbs[0] == d' && AllPunctual(dbs, calls) && !AllReturnDue(dbs, calls);
    Prepend(d, c, dbs, calls);
    assert ([d] + dbs)[0] == d;
  }

  /** One more call at the beginning of a run. */
  lemma Prepend(d: Db, c: Call, dbs: seq<Db>, calls: seq<Call>)
    requires IsRun(dbs, calls) && Steps(d, c, dbs[0])
    ensures IsRun([d] + dbs, [c] + calls)
    ensures AllPunctual(dbs, calls) && Punctual(d, c) ==> AllPunctual([d] + dbs, [c] + calls)
    ensures !AllReturnDue(dbs, calls) ==> !AllReturnDue([d] + dbs, [c] + calls)
  {
    var dbs', calls' := [d] + dbs, [c] + calls;
    forall k | 0 <= k < |calls'|
      ensures Steps(dbs'[k], calls'[k], dbs'[k + 1])
      ensures AllPunctual(dbs, calls) && Punctual(d, c) ==> Punctual(dbs'[k], calls'[k])
    {
      if k > 0 {
        assert Steps(dbs[k - 1], calls[k - 1], dbs[k]);
        assert dbs'[k] == dbs[k - 1] && dbs'[k + 1] == dbs[k] && calls'[k] == calls[k - 1];
      }
    }
    if !AllReturnDue(dbs, calls) {
      var k :| 0 <= k < |calls| && !ReturnsDue(dbs[k], calls[k]);
      assert !ReturnsDue(dbs'[k + 1], calls'[k + 1]);
    }
  }

  /** The keys of one queue. */
  function KeysOf(queue: string): (keys: seq<Key>)
    ensures forall k :: k in keys <==> k.queue == queue && k.tier in TIERS
  {
    [Key(queue, 10), Key(queue, 5), Key(queue, 0)]
  }

  function AfterMove(sets: SortedSets, keys: seq<Key>, now: real): SortedSets {
    map k | k in sets :: if k in keys then StillDeferred(sets[k], now) else sets[k]
  }

  lemma MoveLeavesDue(sets: SortedSets, keys: seq<Key>, now: real)
    ensures DueLeave(keys, now, sets, AfterMove(sets, keys, now))
  {
  }

  lemma {:induction false} NothingMovesTwice(sets: SortedSets, keys: seq<Key>, part: seq<Key>, now: real)
    requires forall k | k in part :: k in keys
    ensures Moved(AfterMove(sets, keys, now), part, now) == []
  {
    if part != [] {
      var n := |part| - 1;
      NothingMovesTwice(sets, keys, part[..n], now);
      MoveLeavesDue(sets, keys, now);
      NothingMovedAgain(SetAt(sets, part[n]), part[n], now);
    }
  }

  /** While a queue has an arrival, some arrival is next. */
  lemma {:induction false} SomeIsNext(flat: Flat, queue: string, j: nat) returns (i: nat)
    requires j < |flat| && flat[j].key.queue == queue
    ensures IsNext(flat, [queue], i)
  {
    var n := |flat| - 1;
    var last, before := flat[n], flat[..n];
    if exists m: nat :: m < n && flat[m].key.queue == queue {
      var m: nat :| m < n && flat[m].key.queue == queue;
      i := SomeIsNext(before, queue, m);
      assert forall k: nat | k < n :: before[k] == flat[k];
      if last.key.queue == queue && last.key.tier > flat[i].key.tier {
        i := n;
      }
    } else {
      i := n;
    }
  }

  lemma NextIsTaken(flat: Flat, queues: seq<string>, i: nat)
    requires IsNext(flat, queues, i)
    ensures TakesNext(flat, queues, Some(flat[i].id), Without(flat, i))
  {
  }

  /** What a dequeue that pops arrival `i` leaves. */
  function AfterPop(d: Db, keys: seq<Key>, promoted: Flat, i: nat): Db
    requires i < |promoted|
  {
    var id := promoted[i].id;
    var sets := AfterMove(d.sets, keys, d.ix.now);
    if id in d.ix.records then d.(flat := Without(promoted, i), sets := sets)
    else Db(Forget(d.ix, id, None, None), Without(promoted, i), sets, WithoutDependents(d.dependents, id))
  }

  lemma PopIsDequeue(d: Db, queues: seq<string>, keys: seq<Key>, promoted: Flat, i: nat)
    requires forall k :: k in keys <==> k.queue in queues && k.tier in TIERS
    requires promoted == d.flat + Moved(d.sets, keys, d.ix.now) && IsNext(promoted, queues, i)
    ensures DequeueStep(d, queues, keys, Some(promoted[i].id), AfterPop(d, keys, promoted, i))
  {
    NextIsTaken(promoted, queues, i);
    MoveLeavesDue(d.sets, keys, d.ix.now);
  }

  lemma PopLeaves(d: Db, keys: seq<Key>, promoted: Flat, i: nat)
    requires i < |promoted|
    ensures var d' := AfterPop(d, keys, promoted, i);
            && d'.flat == Without(promoted, i) && Moved(d'.sets, keys, d.ix.now) == []
            && d'.ix.records == d.ix.records && d'.ix.now == d.ix.now
  {
    NothingMovesTwice(d.sets, keys, keys, d.ix.now);
  }

  /** One dequeue from one queue that has an arrival once its due entries are promoted. */
  lemma DequeueGoesOn(d: Db, queue: string, j: nat) returns (i: nat, c: Call, d': Db)
    requires var promoted := d.flat + Moved(d.sets, KeysOf(queue), d.ix.now);
             j < |promoted| && promoted[j].key.queue == queue
    ensures var promoted := d.flat + Moved(d.sets, KeysOf(queue), d.ix.now);
            && Steps(d, c, d') && c.Dequeue? && i < |promoted| && c.popped == Some(promoted[i].id)
            && d'.flat == Without(promoted, i) && Moved(d'.sets, KeysOf(queue), d.ix.now) == []
            && d'.ix.records == d.ix.records && d'.ix.now == d.ix.now
  {
    var keys, now := KeysOf(queue), d.ix.now;
    var promoted := d.flat + Moved(d.sets, keys, now);
    i := SomeIsNext(promoted, queue, j);
    c := Dequeue([queue], keys, Some(promoted[i].id));
    d' := AfterPop(d, keys, promoted, i);
    PopIsDequeue(d, [queue], keys, promoted, i);
    PopLeaves(d, keys, promoted, i);
  }

  lemma StaysListed(flat: Flat, i: nat, a: Arrival)
    requires i < |flat| && a in flat && a != flat[i]
    ensures a in Without(flat, i)
  {
    var m :| 0 <= m < |flat| && flat[m] == a;
    var rest := Without(flat, i);
    assert rest[if m < i then m else m - 1] == a;
  }

  /** A listed job whose time has not come is handed out after finitely many dequeues from its queue. */
  lemma {:induction false} EarlyArrivalIsReturned(d: Db, a: Arrival)
    requires a in d.flat + Moved(d.sets, KeysOf(a.key.queue), d.ix.now) && !ArrivalIsDue(d.ix, a)
    ensures !SafeFrom(d)
    decreases |d.flat| + |Moved(d.sets, KeysOf(a.key.queue), d.ix.now)|
  {
    var promoted := d.flat + Moved(d.sets, KeysOf(a.key.queue), d.ix.now);
    var j :| 0 <= j < |promoted| && promoted[j] == a;
    var i, c, d' := DequeueGoesOn(d, a.key.queue, j);
    if !ReturnsDue(d, c) {
      ReturnsEarly(d, c, d');
    } else {
      StaysListed(promoted, i, a);
      EarlyArrivalIsReturned(d', a);
      UnsafeBefore(d, c, d');
    }
  }

  lemma {:induction false} DueEntryIsMoved(sets: SortedSets, keys: seq<Key>, now: real, k: Key, x: Entry)
    requires k in keys && x in SetAt(sets, k) && x.score <= now && IsSortedSet(SetAt(sets, k))
    ensures Arrival(x.id, k) in Moved(sets, keys, now)
  {
    var n := |keys| - 1;
    if k in keys[..n] {
      DueEntryIsMoved(sets, keys[..n], now, k, x);
    } else {
      assert keys[n] == k;
      var z := SetAt(sets, k);
      var m :| 0 <= m < |z| && z[m] == x;
      RangeIsDue(z, now, m);
      var ids := RangeByScore(z, now);
      var p :| 0 <= p < |ids| && ids[p] == x.id;
      assert Arrivals(k, ids)[p] == Arrival(x.id, k);
    }
  }

  /** An entry that comes before its job's time: once the clock reaches it, its job can be popped. */
  lemma EarlyEntryIsReturned(d: Db, k: Key, x: Entry)
    requires Inv(d) && x in SetAt(d.sets, k) && !EntryIsLate(d.ix, x)
    ensures !SafeFrom(d)
  {
    var later := if x.score <= d.ix.now then d.ix.now else x.score;
    var d' := d.(ix := Tick(d.ix, later));
    EntryHasCome(d', k, x);
    UnsafeBefore(d, Advance(later), d');
  }

  lemma EntryHasCome(d: Db, k: Key, x: Entry)
    requires x in SetAt(d.sets, k) && k.tier in TIERS && IsSortedSet(SetAt(d.sets, k))
    requires x.score <= d.ix.now && x.id in d.ix.records && !d.ix.records[x.id].Due(d.ix.now)
    ensures !SafeFrom(d)
  {
    DueEntryIsMoved(d.sets, KeysOf(k.queue), d.ix.now, k, x);
    EarlyArrivalIsReturned(d, Arrival(x.id, k));
  }

  lemma UndueIsReturned(d: Db)
    requires Inv(d) && !OnlyDueIn(d)
    ensures !SafeFrom(d)
  {
    if a :| a in d.flat && !ArrivalIsDue(d.ix, a) {
      EarlyArrivalIsReturned(d, a);
    } else {
      var k, x :| x in SetAt(d.sets, k) && !EntryIsLate(d.ix, x);
      EarlyEntryIsReturned(d, k, x);
    }
  }

  /** After a call every further run of punctual calls hands out due jobs only, if and only if the call itself was
      punctual. */
  lemma CallIsSafeExactly(d: Db, c: Call, d': Db)
    requires Inv(d) && OnlyDueIn(d) && Steps(d, c, d')
    ensures SafeFrom(d') <==> Punctual(d, c)
  {
    InvKept(d, c, d');
    CallKeepsDueExactly(d, c, d');
    if OnlyDueIn(d') {
      forall dbs: seq<Db>, calls: seq<Call> | IsRun(dbs, calls) && dbs[0] == d' && AllPunctual(dbs, calls)
        ensures AllReturnDue(dbs, calls)
      {
        forall k: nat | k < |calls|
          ensures ReturnsDue(dbs[k], calls[k])
        {
          PunctualRunIsDue(dbs, calls, k);
        }
      }
    } else {
      UndueIsReturned(d');
    }
  }

  // ---------------------------------------------------------------- inputs that fail

  /** A run of these calls from the empty database ends in `d`. */
  ghost predicate Reaches(dbs: seq<Db>, calls: seq<Call>, d: Db) {
    IsRun(dbs, calls) && dbs[0] == EMPTY && dbs[|calls|] == d
  }

  lemma Goes(dbs: seq<Db>, calls: seq<Call>, d: Db, c: Call, d': Db)
    requires Reaches(dbs, calls, d) && Steps(d, c, d')
    ensures Reaches(dbs + [d'], calls + [c], d')
  {
    var dbs', calls' := dbs + [d'], calls + [c];
    forall k | 0 <= k < |calls'|
      ensures Steps(dbs'[k], calls'[k], dbs'[k + 1])
    {
      assert k < |calls| ==> Steps(dbs[k], calls[k], dbs[k + 1]);
    }
  }

  function ArrivalOf(j: JobData): Arrival {
    Arrival(j.id, KeyOf(j.queue, j.priority))
  }

  /** The database without its indexes, at time 0. */
  ghost predicate Holds(d: Db, records: JobMap, flat: Flat, dependents: set<(string, string)>) {
    d.ix.records == records && d.ix.now == 0.0 && d.flat == flat && d.dependents == dependents
  }

  /** A job without dependencies that may start at once. */
  lemma ThenArrives(dbs: seq<Db>, calls: seq<Call>, d: Db, j: JobData) returns (dbs': seq<Db>, d': Db)
    requires Reaches(dbs, calls, d) && d.ix.now == 0.0
    requires j.dependsOn == [] && j.status == Pending && j.Due(0.0)
    ensures Reaches(dbs', calls + [Enqueue(j)], d') && dbs' == dbs + [d'] && d'.sets == d.sets
    ensures Holds(d', d.ix.records[j.id := j], d.flat + [ArrivalOf(j)], d.dependents)
  {
    d' := d.(ix := Write(d.ix, j), flat := d.flat + [ArrivalOf(j)]);
    assert (set x | x in j.dependsOn :: (x, j.id)) == {};
    Goes(dbs, calls, d, Enqueue(j), d');
    dbs' := dbs + [d'];
  }

  /** A job that has to wait goes nowhere. */
  lemma ThenWaits(dbs: seq<Db>, calls: seq<Call>, d: Db, j: JobData, dep: string) returns (dbs': seq<Db>, d': Db)
    requires Reaches(dbs, calls, d) && d.ix.now == 0.0
    requires j.dependsOn == [dep] && j.id != dep && dep in d.ix.records && d.ix.records[dep].status == Pending
    ensures Reaches(dbs', calls + [Enqueue(j)], d') && dbs' == dbs + [d'] && d'.sets == d.sets
    ensures Holds(d', d.ix.records[j.id := j.(status := Waiting)], d.flat, d.dependents + {(dep, j.id)})
  {
    var waiting := j.(status := Waiting);
    d' := d.(ix := Write(d.ix, waiting), dependents := d.dependents + {(dep, j.id)});
    assert dep in j.dependsOn;
    assert Spec.CheckDependencies(d.ix.records, j) == waiting;
    assert !Spec.Overdue(d.ix.records[j.id := waiting], j.id);
    assert (set x | x in j.dependsOn :: (x, j.id)) == {(dep, j.id)};
    assert d.flat + [] == d.flat;
    Goes(dbs, calls, d, Enqueue(j), d');
    dbs' := dbs + [d'];
  }

  /** A job to run again later joins its deferred set. */
  lemma ThenDefers(dbs: seq<Db>, calls: seq<Call>, d: Db, j: JobData) returns (dbs': seq<Db>, d': Db)
    requires Reaches(dbs, calls, d) && d.ix.now == 0.0 && d.sets == map[]
    requires j.dependsOn == [] && j.status == Retrying && !j.Due(0.0)
    ensures Reaches(dbs', calls + [Enqueue(j)], d') && dbs' == dbs + [d'] && NothingComes(d'.sets, 0.0)
    ensures Holds(d', d.ix.records[j.id := j], d.flat, d.dependents)
  {
    var k, e := KeyOf(j.queue, j.priority), Entry(j.id, j.runAt.value);
    d' := d.(ix := Write(d.ix, j), sets := d.sets[k := ZAdd([], e)]);
    assert (set x | x in j.dependsOn :: (x, j.id)) == {};
    Goes(dbs, calls, d, Enqueue(j), d');
    dbs' := dbs + [d'];
  }

  ghost predicate NothingComes(sets: SortedSets, now: real) {
    forall k, x | x in SetAt(sets, k) :: x.score > now
  }

  lemma NothingMoves(sets: SortedSets, keys: seq<Key>, now: real)
    requires NothingComes(sets, now)
    ensures Moved(sets, keys, now) == []
  {
    if Moved(sets, keys, now) != [] {
      MovedComesFrom(sets, keys, now, Moved(sets, keys, now)[0]);
    }
  }

  predicate AllAre(flat: Flat, a: Arrival) {
    forall b | b in flat :: b == a
  }

  lemma FirstIsNext(flat: Flat, j: JobData)
    requires flat != [] && AllAre(flat, ArrivalOf(j))
    ensures IsNext(flat, [j.queue], 0) && flat[0] == ArrivalOf(j)
  {
    assert forall m: nat | m < |flat| :: flat[m] in flat;
  }

  function Pop(j: JobData): Call {
    Dequeue([j.queue], KeysOf(j.queue), Some(j.id))
  }

  /** What a dequeue does when nothing is promoted and all arrivals are of one job. */
  lemma PopOfFirst(d: Db, j: JobData, keys: seq<Key>) returns (d': Db)
    requires d.flat != [] && AllAre(d.flat, ArrivalOf(j)) && NothingComes(d.sets, d.ix.now) && j.id in d.ix.records
    requires forall k :: k in keys <==> k.queue in [j.queue] && k.tier in TIERS
    ensures DequeueStep(d, [j.queue], keys, Some(j.id), d')
    ensures d'.ix == d.ix && d'.flat == d.flat[1..] && d'.dependents == d.dependents
    ensures d.sets == map[] ==> d'.sets == map[]
  {
    NothingMoves(d.sets, keys, d.ix.now);
    assert d.flat + [] == d.flat;
    FirstIsNext(d.flat, j);
    d' := AfterPop(d, keys, d.flat, 0);
    PopIsDequeue(d, [j.queue], keys, d.flat, 0);
    assert Without(d.flat, 0) == d.flat[1..];
  }

  lemma ThenPops(dbs: seq<Db>, calls: seq<Call>, d: Db, j: JobData) returns (dbs': seq<Db>, d': Db)
    requires Reaches(dbs, calls, d) && d.ix.now == 0.0 && j.id in d.ix.records
    requires d.flat != [] && AllAre(d.flat, ArrivalOf(j)) && NothingComes(d.sets, 0.0)
    ensures Reaches(dbs', calls + [Pop(j)], d') && dbs' == dbs + [d'] && (d.sets == map[] ==> d'.sets == map[])
    ensures Holds(d', d.ix.records, d.flat[1..], d.dependents)
  {
    d' := PopOfFirst(d, j, KeysOf(j.queue));
    Goes(dbs, calls, d, Pop(j), d');
    dbs' := dbs + [d'];
  }

  /** An update that completes nothing. */
  lemma ThenStores(dbs: seq<Db>, calls: seq<Call>, d: Db, j: JobData) returns (dbs': seq<Db>, d': Db)
    requires Reaches(dbs, calls, d) && d.ix.now == 0.0 && j.status != Completed
    ensures Reaches(dbs', calls + [Update(j, [])], d') && dbs' == dbs + [d'] && d'.sets == d.sets
    ensures Holds(d', d.ix.records[j.id := j], d.flat, d.dependents)
  {
    d' := d.(ix := Write(d.ix, j));
    assert d.flat + Pushes(d.ix.records[j.id := j], []) == d.flat;
    Goes(dbs, calls, d, Update(j, []), d');
    dbs' := dbs + [d'];
  }

  /** An update that completes the last dependency of the one job registered with it. */
  lemma ThenWakes(dbs: seq<Db>, calls: seq<Call>, d: Db, done: JobData, j: JobData) returns (dbs': seq<Db>, d': Db)
    requires Reaches(dbs, calls, d) && d.ix.now == 0.0 && d.dependents == {(done.id, j.id)}
    requires done.status == Completed && j.id != done.id && j.dependsOn == [done.id]
    requires j.id in d.ix.records && d.ix.records[j.id] == j.(status := Waiting)
    ensures Reaches(dbs', calls + [Update(done, [j.id])], d') && dbs' == dbs + [d'] && d'.sets == d.sets
    ensures Holds(d', d.ix.records[done.id := done][j.id := j.(status := Pending)], d.flat + [ArrivalOf(j)],
                  d.dependents)
  {
    var records := d.ix.records[done.id := done];
    assert Registered(d.dependents, done.id) == {j.id} by {
      assert (done.id, j.id).1 in Registered(d.dependents, done.id);
    }
    assert Spec.Overdue(records, j.id);
    Spec.PromoteOne(records, j.id);
    d' := d.(ix := Updated(d.ix, done, d.dependents), flat := d.flat + Pushes(records, [j.id]));
    Goes(dbs, calls, d, Update(done, [j.id]), d');
    dbs' := dbs + [d'];
  }

  /** The first job is enqueued, popped and started while the second waits for it. */
  function WaiterSetUp(dep: JobData, j: JobData, a: Attempt): seq<Call> {
    [] + [Enqueue(dep)] + [Enqueue(j)] + [Pop(dep)] + [Update(Begin(dep, a), [])]
  }

  lemma BothAreEnqueued(dep: JobData, j: JobData) returns (dbs: seq<Db>, d: Db)
    requires dep.status == Pending && dep.dependsOn == [] && dep.runAt.None?
    requires j.status == Pending && j.dependsOn == [dep.id] && j.id != dep.id
    ensures Reaches(dbs, [] + [Enqueue(dep)] + [Enqueue(j)], d) && d.sets == map[]
    ensures Holds(d, map[dep.id := dep, j.id := j.(status := Waiting)], [ArrivalOf(dep)], {(dep.id, j.id)})
  {
    dbs, d := ThenArrives([EMPTY], [], EMPTY, dep);
    dbs, d := ThenWaits(dbs, [] + [Enqueue(dep)], d, j, dep.id);
  }

  lemma WaiterIsSetUp(dep: JobData, j: JobData, a: Attempt) returns (dbs: seq<Db>, d: Db)
    requires dep.status == Pending && dep.dependsOn == [] && dep.runAt.None?
    requires j.status == Pending && j.dependsOn == [dep.id] && j.id != dep.id
    ensures Reaches(dbs, WaiterSetUp(dep, j, a), d) && d.sets == map[]
    ensures Holds(d, map[dep.id := Begin(dep, a), j.id := j.(status := Waiting)], [], {(dep.id, j.id)})
  {
    dbs, d := BothAreEnqueued(dep, j);
    var calls := [] + [Enqueue(dep)] + [Enqueue(j)];
    dbs, d := ThenPops(dbs, calls, d, dep);
    dbs, d := ThenStores(dbs, calls + [Pop(dep)], d, Begin(dep, a));
  }

  /** A job deferred into the future that waits for another: when that one completes, the promotion lists it and the
      next dequeue hands it out, although its time has not come. */
  lemma WaiterIsReturnedEarly(dep: JobData, j: JobData, a: Attempt) returns (dbs: seq<Db>)
    requires dep.status == Pending && dep.dependsOn == [] && dep.runAt.None? && a.outcome.Success?
    requires j.status == Pending && j.dependsOn == [dep.id] && j.id != dep.id
    requires j.runAt.Some? && j.runAt.value > 0.0
    ensures var calls := WaiterSetUp(dep, j, a) + [Update(Run(dep, a), [j.id])] + [Pop(j)];
            IsRun(dbs, calls) && dbs[0] == EMPTY && !ReturnsDue(dbs[5], calls[5])
  {
    var d: Db;
    dbs, d := WaiterIsSetUp(dep, j, a);
    var calls := WaiterSetUp(dep, j, a);
    dbs, d := ThenWakes(dbs, calls, d, Run(dep, a), j);
    var dbs', d' := ThenPops(dbs, calls + [Update(Run(dep, a), [j.id])], d, j);
    dbs := dbs';
  }

  lemma ThenCancels(dbs: seq<Db>, calls: seq<Call>, d: Db, id: string) returns (dbs': seq<Db>, d': Db)
    requires Reaches(dbs, calls, d) && d.ix.now == 0.0
    requires id in d.ix.records && d.ix.records[id].id == id && Cancellable(d.ix.records[id].status)
    ensures Reaches(dbs', calls + [Cancel(id)], d') && dbs' == dbs + [d'] && d'.sets == d.sets
    ensures Holds(d', d.ix.records[id := d.ix.records[id].(status := Cancelled)], d.flat, d.dependents)
  {
    d' := d.(ix := Write(d.ix, d.ix.records[id].(status := Cancelled)));
    Goes(dbs, calls, d, Cancel(id), d');
    dbs' := dbs + [d'];
  }

  lemma ThenRetries(dbs: seq<Db>, calls: seq<Call>, d: Db, id: string) returns (dbs': seq<Db>, d': Db)
    requires Reaches(dbs, calls, d) && d.ix.now == 0.0
    requires id in d.ix.records && d.ix.records[id].id == id && Retriable(d.ix.records[id].status)
    ensures Reaches(dbs', calls + [Retry(id)], d') && dbs' == dbs + [d'] && d'.sets == d.sets
    ensures var j := Spec.Restarted(d.ix.records[id]);
            Holds(d', d.ix.records[id := j], d.flat + [ArrivalOf(j)], d.dependents)
  {
    var j := Spec.Restarted(d.ix.records[id]);
    d' := d.(ix := Write(d.ix, j), flat := d.flat + [ArrivalOf(j)]);
    Goes(dbs, calls, d, Retry(id), d');
    dbs' := dbs + [d'];
  }

  /** A job cancelled while it is listed and then retried is listed twice. */
  lemma RetriedIsListedTwice(j: JobData) returns (dbs: seq<Db>, d: Db)
    requires j.status == Pending && j.dependsOn == [] && j.runAt.None?
    ensures Reaches(dbs, [] + [Enqueue(j)] + [Cancel(j.id)] + [Retry(j.id)], d) && d.sets == map[]
    ensures Holds(d, map[j.id := Spec.Restarted(j)], [ArrivalOf(j), ArrivalOf(j)], {})
  {
    dbs, d := ThenArrives([EMPTY], [], EMPTY, j);
    dbs, d := ThenCancels(dbs, [] + [Enqueue(j)], d, j.id);
    dbs, d := ThenRetries(dbs, [] + [Enqueue(j)] + [Cancel(j.id)], d, j.id);
  }

  /** One copy is popped, and the attempt fails with a delay before the next. */
  lemma RetryIsDeferred(dbs: seq<Db>, calls: seq<Call>, d: Db, j: JobData, a: Attempt)
    returns (dbs': seq<Db>, d': Db)
    requires Reaches(dbs, calls, d) && d.sets == map[]
    requires Holds(d, map[j.id := j], [ArrivalOf(j), ArrivalOf(j)], {}) && j.dependsOn == []
    requires Run(j, a).status == Retrying && !Run(j, a).Due(0.0)
    ensures Reaches(dbs', calls + [Pop(j)] + [Update(Begin(j, a), [])] + [Enqueue(Run(j, a))], d')
    ensures |dbs'| == |dbs| + 3 && NothingComes(d'.sets, 0.0)
    ensures Holds(d', map[j.id := Run(j, a)], [ArrivalOf(j)], {})
  {
    dbs', d' := ThenPops(dbs, calls, d, j);
    dbs', d' := ThenStores(dbs', calls + [Pop(j)], d', Begin(j, a));
    dbs', d' := ThenDefers(dbs', calls + [Pop(j)] + [Update(Begin(j, a), [])], d', Run(j, a));
  }

  /** The other copy is then handed out before the retry's time. */
  lemma LeftoverIsReturnedEarly(j: JobData, a: Attempt) returns (dbs: seq<Db>)
    requires j.status == Pending && j.dependsOn == [] && j.runAt.None? && j.maxRetries >= 1
    requires a.outcome.Failure? && a.endedAt >= 0.0 && RetryDelayOf(j.(retries := 1), a.draw) > 0.0
    ensures var again := Spec.Restarted(j);
            var calls := [] + [Enqueue(j)] + [Cancel(j.id)] + [Retry(j.id)]
                         + [Pop(again)] + [Update(Begin(again, a), [])] + [Enqueue(Run(again, a))] + [Pop(again)];
            IsRun(dbs, calls) && dbs[0] == EMPTY && !ReturnsDue(dbs[6], calls[6])
  {
    var again := Spec.Restarted(j);
    var d: Db;
    dbs, d := RetriedIsListedTwice(j);
    var calls := [] + [Enqueue(j)] + [Cancel(j.id)] + [Retry(j.id)];
    dbs, d := RetryIsDeferred(dbs, calls, d, again, a);
    calls := calls + [Pop(again)] + [Update(Begin(again, a), [])] + [Enqueue(Run(again, a))];
    var dbs', d' := ThenPops(dbs, calls, d, again);
    dbs := dbs';
  }

  // ---------------------------------------------------------------- the order of two jobs

  lemma SecondIsTaken(flat: Flat, a: JobData, b: JobData, popped: Option<string>, flat': Flat)
    requires flat == [ArrivalOf(a), ArrivalOf(b)] && a.queue == b.queue
    requires a.priority <= 0 < b.priority || a.priority <= 5 < b.priority
    requires TakesNext(flat, [b.queue], popped, flat')
    ensures popped == Some(b.id)
  {
    assert flat[0].key.queue in [b.queue];
    var i: nat :| IsNext(flat, [b.queue], i) && flat[i].id == popped.value;
    if i == 0 {
      HigherBandFirst(flat, [b.queue], 0, 1, a.queue, a.priority, b.queue, b.priority);
    }
  }

  /** Of two jobs enqueued in one queue, any dequeue takes the later one if its priority is in a higher band. */
  lemma HigherBandIsReturned(a: JobData, b: JobData) returns (dbs: seq<Db>)
    requires a.dependsOn == [] && a.status == Pending && a.Due(0.0)
    requires b.dependsOn == [] && b.status == Pending && b.Due(0.0)
    requires a.queue == b.queue && a.id != b.id && (a.priority <= 0 < b.priority || a.priority <= 5 < b.priority)
    ensures IsRun(dbs, [] + [Enqueue(a)] + [Enqueue(b)]) && dbs[0] == EMPTY
    ensures forall keys, popped, d' | Steps(dbs[2], Dequeue([b.queue], keys, popped), d') :: popped == Some(b.id)
  {
    var d: Db;
    dbs, d := ThenArrives([EMPTY], [], EMPTY, a);
    dbs, d := ThenArrives(dbs, [] + [Enqueue(a)], d, b);
    forall keys, popped, d' | Steps(dbs[2], Dequeue([b.queue], keys, popped), d')
      ensures popped == Some(b.id)
    {
      NothingMoves(d.sets, keys, d.ix.now);
      assert d.flat + [] == d.flat;
      SecondIsTaken(d.flat, a, b, popped, d'.flat);
    }
  }
}
