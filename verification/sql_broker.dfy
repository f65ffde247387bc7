/** The SQL brokers' own forms of shared operations (src/aioq/backends/sql.py, postgres.py, mysql.py),
    call by call on the job table: the counting dependency test, batched enqueueing and the loop that
    wakes dependents. */
module SqlBroker {
  import opened Jobs
  import Spec = MemorySpec
  import opened SqlMachine

  // ---------------------------------------------------------------- counting

  /** The ids of `ids` that name a completed row: what the count query counts. */
  function CompletedAmong(rows: JobMap, ids: seq<string>): set<string> {
    set id | id in ids && id in rows && rows[id].status == Completed
  }

  ghost predicate NoRepeats(ids: seq<string>) {
    forall i, k | 0 <= i < k < |ids| :: ids[i] != ids[k]
  }

  lemma {:induction false} DistinctCount(ids: seq<string>)
    requires NoRepeats(ids)
    ensures |set id | id in ids| == |ids|
  {
    if ids != [] {
      var n := |ids| - 1;
      DistinctCount(ids[..n]);
      assert (set id | id in ids) == (set id | id in ids[..n]) + {ids[n]};
    }
  }

  /** Counting the completed rows among distinct ids tests that all are completed. */
  lemma CountTestsAll(rows: JobMap, ids: seq<string>)
    requires NoRepeats(ids)
    ensures |CompletedAmong(rows, ids)| == |ids| <==> AllCompleted(rows, ids)
  {
    var named := set id | id in ids;
    DistinctCount(ids);
    assert CompletedAmong(rows, ids) <= named;
    assert AllCompleted(rows, ids) ==> CompletedAmong(rows, ids) == named;
    if |CompletedAmong(rows, ids)| == |ids| {
      SubsetOfSameSize(CompletedAmong(rows, ids), named);
      forall d | d in ids
        ensures d in rows && rows[d].status == Completed
      {
        assert d in named;
      }
    }
  }

  lemma SubsetOfSameSize(a: set<string>, b: set<string>)
    requires a <= b && |a| == |b|
    ensures a == b
  {
    assert |b - a| == 0;
  }

  // ---------------------------------------------------------------- enqueueing

  /** One enqueue with nothing in between: check, upsert, check again if waiting. */
  function EnqueueOne(rows: JobMap, j: JobData): JobMap {
    var j' := Spec.CheckDependencies(rows, j);
    var written := Upsert(rows, j');
    if j'.status == Waiting && AllCompleted(written, j.dependsOn) then MarkWaitingAsPending(written, j.id) else written
  }

  /** The base class's enqueue_many: one after the other. */
  function EnqueueAll(rows: JobMap, jobs: seq<JobData>): JobMap {
    if jobs == [] then rows
    else EnqueueOne(EnqueueAll(rows, jobs[..|jobs| - 1]), jobs[|jobs| - 1])
  }

  /** Jobs to enqueue, none of which replaces a completed row. */
  ghost predicate NewWork(rows: JobMap, jobs: seq<JobData>) {
    forall k | 0 <= k < |jobs| ::
      Runnable(jobs[k].status) && (jobs[k].id in rows ==> rows[jobs[k].id].status != Completed)
  }

  /** The upserts alone, of jobs whose status was set by a check against `first`. */
  function UpsertAll(first: JobMap, jobs: seq<JobData>): JobMap {
    if jobs == [] then first
    else Upsert(UpsertAll(first, jobs[..|jobs| - 1]), Spec.CheckDependencies(first, jobs[|jobs| - 1]))
  }

  /** The second look at the jobs that were left waiting by the check against `first`. */
  function WakeAll(rows: JobMap, first: JobMap, jobs: seq<JobData>): JobMap {
    if jobs == [] then rows
    else
      var j, before := jobs[|jobs| - 1], WakeAll(rows, first, jobs[..|jobs| - 1]);
      if Spec.CheckDependencies(first, j).status == Waiting && AllCompleted(before, j.dependsOn)
      then MarkWaitingAsPending(before, j.id) else before
  }

  ghost predicate AllRunnable(jobs: seq<JobData>) {
    forall k | 0 <= k < |jobs| :: Runnable(jobs[k].status)
  }

  ghost predicate DistinctIds(jobs: seq<JobData>) {
    forall i, k | 0 <= i < k < |jobs| :: jobs[i].id != jobs[k].id
  }

  predicate Stores(jobs: seq<JobData>, id: string) {
    exists k :: 0 <= k < |jobs| && jobs[k].id == id
  }

  /** No job whose dependencies are all completed at first names an id that an earlier job of the batch stores. */
  ghost predicate KeepsNeeded(first: JobMap, jobs: seq<JobData>) {
    forall i, k | 0 <= i < k < |jobs| && AllCompleted(first, jobs[k].dependsOn) :: jobs[i].id !in jobs[k].dependsOn
  }

  /** The completed rows are those completed at first that no job of the batch replaced. */
  ghost predicate CompletedLeft(first: JobMap, jobs: seq<JobData>, rows: JobMap) {
    forall d :: HasStatus(rows, d, Completed) <==> HasStatus(first, d, Completed) && !Stores(jobs, d)
  }

  lemma StoresNext(jobs: seq<JobData>, j: JobData, d: string)
    ensures Stores(jobs + [j], d) <==> d == j.id || Stores(jobs, d)
  {
    var more := jobs + [j];
    assert more[|jobs|] == j;
    assert forall k | 0 <= k < |jobs| :: more[k] == jobs[k];
  }

  lemma StoringLeaves(first: JobMap, jobs: seq<JobData>, rows: JobMap, j: JobData)
    requires CompletedLeft(first, jobs, rows) && j.status != Completed
    ensures CompletedLeft(first, jobs + [j], Upsert(rows, j))
  {
    forall d
      ensures HasStatus(Upsert(rows, j), d, Completed)
              <==> HasStatus(first, d, Completed) && !Stores(jobs + [j], d)
    {
      StoresNext(jobs, j, d);
      assert HasStatus(rows, d, Completed) <==> HasStatus(first, d, Completed) && !Stores(jobs, d);
    }
  }

  /** Which of the jobs were stored counts, not with which status. */
  lemma LeavesByIds(first: JobMap, jobs: seq<JobData>, a: JobData, b: JobData, rows: JobMap)
    requires CompletedLeft(first, jobs + [a], rows) && a.id == b.id
    ensures CompletedLeft(first, jobs + [b], rows)
  {
    forall d
      ensures HasStatus(rows, d, Completed) <==> HasStatus(first, d, Completed) && !Stores(jobs + [b], d)
    {
      StoresNext(jobs, a, d);
      StoresNext(jobs, b, d);
    }
  }

  /** A check after the batch finds what was completed at first and is not replaced. */
  lemma ChecksAgainst(first: JobMap, jobs: seq<JobData>, rows: JobMap, deps: seq<string>)
    requires CompletedLeft(first, jobs, rows)
    ensures AllCompleted(rows, deps) <==> AllCompleted(first, deps) && forall d | d in deps :: !Stores(jobs, d)
  {
    forall d | d in deps
      ensures HasStatus(rows, d, Completed) <==> HasStatus(first, d, Completed) && !Stores(jobs, d)
    {
    }
    if AllCompleted(rows, deps) {
      assert forall d | d in deps :: HasStatus(rows, d, Completed);
    }
    if AllCompleted(first, deps) {
      assert forall d | d in deps :: HasStatus(first, d, Completed);
    }
  }

  /** One enqueue is its first check and the upsert: the second check finds nothing that the first did not. */
  lemma EnqueueIsUpsert(first: JobMap, jobs: seq<JobData>, rows: JobMap, j: JobData)
    requires CompletedLeft(first, jobs, rows) && Runnable(j.status)
    ensures EnqueueOne(rows, j) == Upsert(rows, Spec.CheckDependencies(rows, j))
    ensures CompletedLeft(first, jobs + [j], EnqueueOne(rows, j))
  {
    var j' := Spec.CheckDependencies(rows, j);
    StoringLeaves(first, jobs, rows, j');
    LeavesByIds(first, jobs, j', j, Upsert(rows, j'));
    ChecksAgainst(first, jobs, rows, j.dependsOn);
    ChecksAgainst(first, jobs + [j], Upsert(rows, j'), j.dependsOn);
    forall d | d in j.dependsOn
      ensures Stores(jobs, d) ==> Stores(jobs + [j], d)
    {
      StoresNext(jobs, j, d);
    }
  }

  lemma {:induction false} BothLeave(first: JobMap, jobs: seq<JobData>)
    requires AllRunnable(jobs)
    ensures CompletedLeft(first, jobs, UpsertAll(first, jobs)) && CompletedLeft(first, jobs, EnqueueAll(first, jobs))
  {
    if jobs != [] {
      var n := |jobs| - 1;
      var before, j := jobs[..n], jobs[n];
      assert jobs == before + [j] && Runnable(j.status);
      BothLeave(first, before);
      var checked := Spec.CheckDependencies(first, j);
      StoringLeaves(first, before, UpsertAll(first, before), checked);
      LeavesByIds(first, before, checked, j, UpsertAll(first, jobs));
      EnqueueIsUpsert(first, before, EnqueueAll(first, before), j);
    }
  }

  /** Nothing that was open at first is completed by the batch, so the second look promotes nobody. */
  lemma {:induction false} NobodyWakes(first: JobMap, jobs: seq<JobData>, part: seq<JobData>)
    requires AllRunnable(jobs) && part <= jobs
    ensures WakeAll(UpsertAll(first, jobs), first, part) == UpsertAll(first, jobs)
  {
    if part != [] {
      var n := |part| - 1;
      NobodyWakes(first, jobs, part[..n]);
      BothLeave(first, jobs);
      assert part[n] == jobs[n] && Runnable(jobs[n].status);
      ChecksAgainst(first, jobs, UpsertAll(first, jobs), part[n].dependsOn);
    }
  }

  /** A row that the batch does not store is as it was. */
  lemma {:induction false} OthersUntouched(first: JobMap, jobs: seq<JobData>, id: string)
    requires AllRunnable(jobs) && !Stores(jobs, id)
    ensures forall rows | rows in {UpsertAll(first, jobs), EnqueueAll(first, jobs)} ::
              if id in first then id in rows && rows[id] == first[id] else id !in rows
  {
    if jobs != [] {
      var n := |jobs| - 1;
      var before, j := jobs[..n], jobs[n];
      assert jobs == before + [j] && Runnable(j.status);
      StoresNext(before, j, id);
      OthersUntouched(first, before, id);
      BothLeave(first, before);
      EnqueueIsUpsert(first, before, EnqueueAll(first, before), j);
    }
  }

  /** The two checks of one job agree exactly when no earlier job stored what it needs. */
  lemma ChecksAgree(first: JobMap, jobs: seq<JobData>, rows: JobMap, j: JobData)
    requires CompletedLeft(first, jobs, rows) && Runnable(j.status)
    ensures Spec.CheckDependencies(rows, j) == Spec.CheckDependencies(first, j)
            <==> (AllCompleted(first, j.dependsOn) ==> forall i | 0 <= i < |jobs| :: jobs[i].id !in j.dependsOn)
  {
    ChecksAgainst(first, jobs, rows, j.dependsOn);
    if forall i | 0 <= i < |jobs| :: jobs[i].id !in j.dependsOn {
      assert forall d | d in j.dependsOn :: !Stores(jobs, d);
    } else {
      var i :| 0 <= i < |jobs| && jobs[i].id in j.dependsOn;
      assert Stores(jobs, jobs[i].id);
    }
  }

  lemma NeededNext(first: JobMap, jobs: seq<JobData>, j: JobData)
    ensures KeepsNeeded(first, jobs + [j])
            <==> KeepsNeeded(first, jobs)
                 && (AllCompleted(first, j.dependsOn) ==> forall i | 0 <= i < |jobs| :: jobs[i].id !in j.dependsOn)
  {
    var more := jobs + [j];
    assert more[|jobs|] == j;
    assert forall k | 0 <= k < |jobs| :: more[k] == jobs[k];
    if KeepsNeeded(first, more) {
      forall i, k | 0 <= i < k < |jobs| && AllCompleted(first, jobs[k].dependsOn)
        ensures jobs[i].id !in jobs[k].dependsOn
      {
        assert more[i].id !in more[k].dependsOn;
      }
      forall i | 0 <= i < |jobs| && AllCompleted(first, j.dependsOn)
        ensures jobs[i].id !in j.dependsOn
      {
        assert more[i].id !in more[|jobs|].dependsOn;
      }
    }
  }

  /** Upserts of one job with two statuses differ as the statuses do; upserts of one id on tables that differ
      elsewhere still differ. */
  lemma UpsertsCompare(a: JobMap, b: JobMap, j: JobData, k: JobData)
    requires j.id == k.id && (j.id in a <==> j.id in b) && (j.id in a ==> a[j.id] == b[j.id])
    requires k == j.(status := k.status)
    ensures Upsert(a, j) == Upsert(b, k) <==> a == b && j.status == k.status
  {
    var a', b' := Upsert(a, j), Upsert(b, k);
    assert a'[j.id].status == j.status && b'[j.id].status == k.status;
    if a' == b' {
      forall id
        ensures id in a <==> id in b
        ensures id in a && id in b ==> a[id] == b[id]
      {
        assert id != j.id ==> (id in a <==> id in a') && (id in b <==> id in b');
      }
      assert a == b;
    }
  }

  /** The tables after both forms, by what the batch replaces. */
  lemma {:induction false} UpsertsAreOneByOne(first: JobMap, jobs: seq<JobData>)
    requires AllRunnable(jobs)
    ensures KeepsNeeded(first, jobs) ==> UpsertAll(first, jobs) == EnqueueAll(first, jobs)
    ensures DistinctIds(jobs) && UpsertAll(first, jobs) == EnqueueAll(first, jobs) ==> KeepsNeeded(first, jobs)
  {
    if jobs != [] {
      var n := |jobs| - 1;
      var before, j := jobs[..n], jobs[n];
      assert jobs == before + [j] && Runnable(j.status);
      UpsertsAreOneByOne(first, before);
      BothLeave(first, before);
      NeededNext(first, before, j);
      ChecksAgree(first, before, EnqueueAll(first, before), j);
      EnqueueIsUpsert(first, before, EnqueueAll(first, before), j);
      if DistinctIds(jobs) {
        NextCompare(first, before, j);
      }
    }
  }

  /** With a new id the tables after one more job are equal only if they were before and the checks agree. */
  lemma NextCompare(first: JobMap, before: seq<JobData>, j: JobData)
    requires AllRunnable(before) && !Stores(before, j.id)
    ensures var a, b := UpsertAll(first, before), EnqueueAll(first, before);
            Upsert(a, Spec.CheckDependencies(first, j)) == Upsert(b, Spec.CheckDependencies(b, j))
            <==> a == b && Spec.CheckDependencies(first, j) == Spec.CheckDependencies(b, j)
  {
    var a, b := UpsertAll(first, before), EnqueueAll(first, before);
    OthersUntouched(first, before, j.id);
    assert a in {a, b} && b in {a, b};
    UpsertsCompare(a, b, Spec.CheckDependencies(first, j), Spec.CheckDependencies(b, j));
  }

  /** A check before all the upserts gives the table of checks before each of them exactly when no job that could
      start at first names an id which an earlier job of the batch replaces. */
  lemma BatchIsOneByOneExactly(first: JobMap, jobs: seq<JobData>)
    requires AllRunnable(jobs) && DistinctIds(jobs)
    ensures WakeAll(UpsertAll(first, jobs), first, jobs) == EnqueueAll(first, jobs) <==> KeepsNeeded(first, jobs)
  {
    NobodyWakes(first, jobs, jobs);
    UpsertsAreOneByOne(first, jobs);
  }

  /** Repeated ids or not, new work keeps what is needed, and is stored as one by one. */
  lemma NewWorkIsOneByOne(first: JobMap, jobs: seq<JobData>)
    requires NewWork(first, jobs)
    ensures WakeAll(UpsertAll(first, jobs), first, jobs) == EnqueueAll(first, jobs)
  {
    NobodyWakes(first, jobs, jobs);
    UpsertsAreOneByOne(first, jobs);
  }

  /** A batch that replaces a completed row which a later job of the batch depends on: one by one the later
      job waits, in a batch it does not. */
  lemma BatchDiffersOnReplacedRow(done: JobData, again: JobData, later: JobData)
    requires done.status == Completed && again.id == done.id && again.dependsOn == []
    requires again.status == Pending && later.status == Pending && later.dependsOn == [done.id] && later.id != done.id
    ensures var first, jobs := map[done.id := done], [again, later];
            && HasStatus(WakeAll(UpsertAll(first, jobs), first, jobs), later.id, Pending)
            && HasStatus(EnqueueAll(first, jobs), later.id, Waiting)
  {
    var first, jobs := map[done.id := done], [again, later];
    assert jobs[..1] == [again] && [again][..0] == [];
    assert UpsertAll(first, [again]) == EnqueueAll(first, [again]) == Upsert(first, again);
    assert UpsertAll(first, jobs) == Upsert(Upsert(first, again), later);
    assert EnqueueAll(first, jobs) == EnqueueOne(Upsert(first, again), later);
    assert !HasStatus(Upsert(first, again), done.id, Completed) && done.id in later.dependsOn;
    var waiting := Upsert(Upsert(first, again), later.(status := Waiting));
    assert !HasStatus(waiting, done.id, Completed) && !AllCompleted(waiting, later.dependsOn);
    assert WakeAll(UpsertAll(first, jobs), first, [again]) == UpsertAll(first, jobs);
  }

  // ---------------------------------------------------------------- what the rows get

  /** The stored row of a job: a row that was there keeps its first columns and what an attempt left, and takes the
      rest from the job; a new one is the job with nothing of an attempt. */
  predicate StoredAs(before: JobMap, j: JobData, rows: JobMap) {
    && j.id in rows
    && var r := rows[j.id];
      && r.queue == j.queue && r.retries == j.retries && r.runAt == j.runAt && r.priority == j.priority
      && r.dependsOn == j.dependsOn && r.status in {j.status, Waiting, Pending}
      && var kept := if j.id in before then before[j.id]
                     else j.(startedAt := None, completedAt := None, result := None, error := None, workerId := None);
         r == kept.(status := r.status, queue := r.queue, retries := r.retries, runAt := r.runAt,
                    priority := r.priority, dependsOn := r.dependsOn)
  }

  lemma UpsertStores(rows: JobMap, j: JobData, checked: JobData)
    requires checked == j.(status := checked.status) && checked.status in {j.status, Waiting}
    ensures StoredAs(rows, j, Upsert(rows, checked))
  {
  }

  lemma MarkKeepsStored(before: JobMap, j: JobData, rows: JobMap, id: string)
    requires StoredAs(before, j, rows)
    ensures StoredAs(before, j, MarkWaitingAsPending(rows, id))
  {
  }

  lemma OtherUpsertKeepsStored(before: JobMap, j: JobData, rows: JobMap, other: JobData)
    requires StoredAs(before, j, rows) && other.id != j.id
    ensures StoredAs(before, j, Upsert(rows, other))
  {
  }

  lemma {:induction false} UpsertsLeave(first: JobMap, jobs: seq<JobData>, id: string)
    requires !Stores(jobs, id)
    ensures var rows := UpsertAll(first, jobs); if id in first then id in rows && rows[id] == first[id] else id !in rows
  {
    if jobs != [] {
      var n := |jobs| - 1;
      assert jobs == jobs[..n] + [jobs[n]];
      StoresNext(jobs[..n], jobs[n], id);
      UpsertsLeave(first, jobs[..n], id);
    }
  }

  /** In a batch with different ids every job is stored beside what the table had of it at first. */
  lemma {:induction false} BatchStores(first: JobMap, jobs: seq<JobData>, k: nat)
    requires DistinctIds(jobs) && k < |jobs|
    ensures StoredAs(first, jobs[k], UpsertAll(first, jobs))
  {
    var n := |jobs| - 1;
    var before, checked := UpsertAll(first, jobs[..n]), Spec.CheckDependencies(first, jobs[n]);
    if k < n {
      BatchStores(first, jobs[..n], k);
      OtherUpsertKeepsStored(first, jobs[k], before, checked);
    } else {
      UpsertsLeave(first, jobs[..n], jobs[n].id);
      UpsertStores(before, jobs[n], checked);
    }
  }

  lemma {:induction false} WakesKeepStored(before: JobMap, j: JobData, rows: JobMap, first: JobMap, jobs: seq<JobData>)
    requires StoredAs(before, j, rows)
    ensures StoredAs(before, j, WakeAll(rows, first, jobs))
  {
    if jobs != [] {
      var n := |jobs| - 1;
      WakesKeepStored(before, j, rows, first, jobs[..n]);
      MarkKeepsStored(before, j, WakeAll(rows, first, jobs[..n]), jobs[n].id);
    }
  }

  /** What the batch stores of each of its jobs. */
  lemma BatchIsStored(first: JobMap, jobs: seq<JobData>)
    requires DistinctIds(jobs)
    ensures forall j | j in jobs :: StoredAs(first, j, WakeAll(UpsertAll(first, jobs), first, jobs))
  {
    forall j | j in jobs
      ensures StoredAs(first, j, WakeAll(UpsertAll(first, jobs), first, jobs))
    {
      var k :| 0 <= k < |jobs| && jobs[k] == j;
      BatchStores(first, jobs, k);
      WakesKeepStored(first, j, UpsertAll(first, jobs), first, jobs);
    }
  }

  class Broker {
    var rows: JobMap

    constructor ()
      ensures rows == map[]
    {
      rows := map[];
    }

    /** dict.fromkeys: the first occurrence of each id, in order. */
    method Unique(ids: seq<string>) returns (unique: seq<string>)
      ensures NoRepeats(unique) && forall id :: id in unique <==> id in ids
    {
      unique := [];
      var i := 0;
      while i < |ids|
        invariant 0 <= i <= |ids| && NoRepeats(unique)
        invariant forall id :: id in unique <==> id in ids[..i]
      {
        assert ids[..i + 1] == ids[..i] + [ids[i]];
        if ids[i] !in unique {
          unique := unique + [ids[i]];
        }
        i := i + 1;
      }
      assert ids[..i] == ids;
    }

    /** The counting form, for any list with or without repeats. */
    method AllDepsCompleted(ids: seq<string>) returns (ok: bool)
      ensures ok == AllCompleted(rows, ids)
    {
      if ids == [] {
        return true;
      }
      var unique := Unique(ids);
      CountTestsAll(rows, unique);
      assert AllCompleted(rows, unique) <==> AllCompleted(rows, ids);
      return |CompletedAmong(rows, unique)| == |unique|;
    }

    method CheckDependencies(job: JobData) returns (checked: JobData)
      ensures checked == Spec.CheckDependencies(rows, job)
    {
      if job.dependsOn == [] {
        return job;
      }
      var ok := AllDepsCompleted(job.dependsOn);
      return if ok then job else job.(status := Waiting);
    }

    /** The count, and then the guarded update. */
    method MarkIfReady(id: string, deps: seq<string>)
      modifies this
      ensures rows == if AllCompleted(old(rows), deps) then MarkWaitingAsPending(old(rows), id) else old(rows)
    {
      var ok := AllDepsCompleted(deps);
      if ok {
        rows := MarkWaitingAsPending(rows, id);
      }
    }

    method Enqueue(job: JobData)
      modifies this
      ensures rows == EnqueueOne(old(rows), job) && StoredAs(old(rows), job, rows)
    {
      var checked := CheckDependencies(job);
      UpsertStores(rows, job, checked);
      rows := Upsert(rows, checked);
      if checked.status == Waiting {
        MarkIfReady(checked.id, checked.dependsOn);
      }
    }

    method CheckAll(jobs: seq<JobData>) returns (checked: seq<JobData>)
      ensures |checked| == |jobs|
      ensures forall k | 0 <= k < |jobs| :: checked[k] == Spec.CheckDependencies(rows, jobs[k])
    {
      checked := [];
      var i := 0;
      while i < |jobs|
        invariant 0 <= i <= |jobs| && |checked| == i
        invariant forall k | 0 <= k < i :: checked[k] == Spec.CheckDependencies(rows, jobs[k])
      {
        var job := CheckDependencies(jobs[i]);
        checked := checked + [job];
        i := i + 1;
      }
    }

    /** Check all, upsert all, check the waiting ones again. */
    method EnqueueMany(jobs: seq<JobData>)
      modifies this
      ensures rows == WakeAll(UpsertAll(old(rows), jobs), old(rows), jobs)
      ensures NewWork(old(rows), jobs) ==> rows == EnqueueAll(old(rows), jobs)
      ensures AllRunnable(jobs) && DistinctIds(jobs) ==>
                (rows == EnqueueAll(old(rows), jobs) <==> KeepsNeeded(old(rows), jobs))
      ensures DistinctIds(jobs) ==> forall j | j in jobs :: StoredAs(old(rows), j, rows)
    {
      ghost var first := rows;
      var checked := CheckAll(jobs);
      UpsertChecked(checked, first, jobs);
      LookAgain(checked, first, jobs);
      if NewWork(first, jobs) {
        NewWorkIsOneByOne(first, jobs);
      }
      if AllRunnable(jobs) && DistinctIds(jobs) {
        BatchIsOneByOneExactly(first, jobs);
      }
      if DistinctIds(jobs) {
        BatchIsStored(first, jobs);
      }
    }

    method UpsertChecked(checked: seq<JobData>, ghost first: JobMap, ghost jobs: seq<JobData>)
      requires rows == first && |checked| == |jobs|
      requires forall k | 0 <= k < |jobs| :: checked[k] == Spec.CheckDependencies(first, jobs[k])
      modifies this
      ensures rows == UpsertAll(first, jobs)
    {
      var i := 0;
      while i < |checked|
        invariant 0 <= i <= |checked| && rows == UpsertAll(first, jobs[..i])
      {
        rows := Upsert(rows, checked[i]);
        assert jobs[..i + 1][..i] == jobs[..i];
        i := i + 1;
      }
      assert jobs[..i] == jobs;
    }

    method LookAgain(checked: seq<JobData>, ghost first: JobMap, ghost jobs: seq<JobData>)
      requires |checked| == |jobs|
      requires forall k | 0 <= k < |jobs| :: checked[k] == Spec.CheckDependencies(first, jobs[k])
      modifies this
      ensures rows == WakeAll(old(rows), first, jobs)
    {
      var i := 0;
      while i < |checked|
        invariant 0 <= i <= |checked| && rows == WakeAll(old(rows), first, jobs[..i])
      {
        if checked[i].status == Waiting {
          MarkIfReady(checked[i].id, checked[i].dependsOn);
        }
        assert jobs[..i + 1][..i] == jobs[..i];
        i := i + 1;
      }
      assert jobs[..i] == jobs;
    }

    /** The loop over the fetched rows: `found` has every waiting dependent and may have more. The waiting
        dependents whose dependencies are all completed become pending, as in the in-process broker. */
    method ResolveDependents(finished: string, found: seq<Waiter>)
      requires FetchedFor(rows, finished, found)
      modifies this
      ensures rows == Spec.Promote(old(rows), Spec.Dependents(old(rows), finished))
    {
      ghost var before := rows;
      var i := 0;
      while i < |found|
        invariant 0 <= i <= |found| && Resolved(before, finished, found, i, rows)
      {
        ResolveOne(before, finished, found, i);
        i := i + 1;
      }
      FetchedIsEnough(before, finished, found);
    }

    /** Store the columns of the job, and wake its dependents once it is completed; `found` is what the
        query for them fetches after the update. */
    method UpdateJob(job: JobData, found: seq<Waiter>)
      requires FetchedFor(Update(rows, job), job.id, found)
      modifies this
      ensures var updated := Update(old(rows), job);
              rows == if job.status == Completed then Spec.Promote(updated, Spec.Dependents(updated, job.id))
                      else updated
    {
      rows := Update(rows, job);
      if job.status == Completed {
        ResolveDependents(job.id, found);
      }
    }

    /** The loop's body for one fetched row. */
    method ResolveOne(ghost before: JobMap, finished: string, found: seq<Waiter>, i: nat)
      requires i < |found| && Resolved(before, finished, found, i, rows) && FetchedFor(before, finished, found)
      modifies this
      ensures Resolved(before, finished, found, i + 1, rows)
    {
      assert found[i] in found;
      ResolveStep(before, finished, found, i, rows);
      if finished !in found[i].deps {
        return;
      }
      MarkIfReady(found[i].id, found[i].deps);
    }
  }

  /** Those among the first `n` fetched rows that depend on `finished`. */
  function Dependent(finished: string, found: seq<Waiter>, n: nat): set<string>
    requires n <= |found|
  {
    set k | 0 <= k < n && finished in found[k].deps :: found[k].id
  }

  /** The rows after the loop went through the first `n` fetched rows. */
  ghost predicate Resolved(before: JobMap, finished: string, found: seq<Waiter>, n: nat, rows: JobMap)
    requires n <= |found|
  {
    rows == Spec.Promote(before, Dependent(finished, found, n))
  }

  lemma ResolveStep(before: JobMap, finished: string, found: seq<Waiter>, n: nat, rows: JobMap)
    requires n < |found| && Resolved(before, finished, found, n, rows)
    requires var w := found[n]; w.id in before && before[w.id].status == Waiting && w.deps == before[w.id].dependsOn
    ensures Resolved(before, finished, found, n + 1,
                     if finished in found[n].deps && AllCompleted(rows, found[n].deps)
                     then MarkWaitingAsPending(rows, found[n].id) else rows)
  {
    if finished in found[n].deps {
      assert Dependent(finished, found, n + 1) == Dependent(finished, found, n) + {found[n].id};
      MarkIsPromotion(before, Dependent(finished, found, n), found[n]);
    } else {
      assert Dependent(finished, found, n + 1) == Dependent(finished, found, n);
    }
  }

  lemma MarkIsPromotion(before: JobMap, seen: set<string>, w: Waiter)
    requires w.id in before && before[w.id].status == Waiting && w.deps == before[w.id].dependsOn
    ensures Spec.Promote(before, seen + {w.id})
         == (var rows := Spec.Promote(before, seen);
             if AllCompleted(rows, w.deps) then MarkWaitingAsPending(rows, w.id) else rows)
  {
    Spec.PromoteKeepsCompleted(before, seen, w.deps);
  }

  lemma FetchedIsEnough(before: JobMap, finished: string, found: seq<Waiter>)
    requires FetchedFor(before, finished, found)
    ensures Spec.Promote(before, Dependent(finished, found, |found|))
            == Spec.Promote(before, Spec.Dependents(before, finished))
  {
    forall id | id in before && before[id].status == Waiting
      ensures id in Dependent(finished, found, |found|) <==> id in Spec.Dependents(before, finished)
    {
      if finished in before[id].dependsOn {
        var k :| 0 <= k < |found| && found[k] == Waiter(id, before[id].dependsOn);
        assert found[k].id in Dependent(finished, found, |found|);
      }
    }
    OnlyWaitingMatter(before, Dependent(finished, found, |found|), Spec.Dependents(before, finished));
  }

  lemma OnlyWaitingMatter(jobs: JobMap, a: set<string>, b: set<string>)
    requires forall id | id in jobs && jobs[id].status == Waiting :: id in a <==> id in b
    ensures Spec.Promote(jobs, a) == Spec.Promote(jobs, b)
  {
  }
}
