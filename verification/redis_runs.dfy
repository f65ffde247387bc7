/** Whole runs of Redis broker calls and workers (src/aioq/backends/redis.py, worker.py), each call
    running to completion: when do the indexes stay in agreement with the records? */
module RedisRuns {
  import opened Jobs
  import opened Attempts
  import Spec = MemorySpec
  import opened RedisIndex

  /** A worker's own copy of a popped job: before and after the look at the fresh record, and running. */
  datatype Task = Popped(job: JobData) | Cleared(job: JobData) | Executing(job: JobData)

  /** The indexed records, how often each id is in a pending list or deferred set, what the workers are
      at, and for every id ever enqueued whether its result is kept: ids are fresh UUIDs. */
  datatype World = World(ix: Index, listed: multiset<string>, workers: map<nat, Task>, keeps: map<string, bool>)

  /** Wake is the promotion of one dependent; Reap clears one expiring member. */
  datatype Action =
    | Enqueue(job: JobData)
    | Pop(pid: nat, id: string)
    | FailUnknown(pid: nat, error: string, now: real)
    | ReadFresh(pid: nat)
    | Start(pid: nat, attempt: Attempt)
    | Finish(pid: nat, attempt: Attempt)
    | Wake(id: string)
    | Cancel(id: string)
    | RetryJob(id: string)
    | Replay(id: string)
    | Purge(id: string)
    | Advance(now: real)
    | Reap(id: string, queue: string)

  predicate Enabled(w: World, a: Action) {
    match a
    case Enqueue(job) => job.id !in w.keeps && job.status == Pending
    case Pop(pid, id) => pid !in w.workers && id in w.listed
    case FailUnknown(pid, _, _) => pid in w.workers && w.workers[pid].Popped?
    case ReadFresh(pid) => pid in w.workers && w.workers[pid].Popped?
    case Start(pid, _) => pid in w.workers && w.workers[pid].Cleared?
    case Finish(pid, _) => pid in w.workers && w.workers[pid].Executing?
    case Wake(_) => true
    case Cancel(id) => id in w.ix.records && Cancellable(w.ix.records[id].status)
    case RetryJob(id) => id in w.ix.records && Retriable(w.ix.records[id].status)
    case Replay(id) => id in w.ix.records && w.ix.records[id].status == Dead
    case Purge(id) => id in w.ix.records
    case Advance(now) => w.ix.now <= now
    case Reap(id, queue) => (id, queue) in Due(w.ix)
  }

  predicate ResultIsKept(j: JobData) {
    j.saveResult && j.resultTtl > 0
  }

  /** Writing a checked job, and listing it unless it waits. */
  function Place(w: World, j: JobData): World {
    var j' := Spec.CheckDependencies(w.ix.records, j);
    w.(ix := Write(w.ix, j'), listed := if j'.status == Waiting then w.listed else w.listed + multiset{j.id})
  }

  /** A worker stores its job and lets go of it. */
  function LetGo(w: World, pid: nat, j: JobData): World {
    var free := w.(workers := w.workers - {pid});
    if j.status == Retrying then Place(free, j) else free.(ix := Write(w.ix, j))
  }

  function Apply(w: World, a: Action): World
    requires Enabled(w, a)
  {
    match a
    case Enqueue(job) => Place(w.(keeps := w.keeps[job.id := ResultIsKept(job)]), job)
    case Pop(pid, id) =>
      var w' := w.(listed := w.listed - multiset{id});
      if id in w.ix.records then w'.(workers := w.workers[pid := Popped(w.ix.records[id])])
      else w'.(ix := Forget(w.ix, id, None, None))
    case FailUnknown(pid, error, now) => LetGo(w, pid, Fail(w.workers[pid].job, error, now))
    case ReadFresh(pid) =>
      var j := w.workers[pid].job;
      if j.id in w.ix.records && w.ix.records[j.id].status == Cancelled then w.(workers := w.workers - {pid})
      else w.(workers := w.workers[pid := Cleared(j)])
    case Start(pid, attempt) =>
      var j := Begin(w.workers[pid].job, attempt);
      w.(ix := Write(w.ix, j), workers := w.workers[pid := Executing(j)])
    case Finish(pid, attempt) => LetGo(w, pid, Conclude(w.workers[pid].job, attempt))
    case Wake(id) =>
      if Spec.Overdue(w.ix.records, id) then w.(ix := PromoteIn(w.ix, id), listed := w.listed + multiset{id}) else w
    case Cancel(id) => w.(ix := Write(w.ix, w.ix.records[id].(status := Cancelled)))
    case RetryJob(id) => w.(ix := Write(w.ix, Spec.Restarted(w.ix.records[id])), listed := w.listed + multiset{id})
    case Replay(id) => Place(w.(ix := Write(w.ix, Spec.Restarted(w.ix.records[id]))), Spec.Restarted(w.ix.records[id]))
    case Purge(id) => w.(ix := Forget(w.ix, id, Some(w.ix.records[id].queue), Some(w.ix.records[id].status)))
    case Advance(now) => w.(ix := Tick(w.ix, now))
    case Reap(id, queue) =>
      var f := Forget(w.ix, id, Some(queue), Some(Completed));
      w.(ix := f.(expiring := f.expiring - {(id, queue)}))
  }

  const INITIAL := World(Index(map[], map[], {}, {}, {}, map[], 0.0), multiset{}, map[], map[])

  ghost predicate IsRun(worlds: seq<World>, actions: seq<Action>) {
    && |worlds| == |actions| + 1
    && forall k | 0 <= k < |actions| :: Enabled(worlds[k], actions[k]) && worlds[k + 1] == Apply(worlds[k], actions[k])
  }

  // ---------------------------------------------------------------- the invariant

  predicate HeldBy(w: World, pid: nat, id: string) {
    pid in w.workers && w.workers[pid].job.id == id
  }

  /** The id is still in some list, or with some worker. */
  ghost predicate Loose(w: World, id: string) {
    id in w.listed || exists pid :: HeldBy(w, pid, id)
  }

  predicate Kept(w: World, id: string) {
    id in w.keeps && w.keeps[id]
  }

  /** Nobody is going to take the job from a list. */
  predicate Settled(st: Status) {
    st == Waiting || st == Completed || st == Failed || st == Dead
  }

  /** An id whose result is kept is in at most one list, once, or with one worker. */
  ghost predicate OnceOnly(w: World) {
    && (forall id | Kept(w, id) :: w.listed[id] <= 1)
    && (forall pid, id | HeldBy(w, pid, id) && Kept(w, id) :: id !in w.listed)
    && (forall pid, pid', id | HeldBy(w, pid, id) && HeldBy(w, pid', id) && Kept(w, id) :: pid == pid')
  }

  ghost predicate SettledIsNotLoose(w: World) {
    forall id | id in w.ix.records && Settled(w.ix.records[id].status) && Kept(w, id) :: !Loose(w, id)
  }

  /** Only a job whose result is kept has an expiring entry, and it is nowhere any more. */
  ghost predicate EntriesAreNotLoose(w: World) {
    forall id, q | (id, q) in w.ix.expiring :: Kept(w, id) && !Loose(w, id)
  }

  /** Whether its result is kept never changes for a job. */
  ghost predicate AllKnown(w: World) {
    && (forall id | id in w.ix.records :: id in w.keeps && w.keeps[id] == ResultIsKept(w.ix.records[id]))
    && (forall pid | pid in w.workers ::
          var j := w.workers[pid].job; j.id in w.keeps && w.keeps[j.id] == ResultIsKept(j))
    && (forall id | id in w.listed :: id in w.keeps)
  }

  ghost predicate Inv(w: World) {
    Agreement(w.ix) && OnceOnly(w) && SettledIsNotLoose(w) && EntriesAreNotLoose(w) && AllKnown(w)
  }

  /** A retry is clean when the result is not kept, or no list and no worker has the id any more. */
  ghost predicate CleanRetry(w: World, a: Action) {
    a.RetryJob? && Kept(w, a.id) ==> !Loose(w, a.id)
  }

  // ---------------------------------------------------------------- agreement is kept

  lemma WriteOfHeldAgrees(w: World, pid: nat, j: JobData)
    requires Inv(w) && HeldBy(w, pid, j.id)
    ensures Renews(w.ix, j) && Agreement(Write(w.ix, j))
  {
    assert Loose(w, j.id);
    WriteAgreesExactly(w.ix, j);
  }

  lemma WriteOfUnfinishedAgrees(ix: Index, j: JobData)
    requires Agreement(ix) && j.id in ix.records && ix.records[j.id].status != Completed
    ensures Renews(ix, j) && Agreement(Write(ix, j))
  {
    UnfinishedRenews(ix, j);
    WriteAgreesExactly(ix, j);
  }

  lemma LetGoAgrees(w: World, pid: nat, j: JobData)
    requires Inv(w) && HeldBy(w, pid, j.id)
    ensures Agreement(LetGo(w, pid, j).ix)
  {
    WriteOfHeldAgrees(w, pid, j);
    WriteOfHeldAgrees(w, pid, Spec.CheckDependencies(w.ix.records, j));
  }

  lemma ReapAgrees(ix: Index, id: string, queue: string)
    requires Agreement(ix) && (id, queue) in Due(ix)
    ensures var f := Forget(ix, id, Some(queue), Some(Completed));
            var r := f.(expiring := f.expiring - {(id, queue)});
            Agreement(r) && r.records == ix.records
  {
    DueIsGone(ix, (id, queue));
    ForgetAgrees(ix, id, Some(queue), Some(Completed));
    var f := Forget(ix, id, Some(queue), Some(Completed));
    var r := f.(expiring := f.expiring - {(id, queue)});
    forall o
      ensures o in r.records ==> LiveListed(r, o)
      ensures o !in r.records ==> GoneListed(r, o)
    {
      ReapSpares(f, id, queue, o);
    }
    assert forall o, q | (o, q) in r.expiring :: EntryFits(f, o, q);
    assert forall o | o in r.expiry :: DeadlineFits(f, o);
  }

  lemma ReapSpares(f: Index, id: string, queue: string, o: string)
    requires Agreement(f) && id !in f.records && (id, queue) in Due(f)
    requires id !in f.all && (Completed, id) !in f.byStatus && (queue, id) !in f.byQueue
    ensures var r := f.(expiring := f.expiring - {(id, queue)});
            && (o in f.records ==> LiveListed(r, o)) && (o !in f.records ==> GoneListed(r, o))
  {
    if o in f.records {
      assert LiveListed(f, o);
    } else {
      assert GoneListed(f, o);
      if o != id && Lapsed(f, o) {
        var q :| (o, q) in f.expiring && f.expiring[(o, q)] <= f.now;
        assert (o, q) in f.expiring - {(id, queue)};
      }
    }
  }

  lemma ReplayAgrees(ix: Index, id: string)
    requires Agreement(ix) && id in ix.records && ix.records[id].status == Dead
    ensures var j := Spec.Restarted(ix.records[id]);
            var ix1 := Write(ix, j);
            Agreement(Write(ix1, Spec.CheckDependencies(ix1.records, j)))
  {
    var j := Spec.Restarted(ix.records[id]);
    WriteOfUnfinishedAgrees(ix, j);
    var ix1 := Write(ix, j);
    WriteOfUnfinishedAgrees(ix1, Spec.CheckDependencies(ix1.records, j));
  }

  lemma AgreementKept(w: World, a: Action)
    requires Inv(w) && Enabled(w, a)
    ensures Agreement(Apply(w, a).ix)
  {
    match a
    case Enqueue(job) => WriteAgreesExactly(w.ix, Spec.CheckDependencies(w.ix.records, job));
    case Pop(_, id) =>
      if id !in w.ix.records {
        ForgetAgrees(w.ix, id, None, None);
      }
    case FailUnknown(pid, error, now) => LetGoAgrees(w, pid, Fail(w.workers[pid].job, error, now));
    case ReadFresh(_) =>
    case Start(pid, attempt) => WriteOfHeldAgrees(w, pid, Begin(w.workers[pid].job, attempt));
    case Finish(pid, attempt) => LetGoAgrees(w, pid, Conclude(w.workers[pid].job, attempt));
    case Wake(id) => PromoteAgrees(w.ix, id);
    case Cancel(id) => WriteOfUnfinishedAgrees(w.ix, w.ix.records[id].(status := Cancelled));
    case RetryJob(id) => WriteOfUnfinishedAgrees(w.ix, Spec.Restarted(w.ix.records[id]));
    case Replay(id) => ReplayAgrees(w.ix, id);
    case Purge(id) => ForgetAgrees(w.ix, id, Some(w.ix.records[id].queue), Some(w.ix.records[id].status));
    case Advance(now) => TickAgrees(w.ix, now);
    case Reap(id, queue) => ReapAgrees(w.ix, id, queue);
  }

  // ---------------------------------------------------------------- the rest of the invariant is kept

  predicate OfWorker(a: Action) {
    a.FailUnknown? || a.ReadFresh? || a.Start? || a.Finish?
  }

  /** The record an action writes, if any. */
  function WriteOf(w: World, a: Action): Option<JobData>
    requires Enabled(w, a)
  {
    match a
    case Enqueue(job) => Some(Spec.CheckDependencies(w.ix.records, job))
    case FailUnknown(pid, error, now) => Some(Fail(w.workers[pid].job, error, now))
    case Start(pid, attempt) => Some(Begin(w.workers[pid].job, attempt))
    case Finish(pid, attempt) =>
      var j := Conclude(w.workers[pid].job, attempt);
      Some(if j.status == Retrying then Spec.CheckDependencies(w.ix.records, j) else j)
    case Wake(id) => if Spec.Overdue(w.ix.records, id) then Some(w.ix.records[id].(status := Pending)) else None
    case Cancel(id) => Some(w.ix.records[id].(status := Cancelled))
    case RetryJob(id) => Some(Spec.Restarted(w.ix.records[id]))
    case Replay(id) =>
      var j := Spec.Restarted(w.ix.records[id]);
      Some(Spec.CheckDependencies(w.ix.records[j.id := j], j))
    case _ => None
  }

  lemma RecordWritten(w: World, a: Action)
    requires Spec.WellKeyed(w.ix.records) && Enabled(w, a) && WriteOf(w, a).Some?
    ensures var j := WriteOf(w, a).value; Apply(w, a).ix.records == w.ix.records[j.id := j]
  {
  }

  lemma NothingWritten(w: World, a: Action, id: string)
    requires Enabled(w, a) && WriteOf(w, a).None? && id in Apply(w, a).ix.records
    ensures id in w.ix.records && Apply(w, a).ix.records[id] == w.ix.records[id]
  {
  }

  lemma RecordsMove(w: World, a: Action, id: string)
    requires Spec.WellKeyed(w.ix.records) && Enabled(w, a) && id in Apply(w, a).ix.records
    ensures if WriteOf(w, a).Some? && WriteOf(w, a).value.id == id
            then Apply(w, a).ix.records[id] == WriteOf(w, a).value
            else id in w.ix.records && Apply(w, a).ix.records[id] == w.ix.records[id]
  {
    if WriteOf(w, a).Some? {
      RecordWritten(w, a);
    } else {
      NothingWritten(w, a, id);
    }
  }

  /** The written record is a version of the new job, of the worker's copy or of the stored record. */
  lemma WriterKnows(w: World, a: Action)
    requires Spec.WellKeyed(w.ix.records) && Enabled(w, a) && WriteOf(w, a).Some?
    ensures var j := WriteOf(w, a).value;
            if a.Enqueue? then j.id == a.job.id && ResultIsKept(j) == ResultIsKept(a.job)
            else if OfWorker(a) then HeldBy(w, a.pid, j.id) && ResultIsKept(j) == ResultIsKept(w.workers[a.pid].job)
            else
              && (a.Wake? || a.Cancel? || a.RetryJob? || a.Replay?) && a.id == j.id && j.id in w.ix.records
              && ResultIsKept(j) == ResultIsKept(w.ix.records[j.id])
  {
  }

  lemma HoldersCome(w: World, a: Action, pid: nat, id: string)
    requires Spec.WellKeyed(w.ix.records) && Enabled(w, a) && HeldBy(Apply(w, a), pid, id)
    ensures HeldBy(w, pid, id) || (a.Pop? && a.pid == pid && a.id == id && id in w.listed && pid !in w.workers)
  {
  }

  /** How often an id is listed changes only with the action that names it. */
  lemma ListingMoves(w: World, a: Action, id: string)
    requires Spec.WellKeyed(w.ix.records) && Enabled(w, a)
    ensures var n, n' := w.listed[id], Apply(w, a).listed[id];
            && n' <= n + 1
            && (n' > n ==>
                  || (a.Enqueue? && a.job.id == id)
                  || (a.Finish? && HeldBy(w, a.pid, id) && !HeldBy(Apply(w, a), a.pid, id))
                  || (a.Wake? && a.id == id && Spec.Overdue(w.ix.records, id))
                  || (a.RetryJob? && a.id == id) || (a.Replay? && a.id == id))
            && (a.Pop? && a.id == id ==> n' == n - 1)
  {
  }

  lemma KeptStays(w: World, a: Action, id: string)
    requires Inv(w) && Enabled(w, a)
    ensures Kept(Apply(w, a), id) ==> Kept(w, id) || (a.Enqueue? && a.job.id == id)
    ensures id in w.keeps ==> id in Apply(w, a).keeps && Apply(w, a).keeps[id] == w.keeps[id]
  {
  }

  /** An id is listed or held after an action only if it was before, or was new, waiting or at rest. */
  lemma BecomesLoose(w: World, a: Action, id: string)
    requires Spec.WellKeyed(w.ix.records) && Enabled(w, a) && Loose(Apply(w, a), id) && !Loose(w, id)
    ensures || (a.Enqueue? && a.job.id == id)
            || (a.Wake? && a.id == id && Spec.Overdue(w.ix.records, id))
            || (a.RetryJob? && a.id == id) || (a.Replay? && a.id == id && w.ix.records[id].status == Dead)
  {
    ListingMoves(w, a, id);
    if exists pid :: HeldBy(Apply(w, a), pid, id) {
      var pid :| HeldBy(Apply(w, a), pid, id);
      HoldersCome(w, a, pid, id);
    }
  }

  lemma ListedOnce(w: World, a: Action, id: string)
    requires Inv(w) && Enabled(w, a) && CleanRetry(w, a) && Kept(Apply(w, a), id)
    ensures Apply(w, a).listed[id] <= 1
  {
    ListingMoves(w, a, id);
    KeptStays(w, a, id);
    if Kept(w, id) && Apply(w, a).listed[id] > w.listed[id] {
      assert !Loose(w, id) || a.Finish?;
    }
  }

  lemma HeldIsNotListed(w: World, a: Action, pid: nat, id: string)
    requires Inv(w) && Enabled(w, a) && CleanRetry(w, a)
    requires HeldBy(Apply(w, a), pid, id) && Kept(Apply(w, a), id)
    ensures id !in Apply(w, a).listed
  {
    ListingMoves(w, a, id);
    KeptStays(w, a, id);
    HoldersCome(w, a, pid, id);
    if HeldBy(w, pid, id) {
      assert Loose(w, id) && Kept(w, id) && w.listed[id] == 0;
    }
  }

  lemma HeldOnce(w: World, a: Action, pid: nat, pid': nat, id: string)
    requires Inv(w) && Enabled(w, a)
    requires HeldBy(Apply(w, a), pid, id) && HeldBy(Apply(w, a), pid', id) && Kept(Apply(w, a), id)
    ensures pid == pid'
  {
    KeptStays(w, a, id);
    HoldersCome(w, a, pid, id);
    HoldersCome(w, a, pid', id);
  }

  lemma OnceOnlyKept(w: World, a: Action)
    requires Inv(w) && Enabled(w, a) && CleanRetry(w, a)
    ensures OnceOnly(Apply(w, a))
  {
    var w' := Apply(w, a);
    forall id | Kept(w', id)
      ensures w'.listed[id] <= 1
    {
      ListedOnce(w, a, id);
    }
    forall pid, id | HeldBy(w', pid, id) && Kept(w', id)
      ensures id !in w'.listed
    {
      HeldIsNotListed(w, a, pid, id);
    }
    forall pid, pid', id | HeldBy(w', pid, id) && HeldBy(w', pid', id) && Kept(w', id)
      ensures pid == pid'
    {
      HeldOnce(w, a, pid, pid', id);
    }
  }

  lemma EntriesMove(w: World, a: Action, m: (string, string))
    requires Enabled(w, a) && m in Apply(w, a).ix.expiring && m !in w.ix.expiring
    ensures WriteOf(w, a).Some? && KeepsResult(WriteOf(w, a).value) && m.0 == WriteOf(w, a).value.id
  {
  }

  lemma CompletedByFinish(w: World, a: Action)
    requires Enabled(w, a) && WriteOf(w, a).Some? && WriteOf(w, a).value.status == Completed
    ensures a.Finish? && a.pid !in Apply(w, a).workers && Apply(w, a).listed == w.listed
  {
  }

  /** An entry is new only when a worker finishes a job whose result is kept, and lets go of it. */
  lemma EntriesCome(w: World, a: Action, id: string, q: string)
    requires Inv(w) && Enabled(w, a) && (id, q) in Apply(w, a).ix.expiring
    ensures (id, q) in w.ix.expiring
            || (a.Finish? && HeldBy(w, a.pid, id) && Kept(w, id)
                && a.pid !in Apply(w, a).workers && Apply(w, a).listed == w.listed)
  {
    if (id, q) !in w.ix.expiring {
      EntriesMove(w, a, (id, q));
      WriterKnows(w, a);
      CompletedByFinish(w, a);
    }
  }

  lemma EntryIsNotLoose(w: World, a: Action, id: string, q: string)
    requires Inv(w) && Enabled(w, a) && CleanRetry(w, a) && (id, q) in Apply(w, a).ix.expiring
    ensures Kept(Apply(w, a), id) && !Loose(Apply(w, a), id)
  {
    EntriesCome(w, a, id, q);
    KeptStays(w, a, id);
    if (id, q) in w.ix.expiring {
      assert EntryFits(w.ix, id, q);
      if Loose(Apply(w, a), id) {
        BecomesLoose(w, a, id);
      }
    } else {
      forall pid
        ensures !HeldBy(Apply(w, a), pid, id)
      {
        if HeldBy(Apply(w, a), pid, id) {
          HoldersCome(w, a, pid, id);
        }
      }
    }
  }

  /** An action changes at most the status of the job it names. */
  lemma StatusMoves(w: World, a: Action, id: string)
    requires Spec.WellKeyed(w.ix.records) && Enabled(w, a) && id in Apply(w, a).ix.records
    requires id in w.ix.records ==> Apply(w, a).ix.records[id].status != w.ix.records[id].status
    ensures WriteOf(w, a).Some? && WriteOf(w, a).value == Apply(w, a).ix.records[id]
    ensures || (a.Enqueue? && a.job.id == id)
            || (OfWorker(a) && HeldBy(w, a.pid, id))
            || ((a.Wake? || a.Cancel? || a.RetryJob? || a.Replay?) && a.id == id && id in w.ix.records)
  {
    RecordsMove(w, a, id);
    WriterKnows(w, a);
  }

  lemma SettlingLetsGo(w: World, a: Action)
    requires Enabled(w, a) && OfWorker(a) && WriteOf(w, a).Some? && Settled(WriteOf(w, a).value.status)
    ensures a.pid !in Apply(w, a).workers && Apply(w, a).listed == w.listed
  {
  }

  lemma OnlyWorkersSettle(w: World, a: Action)
    requires Enabled(w, a) && (a.Wake? || a.Cancel? || a.RetryJob?)
    ensures WriteOf(w, a).Some? ==> !Settled(WriteOf(w, a).value.status)
  {
  }

  /** A loose job that comes to rest is let go of by its worker. */
  lemma BecomesSettled(w: World, a: Action, id: string)
    requires Inv(w) && Enabled(w, a) && Loose(w, id) && Kept(w, id)
    requires id in Apply(w, a).ix.records && Settled(Apply(w, a).ix.records[id].status)
    ensures OfWorker(a) && HeldBy(w, a.pid, id) && a.pid !in Apply(w, a).workers
    ensures Apply(w, a).listed == w.listed
  {
    assert id in w.ix.records ==> !Settled(w.ix.records[id].status);
    StatusMoves(w, a, id);
    if OfWorker(a) {
      SettlingLetsGo(w, a);
    } else if a.Wake? || a.Cancel? || a.RetryJob? {
      OnlyWorkersSettle(w, a);
    }
  }

  lemma LetGoIsNotLoose(w: World, a: Action, id: string)
    requires Inv(w) && Enabled(w, a) && Kept(w, id) && OfWorker(a)
    requires HeldBy(w, a.pid, id) && a.pid !in Apply(w, a).workers && Apply(w, a).listed == w.listed
    ensures !Loose(Apply(w, a), id)
  {
    forall pid
      ensures !HeldBy(Apply(w, a), pid, id)
    {
      if HeldBy(Apply(w, a), pid, id) {
        HoldersCome(w, a, pid, id);
      }
    }
  }

  /** Placing a job that waits lists it nowhere. */
  lemma WaitingIsNotListed(w: World, a: Action)
    requires Enabled(w, a) && (a.Enqueue? || a.Replay?) && Settled(WriteOf(w, a).value.status)
    ensures forall id | Loose(Apply(w, a), id) :: Loose(w, id)
  {
    assert Apply(w, a).listed == w.listed && Apply(w, a).workers == w.workers;
    forall id | Loose(Apply(w, a), id)
      ensures Loose(w, id)
    {
      assert forall pid :: HeldBy(Apply(w, a), pid, id) ==> HeldBy(w, pid, id);
    }
  }

  lemma PlacedIsNotSettled(w: World, a: Action, id: string)
    requires Inv(w) && Enabled(w, a) && Loose(Apply(w, a), id) && !Loose(w, id) && id in Apply(w, a).ix.records
    ensures !Settled(Apply(w, a).ix.records[id].status)
  {
    BecomesLoose(w, a, id);
    RecordsMove(w, a, id);
    WriterKnows(w, a);
    if a.Enqueue? || a.Replay? {
      if Settled(WriteOf(w, a).value.status) {
        WaitingIsNotListed(w, a);
      }
    } else {
      OnlyWorkersSettle(w, a);
    }
  }

  lemma RestIsNotLoose(w: World, a: Action, id: string)
    requires Inv(w) && Enabled(w, a) && CleanRetry(w, a) && Kept(Apply(w, a), id)
    requires id in Apply(w, a).ix.records && Settled(Apply(w, a).ix.records[id].status)
    ensures !Loose(Apply(w, a), id)
  {
    KeptStays(w, a, id);
    if !Loose(w, id) {
      if Loose(Apply(w, a), id) {
        PlacedIsNotSettled(w, a, id);
      }
    } else if Kept(w, id) {
      BecomesSettled(w, a, id);
      LetGoIsNotLoose(w, a, id);
    }
  }

  lemma RecordsKnown(w: World, a: Action, id: string)
    requires Inv(w) && Enabled(w, a) && id in Apply(w, a).ix.records
    ensures id in Apply(w, a).keeps && Apply(w, a).keeps[id] == ResultIsKept(Apply(w, a).ix.records[id])
  {
    KeptStays(w, a, id);
    RecordsMove(w, a, id);
    if WriteOf(w, a).Some? && WriteOf(w, a).value.id == id {
      WriterKnows(w, a);
    }
  }

  lemma OtherTasksStay(w: World, a: Action, pid: nat)
    requires Enabled(w, a) && pid in Apply(w, a).workers
    requires OfWorker(a) || a.Pop? ==> a.pid != pid
    ensures pid in w.workers && Apply(w, a).workers[pid] == w.workers[pid]
  {
  }

  lemma OwnTask(w: World, a: Action)
    requires Inv(w) && Enabled(w, a) && (OfWorker(a) || a.Pop?) && a.pid in Apply(w, a).workers
    ensures var j := Apply(w, a).workers[a.pid].job;
            j.id in w.keeps && w.keeps[j.id] == ResultIsKept(j)
  {
  }

  lemma TasksKnown(w: World, a: Action, pid: nat)
    requires Inv(w) && Enabled(w, a) && pid in Apply(w, a).workers
    ensures var j := Apply(w, a).workers[pid].job;
            j.id in Apply(w, a).keeps && Apply(w, a).keeps[j.id] == ResultIsKept(j)
  {
    if (OfWorker(a) || a.Pop?) && a.pid == pid {
      OwnTask(w, a);
    } else {
      OtherTasksStay(w, a, pid);
    }
    KeptStays(w, a, Apply(w, a).workers[pid].job.id);
  }

  lemma KnownKept(w: World, a: Action)
    requires Inv(w) && Enabled(w, a)
    ensures AllKnown(Apply(w, a))
  {
    var w' := Apply(w, a);
    forall id | id in w'.ix.records
      ensures id in w'.keeps && w'.keeps[id] == ResultIsKept(w'.ix.records[id])
    {
      RecordsKnown(w, a, id);
    }
    forall pid | pid in w'.workers
      ensures var j := w'.workers[pid].job; j.id in w'.keeps && w'.keeps[j.id] == ResultIsKept(j)
    {
      TasksKnown(w, a, pid);
    }
    forall id | id in w'.listed
      ensures id in w'.keeps
    {
      ListingMoves(w, a, id);
      KeptStays(w, a, id);
    }
  }

  lemma InvKept(w: World, a: Action)
    requires Inv(w) && Enabled(w, a) && CleanRetry(w, a)
    ensures Inv(Apply(w, a))
  {
    var w' := Apply(w, a);
    AgreementKept(w, a);
    OnceOnlyKept(w, a);
    KnownKept(w, a);
    forall id, q | (id, q) in w'.ix.expiring
      ensures Kept(w', id) && !Loose(w', id)
    {
      EntryIsNotLoose(w, a, id, q);
    }
    forall id | id in w'.ix.records && Settled(w'.ix.records[id].status) && Kept(w', id)
      ensures !Loose(w', id)
    {
      RestIsNotLoose(w, a, id);
    }
  }

  lemma {:induction false} CleanRunKeepsInv(worlds: seq<World>, actions: seq<Action>, k: nat)
    requires IsRun(worlds, actions) && Inv(worlds[0]) && k < |worlds|
    requires forall i | 0 <= i < |actions| :: CleanRetry(worlds[i], actions[i])
    ensures Inv(worlds[k])
  {
    if k > 0 {
      CleanRunKeepsInv(worlds, actions, k - 1);
      InvKept(worlds[k - 1], actions[k - 1]);
    }
  }

  lemma InitialInv()
    ensures Inv(INITIAL)
  {
  }

  /** Over every run from the empty database with clean retries only, the index agrees with the records all
      the time. */
  lemma EveryCleanRunAgrees(worlds: seq<World>, actions: seq<Action>, k: nat)
    requires IsRun(worlds, actions) && worlds[0] == INITIAL && k < |worlds|
    requires forall i | 0 <= i < |actions| :: CleanRetry(worlds[i], actions[i])
    ensures Inv(worlds[k])
  {
    InitialInv();
    CleanRunKeepsInv(worlds, actions, k);
  }

  // ---------------------------------------------------------------- what an unclean retry leads to

  /** Some run from here without another retry ends in disagreement. */
  ghost predicate CanBreak(w: World) {
    exists worlds, actions :: BreaksBy(w, worlds, actions)
  }

  ghost predicate BreaksBy(w: World, worlds: seq<World>, actions: seq<Action>) {
    && IsRun(worlds, actions) && worlds[0] == w && (forall a | a in actions :: !a.RetryJob?)
    && !Agreement(worlds[|actions|].ix)
  }

  lemma BrokenCanBreak(w: World)
    requires !Agreement(w.ix)
    ensures CanBreak(w)
  {
    assert BreaksBy(w, [w], []);
  }

  /** One more action at the beginning of a run. */
  lemma Prepend(w: World, a: Action, worlds: seq<World>, actions: seq<Action>)
    requires IsRun(worlds, actions) && Enabled(w, a) && worlds[0] == Apply(w, a)
    ensures IsRun([w] + worlds, [a] + actions)
  {
    var worlds', actions' := [w] + worlds, [a] + actions;
    forall k | 0 <= k < |actions'|
      ensures Enabled(worlds'[k], actions'[k]) && worlds'[k + 1] == Apply(worlds'[k], actions'[k])
    {
      if k > 0 {
        assert Enabled(worlds[k - 1], actions[k - 1]) && worlds[k] == Apply(worlds[k - 1], actions[k - 1]);
      }
    }
  }

  lemma StepCanBreak(w: World, a: Action)
    requires Enabled(w, a) && !a.RetryJob? && CanBreak(Apply(w, a))
    ensures CanBreak(w)
  {
    var worlds, actions :| BreaksBy(Apply(w, a), worlds, actions);
    Prepend(w, a, worlds, actions);
    assert BreaksBy(w, [w] + worlds, [a] + actions);
  }

  const SUCCESS := Attempt("", 0.0, 0.0, 0.0, Success(""))

  /** A live record that is not completed beside an expiring entry of its id. */
  lemma UnfinishedBesideEntry(ix: Index, id: string, q: string)
    requires id in ix.records && ix.records[id].status != Completed && (id, q) in ix.expiring
    ensures !Agreement(ix)
  {
    assert Agreement(ix) ==> EntryFits(ix, id, q);
  }

  /** A worker about to start a completed job that has its entry. */
  lemma ClearedCompletedBreaks(w: World, pid: nat, id: string, q: string)
    requires HeldBy(w, pid, id) && w.workers[pid].Cleared? && (id, q) in w.ix.expiring
    ensures CanBreak(w)
  {
    var w' := Apply(w, Start(pid, SUCCESS));
    UnfinishedBesideEntry(w'.ix, id, q);
    BrokenCanBreak(w');
    StepCanBreak(w, Start(pid, SUCCESS));
  }

  lemma PoppedCompletedBreaks(w: World, pid: nat, id: string, q: string)
    requires HeldBy(w, pid, id) && w.workers[pid].Popped? && (id, q) in w.ix.expiring
    requires id in w.ix.records && w.ix.records[id].status == Completed
    ensures CanBreak(w)
  {
    ClearedCompletedBreaks(Apply(w, ReadFresh(pid)), pid, id, q);
    StepCanBreak(w, ReadFresh(pid));
  }

  /** Some worker is idle. */
  lemma {:induction false} IdleWorker(workers: map<nat, Task>, n: nat) returns (pid: nat)
    ensures pid >= n && pid !in workers
    decreases |set p: nat | p in workers && p >= n|
  {
    if n !in workers {
      pid := n;
    } else {
      var above, more := (set p: nat | p in workers && p >= n), (set p: nat | p in workers && p >= n + 1);
      assert above == more + {n} && n !in more;
      pid := IdleWorker(workers, n + 1);
    }
  }

  lemma ListedCompletedBreaks(w: World, id: string, q: string)
    requires Spec.WellKeyed(w.ix.records) && id in w.listed && (id, q) in w.ix.expiring
    requires id in w.ix.records && w.ix.records[id].status == Completed
    ensures CanBreak(w)
  {
    var pid := IdleWorker(w.workers, 0);
    PoppedCompletedBreaks(Apply(w, Pop(pid, id)), pid, id, q);
    StepCanBreak(w, Pop(pid, id));
  }

  /** A worker runs a job whose result is kept while a list has the id as well. */
  lemma ExecutingListedBreaks(w: World, pid: nat, id: string)
    requires Spec.WellKeyed(w.ix.records) && id in w.listed
    requires HeldBy(w, pid, id) && w.workers[pid].Executing? && ResultIsKept(w.workers[pid].job)
    ensures CanBreak(w)
  {
    var w' := Apply(w, Finish(pid, SUCCESS));
    ListedCompletedBreaks(w', id, w.workers[pid].job.queue);
    StepCanBreak(w, Finish(pid, SUCCESS));
  }

  lemma ClearedListedBreaks(w: World, pid: nat, id: string)
    requires Spec.WellKeyed(w.ix.records) && id in w.listed
    requires HeldBy(w, pid, id) && w.workers[pid].Cleared? && ResultIsKept(w.workers[pid].job)
    ensures CanBreak(w)
  {
    ExecutingListedBreaks(Apply(w, Start(pid, SUCCESS)), pid, id);
    StepCanBreak(w, Start(pid, SUCCESS));
  }

  lemma PoppedListedBreaks(w: World, pid: nat, id: string)
    requires Spec.WellKeyed(w.ix.records) && id in w.listed
    requires id in w.ix.records && w.ix.records[id].status != Cancelled
    requires HeldBy(w, pid, id) && w.workers[pid].Popped? && ResultIsKept(w.workers[pid].job)
    ensures CanBreak(w)
  {
    ClearedListedBreaks(Apply(w, ReadFresh(pid)), pid, id);
    StepCanBreak(w, ReadFresh(pid));
  }

  lemma HeldListedBreaks(w: World, pid: nat, id: string)
    requires Spec.WellKeyed(w.ix.records) && id in w.listed
    requires id in w.ix.records && w.ix.records[id].status != Cancelled
    requires HeldBy(w, pid, id) && ResultIsKept(w.workers[pid].job)
    ensures CanBreak(w)
  {
    match w.workers[pid]
    case Popped(_) => PoppedListedBreaks(w, pid, id);
    case Cleared(_) => ClearedListedBreaks(w, pid, id);
    case Executing(_) => ExecutingListedBreaks(w, pid, id);
  }

  lemma ListedTwiceBreaks(w: World, id: string)
    requires Spec.WellKeyed(w.ix.records) && w.listed[id] >= 2
    requires id in w.ix.records && w.ix.records[id].status != Cancelled && ResultIsKept(w.ix.records[id])
    ensures CanBreak(w)
  {
    var pid := IdleWorker(w.workers, 0);
    var w' := Apply(w, Pop(pid, id));
    assert w'.listed[id] >= 1;
    HeldListedBreaks(w', pid, id);
    StepCanBreak(w, Pop(pid, id));
  }

  /** Retrying a job whose result is kept while a list or a worker still has its id. */
  lemma UncleanRetryBreaks(w: World, id: string)
    requires Inv(w) && Enabled(w, RetryJob(id)) && Kept(w, id) && Loose(w, id)
    ensures CanBreak(Apply(w, RetryJob(id)))
  {
    var w' := Apply(w, RetryJob(id));
    assert w'.listed[id] == w.listed[id] + 1;
    if id in w.listed {
      ListedTwiceBreaks(w', id);
    } else {
      var pid :| HeldBy(w, pid, id);
      HeldListedBreaks(w', pid, id);
    }
  }

  /** Every run that starts with `a` and retries only cleanly after it agrees all the time. */
  ghost predicate SafeAfter(w: World, a: Action) {
    forall worlds, actions | StartsWith(w, a, worlds, actions) :: AlwaysAgrees(worlds)
  }

  ghost predicate AlwaysAgrees(worlds: seq<World>) {
    forall k | 0 <= k < |worlds| :: Agreement(worlds[k].ix)
  }

  ghost predicate StartsWith(w: World, a: Action, worlds: seq<World>, actions: seq<Action>) {
    && IsRun(worlds, actions) && worlds[0] == w && |actions| > 0 && actions[0] == a
    && forall i | 0 < i < |actions| :: CleanRetry(worlds[i], actions[i])
  }

  lemma BreakingIsUnsafe(w: World, a: Action)
    requires Enabled(w, a) && CanBreak(Apply(w, a))
    ensures !SafeAfter(w, a)
  {
    var worlds, actions :| BreaksBy(Apply(w, a), worlds, actions);
    var worlds', actions' := [w] + worlds, [a] + actions;
    Prepend(w, a, worlds, actions);
    forall k | 0 < k < |actions'|
      ensures CleanRetry(worlds'[k], actions'[k])
    {
      assert actions[k - 1] in actions;
    }
    assert StartsWith(w, a, worlds', actions');
    assert worlds'[|actions'|] == worlds[|actions|];
  }

  /** Exactly the clean retries leave the index in agreement, whatever comes after: a retry of a job whose
      result is kept is safe if and only if no list and no worker has its id any more. */
  lemma RetryIsSafeExactly(w: World, id: string)
    requires Inv(w) && Enabled(w, RetryJob(id))
    ensures SafeAfter(w, RetryJob(id)) <==> !(ResultIsKept(w.ix.records[id]) && Loose(w, id))
  {
    if Kept(w, id) && Loose(w, id) {
      UncleanRetryBreaks(w, id);
      BreakingIsUnsafe(w, RetryJob(id));
    } else {
      forall worlds: seq<World>, actions: seq<Action> | StartsWith(w, RetryJob(id), worlds, actions)
        ensures AlwaysAgrees(worlds)
      {
        assert forall i | 0 <= i < |actions| :: CleanRetry(worlds[i], actions[i]);
        forall k: nat | k < |worlds|
          ensures Agreement(worlds[k].ix)
        {
          CleanRunKeepsInv(worlds, actions, k);
        }
      }
    }
  }

  // ---------------------------------------------------------------- an input that fails

  /** Cancel, retry, work and pop again. */
  function Relapse(j: JobData, p: nat, q: nat): seq<Action> {
    [Enqueue(j), Cancel(j.id), RetryJob(j.id),
     Pop(p, j.id), ReadFresh(p), Start(p, SUCCESS), Finish(p, SUCCESS),
     Pop(q, j.id), ReadFresh(q), Start(q, SUCCESS)]
  }

  predicate CanRelapse(w: World, j: JobData, p: nat, q: nat) {
    && Enabled(w, Enqueue(j)) && AllCompleted(w.ix.records, j.dependsOn) && ResultIsKept(j)
    && p !in w.workers && q !in w.workers && p != q
  }

  /** One more action at the end of a run. */
  lemma Extend(worlds: seq<World>, actions: seq<Action>, a: Action)
    requires IsRun(worlds, actions) && Enabled(worlds[|actions|], a)
    ensures IsRun(worlds + [Apply(worlds[|actions|], a)], actions + [a])
  {
  }

  /** From any world, for any new job with its dependencies completed whose result is kept: the job is popped
      again after it completed, and starting it leaves a live record beside its old expiring entry. */
  lemma RelapseDisagrees(w: World, j: JobData, p: nat, q: nat) returns (worlds: seq<World>)
    requires Inv(w) && CanRelapse(w, j, p, q)
    ensures IsRun(worlds, Relapse(j, p, q)) && worlds[0] == w
    ensures var ix := worlds[|Relapse(j, p, q)|].ix;
            && j.id in ix.records && ix.records[j.id].status == Running
            && (j.id, j.queue) in ix.expiring && !Agreement(ix)
  {
    var n := |Relapse(j, p, q)|;
    worlds := RelapseUpTo(w, j, p, q, n);
    assert Relapse(j, p, q)[..n] == Relapse(j, p, q);
    UnfinishedBesideEntry(worlds[n].ix, j.id, j.queue);
  }

  lemma PrefixNext(actions: seq<Action>, i: nat)
    requires i < |actions|
    ensures actions[..i + 1] == actions[..i] + [actions[i]]
  {
  }

  lemma {:induction false} RelapseUpTo(w: World, j: JobData, p: nat, q: nat, i: nat) returns (worlds: seq<World>)
    requires Inv(w) && CanRelapse(w, j, p, q) && i <= |Relapse(j, p, q)|
    ensures IsRun(worlds, Relapse(j, p, q)[..i]) && worlds[0] == w && RelapsedTo(w, j, p, q, i, worlds[i])
  {
    if i == 0 {
      worlds := [w];
    } else {
      worlds := RelapseUpTo(w, j, p, q, i - 1);
      worlds := RelapseOn(w, j, p, q, i - 1, worlds);
    }
  }

  lemma RelapseOn(w: World, j: JobData, p: nat, q: nat, i: nat, worlds: seq<World>) returns (worlds': seq<World>)
    requires Inv(w) && CanRelapse(w, j, p, q) && i < |Relapse(j, p, q)|
    requires IsRun(worlds, Relapse(j, p, q)[..i]) && worlds[0] == w && RelapsedTo(w, j, p, q, i, worlds[i])
    ensures IsRun(worlds', Relapse(j, p, q)[..i + 1]) && worlds'[0] == w
    ensures RelapsedTo(w, j, p, q, i + 1, worlds'[i + 1])
  {
    var actions := Relapse(j, p, q);
    RelapseStep(w, j, p, q, i, worlds[i]);
    Extend(worlds, actions[..i], actions[i]);
    PrefixNext(actions, i);
    worlds' := worlds + [Apply(worlds[i], actions[i])];
  }

  /** Where the job is after the first `i` actions. */
  ghost predicate RelapsedTo(w: World, j: JobData, p: nat, q: nat, i: nat, w': World) {
    if i == 0 then w' == w
    else
      var st := if i == 2 then Cancelled else if i < 6 then Pending
                else if i == 6 || i == 10 then Running else Completed;
      var copies := if i == 3 then 2 else if i < 8 then 1 else 0;
      var task := if 4 <= i <= 6 then Some(p) else if i >= 8 then Some(q) else None;
      && j.id in w'.ix.records && SameJob(w'.ix.records[j.id], j) && w'.ix.records[j.id].status == st
      && w'.listed[j.id] == copies && (i >= 7 ==> (j.id, j.queue) in w'.ix.expiring)
      && (p in w'.workers <==> task == Some(p)) && (q in w'.workers <==> task == Some(q))
      && (task.Some? ==>
            && SameJob(w'.workers[task.value].job, j)
            && (w'.workers[task.value].Popped? <==> i == 4 || i == 8)
            && (w'.workers[task.value].Cleared? <==> i == 5 || i == 9))
  }

  predicate SameJob(a: JobData, b: JobData) {
    a.id == b.id && a.queue == b.queue && ResultIsKept(a) == ResultIsKept(b)
  }

  lemma RelapseBegins(w: World, j: JobData, p: nat, q: nat, i: nat, w': World)
    requires Inv(w) && CanRelapse(w, j, p, q) && i < 4 && RelapsedTo(w, j, p, q, i, w')
    ensures Enabled(w', Relapse(j, p, q)[i]) && RelapsedTo(w, j, p, q, i + 1, Apply(w', Relapse(j, p, q)[i]))
  {
    assert i == 0 ==> w.listed[j.id] == 0;
  }

  lemma RelapseStep(w: World, j: JobData, p: nat, q: nat, i: nat, w': World)
    requires Inv(w) && CanRelapse(w, j, p, q) && i < |Relapse(j, p, q)| && RelapsedTo(w, j, p, q, i, w')
    ensures Enabled(w', Relapse(j, p, q)[i]) && RelapsedTo(w, j, p, q, i + 1, Apply(w', Relapse(j, p, q)[i]))
  {
    if i < 4 {
      RelapseBegins(w, j, p, q, i, w');
    }
  }
}
