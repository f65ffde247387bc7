/** The per-queue runnable lists of the in-process broker as an index over its job table. */
module ReadyIndex {
  import opened Jobs
  import opened MemorySpec

  type ReadyLists = map<string, seq<string>>

  predicate Distinct(ids: seq<string>) {
    forall i, j | 0 <= i < j < |ids| :: ids[i] != ids[j]
  }

  /** The first has no lower priority, and at the same priority no later time. */
  predicate InOrder(a: JobData, b: JobData) {
    b.priority <= a.priority && (b.priority == a.priority ==> a.enqueuedAt <= b.enqueuedAt)
  }

  /** Sorted by (-priority, enqueued_at). */
  predicate SortedByKey(ids: seq<string>, jobs: JobMap)
    requires forall id | id in ids :: id in jobs
  {
    forall i, j | 0 <= i < j < |ids| :: InOrder(jobs[ids[i]], jobs[ids[j]])
  }

  predicate Listed(ready: ReadyLists, queue: string, id: string) {
    queue in ready && id in ready[queue]
  }

  predicate Available(jobs: JobMap, held: set<string>, id: string) {
    id in jobs && id !in held && Runnable(jobs[id].status)
  }

  /** Ids that a sort by the jobs' keys can handle. */
  predicate Listable(ids: seq<string>, jobs: JobMap) {
    (forall id | id in ids :: id in jobs) && Distinct(ids)
  }

  predicate GoodList(ids: seq<string>, jobs: JobMap) {
    Listable(ids, jobs) && SortedByKey(ids, jobs)
  }

  predicate Belongs(jobs: JobMap, held: set<string>, queue: string, id: string) {
    Available(jobs, held, id) && jobs[id].queue == queue
  }

  /** The lists hold exactly the runnable jobs nobody has taken, each once, in the list of its
      own queue, and every list is sorted. */
  ghost predicate Indexes(ready: ReadyLists, jobs: JobMap, held: set<string>) {
    && (forall q, id | Listed(ready, q, id) :: Belongs(jobs, held, q, id))
    && (forall q, id | Belongs(jobs, held, q, id) :: Listed(ready, q, id))
    && (forall q | q in ready :: GoodList(ready[q], jobs))
  }

  /** Comparing a job with the best so far decides between them for every job after either. */
  lemma CandidateOrder(best: JobData, j: JobData)
    ensures (best.id == j.id && best.queue == j.queue) || CandidateLess(best, j) || CandidateLess(j, best)
    ensures forall c | CandidateLess(j, best) && CandidateLess(best, c) :: CandidateLess(j, c)
  {
    CandidateLessTotal(best, j);
    forall c | CandidateLess(j, best) && CandidateLess(best, c)
      ensures CandidateLess(j, c)
    {
      CandidateLessTransitive(j, best, c);
    }
  }

  // ---------------------------------------------------------------- list.sort and list.remove

  /** How many leading ids sort no later than `id`. */
  function InsertAt(ids: seq<string>, jobs: JobMap, id: string): (k: nat)
    requires id in jobs && forall c | c in ids :: c in jobs
    ensures k <= |ids|
    ensures forall i | 0 <= i < k :: !ClaimKeyLess(jobs[id], jobs[ids[i]])
    ensures k < |ids| ==> ClaimKeyLess(jobs[id], jobs[ids[k]])
  {
    if ids == [] || ClaimKeyLess(jobs[id], jobs[ids[0]]) then 0
    else 1 + InsertAt(ids[1..], jobs, id)
  }

  function Insert(ids: seq<string>, jobs: JobMap, id: string): seq<string>
    requires id in jobs && forall c | c in ids :: c in jobs
  {
    var k := InsertAt(ids, jobs, id);
    ids[..k] + [id] + ids[k..]
  }

  lemma InsertMultiset(ids: seq<string>, jobs: JobMap, id: string)
    requires id in jobs && forall c | c in ids :: c in jobs
    ensures multiset(Insert(ids, jobs, id)) == multiset(ids) + multiset{id}
  {
    var k := InsertAt(ids, jobs, id);
    assert ids == ids[..k] + ids[k..];
  }

  lemma SameMembers(a: seq<string>, b: seq<string>)
    requires multiset(a) == multiset(b)
    ensures forall c :: c in a <==> c in b
  {
    forall c
      ensures c in a <==> c in b
    {
      assert c in a <==> c in multiset(a);
      assert c in b <==> c in multiset(b);
    }
  }

  /** A stable sort by (-priority, enqueued_at). */
  function StableSort(ids: seq<string>, jobs: JobMap): (r: seq<string>)
    requires forall c | c in ids :: c in jobs
    ensures multiset(r) == multiset(ids)
  {
    if ids == [] then []
    else
      var n := |ids| - 1;
      var rest := StableSort(ids[..n], jobs);
      SameMembers(rest, ids[..n]);
      InsertMultiset(rest, jobs, ids[n]);
      assert ids == ids[..n] + [ids[n]];
      Insert(rest, jobs, ids[n])
  }

  lemma InsertSorted(ids: seq<string>, jobs: JobMap, id: string)
    requires id in jobs && (forall c | c in ids :: c in jobs) && SortedByKey(ids, jobs)
    ensures forall c | c in Insert(ids, jobs, id) :: c in jobs
    ensures SortedByKey(Insert(ids, jobs, id), jobs)
  {
    var k := InsertAt(ids, jobs, id);
    var r := Insert(ids, jobs, id);
    forall i, j | 0 <= i < j < |r|
      ensures InOrder(jobs[r[i]], jobs[r[j]])
    {
      var i' := if i < k then i else i - 1;
      var j' := if j < k then j else j - 1;
      assert i != k ==> r[i] == ids[i'];
      assert j != k ==> r[j] == ids[j'];
      if i == k {
        assert r[i] == id && InOrder(jobs[id], jobs[ids[k]]);
        assert j' == k || InOrder(jobs[ids[k]], jobs[ids[j']]);
      } else if j == k {
        assert r[j] == id && !ClaimKeyLess(jobs[id], jobs[ids[i]]);
      }
    }
  }

  lemma {:induction false} StableSortSorted(ids: seq<string>, jobs: JobMap)
    requires forall c | c in ids :: c in jobs
    ensures forall c | c in StableSort(ids, jobs) :: c in jobs
    ensures SortedByKey(StableSort(ids, jobs), jobs)
  {
    if ids != [] {
      var n := |ids| - 1;
      var rest := StableSort(ids[..n], jobs);
      StableSortSorted(ids[..n], jobs);
      InsertSorted(rest, jobs, ids[n]);
    }
  }

  lemma {:induction false} DistinctMultiset(ids: seq<string>)
    ensures Distinct(ids) <==> forall c | c in multiset(ids) :: multiset(ids)[c] == 1
  {
    if ids != [] {
      var n := |ids| - 1;
      var rest, last := ids[..n], ids[n];
      assert ids == rest + [last];
      DistinctMultiset(rest);
      if Distinct(ids) {
        assert last !in rest;
      }
      if forall c | c in multiset(ids) :: multiset(ids)[c] == 1 {
        assert multiset(ids)[last] == 1;
        assert last !in multiset(rest);
        assert forall c | c in multiset(rest) :: c in multiset(ids);
        forall i, j | 0 <= i < j < |ids|
          ensures ids[i] != ids[j]
        {
          if j == n {
            assert ids[i] == rest[i] && rest[i] in multiset(rest);
          } else {
            assert ids[i] == rest[i] && ids[j] == rest[j];
          }
        }
      }
    }
  }

  /** The list without the first occurrence of `id`. */
  function RemoveFirst(ids: seq<string>, id: string): (r: seq<string>)
    ensures id !in ids ==> r == ids
  {
    if ids == [] then []
    else if ids[0] == id then ids[1..]
    else [ids[0]] + RemoveFirst(ids[1..], id)
  }

  lemma {:induction false} RemoveFirstMembers(ids: seq<string>, id: string)
    requires Distinct(ids)
    ensures forall c :: c in RemoveFirst(ids, id) <==> c in ids && c != id
    ensures Distinct(RemoveFirst(ids, id))
  {
    if ids != [] {
      HeadIsAlone(ids);
      if ids[0] != id {
        RemoveFirstMembers(ids[1..], id);
        ConsDistinct(ids[0], RemoveFirst(ids[1..], id));
      }
    }
  }

  lemma HeadIsAlone(ids: seq<string>)
    requires Distinct(ids) && ids != []
    ensures Distinct(ids[1..]) && ids[0] !in ids[1..]
    ensures forall c :: c in ids <==> c == ids[0] || c in ids[1..]
  {
    var tail := ids[1..];
    assert ids == [ids[0]] + tail;
    assert forall i | 0 <= i < |tail| :: tail[i] == ids[i + 1];
  }

  lemma ConsDistinct(x: string, ids: seq<string>)
    requires Distinct(ids) && x !in ids
    ensures Distinct([x] + ids) && forall c :: c in [x] + ids <==> c == x || c in ids
  {
  }

  lemma {:induction false} RemoveFirstSorted(ids: seq<string>, id: string, jobs: JobMap)
    requires Distinct(ids) && (forall c | c in ids :: c in jobs) && SortedByKey(ids, jobs)
    ensures forall c | c in RemoveFirst(ids, id) :: c in ids
    ensures SortedByKey(RemoveFirst(ids, id), jobs)
  {
    RemoveFirstMembers(ids, id);
    if ids != [] {
      HeadIsAlone(ids);
      TailSorted(ids, jobs);
      if ids[0] != id {
        RemoveFirstMembers(ids[1..], id);
        RemoveFirstSorted(ids[1..], id, jobs);
        ConsSorted(ids[0], RemoveFirst(ids[1..], id), jobs);
      }
    }
  }

  lemma TailSorted(ids: seq<string>, jobs: JobMap)
    requires ids != [] && (forall c | c in ids :: c in jobs) && SortedByKey(ids, jobs)
    ensures forall c | c in ids[1..] :: c in jobs && InOrder(jobs[ids[0]], jobs[c])
    ensures SortedByKey(ids[1..], jobs)
  {
    assert forall i | 0 <= i < |ids[1..]| :: ids[1..][i] == ids[i + 1];
  }

  lemma ConsSorted(x: string, ids: seq<string>, jobs: JobMap)
    requires x in jobs && (forall c | c in ids :: c in jobs && InOrder(jobs[x], jobs[c])) && SortedByKey(ids, jobs)
    ensures forall c | c in [x] + ids :: c in jobs
    ensures SortedByKey([x] + ids, jobs)
  {
  }

  // ---------------------------------------------------------------- operations on the index

  function ListOf(ready: ReadyLists, queue: string): seq<string> {
    if queue in ready then ready[queue] else []
  }

  /** list.sort(key=(-priority, enqueued_at)) on a list without repetitions. */
  method SortList(ids: seq<string>, jobs: JobMap) returns (sorted: seq<string>)
    requires Listable(ids, jobs)
    ensures GoodList(sorted, jobs) && (forall c :: c in sorted <==> c in ids)
  {
    sorted := StableSort(ids, jobs);
    StableSortSorted(ids, jobs);
    DistinctMultiset(ids);
    DistinctMultiset(sorted);
    SameMembers(sorted, ids);
  }

  ghost predicate AllListable(ready: ReadyLists, jobs: JobMap) {
    forall q | q in ready :: Listable(ready[q], jobs)
  }

  /** The job joined the list of its queue, unless it was there, and that list was sorted. */
  ghost predicate Relisted(before: ReadyLists, jobs: JobMap, id: string, after: ReadyLists)
    requires id in jobs
  {
    var q := jobs[id].queue;
    && after == before[q := ListOf(after, q)] && GoodList(ListOf(after, q), jobs)
    && forall c :: c in ListOf(after, q) <==> c == id || c in ListOf(before, q)
  }

  function Unlist(ready: ReadyLists, queue: string, id: string): ReadyLists {
    if queue in ready && id in ready[queue] then ready[queue := RemoveFirst(ready[queue], id)] else ready
  }

  /** Removing a job from the list of its queue leaves an index without that job. */
  lemma UnlistIndexes(ready: ReadyLists, jobs: JobMap, held: set<string>, id: string)
    requires id in jobs && Indexes(ready, jobs, held)
    ensures Indexes(Unlist(ready, jobs[id].queue, id), jobs, held + {id})
  {
    var q := jobs[id].queue;
    var ready' := Unlist(ready, q, id);
    if Listed(ready, q, id) {
      RemoveFirstMembers(ready[q], id);
      RemoveFirstSorted(ready[q], id, jobs);
    }
    forall p, c | Listed(ready', p, c)
      ensures Belongs(jobs, held + {id}, p, c)
    {
      assert Listed(ready, p, c);
    }
    forall p, c | Belongs(jobs, held + {id}, p, c)
      ensures Listed(ready', p, c)
    {
      assert Belongs(jobs, held, p, c);
    }
  }

  /** The index says nothing about jobs that are taken or not runnable: they may change freely. */
  lemma IndexesIgnoresUnavailable(ready: ReadyLists, jobs: JobMap, jobs': JobMap, held: set<string>, held': set<string>)
    requires Indexes(ready, jobs, held)
    requires forall id | Available(jobs, held, id) :: Available(jobs', held', id) && jobs'[id] == jobs[id]
    requires forall id | Available(jobs', held', id) :: Available(jobs, held, id)
    ensures Indexes(ready, jobs', held')
  {
    forall q, id | Listed(ready, q, id)
      ensures Belongs(jobs', held', q, id) && jobs'[id] == jobs[id]
    {
      assert Belongs(jobs, held, q, id);
    }
    forall q, id | Belongs(jobs', held', q, id)
      ensures Listed(ready, q, id)
    {
      assert Available(jobs', held', id) && Belongs(jobs, held, q, id);
    }
    forall q | q in ready
      ensures GoodList(ready[q], jobs')
    {
      assert GoodList(ready[q], jobs);
      assert forall id | id in ready[q] :: Listed(ready, q, id);
    }
  }

  /** A taken job has not come to rest; only a cancellation may meet it. */
  predicate HeldActive(jobs: JobMap, held: set<string>) {
    forall id | id in held && id in jobs :: jobs[id].status in {Pending, Retrying, Running, Cancelled}
  }

  // ---------------------------------------------------------------- storing over a job

  /** The tests of `ListingIndexesExactly` and `WaitingIndexesExactly` on the job as a whole enqueue leaves it: a
      listed one must stay runnable and in its queue, any other runnable or waiting. */
  predicate EnqueueFits(jobs: JobMap, held: set<string>, j: JobData) {
    if Available(jobs, held, j.id) then Runnable(j.status) && j.queue == jobs[j.id].queue
    else Runnable(j.status) || j.status == Waiting
  }

  lemma ListedAgain(ready: ReadyLists, jobs: JobMap, held: set<string>, j: JobData, ready': ReadyLists)
    requires Indexes(ready, jobs, held) && Relisted(ready, jobs[j.id := j], j.id, ready')
    requires Runnable(j.status) && (Available(jobs, held, j.id) ==> j.queue == jobs[j.id].queue)
    ensures Indexes(ready', jobs[j.id := j], held - {j.id})
  {
    var jobs', held' := jobs[j.id := j], held - {j.id};
    forall p, c | Listed(ready', p, c)
      ensures Belongs(jobs', held', p, c)
    {
      if !(p == j.queue && c == j.id) {
        assert Listed(ready, p, c) && Belongs(jobs, held, p, c);
      }
    }
    forall p, c | Belongs(jobs', held', p, c)
      ensures Listed(ready', p, c)
    {
      if c != j.id {
        assert Belongs(jobs, held, p, c) && Listed(ready, p, c);
      }
    }
    forall p | p in ready'
      ensures GoodList(ready'[p], jobs')
    {
      if p != j.queue {
        assert GoodList(ready[p], jobs) && !Belongs(jobs, held, p, j.id);
        assert forall c | c in ready[p] :: Listed(ready, p, c);
      }
    }
  }

  /** Storing a job and listing it gives an index of the new table exactly when the job is runnable and, if it
      was listed before, has not changed its queue. */
  lemma ListingIndexesExactly(ready: ReadyLists, jobs: JobMap, held: set<string>, j: JobData, ready': ReadyLists)
    requires Indexes(ready, jobs, held) && Relisted(ready, jobs[j.id := j], j.id, ready')
    ensures Indexes(ready', jobs[j.id := j], held - {j.id})
            <==> Runnable(j.status) && (Available(jobs, held, j.id) ==> j.queue == jobs[j.id].queue)
  {
    var jobs', held' := jobs[j.id := j], held - {j.id};
    if Runnable(j.status) && (Available(jobs, held, j.id) ==> j.queue == jobs[j.id].queue) {
      ListedAgain(ready, jobs, held, j, ready');
    }
    if Indexes(ready', jobs', held') {
      assert Listed(ready', j.queue, j.id) && Belongs(jobs', held', j.queue, j.id);
      if Available(jobs, held, j.id) && j.queue != jobs[j.id].queue {
        ListedJobMayNotMove(ready, jobs, held, j, ready');
      }
    }
  }

  /** A listed job that is stored with another queue ends in two lists. */
  lemma ListedJobMayNotMove(ready: ReadyLists, jobs: JobMap, held: set<string>, j: JobData, ready': ReadyLists)
    requires Indexes(ready, jobs, held) && Relisted(ready, jobs[j.id := j], j.id, ready')
    requires Available(jobs, held, j.id) && j.queue != jobs[j.id].queue
    ensures Listed(ready', jobs[j.id].queue, j.id) && Listed(ready', j.queue, j.id)
    ensures !Indexes(ready', jobs[j.id := j], held - {j.id})
  {
    assert Belongs(jobs, held, jobs[j.id].queue, j.id) && Listed(ready, jobs[j.id].queue, j.id);
    assert !Belongs(jobs[j.id := j], held - {j.id}, jobs[j.id].queue, j.id);
  }

  /** Storing a job that waits, which leaves the lists alone, keeps them an index exactly when it was not listed. */
  lemma WaitingIndexesExactly(ready: ReadyLists, jobs: JobMap, held: set<string>, j: JobData)
    requires Indexes(ready, jobs, held) && j.status == Waiting
    ensures Indexes(ready, jobs[j.id := j], held - {j.id}) <==> !Available(jobs, held, j.id)
  {
    if Available(jobs, held, j.id) {
      assert Belongs(jobs, held, jobs[j.id].queue, j.id) && Listed(ready, jobs[j.id].queue, j.id);
      assert !Belongs(jobs[j.id := j], held - {j.id}, jobs[j.id].queue, j.id);
    } else {
      IndexesIgnoresUnavailable(ready, jobs, jobs[j.id := j], held, held - {j.id});
    }
  }

  /** What an update by itself must not do: take a listed job off its place, or make one runnable that is neither
      listed nor taken. A taken job does not start to wait. */
  predicate UpdateFits(ready: ReadyLists, jobs: JobMap, held: set<string>, j: JobData) {
    if Available(jobs, held, j.id) then
      Runnable(j.status) && j.queue == jobs[j.id].queue && GoodList(ListOf(ready, j.queue), jobs[j.id := j])
    else if j.id in held then j.status != Waiting
    else !Runnable(j.status)
  }

  function HeldAfter(held: set<string>, j: JobData): set<string> {
    if Terminal(j.status) then held - {j.id} else held
  }

  lemma UpdatedInPlace(ready: ReadyLists, jobs: JobMap, held: set<string>, j: JobData)
    requires Indexes(ready, jobs, held) && Available(jobs, held, j.id) && UpdateFits(ready, jobs, held, j)
    ensures Indexes(ready, jobs[j.id := j], held)
  {
    var jobs' := jobs[j.id := j];
    forall p, c | Belongs(jobs', held, p, c)
      ensures Listed(ready, p, c)
    {
      assert Belongs(jobs, held, p, c);
    }
    forall p, c | Listed(ready, p, c)
      ensures Belongs(jobs', held, p, c)
    {
      assert Belongs(jobs, held, p, c);
    }
    forall p | p in ready
      ensures GoodList(ready[p], jobs')
    {
      if p != j.queue {
        assert GoodList(ready[p], jobs) && !Belongs(jobs, held, p, j.id);
        assert forall c | c in ready[p] :: Listed(ready, p, c);
      }
    }
  }

  /** An update leaves the lists alone, and they are an index of the new table exactly when it fits. */
  lemma UpdateIndexesExactly(ready: ReadyLists, jobs: JobMap, held: set<string>, j: JobData)
    requires Indexes(ready, jobs, held) && HeldActive(jobs, held)
    ensures var (jobs', held') := (jobs[j.id := j], HeldAfter(held, j));
            Indexes(ready, jobs', held') && HeldActive(jobs', held') <==> UpdateFits(ready, jobs, held, j)
  {
    var jobs', held' := jobs[j.id := j], HeldAfter(held, j);
    if Available(jobs, held, j.id) {
      var q := jobs[j.id].queue;
      assert Belongs(jobs, held, q, j.id) && Listed(ready, q, j.id);
      if UpdateFits(ready, jobs, held, j) {
        UpdatedInPlace(ready, jobs, held, j);
      }
      if Indexes(ready, jobs', held') {
        assert Belongs(jobs', held', q, j.id) && GoodList(ready[q], jobs');
      }
    } else {
      if UpdateFits(ready, jobs, held, j) {
        IndexesIgnoresUnavailable(ready, jobs, jobs', held, held');
      }
      assert !Belongs(jobs, held, j.queue, j.id) && !Listed(ready, j.queue, j.id);
      assert Indexes(ready, jobs', held') ==> !Belongs(jobs', held', j.queue, j.id);
    }
  }

  /** A listed job stored as one that is not runnable stays listed, whatever else is listed after it. */
  lemma ListedButNotRunnable(ready: ReadyLists, jobs: JobMap, held: set<string>, id: string, ready': ReadyLists,
                             jobs': JobMap, held': set<string>)
    requires Indexes(ready, jobs, held) && Available(jobs, held, id) && KeepsListed(ready, ready')
    requires id in jobs' && !Runnable(jobs'[id].status)
    ensures !Indexes(ready', jobs', held')
  {
    var q := jobs[id].queue;
    assert Belongs(jobs, held, q, id) && Listed(ready, q, id);
    assert Listed(ready', q, id) && !Belongs(jobs', held', q, id);
  }

  /** A completion fits unless the job is listed, which no later listing repairs. */
  lemma CompletedFits(ready: ReadyLists, jobs: JobMap, held: set<string>, j: JobData, ready': ReadyLists,
                      jobs': JobMap, held': set<string>)
    requires Indexes(ready, jobs, held) && KeepsListed(ready, ready') && j.status == Completed
    requires j.id in jobs' && jobs'[j.id].status == Completed
    ensures UpdateFits(ready, jobs, held, j) <==> !Available(jobs, held, j.id)
    ensures !UpdateFits(ready, jobs, held, j) ==> !Indexes(ready', jobs', held')
  {
    if Available(jobs, held, j.id) {
      ListedButNotRunnable(ready, jobs, held, j.id, ready', jobs', held');
    }
  }

  lemma CompletedStays(jobs: JobMap, ids: set<string>, id: string)
    requires id in jobs && jobs[id].status == Completed
    ensures id in Promote(jobs, ids) && Promote(jobs, ids)[id].status == Completed
  {
  }

  lemma SeenGrows(seen: set<string>, todo: set<string>, next: string)
    requires next in todo
    ensures seen + {next} + (todo - {next}) == seen + todo
  {
  }

  ghost predicate KeepsListed(before: ReadyLists, after: ReadyLists) {
    forall q, id | Listed(before, q, id) :: Listed(after, q, id)
  }

  /** Listing a job that somebody still holds: two may run it. */
  lemma ListedAndHeld(ready: ReadyLists, jobs: JobMap, held: set<string>, id: string)
    requires id in jobs && id in held && Listed(ready, jobs[id].queue, id)
    ensures !Indexes(ready, jobs, held)
  {
    assert !Belongs(jobs, held, jobs[id].queue, id);
  }

  lemma PromotionIndexes(ready: ReadyLists, jobs: JobMap, held: set<string>, id: string, ready': ReadyLists)
    requires Indexes(ready, jobs, held) && HeldActive(jobs, held) && WellKeyed(jobs)
    requires id in jobs && jobs[id].status == Waiting
    requires Relisted(ready, jobs[id := jobs[id].(status := Pending)], id, ready')
    ensures Indexes(ready', jobs[id := jobs[id].(status := Pending)], held)
  {
    ListingIndexesExactly(ready, jobs, held, jobs[id].(status := Pending), ready');
    assert held - {id} == held;
  }

  /** The job table once a checked job is stored and, if it waits, looked at again. */
  function Stored(jobs: JobMap, j: JobData): (r: JobMap)
    ensures j.id in r
  {
    if j.status == Waiting then Promote(jobs[j.id := j], {j.id}) else jobs[j.id := j]
  }

  /** Any runnable job that is not listed may be enqueued. */
  lemma UnlistedFits(jobs: JobMap, held: set<string>, j: JobData)
    requires !Available(jobs, held, j.id) && Runnable(j.status)
    ensures EnqueueFits(jobs, held, Enqueue(Store(jobs, held), j).jobs[j.id])
  {
    PromoteOne(jobs[j.id := CheckDependencies(jobs, j)], j.id);
  }

  /** The end of an enqueue that stored its job as waiting and looked at it again. */
  lemma StoredWaiting(ready: ReadyLists, jobs: JobMap, held: set<string>, j: JobData, ready': ReadyLists,
                      jobs': JobMap)
    requires Indexes(ready, jobs, held) && j.status == Waiting && jobs' == Promote(jobs[j.id := j], {j.id})
    requires if Overdue(jobs[j.id := j], j.id) then Relisted(ready, jobs', j.id, ready') else ready' == ready
    ensures Indexes(ready', jobs', held - {j.id}) <==> EnqueueFits(jobs, held, jobs'[j.id])
  {
    PromoteOne(jobs[j.id := j], j.id);
    var end := jobs'[j.id];
    assert jobs' == jobs[j.id := end];
    if Overdue(jobs[j.id := j], j.id) {
      ListingIndexesExactly(ready, jobs, held, end, ready');
    } else {
      WaitingIndexesExactly(ready, jobs, held, j);
    }
  }

  lemma CancelledIsUnlisted(ready: ReadyLists, jobs: JobMap, held: set<string>, id: string)
    requires id in jobs && Indexes(ready, jobs, held + {id})
    ensures Indexes(ready, jobs[id := jobs[id].(status := Cancelled)], held)
  {
    IndexesIgnoresUnavailable(ready, jobs, jobs[id := jobs[id].(status := Cancelled)], held + {id}, held);
  }

  /** A finished job reset to pending is runnable but not listed yet. */
  lemma RestartIsUnlisted(ready: ReadyLists, jobs: JobMap, held: set<string>, id: string)
    requires Indexes(ready, jobs, held) && id in jobs && !Runnable(jobs[id].status)
    ensures Indexes(ready, jobs[id := Restarted(jobs[id])], held + {id})
  {
    var jobs' := jobs[id := Restarted(jobs[id])];
    IndexesIgnoresUnavailable(ready, jobs, jobs', held, held + {id});
  }

  lemma PurgedIsUnlisted(ready: ReadyLists, jobs: JobMap, held: set<string>, id: string)
    requires id in jobs && Indexes(ready, jobs, held + {id})
    ensures Indexes(ready, jobs - {id}, held)
  {
    IndexesIgnoresUnavailable(ready, jobs, jobs - {id}, held + {id}, held);
  }
}
