/** The record keys of the Redis broker and the sets that index them (src/aioq/backends/redis.py). */
module RedisIndex {
  import opened Jobs
  import Spec = MemorySpec

  /** A set per status and per queue is kept as the pairs (set, member): Redis has no empty sets. */
  datatype Index = Index(
    records: JobMap,
    expiry: map<string, real>,
    all: set<string>,
    byStatus: set<(Status, string)>,
    byQueue: set<(string, string)>,
    expiring: map<(string, string), real>,
    now: real)

  // ---------------------------------------------------------------- the expiring members

  function Member(id: string, queue: string): string {
    id + "|" + queue
  }

  /** Python's partition("|"), without the separator. */
  function Partition(member: string): (string, string) {
    if member == "" then ("", "")
    else if member[0] == '|' then ("", member[1..])
    else
      var (head, tail) := Partition(member[1..]);
      ([member[0]] + head, tail)
  }

  /** A member splits back into its id and queue exactly when the id has no bar; the queue may have any. */
  lemma {:induction false} PartitionUndoesMember(id: string, queue: string)
    ensures Partition(Member(id, queue)) == (id, queue) <==> '|' !in id
  {
    if id == "" {
      assert Member(id, queue)[1..] == queue;
    } else {
      assert Member(id, queue)[1..] == Member(id[1..], queue) && id == [id[0]] + id[1..];
      PartitionUndoesMember(id[1..], queue);
      if id[0] != '|' {
        assert Partition(Member(id, queue)).0[1..] == Partition(Member(id[1..], queue)).0;
      }
    }
  }

  // ---------------------------------------------------------------- agreement

  /** Some index entry says that the record of `id` may be gone by now. */
  ghost predicate Lapsed(ix: Index, id: string) {
    exists q :: (id, q) in ix.expiring && ix.expiring[(id, q)] <= ix.now
  }

  /** A live job is listed under its own status and queue and nowhere else. */
  ghost predicate LiveListed(ix: Index, id: string)
    requires id in ix.records
  {
    && id in ix.all
    && (forall st :: (st, id) in ix.byStatus <==> st == ix.records[id].status)
    && (forall q :: (q, id) in ix.byQueue <==> q == ix.records[id].queue)
  }

  /** What is still listed for a gone job can be found through the expiring set. */
  ghost predicate GoneListed(ix: Index, id: string) {
    && (id in ix.all ==> Lapsed(ix, id))
    && (forall st | (st, id) in ix.byStatus :: st == Completed && Lapsed(ix, id))
    && (forall q | (q, id) in ix.byQueue :: (id, q) in ix.expiring && ix.expiring[(id, q)] <= ix.now)
  }

  /** An expiring entry of a live job is the deadline of its record. */
  ghost predicate EntryFits(ix: Index, id: string, q: string)
    requires (id, q) in ix.expiring
  {
    id in ix.records ==>
      && ix.records[id].status == Completed && ix.records[id].queue == q
      && id in ix.expiry && ix.expiry[id] == ix.expiring[(id, q)]
  }

  /** A record with a deadline is live until then and has its expiring entry. */
  ghost predicate DeadlineFits(ix: Index, id: string)
    requires id in ix.expiry
  {
    && ix.expiry[id] > ix.now
    && id in ix.records && ix.records[id].status == Completed
    && (id, ix.records[id].queue) in ix.expiring && ix.expiring[(id, ix.records[id].queue)] == ix.expiry[id]
  }

  ghost predicate Agreement(ix: Index) {
    && Spec.WellKeyed(ix.records)
    && (forall id | id in ix.records :: LiveListed(ix, id))
    && (forall id | id !in ix.records :: GoneListed(ix, id))
    && (forall id, q | (id, q) in ix.expiring :: EntryFits(ix, id, q))
    && (forall id | id in ix.expiry :: DeadlineFits(ix, id))
  }

  /** The index is what a full scan of the records would build. */
  ghost predicate Exact(ix: Index) {
    && ix.all == ix.records.Keys
    && (forall st, id :: (st, id) in ix.byStatus <==> id in ix.records && ix.records[id].status == st)
    && (forall q, id :: (q, id) in ix.byQueue <==> id in ix.records && ix.records[id].queue == q)
  }

  ghost predicate NothingLapsed(ix: Index) {
    forall id, q | (id, q) in ix.expiring :: ix.expiring[(id, q)] > ix.now
  }

  lemma TidyIsExact(ix: Index)
    requires Agreement(ix) && NothingLapsed(ix)
    ensures Exact(ix)
  {
    assert forall id | id !in ix.records :: GoneListed(ix, id);
    assert forall id | id in ix.records :: LiveListed(ix, id);
  }

  // ---------------------------------------------------------------- the write pipeline

  predicate KeepsResult(j: JobData) {
    j.status == Completed && j.saveResult && j.resultTtl > 0
  }

  /** The record and its index entries after `_write_job`; setting a record clears its deadline. */
  function Write(ix: Index, j: JobData): Index {
    var had := j.id in ix.records;
    var deadline := ix.now + j.resultTtl as real;
    ix.(records := ix.records[j.id := j],
        all := ix.all + {j.id},
        byStatus := (if had && ix.records[j.id].status != j.status
                     then ix.byStatus - {(ix.records[j.id].status, j.id)} else ix.byStatus) + {(j.status, j.id)},
        byQueue := (if had && ix.records[j.id].queue != j.queue
                    then ix.byQueue - {(ix.records[j.id].queue, j.id)} else ix.byQueue) + {(j.queue, j.id)},
        expiry := if KeepsResult(j) then (ix.expiry - {j.id})[j.id := deadline] else ix.expiry - {j.id},
        expiring := if KeepsResult(j) then ix.expiring[(j.id, j.queue) := deadline] else ix.expiring)
  }

  /** No expiring entry of the job survives that the written record does not renew. */
  ghost predicate Renews(ix: Index, j: JobData) {
    forall q | (j.id, q) in ix.expiring :: KeepsResult(j) && q == j.queue
  }

  lemma WriteListsJob(ix: Index, j: JobData)
    requires Agreement(ix) && Renews(ix, j)
    ensures LiveListed(Write(ix, j), j.id)
  {
    if j.id in ix.records {
      assert LiveListed(ix, j.id);
    } else {
      assert GoneListed(ix, j.id);
    }
  }

  lemma WriteKeepsOthers(ix: Index, j: JobData, id: string)
    requires Agreement(ix) && id != j.id
    ensures id in ix.records ==> LiveListed(Write(ix, j), id)
    ensures id !in ix.records ==> GoneListed(Write(ix, j), id)
  {
    var w := Write(ix, j);
    if id in ix.records {
      assert LiveListed(ix, id);
    } else {
      assert GoneListed(ix, id);
      assert forall q | (id, q) in ix.expiring :: (id, q) in w.expiring && w.expiring[(id, q)] == ix.expiring[(id, q)];
      if Lapsed(ix, id) {
        var q :| (id, q) in ix.expiring && ix.expiring[(id, q)] <= ix.now;
        assert (id, q) in w.expiring;
      }
    }
  }

  lemma WriteKeepsEntries(ix: Index, j: JobData)
    requires Agreement(ix) && Renews(ix, j)
    ensures var w := Write(ix, j);
            && (forall id, q | (id, q) in w.expiring :: EntryFits(w, id, q))
            && (forall id | id in w.expiry :: DeadlineFits(w, id))
  {
    var w := Write(ix, j);
    forall id, q | (id, q) in w.expiring
      ensures EntryFits(w, id, q)
    {
      if id != j.id {
        assert (id, q) in ix.expiring && EntryFits(ix, id, q);
      }
    }
    forall id | id in w.expiry
      ensures DeadlineFits(w, id)
    {
      if id != j.id {
        assert id in ix.expiry && DeadlineFits(ix, id);
      }
    }
  }

  /** A write keeps the index in agreement exactly when every expiring entry of the job is renewed by
      it: a completed job with a kept result must not be written as anything else. */
  lemma WriteAgreesExactly(ix: Index, j: JobData)
    requires Agreement(ix)
    ensures Agreement(Write(ix, j)) <==> Renews(ix, j)
  {
    var w := Write(ix, j);
    if Renews(ix, j) {
      WriteListsJob(ix, j);
      WriteKeepsEntries(ix, j);
      forall id
        ensures id in w.records ==> LiveListed(w, id)
        ensures id !in w.records ==> GoneListed(w, id)
      {
        if id != j.id {
          WriteKeepsOthers(ix, j, id);
        }
      }
    }
    if Agreement(w) {
      forall q | (j.id, q) in ix.expiring
        ensures KeepsResult(j) && q == j.queue
      {
        assert EntryFits(w, j.id, q);
      }
    }
  }

  /** A live job that is not completed has no expiring entry, so any write of it keeps agreement. */
  lemma UnfinishedRenews(ix: Index, j: JobData)
    requires Agreement(ix) && j.id in ix.records && ix.records[j.id].status != Completed
    ensures Renews(ix, j)
  {
    assert forall q | (j.id, q) in ix.expiring :: EntryFits(ix, j.id, q);
  }

  // ---------------------------------------------------------------- promotion, deletion, time

  /** The promotion pipeline of one waiting job. */
  function PromoteIn(ix: Index, id: string): Index {
    if Spec.Overdue(ix.records, id) then
      ix.(records := ix.records[id := ix.records[id].(status := Pending)],
          byStatus := ix.byStatus - {(Waiting, id)} + {(Pending, id)},
          expiry := ix.expiry - {id})
    else ix
  }

  lemma PromoteInRecords(ix: Index, id: string)
    ensures PromoteIn(ix, id).records == Spec.Promote(ix.records, {id})
  {
    Spec.PromoteOne(ix.records, id);
  }

  lemma PromoteAgrees(ix: Index, id: string)
    requires Agreement(ix)
    ensures Agreement(PromoteIn(ix, id))
  {
    if Spec.Overdue(ix.records, id) {
      var j := ix.records[id].(status := Pending);
      assert LiveListed(ix, id);
      UnfinishedRenews(ix, j);
      WriteAgreesExactly(ix, j);
      assert PromoteIn(ix, id) == Write(ix, j);
    }
  }

  function WokenPairs(byStatus: set<(Status, string)>, woken: set<string>): (r: set<(Status, string)>)
    ensures forall st, id :: (st, id) in r <==>
              if id in woken && st in {Waiting, Pending} then st == Pending else (st, id) in byStatus
  {
    byStatus - (set id | id in woken :: (Waiting, id)) + (set id | id in woken :: (Pending, id))
  }

  lemma WokenPairsGrow(byStatus: set<(Status, string)>, woken: set<string>, next: string)
    ensures WokenPairs(byStatus, woken + {next}) == WokenPairs(byStatus, woken) - {(Waiting, next)} + {(Pending, next)}
  {
    var a := WokenPairs(byStatus, woken + {next});
    var b := WokenPairs(byStatus, woken) - {(Waiting, next)} + {(Pending, next)};
    forall p
      ensures p in a <==> p in b
    {
      assert p == (p.0, p.1);
    }
  }

  function WokenAmong(records: JobMap, ids: set<string>): set<string> {
    set id | id in ids && Spec.Overdue(records, id)
  }

  /** Promotion of several jobs, one after the other in any order. */
  function PromoteAllIn(ix: Index, ids: set<string>): Index {
    ix.(records := Spec.Promote(ix.records, ids),
        byStatus := WokenPairs(ix.byStatus, WokenAmong(ix.records, ids)),
        expiry := ix.expiry - WokenAmong(ix.records, ids))
  }

  lemma PromoteNoneIn(ix: Index)
    ensures PromoteAllIn(ix, {}) == ix
  {
    assert Spec.Promote(ix.records, {}) == ix.records;
  }

  lemma PromoteNextIn(ix: Index, seen: set<string>, next: string)
    requires next !in seen
    ensures PromoteIn(PromoteAllIn(ix, seen), next) == PromoteAllIn(ix, seen + {next})
  {
    var p, all := PromoteAllIn(ix, seen), PromoteAllIn(ix, seen + {next});
    Spec.PromoteInSteps(ix.records, seen, next);
    PromoteInRecords(p, next);
    if next in ix.records {
      Spec.PromoteKeepsCompleted(ix.records, seen, ix.records[next].dependsOn);
    }
    assert Spec.Overdue(p.records, next) <==> Spec.Overdue(ix.records, next);
    WokenSetGrows(ix, seen, next);
  }

  lemma WokenSetGrows(ix: Index, seen: set<string>, next: string)
    requires next !in seen
    ensures var p, all := PromoteAllIn(ix, seen), PromoteAllIn(ix, seen + {next});
            if Spec.Overdue(ix.records, next)
            then all.byStatus == p.byStatus - {(Waiting, next)} + {(Pending, next)} && all.expiry == p.expiry - {next}
            else all.byStatus == p.byStatus && all.expiry == p.expiry
  {
    var woken := WokenAmong(ix.records, seen);
    assert WokenAmong(ix.records, seen + {next}) == if Spec.Overdue(ix.records, next) then woken + {next} else woken;
    if Spec.Overdue(ix.records, next) {
      WokenPairsGrow(ix.byStatus, woken, next);
      ExpiryShrinks(ix.expiry, woken, next);
    }
  }

  lemma ExpiryShrinks(expiry: map<string, real>, woken: set<string>, next: string)
    ensures expiry - (woken + {next}) == expiry - woken - {next}
  {
  }

  /** `_forget`: without a status the id leaves every status set, without a queue no queue set. */
  function Forget(ix: Index, id: string, queue: Option<string>, st: Option<Status>): Index {
    ix.(records := ix.records - {id},
        expiry := ix.expiry - {id},
        all := ix.all - {id},
        byQueue := if queue.Some? then ix.byQueue - {(queue.value, id)} else ix.byQueue,
        byStatus := if st.Some? then ix.byStatus - {(st.value, id)}
                    else set p | p in ix.byStatus && p.1 != id)
  }

  lemma ForgetKeepsOthers(ix: Index, id: string, queue: Option<string>, st: Option<Status>, o: string)
    requires Agreement(ix) && o != id
    ensures var f := Forget(ix, id, queue, st);
            && (o in f.records ==> LiveListed(f, o)) && (o !in f.records ==> GoneListed(f, o))
  {
    var f := Forget(ix, id, queue, st);
    assert forall s: Status :: (s, o) in f.byStatus <==> (s, o) in ix.byStatus;
    assert forall q: string :: (q, o) in f.byQueue <==> (q, o) in ix.byQueue;
    assert Lapsed(ix, o) ==> Lapsed(f, o);
    if o in ix.records {
      assert LiveListed(ix, o);
    } else {
      assert GoneListed(ix, o);
    }
  }

  /** Deleting a job with what its record says, or clearing up after a gone record. */
  lemma ForgetAgrees(ix: Index, id: string, queue: Option<string>, st: Option<Status>)
    requires Agreement(ix)
    requires id in ix.records ==> queue == Some(ix.records[id].queue) && st == Some(ix.records[id].status)
    ensures Agreement(Forget(ix, id, queue, st))
    ensures id !in ix.records ==> Forget(ix, id, queue, st).records == ix.records
  {
    var f := Forget(ix, id, queue, st);
    assert f.records.Keys == ix.records.Keys - {id};
    forall o
      ensures o in f.records ==> LiveListed(f, o)
      ensures o !in f.records ==> GoneListed(f, o)
    {
      if o != id {
        ForgetKeepsOthers(ix, id, queue, st, o);
      } else if id in ix.records {
        assert LiveListed(ix, id);
      } else {
        assert GoneListed(ix, id);
        assert Lapsed(ix, id) ==> Lapsed(f, id);
      }
    }
    forall o, q | (o, q) in f.expiring
      ensures EntryFits(f, o, q)
    {
      assert EntryFits(ix, o, q);
    }
    forall o | o in f.expiry
      ensures DeadlineFits(f, o)
    {
      assert DeadlineFits(ix, o);
    }
  }

  /** The clock moves on and the records whose deadline it reaches are gone. */
  function Tick(ix: Index, now: real): Index {
    var gone := set id | id in ix.expiry && ix.expiry[id] <= now;
    ix.(records := ix.records - gone, expiry := ix.expiry - gone, now := now)
  }

  lemma TickAgrees(ix: Index, now: real)
    requires Agreement(ix) && ix.now <= now
    ensures Agreement(Tick(ix, now))
  {
    var t := Tick(ix, now);
    forall o
      ensures o in t.records ==> LiveListed(t, o)
      ensures o !in t.records ==> GoneListed(t, o)
    {
      if o in ix.records {
        assert LiveListed(ix, o);
        if o in ix.expiry {
          assert DeadlineFits(ix, o);
          assert (o, ix.records[o].queue) in t.expiring;
        }
      } else {
        assert GoneListed(ix, o);
        assert Lapsed(ix, o) ==> Lapsed(t, o);
      }
    }
    forall o, q | (o, q) in t.expiring
      ensures EntryFits(t, o, q)
    {
      assert EntryFits(ix, o, q);
    }
    forall o | o in t.expiry
      ensures DeadlineFits(t, o)
    {
      assert DeadlineFits(ix, o);
    }
  }

  // ---------------------------------------------------------------- reaping

  function Due(ix: Index): set<(string, string)> {
    set m | m in ix.expiring && ix.expiring[m] <= ix.now
  }

  /** A due entry never belongs to a live record. */
  lemma DueIsGone(ix: Index, m: (string, string))
    requires Agreement(ix) && m in Due(ix)
    ensures m.0 !in ix.records
  {
    assert EntryFits(ix, m.0, m.1);
    assert m.0 in ix.expiry ==> DeadlineFits(ix, m.0);
  }

  /** Nothing is listed any more for the members already cleared. */
  ghost predicate Cleared(ix: Index, members: set<(string, string)>) {
    forall m | m in members ::
      m.0 !in ix.all && (Completed, m.0) !in ix.byStatus && (m.1, m.0) !in ix.byQueue
  }

  lemma ClearNext(ix: Index, members: set<(string, string)>, m: (string, string))
    requires Agreement(ix) && m in Due(ix) && members <= Due(ix) && Cleared(ix, members)
    ensures var f := Forget(ix, m.0, Some(m.1), Some(Completed));
            && Agreement(f) && Cleared(f, members + {m}) && f.records == ix.records && f.expiring == ix.expiring
  {
    DueIsGone(ix, m);
    ForgetAgrees(ix, m.0, Some(m.1), Some(Completed));
  }

  lemma ReapedIsTidy(ix: Index)
    requires Agreement(ix) && Cleared(ix, Due(ix))
    ensures var r := ix.(expiring := ix.expiring - Due(ix)); Agreement(r) && NothingLapsed(r)
  {
    var r := ix.(expiring := ix.expiring - Due(ix));
    forall id | id !in r.records
      ensures GoneListed(r, id)
    {
      assert GoneListed(ix, id);
      if Lapsed(ix, id) {
        var q :| (id, q) in ix.expiring && ix.expiring[(id, q)] <= ix.now;
        assert (id, q) in Due(ix);
      }
      assert forall q | (q, id) in ix.byQueue :: (id, q) in Due(ix);
    }
    forall id | id in r.records
      ensures LiveListed(r, id)
    {
      assert LiveListed(ix, id);
    }
    forall id, q | (id, q) in r.expiring
      ensures EntryFits(r, id, q)
    {
      assert EntryFits(ix, id, q);
    }
    forall id | id in r.expiry
      ensures DeadlineFits(r, id)
    {
      assert DeadlineFits(ix, id);
      assert (id, r.records[id].queue) !in Due(ix);
    }
  }

  /** When a completed job with a kept result is written again as unfinished, its old expiring entry
      stays behind: once the clock reaches that entry the index disagrees with the records, and clearing
      the entry deletes a live record. */
  lemma StaleEntryDeletesLiveRecord(ix: Index, j: JobData, q: string, now: real)
    requires Agreement(ix) && (j.id, q) in ix.expiring && !KeepsResult(j)
    requires ix.now <= ix.expiring[(j.id, q)] <= now
    ensures var w := Tick(Write(ix, j), now);
            && j.id in w.records && (j.id, q) in Due(w)
            && j.id !in Forget(w, j.id, Some(q), Some(Completed)).records
  {
  }
}
