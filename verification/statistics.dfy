/** queue_stats as a full scan of the job table: {queue: {status: count}}, without zero counts. */
module Statistics {
  import opened Jobs

  type Stats = map<string, map<Status, nat>>

  function Matching(jobs: JobMap, queue: string, st: Status): set<string> {
    set id | id in jobs && jobs[id].queue == queue && jobs[id].status == st
  }

  function Count(stats: Stats, queue: string, st: Status): nat {
    if queue in stats && st in stats[queue] then stats[queue][st] else 0
  }

  /** The stats list exactly the queues that have a job, and under each the positive counts. */
  ghost predicate CountsEveryJob(stats: Stats, jobs: JobMap) {
    && (forall q :: q in stats <==> exists id :: id in jobs && jobs[id].queue == q)
    && (forall q, st :: Count(stats, q, st) == |Matching(jobs, q, st)|)
    && (forall q, st | q in stats && st in stats[q] :: stats[q][st] > 0)
  }

  /** These three facts leave nothing open: two such results are the same dictionary. */
  lemma StatsAreDetermined(a: Stats, b: Stats, jobs: JobMap)
    requires CountsEveryJob(a, jobs) && CountsEveryJob(b, jobs)
    ensures a == b
  {
    assert a.Keys == b.Keys;
    forall q | q in a
      ensures a[q] == b[q]
    {
      forall st
        ensures st in a[q] <==> st in b[q]
        ensures st in a[q] && st in b[q] ==> a[q][st] == b[q][st]
      {
        assert Count(a, q, st) == Count(b, q, st);
      }
    }
  }

  function Bump(stats: Stats, queue: string, st: Status): Stats {
    var perStatus := if queue in stats then stats[queue] else map[];
    stats[queue := perStatus[st := (if st in perStatus then perStatus[st] else 0) + 1]]
  }

  lemma BumpNames(stats: Stats, jobs: JobMap, j: JobData, q: string)
    requires CountsEveryJob(stats, jobs) && j.id !in jobs
    ensures var jobs' := jobs[j.id := j];
            q in Bump(stats, j.queue, j.status) <==> exists id :: id in jobs' && jobs'[id].queue == q
  {
    var jobs' := jobs[j.id := j];
    if q == j.queue {
      assert j.id in jobs' && jobs'[j.id].queue == q;
    } else {
      assert forall id | id in jobs :: id in jobs' && jobs'[id] == jobs[id];
    }
  }

  lemma BumpMatching(jobs: JobMap, j: JobData, q: string, st: Status)
    requires j.id !in jobs
    ensures |Matching(jobs[j.id := j], q, st)|
         == |Matching(jobs, q, st)| + (if q == j.queue && st == j.status then 1 else 0)
  {
    if q == j.queue && st == j.status {
      assert Matching(jobs[j.id := j], q, st) == Matching(jobs, q, st) + {j.id};
    } else {
      assert Matching(jobs[j.id := j], q, st) == Matching(jobs, q, st);
    }
  }

  /** Counting one more job. */
  lemma BumpCounts(stats: Stats, jobs: JobMap, j: JobData)
    requires j.id !in jobs && CountsEveryJob(stats, jobs)
    ensures CountsEveryJob(Bump(stats, j.queue, j.status), jobs[j.id := j])
  {
    var stats', jobs' := Bump(stats, j.queue, j.status), jobs[j.id := j];
    forall q
      ensures q in stats' <==> exists id :: id in jobs' && jobs'[id].queue == q
    {
      BumpNames(stats, jobs, j, q);
    }
    forall q, st
      ensures Count(stats', q, st) == |Matching(jobs', q, st)|
    {
      assert Count(stats, q, st) == |Matching(jobs, q, st)|;
      BumpMatching(jobs, j, q, st);
    }
  }
}
