/** Draining a dependency graph through the in-process broker and a worker: dequeue and `_process`
    repeated while anything is runnable, with an arbitrary outcome for every attempt. */
module Drain {
  import opened Jobs
  import opened Attempts
  import opened MemorySpec
  import SqlMachine

  /** One round: the dequeue's queues and clock, the job it returned, and the attempt made. */
  datatype Turn = Turn(queues: seq<string>, now: real, id: string, attempt: Attempt)

  /** `order` lists the jobs as they were enqueued: every dependency names an earlier job. */
  ghost predicate EnqueuedInOrder(jobs: JobMap, order: seq<string>) {
    && jobs.Keys == (set id | id in order)
    && (forall i, j | 0 <= i < j < |order| :: order[i] != order[j])
    && (forall i, d | 0 <= i < |order| && d in jobs[order[i]].dependsOn :: d in order[..i])
  }

  /** What holds between rounds. */
  ghost predicate Quiet(s: Store, order: seq<string>) {
    && WellKeyed(s.jobs) && EnqueuedInOrder(s.jobs, order)
    && s.held == {} && (forall id | id in s.jobs :: s.jobs[id].status != Running)
    && WakeClosed(s.jobs) && SqlMachine.DependencySafe(s.jobs)
  }

  /** Every queue is polled and everything runnable is due. */
  ghost predicate EverythingDue(s: Store, t: Turn) {
    forall id | id in s.jobs && Runnable(s.jobs[id].status) ::
      s.jobs[id].queue in t.queues && s.jobs[id].Due(t.now)
  }

  /** The hooks that the round emits. */
  function EventsOf(s: Store, tasks: set<string>, t: Turn): seq<Event> {
    if t.id in s.jobs then Process(Claim(s, t.id), s.jobs[t.id], tasks, t.attempt).1 else []
  }

  ghost predicate TakesTurn(s: Store, tasks: set<string>, t: Turn, s': Store) {
    && EverythingDue(s, t) && IsBest(s, t.queues, t.now, t.id)
    && s' == Process(Claim(s, t.id), s.jobs[t.id], tasks, t.attempt).0
  }

  ghost predicate IsDrain(states: seq<Store>, tasks: set<string>, turns: seq<Turn>) {
    && |states| == |turns| + 1
    && forall k | 0 <= k < |turns| :: TakesTurn(states[k], tasks, turns[k], states[k + 1])
  }

  // ---------------------------------------------------------------- building the graph

  lemma EmptyIsQuiet()
    ensures Quiet(Store(map[], {}), [])
  {
  }

  lemma OrderExtends(jobs: JobMap, order: seq<string>, j: JobData)
    requires EnqueuedInOrder(jobs, order) && j.id !in jobs
    requires forall d | d in j.dependsOn :: d in jobs
    ensures EnqueuedInOrder(jobs[j.id := j], order + [j.id])
  {
    var jobs', order' := jobs[j.id := j], order + [j.id];
    forall i, d | 0 <= i < |order'| && d in jobs'[order'[i]].dependsOn
      ensures d in order'[..i]
    {
      if i < |order| {
        assert order'[..i] == order[..i] && order[i] in jobs;
      } else {
        assert order'[..i] == order;
      }
    }
  }

  lemma EnqueueStores(s: Store, j: JobData)
    requires j.id !in s.jobs && j.id !in s.held
    requires forall d | d in j.dependsOn :: d in s.jobs
    ensures Enqueue(s, j) == Store(s.jobs[j.id := CheckDependencies(s.jobs, j)], s.held)
            || j.status == Waiting
  {
    var stored := CheckDependencies(s.jobs, j);
    var jobs := s.jobs[j.id := stored];
    assert AllCompleted(jobs, j.dependsOn) <==> AllCompleted(s.jobs, j.dependsOn);
    assert s.held - {j.id} == s.held;
    if stored.status == Waiting && j.status != Waiting {
      assert Promote(jobs, {j.id}) == jobs;
    }
  }

  lemma InsertKeepsSafe(jobs: JobMap, j: JobData)
    requires SqlMachine.DependencySafe(jobs) && j.id !in jobs
    requires j.status == Waiting || AllCompleted(jobs, j.dependsOn)
    ensures SqlMachine.DependencySafe(jobs[j.id := j])
  {
    forall id | id in jobs && SqlMachine.Released(jobs[id].status)
      ensures AllCompleted(jobs[j.id := j], jobs[id].dependsOn)
    {
      assert AllCompleted(jobs, jobs[id].dependsOn);
    }
  }

  /** Enqueueing a fresh job whose dependencies are already there extends the order. */
  lemma EnqueueExtends(s: Store, order: seq<string>, j: JobData)
    requires Quiet(s, order) && j.id !in s.jobs && j.status == Pending
    requires forall d | d in j.dependsOn :: d in s.jobs
    ensures Quiet(Enqueue(s, j), order + [j.id])
  {
    var stored, s' := CheckDependencies(s.jobs, j), Enqueue(s, j);
    assert stored.id == j.id && stored.dependsOn == j.dependsOn;
    EnqueueStores(s, j);
    assert s' == Store(s.jobs[j.id := stored], {});
    EnqueueKeepsWakeClosed(s, j);
    OrderExtends(s.jobs, order, stored);
    assert EnqueuedInOrder(s'.jobs, order + [j.id]);
    InsertKeepsSafe(s.jobs, stored);
    assert SqlMachine.DependencySafe(s'.jobs);
  }

  /** Enqueueing a list of jobs one after the other. */
  function EnqueueEach(s: Store, jobs: seq<JobData>): Store {
    if jobs == [] then s else Enqueue(EnqueueEach(s, jobs[..|jobs| - 1]), jobs[|jobs| - 1])
  }

  function IdsOf(jobs: seq<JobData>): (ids: seq<string>)
    ensures |ids| == |jobs| && forall k | 0 <= k < |jobs| :: ids[k] == jobs[k].id
  {
    seq(|jobs|, k requires 0 <= k < |jobs| => jobs[k].id)
  }

  /** New jobs, each of which depends only on earlier ones. */
  ghost predicate NamesEarlier(jobs: seq<JobData>) {
    && (forall k | 0 <= k < |jobs| :: jobs[k].status == Pending)
    && (forall i, k | 0 <= i < k < |jobs| :: jobs[i].id != jobs[k].id)
    && (forall k, d | 0 <= k < |jobs| && d in jobs[k].dependsOn :: d in IdsOf(jobs)[..k])
  }

  lemma EarlierNamesEarlier(jobs: seq<JobData>, n: nat)
    requires NamesEarlier(jobs) && |jobs| == n + 1
    ensures NamesEarlier(jobs[..n]) && IdsOf(jobs) == IdsOf(jobs[..n]) + [jobs[n].id]
    ensures jobs[n].id !in IdsOf(jobs[..n]) && forall d | d in jobs[n].dependsOn :: d in IdsOf(jobs[..n])
  {
    var ids := IdsOf(jobs[..n]);
    assert ids == IdsOf(jobs)[..n];
    forall k, d | 0 <= k < n && d in jobs[k].dependsOn
      ensures d in ids[..k]
    {
      assert ids[..k] == IdsOf(jobs)[..k];
    }
  }

  /** Any list of jobs that name only earlier ones makes a graph that can be drained. */
  lemma {:induction false} EnqueuesAreQuiet(jobs: seq<JobData>)
    requires NamesEarlier(jobs)
    ensures Quiet(EnqueueEach(Store(map[], {}), jobs), IdsOf(jobs))
  {
    if jobs == [] {
      EmptyIsQuiet();
    } else {
      var n := |jobs| - 1;
      var s, ids := EnqueueEach(Store(map[], {}), jobs[..n]), IdsOf(jobs[..n]);
      EarlierNamesEarlier(jobs, n);
      EnqueuesAreQuiet(jobs[..n]);
      assert forall id | id in s.jobs :: id in ids;
      EnqueueExtends(s, ids, jobs[n]);
    }
  }

  lemma CancelKeepsQuiet(s: Store, order: seq<string>, id: string)
    requires Quiet(s, order)
    ensures Quiet(CancelJob(s, id).0, order)
  {
    var s' := CancelJob(s, id).0;
    OthersKeepWakeClosed(s, id, {}, 0.0);
    forall c | c in s'.jobs && SqlMachine.Released(s'.jobs[c].status)
      ensures AllCompleted(s'.jobs, s'.jobs[c].dependsOn)
    {
      assert AllCompleted(s.jobs, s.jobs[c].dependsOn);
    }
  }

  // ---------------------------------------------------------------- one round

  /** The taken job as its attempt leaves it. */
  function Result(j: JobData, tasks: set<string>, a: Attempt): JobData {
    if j.taskName in tasks then Run(j, a) else Fail(j, UnknownTaskError(j.taskName), a.endedAt)
  }

  lemma ResultStatus(j: JobData, tasks: set<string>, a: Attempt)
    ensures var r := Result(j, tasks, a);
            && r.status in {Completed, Failed, Dead, Retrying}
            && r.id == j.id && r.dependsOn == j.dependsOn && r.maxRetries == j.maxRetries
            && (r.status == Retrying ==> j.retries < j.maxRetries && r.retries == j.retries + 1)
            && (r.status == Completed ==> a.outcome.Success? && j.taskName in tasks)
  {
  }

  function Settle(jobs: JobMap, r: JobData): JobMap {
    var jobs' := jobs[r.id := r];
    if r.status == Completed then Promote(jobs', Dependents(jobs', r.id)) else jobs'
  }

  /** A round stores the result, and wakes dependents when it is a completion. */
  lemma RoundSettles(s: Store, tasks: set<string>, id: string, a: Attempt)
    requires WellKeyed(s.jobs) && id in s.jobs && Runnable(s.jobs[id].status) && id !in s.held
    requires AllCompleted(s.jobs, s.jobs[id].dependsOn)
    ensures Process(Claim(s, id), s.jobs[id], tasks, a).0
         == Store(Settle(s.jobs, Result(s.jobs[id], tasks, a)), s.held)
  {
    var j := s.jobs[id];
    assert s.held + {id} - {id} == s.held;
    if j.taskName in tasks {
      var started := Begin(j, a);
      var ended := Conclude(started, a);
      var s1 := Update(Claim(s, id), started);
      assert s1.jobs == s.jobs[id := started] && AllCompleted(s1.jobs, j.dependsOn);
      assert s1.jobs[id := ended] == s.jobs[id := ended];
      ResultStatus(j, tasks, a);
    }
  }

  /** Settling a result stores it; nothing else moves except waiting jobs that become pending. */
  lemma SettleEffect(jobs: JobMap, r: JobData)
    requires r.id in jobs && r.status != Waiting
    ensures var jobs' := Settle(jobs, r);
            && jobs'.Keys == jobs.Keys && jobs'[r.id] == r
            && forall id | id in jobs && id != r.id ::
                 || jobs'[id] == jobs[id]
                 || (jobs'[id] == jobs[id].(status := Pending) && jobs[id].status == Waiting
                     && AllCompleted(jobs', jobs[id].dependsOn))
  {
    PromotionsSound(jobs[r.id := r], r.id);
  }

  /** The taken job ends its attempt, and the rest is as settling it leaves it. */
  lemma TurnEffect(s: Store, order: seq<string>, tasks: set<string>, t: Turn, s': Store)
    requires Quiet(s, order) && TakesTurn(s, tasks, t, s')
    ensures s'.held == {} && s'.jobs.Keys == s.jobs.Keys
    ensures AllCompleted(s.jobs, s.jobs[t.id].dependsOn)
    ensures s'.jobs[t.id] == Result(s.jobs[t.id], tasks, t.attempt)
    ensures forall id | id in s.jobs && id != t.id ::
              || s'.jobs[id] == s.jobs[id]
              || (s'.jobs[id] == s.jobs[id].(status := Pending) && s.jobs[id].status == Waiting
                  && AllCompleted(s'.jobs, s.jobs[id].dependsOn))
  {
    assert AllCompleted(s.jobs, s.jobs[t.id].dependsOn);
    RoundSettles(s, tasks, t.id, t.attempt);
    ResultStatus(s.jobs[t.id], tasks, t.attempt);
    SettleEffect(s.jobs, Result(s.jobs[t.id], tasks, t.attempt));
  }

  lemma PromotionsSound(jobs: JobMap, finished: string)
    ensures var r := Promote(jobs, Dependents(jobs, finished));
            forall id | id in jobs :: r[id] == jobs[id]
              || (r[id] == jobs[id].(status := Pending) && jobs[id].status == Waiting
                  && AllCompleted(r, jobs[id].dependsOn))
  {
    forall id | id in jobs
      ensures AllCompleted(Promote(jobs, Dependents(jobs, finished)), jobs[id].dependsOn)
              <==> AllCompleted(jobs, jobs[id].dependsOn)
    {
      PromoteKeepsCompleted(jobs, Dependents(jobs, finished), jobs[id].dependsOn);
    }
  }

  lemma TurnKeepsIdentity(s: Store, order: seq<string>, tasks: set<string>, t: Turn, s': Store, id: string)
    requires Quiet(s, order) && TakesTurn(s, tasks, t, s') && id in s.jobs
    ensures id in s'.jobs && s'.jobs[id].id == id && s'.jobs[id].dependsOn == s.jobs[id].dependsOn
    ensures s.jobs[id].status == Completed ==> s'.jobs[id].status == Completed
    ensures s'.jobs[id].status != Running
  {
    TurnEffect(s, order, tasks, t, s');
    ResultStatus(s.jobs[t.id], tasks, t.attempt);
  }

  lemma TurnKeepsSafe(s: Store, order: seq<string>, tasks: set<string>, t: Turn, s': Store, id: string)
    requires Quiet(s, order) && TakesTurn(s, tasks, t, s')
    requires id in s'.jobs && SqlMachine.Released(s'.jobs[id].status)
    ensures AllCompleted(s'.jobs, s'.jobs[id].dependsOn)
  {
    TurnEffect(s, order, tasks, t, s');
    TurnKeepsIdentity(s, order, tasks, t, s', id);
    if id == t.id || s'.jobs[id] == s.jobs[id] {
      assert AllCompleted(s.jobs, s.jobs[id].dependsOn);
      forall d | d in s.jobs[id].dependsOn
        ensures d in s'.jobs && s'.jobs[d].status == Completed
      {
        TurnKeepsIdentity(s, order, tasks, t, s', d);
      }
    }
  }

  lemma TurnKeepsQuiet(s: Store, order: seq<string>, tasks: set<string>, t: Turn, s': Store)
    requires Quiet(s, order) && TakesTurn(s, tasks, t, s')
    ensures Quiet(s', order)
  {
    TurnEffect(s, order, tasks, t, s');
    ProcessKeepsWakeClosed(Claim(s, t.id), s.jobs[t.id], tasks, t.attempt);
    forall id | id in s.jobs
      ensures s'.jobs[id].id == id && s'.jobs[id].dependsOn == s.jobs[id].dependsOn && s'.jobs[id].status != Running
    {
      TurnKeepsIdentity(s, order, tasks, t, s', id);
    }
    forall id | id in s'.jobs && SqlMachine.Released(s'.jobs[id].status)
      ensures AllCompleted(s'.jobs, s'.jobs[id].dependsOn)
    {
      TurnKeepsSafe(s, order, tasks, t, s', id);
    }
  }

  // ---------------------------------------------------------------- termination

  /** Attempts a job may still make. */
  function Weight(j: JobData): nat {
    if Terminal(j.status) then 0
    else if j.retries < j.maxRetries then j.maxRetries - j.retries + 1
    else 1
  }

  ghost function Measure(jobs: JobMap, order: seq<string>): nat
    requires forall id | id in order :: id in jobs
  {
    if order == [] then 0
    else Measure(jobs, order[..|order| - 1]) + Weight(jobs[order[|order| - 1]])
  }

  lemma {:induction false} MeasureDrops(jobs: JobMap, jobs': JobMap, order: seq<string>, id: string)
    requires forall c | c in order :: c in jobs && c in jobs' && Weight(jobs'[c]) <= Weight(jobs[c])
    requires id in jobs && id in jobs' && Weight(jobs'[id]) < Weight(jobs[id])
    ensures Measure(jobs', order) <= Measure(jobs, order)
    ensures id in order ==> Measure(jobs', order) < Measure(jobs, order)
  {
    if order != [] {
      MeasureDrops(jobs, jobs', order[..|order| - 1], id);
      assert order == order[..|order| - 1] + [order[|order| - 1]];
    }
  }

  lemma ResultWeighsLess(j: JobData, tasks: set<string>, a: Attempt)
    requires Runnable(j.status)
    ensures Weight(Result(j, tasks, a)) < Weight(j)
  {
    ResultStatus(j, tasks, a);
  }

  lemma TurnDropsMeasure(s: Store, order: seq<string>, tasks: set<string>, t: Turn, s': Store)
    requires Quiet(s, order) && TakesTurn(s, tasks, t, s')
    ensures forall c | c in order :: c in s.jobs && c in s'.jobs
    ensures Measure(s'.jobs, order) < Measure(s.jobs, order)
  {
    TurnEffect(s, order, tasks, t, s');
    ResultWeighsLess(s.jobs[t.id], tasks, t.attempt);
    forall c | c in s.jobs
      ensures Weight(s'.jobs[c]) <= Weight(s.jobs[c])
    {
    }
    assert t.id in order;
    MeasureDrops(s.jobs, s'.jobs, order, t.id);
  }

  /** Draining stops: there are never more rounds than attempts left in the store. */
  lemma {:induction false} DrainTerminates(states: seq<Store>, order: seq<string>, tasks: set<string>,
                                           turns: seq<Turn>, k: nat)
    requires IsDrain(states, tasks, turns) && k < |states| && Quiet(states[0], order)
    ensures Quiet(states[k], order)
    ensures forall c | c in order :: c in states[0].jobs && c in states[k].jobs
    ensures k + Measure(states[k].jobs, order) <= Measure(states[0].jobs, order)
  {
    if k > 0 {
      DrainTerminates(states, order, tasks, turns, k - 1);
      TurnKeepsQuiet(states[k - 1], order, tasks, turns[k - 1], states[k]);
      TurnDropsMeasure(states[k - 1], order, tasks, turns[k - 1], states[k]);
    }
  }

  /** As long as something is runnable there is a best candidate, so the loop does not stop early. */
  lemma {:induction false} SomethingToTake(s: Store, queues: seq<string>, now: real, ids: seq<string>)
    returns (best: Option<string>)
    requires WellKeyed(s.jobs)
    ensures best.None? ==> forall c | c in ids :: !CanPop(s, queues, now, c)
    ensures best.Some? ==>
              && CanPop(s, queues, now, best.value)
              && forall c | c in ids && CanPop(s, queues, now, c) ::
                   c == best.value || CandidateLess(s.jobs[best.value], s.jobs[c])
  {
    best := None;
    if ids != [] {
      best := SomethingToTake(s, queues, now, ids[1..]);
      assert ids == [ids[0]] + ids[1..];
      if CanPop(s, queues, now, ids[0]) {
        if best.None? {
          best := Some(ids[0]);
        } else {
          var first, second := s.jobs[ids[0]], s.jobs[best.value];
          CandidateLessTotal(first, second);
          if CandidateLess(first, second) {
            forall c | c in ids[1..] && CanPop(s, queues, now, c)
              ensures c == ids[0] || CandidateLess(first, s.jobs[c])
            {
              if c != best.value {
                CandidateLessTransitive(first, second, s.jobs[c]);
              }
            }
            best := Some(ids[0]);
          }
        }
      }
    }
  }

  lemma RoundIsPossible(s: Store, order: seq<string>, tasks: set<string>, queues: seq<string>, now: real,
                        a: Attempt, runnable: string)
    requires Quiet(s, order) && runnable in s.jobs && Runnable(s.jobs[runnable].status)
    requires forall id | id in s.jobs && Runnable(s.jobs[id].status) ::
               s.jobs[id].queue in queues && s.jobs[id].Due(now)
    ensures exists t, s' :: TakesTurn(s, tasks, t, s')
  {
    var best := SomethingToTake(s, queues, now, order);
    assert CanPop(s, queues, now, runnable) && runnable in order;
    var t := Turn(queues, now, best.value, a);
    assert TakesTurn(s, tasks, t, Process(Claim(s, t.id), s.jobs[t.id], tasks, a).0);
  }

  // ---------------------------------------------------------------- the end state

  predicate EndedBadly(st: Status) {
    st == Failed || st == Dead || st == Cancelled
  }

  /** A chain of depends_on links. */
  ghost predicate IsChain(jobs: JobMap, chain: seq<string>) {
    && |chain| >= 2
    && (forall i | 0 <= i < |chain| :: chain[i] in jobs)
    && (forall i | 0 <= i < |chain| - 1 :: chain[i + 1] in jobs[chain[i]].dependsOn)
  }

  ghost predicate ChainToBadEnd(jobs: JobMap, id: string, chain: seq<string>) {
    IsChain(jobs, chain) && chain[0] == id && EndedBadly(jobs[chain[|chain| - 1]].status)
  }

  /** Some direct or transitive dependency ended failed, dead or cancelled. */
  ghost predicate BlockedForEver(jobs: JobMap, id: string) {
    exists chain :: ChainToBadEnd(jobs, id, chain)
  }

  lemma LongerChain(jobs: JobMap, id: string, chain: seq<string>)
    requires IsChain(jobs, chain) && EndedBadly(jobs[chain[|chain| - 1]].status)
    requires id in jobs && chain[0] in jobs[id].dependsOn
    ensures ChainToBadEnd(jobs, id, [id] + chain)
  {
  }

  lemma {:induction false} WaitingIsBlocked(s: Store, order: seq<string>, i: nat)
    requires Quiet(s, order) && i < |order| && s.jobs[order[i]].status == Waiting
    requires forall id | id in s.jobs :: !Runnable(s.jobs[id].status)
    ensures BlockedForEver(s.jobs, order[i])
  {
    var id := order[i];
    assert !Overdue(s.jobs, id);
    var d :| d in s.jobs[id].dependsOn && !(d in s.jobs && s.jobs[d].status == Completed);
    assert d in order[..i];
    var k :| 0 <= k < i && order[k] == d;
    if s.jobs[d].status == Waiting {
      WaitingIsBlocked(s, order, k);
      var chain :| ChainToBadEnd(s.jobs, d, chain);
      LongerChain(s.jobs, id, chain);
    } else {
      assert ChainToBadEnd(s.jobs, id, [id, d]);
    }
  }

  lemma {:induction false} ReleasedIsNotBlocked(jobs: JobMap, chain: seq<string>)
    requires SqlMachine.DependencySafe(jobs) && IsChain(jobs, chain)
    requires SqlMachine.Released(jobs[chain[0]].status)
    ensures jobs[chain[|chain| - 1]].status == Completed
  {
    assert chain[1] in jobs[chain[0]].dependsOn && jobs[chain[1]].status == Completed;
    if |chain| > 2 {
      var rest := chain[1..];
      forall i | 0 <= i < |rest| - 1
        ensures rest[i + 1] in jobs[rest[i]].dependsOn
      {
        assert chain[i + 1 + 1] in jobs[chain[i + 1]].dependsOn;
      }
      ReleasedIsNotBlocked(jobs, rest);
    }
  }

  /** When draining has nothing left to take, every job is terminal or waiting, and a job that was
      not itself cancelled waits exactly when some transitive dependency ended badly. */
  lemma DrainedState(states: seq<Store>, order: seq<string>, tasks: set<string>, turns: seq<Turn>, id: string)
    requires IsDrain(states, tasks, turns) && Quiet(states[0], order)
    requires var last := states[|turns|]; forall c | c in last.jobs :: !Runnable(last.jobs[c].status)
    requires id in states[|turns|].jobs
    ensures var jobs := states[|turns|].jobs;
            && (Terminal(jobs[id].status) || jobs[id].status == Waiting)
            && (jobs[id].status != Cancelled ==> (jobs[id].status == Waiting <==> BlockedForEver(jobs, id)))
  {
    DrainTerminates(states, order, tasks, turns, |turns|);
    var s := states[|turns|];
    if s.jobs[id].status == Waiting {
      var i :| 0 <= i < |order| && order[i] == id;
      WaitingIsBlocked(s, order, i);
    } else if s.jobs[id].status != Cancelled {
      forall chain
        ensures !ChainToBadEnd(s.jobs, id, chain)
      {
        if IsChain(s.jobs, chain) && chain[0] == id {
          ReleasedIsNotBlocked(s.jobs, chain);
        }
      }
    }
  }

  // ---------------------------------------------------------------- execution order

  predicate SucceededIn(turns: seq<Turn>, r: nat, d: string) {
    r < |turns| && turns[r].id == d && turns[r].attempt.outcome.Success?
  }

  lemma TurnCompletes(s: Store, order: seq<string>, tasks: set<string>, t: Turn, s': Store, d: string)
    requires Quiet(s, order) && TakesTurn(s, tasks, t, s')
    requires d in s'.jobs && s'.jobs[d].status == Completed
    ensures (d in s.jobs && s.jobs[d].status == Completed) || (t.id == d && t.attempt.outcome.Success?)
  {
    TurnEffect(s, order, tasks, t, s');
    ResultStatus(s.jobs[t.id], tasks, t.attempt);
  }

  /** A completed job was completed at the start, or an earlier round ran it successfully. */
  lemma {:induction false} CompletedBySomeRound(states: seq<Store>, order: seq<string>, tasks: set<string>,
                                                turns: seq<Turn>, k: nat, d: string)
    requires IsDrain(states, tasks, turns) && Quiet(states[0], order) && k < |states|
    requires d in states[k].jobs && states[k].jobs[d].status == Completed
    ensures (d in states[0].jobs && states[0].jobs[d].status == Completed)
            || exists r :: 0 <= r < k && SucceededIn(turns, r, d)
  {
    if k > 0 {
      DrainTerminates(states, order, tasks, turns, k - 1);
      TurnCompletes(states[k - 1], order, tasks, turns[k - 1], states[k], d);
      if SucceededIn(turns, k - 1, d) {
      } else {
        CompletedBySomeRound(states, order, tasks, turns, k - 1, d);
      }
    }
  }

  /** Execution respects depends_on: when a round runs a job, each of its dependencies was
      completed at the start or succeeded in an earlier round. */
  lemma RunsAfterItsDependencies(states: seq<Store>, order: seq<string>, tasks: set<string>,
                                 turns: seq<Turn>, k: nat, d: string)
    requires IsDrain(states, tasks, turns) && Quiet(states[0], order) && k < |turns|
    requires turns[k].id in states[k].jobs && d in states[k].jobs[turns[k].id].dependsOn
    ensures (d in states[0].jobs && states[0].jobs[d].status == Completed)
            || exists r :: 0 <= r < k && SucceededIn(turns, r, d)
  {
    DrainTerminates(states, order, tasks, turns, k);
    TurnEffect(states[k], order, tasks, turns[k], states[k + 1]);
    CompletedBySomeRound(states, order, tasks, turns, k, d);
  }

  // ---------------------------------------------------------------- hooks

  /** The attempts that the first n rounds make of one job, and the hooks they emit for it. */
  function AttemptsAt(turns: seq<Turn>, id: string, n: nat): seq<Attempt>
    requires n <= |turns|
  {
    if n == 0 then []
    else
      var before := AttemptsAt(turns, id, n - 1);
      if turns[n - 1].id == id then before + [turns[n - 1].attempt] else before
  }

  function HooksOf(states: seq<Store>, tasks: set<string>, turns: seq<Turn>, id: string, n: nat): seq<Event>
    requires n <= |turns| < |states|
  {
    if n == 0 then []
    else
      var before := HooksOf(states, tasks, turns, id, n - 1);
      if turns[n - 1].id == id then before + EventsOf(states[n - 1], tasks, turns[n - 1]) else before
  }

  /** The stored job is what its attempts made of it, whatever promotion did to its status before the first. */
  ghost predicate FollowsLife(j: JobData, start: JobData, attempts: seq<Attempt>) {
    if attempts == [] then j == start.(status := j.status)
    else j == Lifecycle(start, attempts).0 && j.status in {Completed, Failed, Dead, Retrying}
  }

  lemma TurnEvents(s: Store, tasks: set<string>, t: Turn)
    requires WellKeyed(s.jobs) && t.id in s.jobs && Runnable(s.jobs[t.id].status) && s.jobs[t.id].taskName in tasks
    ensures EventsOf(s, tasks, t) == [OnStart, ClosingEvent(Run(s.jobs[t.id], t.attempt))]
  {
  }

  /** The next attempt of a job starts where its life stands. */
  lemma NextAttempt(j: JobData, start: JobData, attempts: seq<Attempt>, a: Attempt)
    requires FollowsLife(j, start, attempts) && Runnable(j.status)
    ensures attempts == [] || Lifecycle(start, attempts).0.status == Retrying
    ensures Run(j, a) == Run(Lifecycle(start, attempts).0, a)
    ensures FollowsLife(Run(j, a), start, attempts + [a])
    ensures Lifecycle(start, attempts + [a]).1 == Lifecycle(start, attempts).1 + [OnStart, ClosingEvent(Run(j, a))]
  {
    var end := Lifecycle(start, attempts).0;
    assert Begin(j, a) == Begin(end, a);
    LifecycleGoesOn(start, attempts, a);
    RunStatus(j, a);
    assert attempts + [a] != [];
    ResultStatus(j, {j.taskName}, a);
  }

  /** A known job in the middle of its life, and the hooks it has emitted. */
  ghost predicate Lives(jobs: JobMap, tasks: set<string>, id: string, start: JobData, attempts: seq<Attempt>,
                        hooks: seq<Event>)
  {
    && id in jobs && jobs[id].taskName in tasks && FollowsLife(jobs[id], start, attempts)
    && hooks == Lifecycle(start, attempts).1
  }

  lemma OtherTurnLives(s: Store, order: seq<string>, tasks: set<string>, t: Turn, s': Store, id: string,
                       start: JobData, attempts: seq<Attempt>, hooks: seq<Event>)
    requires Quiet(s, order) && TakesTurn(s, tasks, t, s') && t.id != id
    requires Lives(s.jobs, tasks, id, start, attempts, hooks)
    ensures Lives(s'.jobs, tasks, id, start, attempts, hooks)
  {
    TurnEffect(s, order, tasks, t, s');
  }

  lemma OwnTurnRuns(s: Store, order: seq<string>, tasks: set<string>, t: Turn, s': Store)
    requires Quiet(s, order) && TakesTurn(s, tasks, t, s') && t.id in s.jobs && s.jobs[t.id].taskName in tasks
    ensures Runnable(s.jobs[t.id].status)
    ensures t.id in s'.jobs && s'.jobs[t.id] == Run(s.jobs[t.id], t.attempt)
    ensures EventsOf(s, tasks, t) == [OnStart, ClosingEvent(Run(s.jobs[t.id], t.attempt))]
  {
    TurnEffect(s, order, tasks, t, s');
    TurnEvents(s, tasks, t);
  }

  lemma RunKeepsTask(j: JobData, a: Attempt)
    ensures Run(j, a).taskName == j.taskName
  {
  }

  lemma OwnTurnLives(s: Store, order: seq<string>, tasks: set<string>, t: Turn, s': Store,
                     start: JobData, attempts: seq<Attempt>, hooks: seq<Event>)
    requires Quiet(s, order) && TakesTurn(s, tasks, t, s')
    requires Lives(s.jobs, tasks, t.id, start, attempts, hooks)
    ensures Lives(s'.jobs, tasks, t.id, start, attempts + [t.attempt], hooks + EventsOf(s, tasks, t))
  {
    OwnTurnRuns(s, order, tasks, t, s');
    NextAttempt(s.jobs[t.id], start, attempts, t.attempt);
    RunKeepsTask(s.jobs[t.id], t.attempt);
  }

  lemma TurnLives(s: Store, order: seq<string>, tasks: set<string>, t: Turn, s': Store, id: string,
                  start: JobData, attempts: seq<Attempt>, hooks: seq<Event>)
    requires Quiet(s, order) && TakesTurn(s, tasks, t, s') && Lives(s.jobs, tasks, id, start, attempts, hooks)
    ensures t.id == id ==>
              Lives(s'.jobs, tasks, id, start, attempts + [t.attempt], hooks + EventsOf(s, tasks, t))
    ensures t.id != id ==> Lives(s'.jobs, tasks, id, start, attempts, hooks)
  {
    if t.id == id {
      OwnTurnLives(s, order, tasks, t, s', start, attempts, hooks);
    } else {
      OtherTurnLives(s, order, tasks, t, s', id, start, attempts, hooks);
    }
  }

  lemma BornAlive(jobs: JobMap, tasks: set<string>, id: string)
    requires id in jobs && jobs[id].taskName in tasks
    ensures Lives(jobs, tasks, id, jobs[id], [], [])
  {
  }

  lemma QuietAt(states: seq<Store>, order: seq<string>, tasks: set<string>, turns: seq<Turn>, k: nat)
    requires IsDrain(states, tasks, turns) && Quiet(states[0], order) && k < |turns|
    ensures Quiet(states[k], order) && TakesTurn(states[k], tasks, turns[k], states[k + 1])
  {
    DrainTerminates(states, order, tasks, turns, k);
  }

  /** Wherever the life of a job stands, the turn takes it on. */
  ghost predicate LivesOn(s: Store, tasks: set<string>, t: Turn, s': Store, id: string) {
    forall start, attempts, hooks | Lives(s.jobs, tasks, id, start, attempts, hooks) ::
      if t.id == id then Lives(s'.jobs, tasks, id, start, attempts + [t.attempt], hooks + EventsOf(s, tasks, t))
      else Lives(s'.jobs, tasks, id, start, attempts, hooks)
  }

  lemma NextTurnLives(states: seq<Store>, order: seq<string>, tasks: set<string>, turns: seq<Turn>, n: nat,
                      id: string)
    requires IsDrain(states, tasks, turns) && Quiet(states[0], order) && n < |turns|
    ensures LivesOn(states[n], tasks, turns[n], states[n + 1], id)
  {
    QuietAt(states, order, tasks, turns, n);
    forall start, attempts, hooks | Lives(states[n].jobs, tasks, id, start, attempts, hooks)
      ensures if turns[n].id == id
              then Lives(states[n + 1].jobs, tasks, id, start, attempts + [turns[n].attempt],
                         hooks + EventsOf(states[n], tasks, turns[n]))
              else Lives(states[n + 1].jobs, tasks, id, start, attempts, hooks)
    {
      TurnLives(states[n], order, tasks, turns[n], states[n + 1], id, start, attempts, hooks);
    }
  }

  lemma {:induction false} LifeUpTo(states: seq<Store>, tasks: set<string>, turns: seq<Turn>, id: string, n: nat)
    requires n <= |turns| < |states|
    requires forall k | 0 <= k < |turns| :: LivesOn(states[k], tasks, turns[k], states[k + 1], id)
    requires id in states[0].jobs && states[0].jobs[id].taskName in tasks
    ensures Lives(states[n].jobs, tasks, id, states[0].jobs[id], AttemptsAt(turns, id, n),
                  HooksOf(states, tasks, turns, id, n))
  {
    if n == 0 {
      BornAlive(states[0].jobs, tasks, id);
    } else {
      LifeUpTo(states, tasks, turns, id, n - 1);
      assert LivesOn(states[n - 1], tasks, turns[n - 1], states[n], id);
    }
  }

  /** In any drain the hooks emitted for a known job are the trace of its life up to there. */
  lemma HooksFollowLife(states: seq<Store>, order: seq<string>, tasks: set<string>, turns: seq<Turn>, id: string,
                        n: nat)
    requires IsDrain(states, tasks, turns) && Quiet(states[0], order) && n <= |turns|
    requires id in states[0].jobs && states[0].jobs[id].taskName in tasks
    ensures Lives(states[n].jobs, tasks, id, states[0].jobs[id], AttemptsAt(turns, id, n),
                  HooksOf(states, tasks, turns, id, n))
  {
    forall k: nat | k < |turns|
      ensures LivesOn(states[k], tasks, turns[k], states[k + 1], id)
    {
      NextTurnLives(states, order, tasks, turns, k, id);
    }
    LifeUpTo(states, tasks, turns, id, n);
  }
}
