/** Dependency wake-up in the Redis broker (src/aioq/backends/redis.py) under concurrency: every
    Redis command or MULTI pipeline is one atomic step, and any number of enqueue and update_job
    calls interleave between commands. Records are whole JSON documents, so writes are unguarded. */
module RedisWakeUp {
  import opened Jobs

  /** Where a call stands. `todo` lists the jobs whose promotion it still has to look at. */
  datatype Proc =
    | Registering(job: JobData)
    | CheckingDep(job: JobData, next: nat)
    | ReadingOld(job: JobData)
    | Writing(job: JobData)
    | ReadingMembers(finished: string)
    | ReadingWaiter(todo: seq<string>)
    | ReadingDep(waiter: JobData, next: nat, todo: seq<string>)
    | Promoting(waiter: JobData, todo: seq<string>)

  /** `known` holds the depends_on list of every job object ever created; it never changes. */
  datatype State = State(
    records: JobMap,
    dependents: map<string, set<string>>,
    known: map<string, seq<string>>,
    procs: map<nat, Proc>)

  datatype Action =
    | BeginEnqueue(pid: nat, job: JobData)
    | BeginUpdate(pid: nat, job: JobData)
    | Step(pid: nat, members: seq<string>)

  function DependentsOf(s: State, id: string): set<string> {
    if id in s.dependents then s.dependents[id] else {}
  }

  predicate Registered(s: State, id: string, deps: seq<string>) {
    forall d | d in deps :: id in DependentsOf(s, d)
  }

  predicate HasStatus(records: JobMap, id: string, st: Status) {
    id in records && records[id].status == st
  }

  /** enqueue is called with runnable jobs; update_job with any status but waiting, on jobs that an
      enqueue has registered. SMEMBERS returns its set in any order. */
  predicate Enabled(s: State, a: Action) {
    match a
    case BeginEnqueue(pid, job) =>
      && pid !in s.procs && Runnable(job.status)
      && (job.id in s.known ==> s.known[job.id] == job.dependsOn)
    case BeginUpdate(pid, job) =>
      && pid !in s.procs && job.status != Waiting
      && job.id in s.known && s.known[job.id] == job.dependsOn && Registered(s, job.id, job.dependsOn)
    case Step(pid, members) =>
      && pid in s.procs
      && (s.procs[pid].ReadingMembers? ==> (set c | c in members) == DependentsOf(s, s.procs[pid].finished))
  }

  function AddDependents(dependents: map<string, set<string>>, deps: seq<string>, id: string)
    : map<string, set<string>>
  {
    map d | d in dependents.Keys + (set x | x in deps) ::
      (if d in dependents then dependents[d] else {}) + (if d in deps then {id} else {})
  }

  function NextRecords(s: State, p: Proc): JobMap {
    match p
    case Writing(job) => s.records[job.id := job]
    case Promoting(waiter, _) => s.records[waiter.id := waiter.(status := Pending)]
    case _ => s.records
  }

  function Continue(todo: seq<string>): Option<Proc> {
    if todo == [] then None else Some(ReadingWaiter(todo))
  }

  function NextProc(s: State, p: Proc, members: seq<string>): Option<Proc> {
    match p
    case Registering(job) => Some(CheckingDep(job, 0))
    case CheckingDep(job, next) =>
      if next >= |job.dependsOn| then Some(ReadingOld(job))
      else if HasStatus(s.records, job.dependsOn[next], Completed) then Some(CheckingDep(job, next + 1))
      else Some(ReadingOld(job.(status := Waiting)))
    case ReadingOld(job) => Some(Writing(job))
    case Writing(job) =>
      if job.status == Waiting then Some(ReadingWaiter([job.id]))
      else if job.status == Completed then Some(ReadingMembers(job.id))
      else None
    case ReadingMembers(_) => Continue(members)
    case ReadingWaiter(todo) =>
      if todo == [] then None
      else if HasStatus(s.records, todo[0], Waiting) then Some(ReadingDep(s.records[todo[0]], 0, todo[1..]))
      else Continue(todo[1..])
    case ReadingDep(waiter, next, todo) =>
      if next >= |waiter.dependsOn| then Some(Promoting(waiter, todo))
      else if HasStatus(s.records, waiter.dependsOn[next], Completed) then Some(ReadingDep(waiter, next + 1, todo))
      else Continue(todo)
    case Promoting(_, todo) => Continue(todo)
  }

  function Apply(s: State, a: Action): State
    requires Enabled(s, a)
  {
    match a
    case BeginEnqueue(pid, job) =>
      s.(known := s.known[job.id := job.dependsOn], procs := s.procs[pid := Registering(job)])
    case BeginUpdate(pid, job) => s.(procs := s.procs[pid := ReadingOld(job)])
    case Step(pid, members) =>
      var p := s.procs[pid];
      State(NextRecords(s, p),
            if p.Registering? then AddDependents(s.dependents, p.job.dependsOn, p.job.id) else s.dependents,
            s.known,
            match NextProc(s, p, members) {
              case Some(p') => s.procs[pid := p']
              case None => s.procs - {pid}
            })
  }

  const INITIAL := State(map[], map[], map[], map[])

  ghost predicate IsRun(states: seq<State>, actions: seq<Action>) {
    && |states| == |actions| + 1 && states[0] == INITIAL
    && forall k | 0 <= k < |actions| :: Enabled(states[k], actions[k]) && states[k + 1] == Apply(states[k], actions[k])
  }

  // ---------------------------------------------------------------- invariants

  predicate Faithful(s: State, j: JobData) {
    j.id in s.known && s.known[j.id] == j.dependsOn
  }

  /** Every record, and every job a call is past registering, is listed with its dependencies. */
  predicate GoodProc(s: State, p: Proc) {
    match p
    case Registering(job) => Faithful(s, job) && Runnable(job.status)
    case CheckingDep(job, _) => Faithful(s, job) && Registered(s, job.id, job.dependsOn) && Runnable(job.status)
    case ReadingOld(job) => Faithful(s, job) && Registered(s, job.id, job.dependsOn)
    case Writing(job) => Faithful(s, job) && Registered(s, job.id, job.dependsOn)
    case ReadingDep(waiter, _, _) => Faithful(s, waiter) && Registered(s, waiter.id, waiter.dependsOn)
    case Promoting(waiter, _) => Faithful(s, waiter) && Registered(s, waiter.id, waiter.dependsOn)
    case _ => true
  }

  ghost predicate Inv(s: State) {
    && (forall id | id in s.records ::
          && s.records[id].id == id && Faithful(s, s.records[id])
          && Registered(s, id, s.records[id].dependsOn))
    && (forall pid | pid in s.procs :: GoodProc(s, s.procs[pid]))
  }

  lemma RegisteredKept(s: State, a: Action, id: string, deps: seq<string>)
    requires Enabled(s, a) && Registered(s, id, deps)
    ensures Registered(Apply(s, a), id, deps)
  {
    forall d | d in deps
      ensures id in DependentsOf(Apply(s, a), d)
    {
      assert id in DependentsOf(s, d);
    }
  }

  lemma GoodProcKept(s: State, a: Action, p: Proc)
    requires Enabled(s, a) && GoodProc(s, p)
    ensures GoodProc(Apply(s, a), p)
  {
    match p
    case Registering(job) =>
    case CheckingDep(job, _) => RegisteredKept(s, a, job.id, job.dependsOn);
    case ReadingOld(job) => RegisteredKept(s, a, job.id, job.dependsOn);
    case Writing(job) => RegisteredKept(s, a, job.id, job.dependsOn);
    case ReadingDep(waiter, _, _) => RegisteredKept(s, a, waiter.id, waiter.dependsOn);
    case Promoting(waiter, _) => RegisteredKept(s, a, waiter.id, waiter.dependsOn);
    case _ =>
  }

  lemma NextProcGood(s: State, a: Action)
    requires Inv(s) && Enabled(s, a) && a.Step? && NextProc(s, s.procs[a.pid], a.members).Some?
    ensures GoodProc(Apply(s, a), NextProc(s, s.procs[a.pid], a.members).value)
  {
    var p := s.procs[a.pid];
    if p.Registering? {
      assert Registered(Apply(s, a), p.job.id, p.job.dependsOn);
    } else {
      GoodProcKept(s, a, NextProc(s, p, a.members).value);
    }
  }

  lemma InvKept(s: State, a: Action)
    requires Inv(s) && Enabled(s, a)
    ensures Inv(Apply(s, a))
  {
    var s' := Apply(s, a);
    forall id | id in s'.records
      ensures s'.records[id].id == id && Faithful(s', s'.records[id])
              && Registered(s', id, s'.records[id].dependsOn)
    {
      RegisteredKept(s, a, id, s'.records[id].dependsOn);
    }
    forall pid | pid in s'.procs
      ensures GoodProc(s', s'.procs[pid])
    {
      if pid in s.procs && s'.procs[pid] == s.procs[pid] {
        GoodProcKept(s, a, s.procs[pid]);
      } else if a.Step? {
        NextProcGood(s, a);
      } else if a.BeginUpdate? {
        GoodProcKept(s, a, ReadingOld(a.job));
      }
    }
  }

  // ---------------------------------------------------------------- no lost wake-up

  predicate Overdue(s: State, c: string) {
    HasStatus(s.records, c, Waiting) && AllCompleted(s.records, s.records[c].dependsOn)
  }

  predicate WillDecide(s: State, p: Proc, c: string) {
    || (p.ReadingMembers? && c in s.records && p.finished in s.records[c].dependsOn)
    || (p.ReadingWaiter? && c in p.todo)
    || ((p.ReadingDep? || p.Promoting?) && (c in p.todo || p.waiter.id == c))
  }

  predicate Decides(s: State, pid: nat, c: string) {
    pid in s.procs && WillDecide(s, s.procs[pid], c)
  }

  ghost predicate NothingForgotten(s: State) {
    forall c | Overdue(s, c) :: exists pid :: Decides(s, pid, c)
  }

  /** A call does not drop an overdue record that stays waiting. */
  lemma DecisionIsCarried(s: State, a: Action, c: string)
    requires Inv(s) && Enabled(s, a) && a.Step? && Overdue(s, c) && Decides(s, a.pid, c)
    requires Overdue(Apply(s, a), c)
    ensures Decides(Apply(s, a), a.pid, c)
  {
    var p := s.procs[a.pid];
    if p.ReadingWaiter? && p.todo != [] {
      assert p.todo == [p.todo[0]] + p.todo[1..];
    }
    if p.ReadingMembers? {
      assert Registered(s, c, s.records[c].dependsOn);
    }
  }

  lemma BecomesOverdue(s: State, a: Action, c: string)
    requires Inv(s) && Enabled(s, a) && !Overdue(s, c) && Overdue(Apply(s, a), c)
    ensures a.Step? && Decides(Apply(s, a), a.pid, c)
  {
    var s' := Apply(s, a);
    if HasStatus(s.records, c, Waiting) && !(a.Step? && s.procs[a.pid].Writing? && s.procs[a.pid].job.id == c) {
      var d :| d in s.records[c].dependsOn && !HasStatus(s.records, d, Completed);
      assert d in s'.records[c].dependsOn && HasStatus(s'.records, d, Completed);
    }
  }

  lemma NothingForgottenKept(s: State, a: Action)
    requires Inv(s) && Enabled(s, a) && NothingForgotten(s)
    ensures NothingForgotten(Apply(s, a))
  {
    var s' := Apply(s, a);
    forall c | Overdue(s', c)
      ensures exists pid :: Decides(s', pid, c)
    {
      if Overdue(s, c) {
        var pid :| Decides(s, pid, c);
        if a.Step? && a.pid == pid {
          DecisionIsCarried(s, a, c);
        } else {
          DecisionSurvivesOthers(s, a, pid, c);
        }
      } else {
        BecomesOverdue(s, a, c);
      }
    }
  }

  lemma DecisionSurvivesOthers(s: State, a: Action, pid: nat, c: string)
    requires Inv(s) && Enabled(s, a) && Overdue(s, c) && Decides(s, pid, c) && a.pid != pid
    ensures Decides(Apply(s, a), pid, c)
  {
    assert Faithful(s, s.records[c]);
    if a.Step? && c in NextRecords(s, s.procs[a.pid]) {
      assert GoodProc(s, s.procs[a.pid]);
    }
  }

  lemma {:induction false} EveryRunForgetsNothing(states: seq<State>, actions: seq<Action>, k: nat)
    requires IsRun(states, actions) && k < |states|
    ensures Inv(states[k]) && NothingForgotten(states[k])
  {
    if k > 0 {
      EveryRunForgetsNothing(states, actions, k - 1);
      InvKept(states[k - 1], actions[k - 1]);
      NothingForgottenKept(states[k - 1], actions[k - 1]);
    }
  }

  /** Every call has come to its write at most: none is between a write and the end of its promotions. */
  predicate PromotionsDone(s: State) {
    forall pid | pid in s.procs ::
      var p := s.procs[pid];
      p.Registering? || p.CheckingDep? || p.ReadingOld? || p.Writing?
  }

  /** No lost wake-up: whatever the interleaving, once the promotions are done no job is left
      waiting with all its dependencies completed. */
  lemma NoLostWakeUp(states: seq<State>, actions: seq<Action>, k: nat, c: string)
    requires IsRun(states, actions) && k < |states| && PromotionsDone(states[k])
    ensures !Overdue(states[k], c)
  {
    EveryRunForgetsNothing(states, actions, k);
    forall pid
      ensures !Decides(states[k], pid, c)
    {
    }
  }

  // ---------------------------------------------------------------- what the records hold

  /** The job was handed to a call, which changed at most its status: an enqueue may make it wait, and a promotion may
      make it pending again. */
  predicate IsFrom(a: Action, j: JobData) {
    match a
    case BeginEnqueue(_, job) =>
      j == job.(status := j.status) && Runnable(job.status) && j.status in {job.status, Waiting, Pending}
    case BeginUpdate(_, job) => j == job && j.status != Waiting
    case Step(_, _) => false
  }

  ghost predicate HandedIn(actions: seq<Action>, j: JobData) {
    exists k :: 0 <= k < |actions| && IsFrom(actions[k], j)
  }

  ghost predicate FromEnqueue(actions: seq<Action>, j: JobData) {
    exists k :: 0 <= k < |actions| && actions[k].BeginEnqueue? && IsFrom(actions[k], j)
  }

  lemma StillHandedIn(actions: seq<Action>, a: Action, j: JobData)
    ensures HandedIn(actions, j) ==> HandedIn(actions + [a], j)
    ensures FromEnqueue(actions, j) ==> FromEnqueue(actions + [a], j)
    ensures IsFrom(a, j) ==> HandedIn(actions + [a], j)
    ensures IsFrom(a, j) && a.BeginEnqueue? ==> FromEnqueue(actions + [a], j)
  {
    var more := actions + [a];
    assert more[|actions|] == a;
    assert forall k | 0 <= k < |actions| :: more[k] == actions[k];
  }

  /** A job that may wait came from an enqueue, which may also leave it waiting or pending. */
  lemma MayWait(actions: seq<Action>, j: JobData, st: Status)
    requires (FromEnqueue(actions, j) || (HandedIn(actions, j) && j.status == Waiting)) && st in {Waiting, Pending}
    ensures HandedIn(actions, j.(status := st))
  {
    var k :| 0 <= k < |actions| && IsFrom(actions[k], j) && actions[k].BeginEnqueue?;
    assert IsFrom(actions[k], j.(status := st));
  }

  /** What a call works on was handed in, and a promotion has read a waiting record. */
  ghost predicate ProcIsFrom(actions: seq<Action>, p: Proc) {
    match p
    case Registering(job) => FromEnqueue(actions, job)
    case CheckingDep(job, _) => FromEnqueue(actions, job)
    case ReadingOld(job) => HandedIn(actions, job)
    case Writing(job) => HandedIn(actions, job)
    case ReadingDep(waiter, _, _) => HandedIn(actions, waiter) && waiter.status == Waiting
    case Promoting(waiter, _) => HandedIn(actions, waiter) && waiter.status == Waiting
    case _ => true
  }

  ghost predicate AllHandedIn(s: State, actions: seq<Action>) {
    && (forall id | id in s.records :: HandedIn(actions, s.records[id]))
    && (forall pid | pid in s.procs :: ProcIsFrom(actions, s.procs[pid]))
  }

  lemma ProcStaysFrom(actions: seq<Action>, a: Action, p: Proc)
    requires ProcIsFrom(actions, p)
    ensures ProcIsFrom(actions + [a], p)
  {
    match p
    case Registering(job) => StillHandedIn(actions, a, job);
    case CheckingDep(job, _) => StillHandedIn(actions, a, job);
    case ReadingOld(job) => StillHandedIn(actions, a, job);
    case Writing(job) => StillHandedIn(actions, a, job);
    case ReadingDep(waiter, _, _) => StillHandedIn(actions, a, waiter);
    case Promoting(waiter, _) => StillHandedIn(actions, a, waiter);
    case _ =>
  }

  lemma EnqueuedIsHandedIn(actions: seq<Action>, j: JobData)
    ensures FromEnqueue(actions, j) ==> HandedIn(actions, j)
  {
  }

  lemma NextProcIsFrom(s: State, actions: seq<Action>, p: Proc, members: seq<string>)
    requires AllHandedIn(s, actions) && ProcIsFrom(actions, p) && NextProc(s, p, members).Some?
    ensures ProcIsFrom(actions, NextProc(s, p, members).value)
  {
    if p.CheckingDep? {
      EnqueuedIsHandedIn(actions, p.job);
      MayWait(actions, p.job, Waiting);
    }
  }

  lemma NextRecordsAreFrom(s: State, actions: seq<Action>, p: Proc, id: string)
    requires AllHandedIn(s, actions) && ProcIsFrom(actions, p) && id in NextRecords(s, p)
    ensures HandedIn(actions, NextRecords(s, p)[id])
  {
    if p.Promoting? {
      MayWait(actions, p.waiter, Pending);
    }
  }

  lemma AllHandedInKept(s: State, actions: seq<Action>, a: Action)
    requires AllHandedIn(s, actions) && Enabled(s, a)
    ensures AllHandedIn(Apply(s, a), actions + [a])
  {
    var s' := Apply(s, a);
    forall id | id in s'.records
      ensures HandedIn(actions + [a], s'.records[id])
    {
      if a.Step? {
        NextRecordsAreFrom(s, actions, s.procs[a.pid], id);
      }
      StillHandedIn(actions, a, s'.records[id]);
    }
    forall pid | pid in s'.procs
      ensures ProcIsFrom(actions + [a], s'.procs[pid])
    {
      if pid in s.procs && s'.procs[pid] == s.procs[pid] {
        ProcStaysFrom(actions, a, s.procs[pid]);
      } else if a.Step? {
        NextProcIsFrom(s, actions, s.procs[a.pid], a.members);
        ProcStaysFrom(actions, a, s'.procs[pid]);
      } else {
        StillHandedIn(actions, a, a.job);
      }
    }
  }

  /** In every interleaving each record is the job of some call as it was handed in, but for the waiting and waking of
      enqueued jobs. */
  lemma {:induction false} RecordsAreHandedIn(states: seq<State>, actions: seq<Action>, n: nat)
    requires IsRun(states, actions) && n < |states|
    ensures AllHandedIn(states[n], actions[..n])
  {
    if n > 0 {
      RecordsAreHandedIn(states, actions, n - 1);
      AllHandedInKept(states[n - 1], actions[..n - 1], actions[n - 1]);
      assert actions[..n] == actions[..n - 1] + [actions[n - 1]];
    }
  }

  // ---------------------------------------------------------------- what a release has seen

  ghost predicate SeenCompleted(states: seq<State>, n: nat, d: string)
    requires n < |states|
  {
    exists m :: 0 <= m <= n && HasStatus(states[m].records, d, Completed)
  }

  /** The dependencies a client has looked at so far were completed when it did. */
  ghost predicate HasSeen(states: seq<State>, n: nat, p: Proc)
    requires n < |states|
  {
    match p
    case CheckingDep(job, next) => forall i | 0 <= i < next && i < |job.dependsOn| ::
                                     SeenCompleted(states, n, job.dependsOn[i])
    case ReadingDep(waiter, next, _) => forall i | 0 <= i < next && i < |waiter.dependsOn| ::
                                          SeenCompleted(states, n, waiter.dependsOn[i])
    case Promoting(waiter, _) => forall d | d in waiter.dependsOn :: SeenCompleted(states, n, d)
    case _ => true
  }

  lemma SeenLater(states: seq<State>, n: nat, d: string)
    requires n + 1 < |states| && SeenCompleted(states, n, d)
    ensures SeenCompleted(states, n + 1, d)
  {
  }

  lemma SeenOn(states: seq<State>, n: nat, p: Proc)
    requires n + 1 < |states| && HasSeen(states, n, p)
    ensures HasSeen(states, n + 1, p)
  {
    forall d | SeenCompleted(states, n, d)
      ensures SeenCompleted(states, n + 1, d)
    {
      SeenLater(states, n, d);
    }
  }

  lemma NextHasSeen(states: seq<State>, n: nat, p: Proc, members: seq<string>)
    requires n < |states| && HasSeen(states, n, p) && NextProc(states[n], p, members).Some?
    ensures HasSeen(states, n, NextProc(states[n], p, members).value)
  {
    var p' := NextProc(states[n], p, members).value;
    if p.CheckingDep? && p'.CheckingDep? {
      assert SeenCompleted(states, n, p.job.dependsOn[p.next]);
    } else if p.ReadingDep? && p'.ReadingDep? {
      assert SeenCompleted(states, n, p.waiter.dependsOn[p.next]);
    }
  }

  lemma {:induction false} ClientsHaveSeen(states: seq<State>, actions: seq<Action>, n: nat, pid: nat)
    requires IsRun(states, actions) && n < |states| && pid in states[n].procs
    ensures HasSeen(states, n, states[n].procs[pid])
  {
    if n > 0 {
      var s, a := states[n - 1], actions[n - 1];
      if pid in s.procs && states[n].procs[pid] == s.procs[pid] {
        ClientsHaveSeen(states, actions, n - 1, pid);
        SeenOn(states, n - 1, s.procs[pid]);
      } else if a.Step? {
        ClientsHaveSeen(states, actions, n - 1, pid);
        NextHasSeen(states, n - 1, s.procs[pid], a.members);
        SeenOn(states, n - 1, states[n].procs[pid]);
      }
    }
  }

  /** In every interleaving an enqueue lets a job run, and a promotion wakes one, only after it has seen each of the
      job's dependencies completed. */
  lemma ReleaseHasSeenAll(states: seq<State>, actions: seq<Action>, n: nat, pid: nat, j: JobData)
    requires IsRun(states, actions) && n < |actions| && actions[n].Step? && actions[n].pid == pid
    requires || (states[n].procs[pid].CheckingDep? && pid in states[n + 1].procs
                 && states[n + 1].procs[pid] == ReadingOld(j) && Runnable(j.status))
             || (states[n].procs[pid].Promoting? && states[n].procs[pid].waiter == j)
    ensures forall d | d in j.dependsOn :: SeenCompleted(states, n, d)
  {
    ClientsHaveSeen(states, actions, n, pid);
  }

  // ---------------------------------------------------------------- what a promotion overwrites

  /** What a statement guarded by the status would make of the record. */
  function GuardedPromotion(records: JobMap, id: string): JobMap {
    if HasStatus(records, id, Waiting) then records[id := records[id].(status := Pending)] else records
  }

  /** A promotion writes back the record it read. It acts as a guarded one exactly when nobody has written the record
      in between, other than by promoting it too. */
  lemma PromotionIsGuardedExactly(s: State, p: Proc)
    requires Inv(s) && p.Promoting? && p.waiter.status == Waiting
    ensures NextRecords(s, p) == GuardedPromotion(s.records, p.waiter.id)
            <==> p.waiter.id in s.records && s.records[p.waiter.id] in {p.waiter, p.waiter.(status := Pending)}
  {
    var id := p.waiter.id;
    assert NextRecords(s, p)[id] == p.waiter.(status := Pending);
    if NextRecords(s, p) == GuardedPromotion(s.records, id) {
      assert id in GuardedPromotion(s.records, id);
      assert HasStatus(s.records, id, Waiting) ==>
          s.records[id] == s.records[id].(status := Pending).(status := Waiting)
          && p.waiter == p.waiter.(status := Pending).(status := Waiting);
    }
  }

  function Cancelling(other: nat, j: JobData, pid: nat): seq<Action> {
    [BeginUpdate(other, j.(status := Cancelled)), Step(other, []), Step(other, []), Step(pid, [])]
  }

  /** Whenever a client is about to promote a job, another one can cancel it in the meantime: the cancel call ends with
      the job cancelled, and the promotion makes it pending again. */
  lemma PromotionUndoesCancel(s: State, pid: nat, other: nat) returns (states: seq<State>)
    requires Inv(s) && pid in s.procs && s.procs[pid].Promoting? && other !in s.procs
    ensures var (j, actions) := (s.procs[pid].waiter, Cancelling(other, s.procs[pid].waiter, pid));
            && |states| == 5 && states[0] == s
            && (forall k | 0 <= k < 4 ::
                  Enabled(states[k], actions[k]) && states[k + 1] == Apply(states[k], actions[k]))
            && other !in states[3].procs && HasStatus(states[3].records, j.id, Cancelled)
            && HasStatus(states[4].records, j.id, Pending)
  {
    var j := s.procs[pid].waiter;
    var actions := Cancelling(other, j, pid);
    assert GoodProc(s, s.procs[pid]);
    var s1 := Apply(s, actions[0]);
    var s2 := Apply(s1, actions[1]);
    var s3 := Apply(s2, actions[2]);
    var s4 := Apply(s3, actions[3]);
    states := [s, s1, s2, s3, s4];
  }
}
