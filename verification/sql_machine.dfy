/** The SQL brokers under concurrency (src/aioq/backends/sql.py, postgres.py): every statement is
    one atomic step on the job table, and any number of enqueuers, workers, completers, cancellers,
    retriers and purgers interleave between statements. */
module SqlMachine {
  import opened Jobs
  import opened Attempts

  /** A row of the waiting-dependents query: an id with the depends_on it had when fetched. */
  datatype Waiter = Waiter(id: string, deps: seq<string>)

  /** Where a client stands between two statements. `retry` marks the re-enqueue a worker makes
      for a job it still holds. */
  datatype Proc =
    | Checking(job: JobData, retry: bool)
    | Writing(job: JobData, retry: bool)
    | Promoting(target: string, deps: seq<string>)
    | Marking(target: string)
    | Claimed(job: JobData)
    | Cleared(job: JobData)
    | Executing(job: JobData)
    | Fetching(finished: string)
    | Scanning(finished: string, todo: seq<Waiter>)
    | MarkingFirst(finished: string, todo: seq<Waiter>)

  /** The job table and the clients. `issued` holds every id ever given to an enqueue and
      `used` every id that ever had a row: ids are fresh UUIDs. */
  datatype State = State(rows: JobMap, issued: set<string>, used: set<string>, procs: map<nat, Proc>)

  datatype Action =
    | BeginEnqueue(pid: nat, job: JobData)
    | CheckDeps(pid: nat)
    | Write(pid: nat)
    | CountDeps(pid: nat)
    | Mark(pid: nat)
    | Claim(pid: nat, id: string, now: real)
    | FailUnknown(pid: nat, error: string, now: real)
    | ReadFresh(pid: nat)
    | Start(pid: nat, attempt: Attempt)
    | Finish(pid: nat, attempt: Attempt)
    | Fetch(pid: nat, found: seq<Waiter>)
    | CountFirst(pid: nat)
    | MarkFirst(pid: nat)
    | Cancel(id: string)
    | RetryJob(id: string)
    | Purge(ids: set<string>)

  // ---------------------------------------------------------------- statements

  /** INSERT .. ON CONFLICT DO UPDATE: a new row has no result columns, an old one keeps them. */
  function Upsert(rows: JobMap, j: JobData): JobMap {
    if j.id in rows then
      rows[j.id := rows[j.id].(status := j.status, queue := j.queue, retries := j.retries,
                               runAt := j.runAt, priority := j.priority, dependsOn := j.dependsOn)]
    else
      rows[j.id := j.(startedAt := None, completedAt := None, result := None,
                      error := None, workerId := None)]
  }

  /** UPDATE .. WHERE id = j.id: nothing happens when the row is gone. */
  function Update(rows: JobMap, j: JobData): JobMap {
    if j.id in rows then
      rows[j.id := rows[j.id].(status := j.status, queue := j.queue, retries := j.retries,
                               startedAt := j.startedAt, completedAt := j.completedAt,
                               result := j.result, error := j.error, workerId := j.workerId,
                               runAt := j.runAt)]
    else rows
  }

  function SetStatus(rows: JobMap, id: string, st: Status): JobMap
    requires id in rows
  {
    rows[id := rows[id].(status := st)]
  }

  /** UPDATE .. SET status = 'pending' WHERE id = .. AND status = 'waiting'. */
  function MarkWaitingAsPending(rows: JobMap, id: string): JobMap {
    if id in rows && rows[id].status == Waiting then SetStatus(rows, id, Pending) else rows
  }

  /** The fetched list names every waiting row that depends on `id`; it may name others. */
  predicate FetchedFor(rows: JobMap, id: string, found: seq<Waiter>) {
    && (forall w | w in found :: w.id in rows && rows[w.id].status == Waiting && w.deps == rows[w.id].dependsOn)
    && (forall c | c in rows && rows[c].status == Waiting && id in rows[c].dependsOn ::
          Waiter(c, rows[c].dependsOn) in found)
  }

  // ---------------------------------------------------------------- transition system

  predicate Enabled(s: State, a: Action) {
    match a
    case BeginEnqueue(pid, job) => pid !in s.procs && job.id !in s.issued && job.status == Pending
    case CheckDeps(pid) => pid in s.procs && s.procs[pid].Checking?
    case Write(pid) => pid in s.procs && s.procs[pid].Writing?
    case CountDeps(pid) => pid in s.procs && s.procs[pid].Promoting?
    case Mark(pid) => pid in s.procs && s.procs[pid].Marking?
    case Claim(pid, id, now) =>
      pid !in s.procs && id in s.rows && Runnable(s.rows[id].status) && s.rows[id].Due(now)
    case FailUnknown(pid, _, _) => pid in s.procs && s.procs[pid].Claimed?
    case ReadFresh(pid) => pid in s.procs && s.procs[pid].Claimed?
    case Start(pid, _) => pid in s.procs && s.procs[pid].Cleared?
    case Finish(pid, _) => pid in s.procs && s.procs[pid].Executing?
    case Fetch(pid, found) =>
      pid in s.procs && s.procs[pid].Fetching? && FetchedFor(s.rows, s.procs[pid].finished, found)
    case CountFirst(pid) => pid in s.procs && s.procs[pid].Scanning?
    case MarkFirst(pid) => pid in s.procs && s.procs[pid].MarkingFirst? && s.procs[pid].todo != []
    case Cancel(id) => id in s.rows && Cancellable(s.rows[id].status)
    case RetryJob(id) => id in s.rows && Retriable(s.rows[id].status)
    case Purge(ids) => forall id | id in ids :: id in s.rows && Terminal(s.rows[id].status)
  }

  /** The effect of an action's statement on the job table. */
  function NextRows(s: State, a: Action): JobMap
    requires Enabled(s, a)
  {
    match a
    case Write(pid) => Upsert(s.rows, s.procs[pid].job)
    case Mark(pid) => MarkWaitingAsPending(s.rows, s.procs[pid].target)
    case Claim(_, id, now) => s.rows[id := s.rows[id].(status := Running, startedAt := Some(now))]
    case FailUnknown(pid, error, now) => Update(s.rows, Fail(s.procs[pid].job, error, now))
    case Start(pid, attempt) => Update(s.rows, Begin(s.procs[pid].job, attempt))
    case Finish(pid, attempt) =>
      var j := Conclude(s.procs[pid].job, attempt);
      if j.status == Retrying then s.rows else Update(s.rows, j)
    case MarkFirst(pid) => MarkWaitingAsPending(s.rows, s.procs[pid].todo[0].id)
    case Cancel(id) => SetStatus(s.rows, id, Cancelled)
    case RetryJob(id) => s.rows[id := s.rows[id].ResetForReplay().(status := Pending)]
    case Purge(ids) => s.rows - ids
    case _ => s.rows
  }

  predicate FromClient(a: Action) {
    !a.Cancel? && !a.RetryJob? && !a.Purge?
  }

  /** Where the action leaves its client; None when the client is done. */
  function NextProc(s: State, a: Action): Option<Proc>
    requires Enabled(s, a) && FromClient(a)
  {
    match a
    case BeginEnqueue(_, job) => Some(Checking(job, false))
    case CheckDeps(pid) =>
      var p := s.procs[pid];
      var status := if AllCompleted(s.rows, p.job.dependsOn) then p.job.status else Waiting;
      Some(Writing(p.job.(status := status), p.retry))
    case Write(pid) =>
      var j := s.procs[pid].job;
      if j.status == Waiting then Some(Promoting(j.id, j.dependsOn)) else None
    case CountDeps(pid) =>
      var p := s.procs[pid];
      if AllCompleted(s.rows, p.deps) then Some(Marking(p.target)) else None
    case Claim(_, id, now) => Some(Claimed(s.rows[id].(status := Running, startedAt := Some(now))))
    case ReadFresh(pid) =>
      var j := s.procs[pid].job;
      if j.id in s.rows && s.rows[j.id].status == Cancelled then None else Some(Cleared(j))
    case Start(pid, attempt) => Some(Executing(Begin(s.procs[pid].job, attempt)))
    case Finish(pid, attempt) =>
      var j := Conclude(s.procs[pid].job, attempt);
      if j.status == Retrying then Some(Checking(j, true))
      else if j.status == Completed then Some(Fetching(j.id))
      else None
    case Fetch(pid, found) => Some(Scanning(s.procs[pid].finished, found))
    case CountFirst(pid) =>
      var p := s.procs[pid];
      if p.todo == [] then None
      else if p.finished in p.todo[0].deps && AllCompleted(s.rows, p.todo[0].deps) then
        Some(MarkingFirst(p.finished, p.todo))
      else Some(Scanning(p.finished, p.todo[1..]))
    case MarkFirst(pid) =>
      var p := s.procs[pid];
      Some(Scanning(p.finished, p.todo[1..]))
    case _ => None
  }

  function NextProcs(s: State, a: Action): map<nat, Proc>
    requires Enabled(s, a)
  {
    if !FromClient(a) then s.procs
    else
      match NextProc(s, a)
      case Some(p) => s.procs[a.pid := p]
      case None => s.procs - {a.pid}
  }

  function Apply(s: State, a: Action): State
    requires Enabled(s, a)
  {
    State(NextRows(s, a),
          if a.BeginEnqueue? then s.issued + {a.job.id} else s.issued,
          if a.Write? then s.used + {s.procs[a.pid].job.id} else s.used,
          NextProcs(s, a))
  }

  const INITIAL := State(map[], {}, {}, map[])

  /** The state after `actions` from the empty table, when every action is enabled in turn. */
  ghost function After(actions: seq<Action>): Option<State>
    decreases |actions|
  {
    if actions == [] then Some(INITIAL)
    else
      var before := After(actions[..|actions| - 1]);
      var a := actions[|actions| - 1];
      if before.Some? && Enabled(before.value, a) then Some(Apply(before.value, a)) else None
  }

  // ---------------------------------------------------------------- exclusive holding

  /** A worker holds a job from its claim until the write that ends or reschedules the attempt. */
  predicate Holds(p: Proc, id: string) {
    && (p.Claimed? || p.Cleared? || p.Executing? || ((p.Checking? || p.Writing?) && p.retry))
    && p.job.id == id
  }

  predicate HeldBy(s: State, pid: nat, id: string) {
    pid in s.procs && Holds(s.procs[pid], id)
  }

  predicate Creates(p: Proc, id: string) {
    (p.Checking? || p.Writing?) && !p.retry && p.job.id == id
  }

  predicate CreatedBy(s: State, pid: nat, id: string) {
    pid in s.procs && Creates(s.procs[pid], id)
  }

  /** Holding is exactly running: each running row has one holder, and only running rows have. */
  ghost predicate ExclusiveHolding(s: State) {
    && (forall pid, id | HeldBy(s, pid, id) ::
          && id in s.rows && s.rows[id].status == Running
          && s.rows[id].dependsOn == s.procs[pid].job.dependsOn)
    && (forall pid, pid', id | HeldBy(s, pid, id) && HeldBy(s, pid', id) :: pid == pid')
    && (forall id | id in s.rows && s.rows[id].status == Running :: exists pid :: HeldBy(s, pid, id))
  }

  ghost predicate FreshIds(s: State) {
    && s.used <= s.issued
    && (forall id | id in s.rows :: id in s.used && s.rows[id].id == id)
    && (forall pid, id | CreatedBy(s, pid, id) :: id in s.issued && id !in s.used)
    && (forall pid, pid', id | CreatedBy(s, pid, id) && CreatedBy(s, pid', id) :: pid == pid')
  }

  /** A depends_on list a client remembers is still the row's, if the row still exists. */
  predicate Remembers(s: State, id: string, deps: seq<string>) {
    id in s.used && (id in s.rows ==> s.rows[id].dependsOn == deps)
  }

  ghost predicate TrueMemories(s: State) {
    && (forall pid | pid in s.procs && s.procs[pid].Marking? :: s.procs[pid].target in s.used)
    && (forall pid | pid in s.procs && s.procs[pid].Promoting? ::
          Remembers(s, s.procs[pid].target, s.procs[pid].deps))
    && (forall pid, w | pid in s.procs && (s.procs[pid].Scanning? || s.procs[pid].MarkingFirst?)
                        && w in s.procs[pid].todo :: Remembers(s, w.id, w.deps))
  }

  /** What a client is about to store: a runnable job, or a waiting one after the check. */
  predicate GoodClient(p: Proc) {
    && (p.Checking? ==> Runnable(p.job.status))
    && (p.Writing? ==> Runnable(p.job.status) || p.job.status == Waiting)
  }

  ghost predicate GoodClients(s: State) {
    forall pid | pid in s.procs :: GoodClient(s.procs[pid])
  }

  ghost predicate Inv(s: State) {
    FreshIds(s) && ExclusiveHolding(s) && TrueMemories(s) && GoodClients(s)
  }

  lemma GoodClientsKept(s: State, a: Action)
    requires Inv(s) && Enabled(s, a)
    ensures GoodClients(Apply(s, a))
  {
  }

  lemma CreatorsKept(s: State, a: Action, pid: nat, id: string)
    requires Inv(s) && Enabled(s, a) && CreatedBy(Apply(s, a), pid, id)
    ensures CreatedBy(s, pid, id) || (a.BeginEnqueue? && pid == a.pid && id == a.job.id)
  {
  }

  lemma WriterIsKnown(s: State, a: Action)
    requires Inv(s) && Enabled(s, a) && a.Write?
    ensures var p := s.procs[a.pid];
            if p.retry then HeldBy(s, a.pid, p.job.id) && p.job.id in s.used else CreatedBy(s, a.pid, p.job.id)
  {
    assert s.procs[a.pid].retry ==> HeldBy(s, a.pid, s.procs[a.pid].job.id);
  }

  lemma CreatedIdsStayFresh(s: State, a: Action, pid: nat, id: string)
    requires Inv(s) && Enabled(s, a) && CreatedBy(Apply(s, a), pid, id)
    ensures id in Apply(s, a).issued && id !in Apply(s, a).used
  {
    CreatorsKept(s, a, pid, id);
    if a.Write? {
      WriterIsKnown(s, a);
    }
  }

  lemma FreshIdsKept(s: State, a: Action)
    requires Inv(s) && Enabled(s, a)
    ensures FreshIds(Apply(s, a))
  {
    var s' := Apply(s, a);
    if a.Write? {
      WriterIsKnown(s, a);
    }
    forall pid, id | CreatedBy(s', pid, id)
      ensures id in s'.issued && id !in s'.used
    {
      CreatedIdsStayFresh(s, a, pid, id);
    }
    forall pid, pid', id | CreatedBy(s', pid, id) && CreatedBy(s', pid', id)
      ensures pid == pid'
    {
      CreatorsKept(s, a, pid, id);
      CreatorsKept(s, a, pid', id);
    }
    RowsStayKnown(s, a);
  }

  lemma RowsStayKnown(s: State, a: Action)
    requires Inv(s) && Enabled(s, a)
    ensures var s' := Apply(s, a);
            s'.used <= s'.issued && forall id | id in s'.rows :: id in s'.used && s'.rows[id].id == id
  {
    if a.Write? {
      WriterIsKnown(s, a);
    }
  }

  /** The columns that identify a row never change. */
  lemma RowIdentityKept(s: State, a: Action, id: string)
    requires Inv(s) && Enabled(s, a) && id in s.rows && id in NextRows(s, a)
    ensures NextRows(s, a)[id].id == id && NextRows(s, a)[id].dependsOn == s.rows[id].dependsOn
  {
    if a.Write? {
      var j := s.procs[a.pid].job;
      assert HeldBy(s, a.pid, j.id) || CreatedBy(s, a.pid, j.id);
    }
  }

  predicate OutcomeWrite(a: Action) {
    a.Write? || a.FailUnknown? || a.Finish?
  }

  /** A row starts running only by a claim and stops running only by its holder's outcome write. */
  lemma RunningMoves(s: State, a: Action, id: string)
    requires Inv(s) && Enabled(s, a) && id in s.rows && id in NextRows(s, a)
    ensures s.rows[id].status != Running && NextRows(s, a)[id].status == Running ==> a.Claim? && a.id == id
    ensures s.rows[id].status == Running && NextRows(s, a)[id].status != Running ==>
              OutcomeWrite(a) && HeldBy(s, a.pid, id)
  {
    if OutcomeWrite(a) || a.Start? {
      var j := s.procs[a.pid].job;
      assert HeldBy(s, a.pid, j.id) || CreatedBy(s, a.pid, j.id);
    }
  }

  lemma RowsComeAndGo(s: State, a: Action, id: string)
    requires Inv(s) && Enabled(s, a)
    ensures id in Apply(s, a).rows && id !in s.rows ==>
              a.Write? && CreatedBy(s, a.pid, id) && Apply(s, a).rows[id].status != Running
    ensures id in s.rows && id !in Apply(s, a).rows ==> a.Purge? && Terminal(s.rows[id].status)
  {
  }

  lemma RetryWriteReleases(s: State, a: Action, id: string)
    requires Inv(s) && Enabled(s, a) && a.Write? && HeldBy(s, a.pid, id)
    ensures id in NextRows(s, a) && NextRows(s, a)[id].status != Running
    ensures NextProc(s, a).Some? ==> !Holds(NextProc(s, a).value, id)
  {
  }

  lemma FinishReleases(s: State, a: Action, id: string)
    requires Inv(s) && Enabled(s, a) && a.Finish? && HeldBy(s, a.pid, id)
    ensures id in NextRows(s, a)
    ensures NextRows(s, a)[id].status == Running <==>
              NextProc(s, a).Some? && Holds(NextProc(s, a).value, id)
  {
    assert s.rows[id].status == Running;
  }

  /** A client that stops holding a job has given its row up, and giving it up ends the holding. */
  lemma ReleaseEndsRunning(s: State, a: Action, id: string)
    requires Inv(s) && Enabled(s, a) && FromClient(a) && HeldBy(s, a.pid, id)
    ensures id in NextRows(s, a)
    ensures NextRows(s, a)[id].status == Running <==>
              NextProc(s, a).Some? && Holds(NextProc(s, a).value, id)
  {
    if a.Write? {
      RetryWriteReleases(s, a, id);
    } else if a.Finish? {
      FinishReleases(s, a, id);
    } else {
      assert s.rows[id].status == Running;
    }
  }

  lemma HolderChanges(s: State, a: Action, pid: nat, id: string)
    requires Inv(s) && Enabled(s, a) && HeldBy(Apply(s, a), pid, id)
    ensures HeldBy(s, pid, id) || (a.Claim? && pid == a.pid && id == a.id)
    ensures HeldBy(s, pid, id) ==> Apply(s, a).procs[pid].job.dependsOn == s.procs[pid].job.dependsOn
  {
  }

  lemma HolderRuns(s: State, a: Action, pid: nat, id: string)
    requires Inv(s) && Enabled(s, a) && HeldBy(Apply(s, a), pid, id)
    ensures var s' := Apply(s, a);
            id in s'.rows && s'.rows[id].status == Running && s'.rows[id].dependsOn == s'.procs[pid].job.dependsOn
  {
    HolderChanges(s, a, pid, id);
    RowsComeAndGo(s, a, id);
    RowIdentityKept(s, a, id);
    RunningMoves(s, a, id);
    if FromClient(a) && HeldBy(s, a.pid, id) {
      ReleaseEndsRunning(s, a, id);
    }
  }

  lemma RunningIsHeld(s: State, a: Action, id: string) returns (pid: nat)
    requires Inv(s) && Enabled(s, a) && id in Apply(s, a).rows && Apply(s, a).rows[id].status == Running
    ensures HeldBy(Apply(s, a), pid, id)
  {
    RowsComeAndGo(s, a, id);
    RunningMoves(s, a, id);
    if s.rows[id].status == Running {
      pid :| HeldBy(s, pid, id);
      if !HeldBy(Apply(s, a), pid, id) {
        ReleaseEndsRunning(s, a, id);
      }
    } else {
      pid := a.pid;
    }
  }

  lemma ExclusiveHoldingKept(s: State, a: Action)
    requires Inv(s) && Enabled(s, a)
    ensures ExclusiveHolding(Apply(s, a))
  {
    var s' := Apply(s, a);
    forall pid, id | HeldBy(s', pid, id)
      ensures id in s'.rows && s'.rows[id].status == Running
              && s'.rows[id].dependsOn == s'.procs[pid].job.dependsOn
    {
      HolderRuns(s, a, pid, id);
    }
    forall pid, pid', id | HeldBy(s', pid, id) && HeldBy(s', pid', id)
      ensures pid == pid'
    {
      HolderChanges(s, a, pid, id);
      HolderChanges(s, a, pid', id);
    }
    forall id | id in s'.rows && s'.rows[id].status == Running
      ensures exists pid :: HeldBy(s', pid, id)
    {
      var pid := RunningIsHeld(s, a, id);
    }
  }

  lemma RemembersKept(s: State, a: Action, id: string, deps: seq<string>)
    requires Inv(s) && Enabled(s, a) && Remembers(s, id, deps)
    ensures Remembers(Apply(s, a), id, deps)
  {
    RowsComeAndGo(s, a, id);
    if id in s.rows && id in Apply(s, a).rows {
      RowIdentityKept(s, a, id);
    }
  }

  lemma PromoterRemembers(s: State, a: Action, pid: nat)
    requires Inv(s) && Enabled(s, a) && pid in NextProcs(s, a) && NextProcs(s, a)[pid].Promoting?
    ensures var p := NextProcs(s, a)[pid]; Remembers(Apply(s, a), p.target, p.deps)
  {
    if pid in s.procs && s.procs[pid].Promoting? {
      RemembersKept(s, a, s.procs[pid].target, s.procs[pid].deps);
    }
  }

  lemma ScannerRemembers(s: State, a: Action, pid: nat, w: Waiter)
    requires Inv(s) && Enabled(s, a) && pid in NextProcs(s, a)
    requires var p := NextProcs(s, a)[pid]; (p.Scanning? || p.MarkingFirst?) && w in p.todo
    ensures Remembers(Apply(s, a), w.id, w.deps)
  {
    if pid in s.procs && (s.procs[pid].Scanning? || s.procs[pid].MarkingFirst?) {
      assert w in s.procs[pid].todo;
      RemembersKept(s, a, w.id, w.deps);
    }
  }

  lemma TrueMemoriesKept(s: State, a: Action)
    requires Inv(s) && Enabled(s, a)
    ensures TrueMemories(Apply(s, a))
  {
    var s' := Apply(s, a);
    forall pid | pid in s'.procs && s'.procs[pid].Promoting?
      ensures Remembers(s', s'.procs[pid].target, s'.procs[pid].deps)
    {
      PromoterRemembers(s, a, pid);
    }
    forall pid, w | pid in s'.procs && (s'.procs[pid].Scanning? || s'.procs[pid].MarkingFirst?)
                    && w in s'.procs[pid].todo
      ensures Remembers(s', w.id, w.deps)
    {
      ScannerRemembers(s, a, pid, w);
    }
  }

  lemma InvKept(s: State, a: Action)
    requires Inv(s) && Enabled(s, a)
    ensures Inv(Apply(s, a))
  {
    FreshIdsKept(s, a);
    ExclusiveHoldingKept(s, a);
    TrueMemoriesKept(s, a);
    GoodClientsKept(s, a);
  }

  /** Exclusive holding in every interleaving. */
  lemma {:induction false} EveryRunIsExclusive(actions: seq<Action>)
    requires After(actions).Some?
    ensures Inv(After(actions).value)
    decreases |actions|
  {
    if actions != [] {
      var n := |actions| - 1;
      EveryRunIsExclusive(actions[..n]);
      InvKept(After(actions[..n]).value, actions[n]);
    }
  }

  // ---------------------------------------------------------------- statuses that stay

  predicate HasStatus(rows: JobMap, id: string, st: Status) {
    id in rows && rows[id].status == st
  }

  lemma CompletedStays(s: State, a: Action, id: string)
    requires Inv(s) && Enabled(s, a) && HasStatus(s.rows, id, Completed) && id in NextRows(s, a)
    ensures NextRows(s, a)[id].status == Completed
  {
    if OutcomeWrite(a) || a.Start? {
      var j := s.procs[a.pid].job;
      assert HeldBy(s, a.pid, j.id) || CreatedBy(s, a.pid, j.id);
    }
  }

  /** Promotion is guarded: only an explicit retry brings a cancelled job back. */
  lemma CancelledStays(s: State, a: Action, id: string)
    requires Inv(s) && Enabled(s, a) && HasStatus(s.rows, id, Cancelled) && id in NextRows(s, a)
    ensures NextRows(s, a)[id].status == Cancelled || a == RetryJob(id)
  {
    if OutcomeWrite(a) || a.Start? {
      var j := s.procs[a.pid].job;
      assert HeldBy(s, a.pid, j.id) || CreatedBy(s, a.pid, j.id);
    }
  }

  /** A purged id never has a row again. */
  lemma PurgedStaysAway(s: State, a: Action, id: string)
    requires Inv(s) && Enabled(s, a) && id in s.used && id !in s.rows
    ensures id !in Apply(s, a).rows && id in Apply(s, a).used
  {
    RowsComeAndGo(s, a, id);
  }

  /** Over any continuation of a run, a completed row stays completed as long as it exists. */
  lemma {:induction false} CompletedIsFinal(actions: seq<Action>, n: nat, id: string)
    requires n <= |actions| && After(actions).Some? && After(actions[..n]).Some?
    requires HasStatus(After(actions[..n]).value.rows, id, Completed)
    ensures id in After(actions).value.used
    ensures id in After(actions).value.rows ==> HasStatus(After(actions).value.rows, id, Completed)
    decreases |actions|
  {
    if n == |actions| {
      assert actions[..n] == actions;
      EveryRunIsExclusive(actions);
    } else {
      var before := actions[..|actions| - 1];
      assert before[..n] == actions[..n];
      CompletedIsFinal(before, n, id);
      EveryRunIsExclusive(before);
      var s, a := After(before).value, actions[|actions| - 1];
      if id in s.rows {
        if id in Apply(s, a).rows {
          CompletedStays(s, a, id);
        }
      } else {
        PurgedStaysAway(s, a, id);
      }
    }
  }

  // ---------------------------------------------------------------- dependency safety

  /** Past its dependencies: every status but waiting and cancelled. */
  predicate Released(st: Status) {
    st != Waiting && st != Cancelled
  }

  ghost predicate DependencySafe(rows: JobMap) {
    forall id | id in rows && Released(rows[id].status) :: AllCompleted(rows, rows[id].dependsOn)
  }

  /** The row a client is about to promote. */
  predicate AboutToMark(p: Proc, id: string) {
    (p.Marking? && p.target == id) || (p.MarkingFirst? && p.todo != [] && p.todo[0].id == id)
  }

  /** A client about to release a job has seen its dependencies completed. */
  ghost predicate SafeClients(s: State) {
    && (forall pid | pid in s.procs && s.procs[pid].Writing? && Runnable(s.procs[pid].job.status) ::
          AllCompleted(s.rows, s.procs[pid].job.dependsOn))
    && (forall pid, id | pid in s.procs && AboutToMark(s.procs[pid], id) && HasStatus(s.rows, id, Waiting) ::
          AllCompleted(s.rows, s.rows[id].dependsOn))
  }

  /** No purged id is named by a released row that stays, by a runnable job that a client is about to write,
      or by a waiting row that a client is about to promote. */
  ghost predicate PurgeRespects(s: State, ids: set<string>) {
    && (forall id, d | id in s.rows && id !in ids && Released(s.rows[id].status) && d in s.rows[id].dependsOn ::
          d !in ids)
    && (forall pid, d | pid in s.procs && s.procs[pid].Writing? && Runnable(s.procs[pid].job.status)
                        && d in s.procs[pid].job.dependsOn :: d !in ids)
    && (forall pid, id, d | pid in s.procs && AboutToMark(s.procs[pid], id) && HasStatus(s.rows, id, Waiting)
                            && d in s.rows[id].dependsOn :: d !in ids)
  }

  /** The two uses outside the guarantee: retrying a job cancelled before its dependencies
      completed, and deleting a dependency of a job that is released or about to be. */
  ghost predicate RespectsDependencies(s: State, a: Action) {
    match a
    case RetryJob(id) => HasStatus(s.rows, id, Cancelled) ==> AllCompleted(s.rows, s.rows[id].dependsOn)
    case Purge(ids) => PurgeRespects(s, ids)
    case _ => true
  }

  lemma AllCompletedKept(s: State, a: Action, deps: seq<string>)
    requires Inv(s) && Enabled(s, a) && AllCompleted(s.rows, deps)
    requires a.Purge? ==> forall d | d in deps :: d !in a.ids
    ensures AllCompleted(NextRows(s, a), deps)
  {
    forall d | d in deps
      ensures HasStatus(NextRows(s, a), d, Completed)
    {
      RowsComeAndGo(s, a, d);
      CompletedStays(s, a, d);
    }
  }

  lemma WriteReleasesSafely(s: State, a: Action, id: string)
    requires Inv(s) && Enabled(s, a) && a.Write? && DependencySafe(s.rows) && SafeClients(s)
    requires id in NextRows(s, a) && Released(NextRows(s, a)[id].status)
    ensures AllCompleted(s.rows, NextRows(s, a)[id].dependsOn)
  {
    var j := s.procs[a.pid].job;
    assert HeldBy(s, a.pid, j.id) || CreatedBy(s, a.pid, j.id);
  }

  /** A row becomes released only by a write that saw its dependencies completed. */
  lemma ReleaseIsSafe(s: State, a: Action, id: string)
    requires Inv(s) && Enabled(s, a) && DependencySafe(s.rows) && SafeClients(s)
    requires RespectsDependencies(s, a)
    requires id in NextRows(s, a) && Released(NextRows(s, a)[id].status)
    ensures AllCompleted(s.rows, NextRows(s, a)[id].dependsOn)
  {
    if a.Write? {
      WriteReleasesSafely(s, a, id);
    } else {
      RowsComeAndGo(s, a, id);
      RowIdentityKept(s, a, id);
      if !Released(s.rows[id].status) {
        OtherReleases(s, a, id);
      }
    }
  }

  lemma OtherReleases(s: State, a: Action, id: string)
    requires Inv(s) && Enabled(s, a) && !a.Write? && id in s.rows && id in NextRows(s, a)
    requires !Released(s.rows[id].status) && Released(NextRows(s, a)[id].status)
    ensures || a == RetryJob(id)
            || (a.Mark? && s.procs[a.pid].target == id && HasStatus(s.rows, id, Waiting))
            || (a.MarkFirst? && s.procs[a.pid].todo[0].id == id && HasStatus(s.rows, id, Waiting))
  {
    if OutcomeWrite(a) || a.Start? {
      assert HeldBy(s, a.pid, s.procs[a.pid].job.id);
    }
  }

  lemma UsedRowKept(s: State, a: Action, id: string)
    requires Inv(s) && Enabled(s, a) && id in s.used && id in NextRows(s, a)
    ensures id in s.rows && NextRows(s, a)[id].dependsOn == s.rows[id].dependsOn
  {
    RowsComeAndGo(s, a, id);
    RowIdentityKept(s, a, id);
  }

  lemma SafeWritersKept(s: State, a: Action, pid: nat)
    requires Inv(s) && Enabled(s, a) && SafeClients(s) && RespectsDependencies(s, a)
    requires pid in NextProcs(s, a) && NextProcs(s, a)[pid].Writing?
    requires Runnable(NextProcs(s, a)[pid].job.status)
    ensures AllCompleted(NextRows(s, a), NextProcs(s, a)[pid].job.dependsOn)
  {
    AllCompletedKept(s, a, NextProcs(s, a)[pid].job.dependsOn);
  }

  /** A client comes to mark a row only after its count found all dependencies completed. */
  lemma MarkerHasCounted(s: State, a: Action, pid: nat, id: string)
    requires Inv(s) && Enabled(s, a) && SafeClients(s) && HasStatus(s.rows, id, Waiting)
    requires pid in NextProcs(s, a) && AboutToMark(NextProcs(s, a)[pid], id)
    ensures AllCompleted(s.rows, s.rows[id].dependsOn)
  {
    if pid in s.procs && (s.procs[pid].Scanning? || s.procs[pid].MarkingFirst?) && s.procs[pid].todo != [] {
      assert s.procs[pid].todo[0] in s.procs[pid].todo;
    }
  }

  lemma MarkerTargetIsUsed(s: State, a: Action, pid: nat, id: string)
    requires Inv(s) && Enabled(s, a) && pid in NextProcs(s, a) && AboutToMark(NextProcs(s, a)[pid], id)
    ensures id in s.used
  {
    if pid in s.procs && (s.procs[pid].Scanning? || s.procs[pid].MarkingFirst?) && s.procs[pid].todo != [] {
      assert s.procs[pid].todo[0] in s.procs[pid].todo;
    }
  }

  /** A used row starts waiting only when its holder writes it, and then its dependencies are completed. */
  lemma UsedWaiterIsReady(s: State, a: Action, id: string)
    requires Inv(s) && Enabled(s, a) && DependencySafe(s.rows) && id in s.used && id in s.rows
    requires HasStatus(NextRows(s, a), id, Waiting) && !HasStatus(s.rows, id, Waiting)
    ensures !a.Purge? && AllCompleted(s.rows, s.rows[id].dependsOn)
  {
    StartsWaiting(s, a, id);
    WriterIsKnown(s, a);
    assert HeldBy(s, a.pid, id) && s.rows[id].status == Running;
  }

  lemma SafeMarkersKept(s: State, a: Action, pid: nat, id: string)
    requires Inv(s) && Enabled(s, a) && DependencySafe(s.rows) && SafeClients(s) && RespectsDependencies(s, a)
    requires pid in NextProcs(s, a) && AboutToMark(NextProcs(s, a)[pid], id) && HasStatus(NextRows(s, a), id, Waiting)
    ensures AllCompleted(NextRows(s, a), NextRows(s, a)[id].dependsOn)
  {
    MarkerTargetIsUsed(s, a, pid, id);
    UsedRowKept(s, a, id);
    if HasStatus(s.rows, id, Waiting) {
      MarkerHasCounted(s, a, pid, id);
    } else {
      UsedWaiterIsReady(s, a, id);
    }
    AllCompletedKept(s, a, s.rows[id].dependsOn);
  }

  lemma DependencySafeKept(s: State, a: Action)
    requires Inv(s) && Enabled(s, a) && DependencySafe(s.rows) && SafeClients(s)
    requires RespectsDependencies(s, a)
    ensures DependencySafe(NextRows(s, a)) && SafeClients(Apply(s, a))
  {
    forall id | id in NextRows(s, a) && Released(NextRows(s, a)[id].status)
      ensures AllCompleted(NextRows(s, a), NextRows(s, a)[id].dependsOn)
    {
      ReleaseIsSafe(s, a, id);
      AllCompletedKept(s, a, NextRows(s, a)[id].dependsOn);
    }
    forall pid | pid in NextProcs(s, a) && NextProcs(s, a)[pid].Writing?
                 && Runnable(NextProcs(s, a)[pid].job.status)
      ensures AllCompleted(NextRows(s, a), NextProcs(s, a)[pid].job.dependsOn)
    {
      SafeWritersKept(s, a, pid);
    }
    forall pid, id | pid in NextProcs(s, a) && AboutToMark(NextProcs(s, a)[pid], id)
                     && HasStatus(NextRows(s, a), id, Waiting)
      ensures AllCompleted(NextRows(s, a), NextRows(s, a)[id].dependsOn)
    {
      SafeMarkersKept(s, a, pid, id);
    }
  }

  ghost predicate RespectfulRun(actions: seq<Action>)
    decreases |actions|
  {
    After(actions).Some?
    && (actions == []
        || (RespectfulRun(actions[..|actions| - 1])
            && RespectsDependencies(After(actions[..|actions| - 1]).value, actions[|actions| - 1])))
  }

  /** Dependency safety in every interleaving, although enqueue checks and writes in separate steps. */
  lemma {:induction false} EveryRespectfulRunIsDependencySafe(actions: seq<Action>)
    requires RespectfulRun(actions)
    ensures DependencySafe(After(actions).value.rows) && SafeClients(After(actions).value)
    decreases |actions|
  {
    if actions != [] {
      var before := actions[..|actions| - 1];
      EveryRespectfulRunIsDependencySafe(before);
      EveryRunIsExclusive(before);
      DependencySafeKept(After(before).value, actions[|actions| - 1]);
    }
  }

  /** retry_job does not look at dependencies: it keeps the guarantee exactly when they are completed. */
  lemma RetrySafeExactly(s: State, id: string)
    requires Inv(s) && DependencySafe(s.rows) && Enabled(s, RetryJob(id))
    ensures DependencySafe(NextRows(s, RetryJob(id))) <==> AllCompleted(s.rows, s.rows[id].dependsOn)
  {
    var rows' := NextRows(s, RetryJob(id));
    assert rows'[id].status == Pending && rows'[id].dependsOn == s.rows[id].dependsOn;
    forall d | d in s.rows
      ensures HasStatus(rows', d, Completed) <==> HasStatus(s.rows, d, Completed)
    {
    }
    if DependencySafe(rows') {
      assert AllCompleted(rows', rows'[id].dependsOn);
    }
  }

  // ---------------------------------------------------------------- whatever comes after

  ghost predicate IsRun(states: seq<State>, actions: seq<Action>) {
    && |states| == |actions| + 1
    && forall k | 0 <= k < |actions| :: Enabled(states[k], actions[k]) && states[k + 1] == Apply(states[k], actions[k])
  }

  ghost predicate StartsWith(s: State, a: Action, states: seq<State>, actions: seq<Action>) {
    && IsRun(states, actions) && states[0] == s && |actions| > 0 && actions[0] == a
    && forall k | 0 < k < |actions| :: RespectsDependencies(states[k], actions[k])
  }

  ghost predicate AlwaysSafe(states: seq<State>) {
    forall k | 0 <= k < |states| :: DependencySafe(states[k].rows)
  }

  /** Every run that starts with `a` and respects dependencies after it keeps the guarantee all the time. */
  ghost predicate SafeAfter(s: State, a: Action) {
    forall states, actions | StartsWith(s, a, states, actions) :: AlwaysSafe(states)
  }

  lemma {:induction false} RunKeepsInv(states: seq<State>, actions: seq<Action>, k: nat)
    requires IsRun(states, actions) && k < |states| && Inv(states[0])
    ensures Inv(states[k])
  {
    if k > 0 {
      RunKeepsInv(states, actions, k - 1);
      InvKept(states[k - 1], actions[k - 1]);
    }
  }

  lemma {:induction false} RespectfulRunIsSafe(states: seq<State>, actions: seq<Action>, k: nat)
    requires IsRun(states, actions) && k < |states|
    requires Inv(states[0]) && DependencySafe(states[0].rows) && SafeClients(states[0])
    requires forall i | 0 <= i < |actions| :: RespectsDependencies(states[i], actions[i])
    ensures DependencySafe(states[k].rows) && SafeClients(states[k])
  {
    if k > 0 {
      RespectfulRunIsSafe(states, actions, k - 1);
      RunKeepsInv(states, actions, k - 1);
      DependencySafeKept(states[k - 1], actions[k - 1]);
    }
  }

  lemma UnsafeNow(s: State, a: Action)
    requires Enabled(s, a) && !DependencySafe(Apply(s, a).rows)
    ensures !SafeAfter(s, a)
  {
    var states := [s, Apply(s, a)];
    assert StartsWith(s, a, states, [a]);
    assert !DependencySafe(states[1].rows);
  }

  lemma UnsafeNext(s: State, a: Action, b: Action)
    requires Enabled(s, a) && Enabled(Apply(s, a), b) && RespectsDependencies(Apply(s, a), b)
    requires !DependencySafe(Apply(Apply(s, a), b).rows)
    ensures !SafeAfter(s, a)
  {
    var states := [s, Apply(s, a), Apply(Apply(s, a), b)];
    assert StartsWith(s, a, states, [a, b]);
    assert !DependencySafe(states[2].rows);
  }

  /** A released row with a dependency that is not there. */
  lemma OpenDependency(rows: JobMap, id: string, d: string)
    requires id in rows && Released(rows[id].status) && d in rows[id].dependsOn && d !in rows
    ensures !DependencySafe(rows)
  {
    assert !AllCompleted(rows, rows[id].dependsOn);
  }

  lemma PurgeBeforeWrite(s: State, ids: set<string>, pid: nat, d: string)
    requires Inv(s) && Enabled(s, Purge(ids)) && d in ids
    requires pid in s.procs && s.procs[pid].Writing? && Runnable(s.procs[pid].job.status)
    requires d in s.procs[pid].job.dependsOn
    ensures !SafeAfter(s, Purge(ids))
  {
    var s' := Apply(s, Purge(ids));
    var id := s.procs[pid].job.id;
    assert d !in s'.rows;
    if id in s.rows {
      WriterIsKnown(s, Write(pid));
      assert HeldBy(s, pid, id) && s.rows[id].status == Running && id in s'.rows;
      OpenDependency(s'.rows, id, d);
      UnsafeNow(s, Purge(ids));
    } else {
      var rows := Apply(s', Write(pid)).rows;
      WriterIsKnown(s, Write(pid));
      assert id != d;
      OpenDependency(rows, id, d);
      UnsafeNext(s, Purge(ids), Write(pid));
    }
  }

  lemma PurgeBeforeMark(s: State, ids: set<string>, pid: nat, id: string, d: string)
    requires Inv(s) && Enabled(s, Purge(ids)) && d in ids && pid in s.procs && AboutToMark(s.procs[pid], id)
    requires HasStatus(s.rows, id, Waiting) && d in s.rows[id].dependsOn
    ensures !SafeAfter(s, Purge(ids))
  {
    var s' := Apply(s, Purge(ids));
    var mark := if s.procs[pid].Marking? then Mark(pid) else MarkFirst(pid);
    assert id in s'.rows && d !in s'.rows;
    OpenDependency(Apply(s', mark).rows, id, d);
    UnsafeNext(s, Purge(ids), mark);
  }

  lemma PurgeOfReleased(s: State, ids: set<string>, id: string, d: string)
    requires Enabled(s, Purge(ids)) && d in ids && id in s.rows && id !in ids
    requires Released(s.rows[id].status) && d in s.rows[id].dependsOn
    ensures !SafeAfter(s, Purge(ids))
  {
    OpenDependency(Apply(s, Purge(ids)).rows, id, d);
    UnsafeNow(s, Purge(ids));
  }

  lemma UnrespectfulPurge(s: State, ids: set<string>)
    requires Inv(s) && Enabled(s, Purge(ids)) && !PurgeRespects(s, ids)
    ensures !SafeAfter(s, Purge(ids))
  {
    if id, d :| id in s.rows && id !in ids && Released(s.rows[id].status) && d in s.rows[id].dependsOn && d in ids {
      PurgeOfReleased(s, ids, id, d);
    } else if pid, d :| pid in s.procs && s.procs[pid].Writing? && Runnable(s.procs[pid].job.status)
                        && d in s.procs[pid].job.dependsOn && d in ids {
      PurgeBeforeWrite(s, ids, pid, d);
    } else {
      var pid, id, d :| pid in s.procs && AboutToMark(s.procs[pid], id) && HasStatus(s.rows, id, Waiting)
                        && d in s.rows[id].dependsOn && d in ids;
      PurgeBeforeMark(s, ids, pid, id, d);
    }
  }

  /** The guarantee holds after an action, whatever respectful actions come next, exactly when the action
      respects dependencies itself: a retry of a job with its dependencies completed, a purge of ids that no
      released row, no client about to write a runnable job and no client about to promote needs, and any
      other action. */
  lemma ActionIsSafeExactly(s: State, a: Action)
    requires Inv(s) && DependencySafe(s.rows) && SafeClients(s) && Enabled(s, a)
    ensures SafeAfter(s, a) <==> RespectsDependencies(s, a)
  {
    if RespectsDependencies(s, a) {
      forall states: seq<State>, actions: seq<Action> | StartsWith(s, a, states, actions)
        ensures AlwaysSafe(states)
      {
        assert forall i | 0 <= i < |actions| :: RespectsDependencies(states[i], actions[i]);
        forall k: nat | k < |states|
          ensures DependencySafe(states[k].rows)
        {
          RespectfulRunIsSafe(states, actions, k);
        }
      }
    } else if a.Purge? {
      UnrespectfulPurge(s, a.ids);
    } else {
      RetrySafeExactly(s, a.id);
      UnsafeNow(s, a);
    }
  }

  /** Purging keeps the guarantee, and every client's plans with it, exactly when it respects dependencies. */
  lemma PurgeSafeExactly(s: State, ids: set<string>)
    requires Inv(s) && DependencySafe(s.rows) && SafeClients(s) && Enabled(s, Purge(ids))
    ensures DependencySafe(NextRows(s, Purge(ids))) && SafeClients(Apply(s, Purge(ids))) <==> PurgeRespects(s, ids)
    ensures SafeAfter(s, Purge(ids)) <==> PurgeRespects(s, ids)
  {
    var s' := Apply(s, Purge(ids));
    ActionIsSafeExactly(s, Purge(ids));
    if PurgeRespects(s, ids) {
      DependencySafeKept(s, Purge(ids));
    } else if DependencySafe(s'.rows) && SafeClients(s') {
      InvKept(s, Purge(ids));
      forall states: seq<State>, actions: seq<Action> | StartsWith(s, Purge(ids), states, actions)
        ensures AlwaysSafe(states)
      {
        SafeOnceStarted(s, Purge(ids), states, actions);
      }
      assert SafeAfter(s, Purge(ids));
    }
  }

  lemma SafeOnceStarted(s: State, a: Action, states: seq<State>, actions: seq<Action>)
    requires StartsWith(s, a, states, actions) && Enabled(s, a) && DependencySafe(s.rows)
    requires Inv(Apply(s, a)) && DependencySafe(Apply(s, a).rows) && SafeClients(Apply(s, a))
    ensures AlwaysSafe(states)
  {
    var states', actions' := states[1..], actions[1..];
    assert states'[0] == Apply(s, a);
    forall k | 0 <= k < |actions'|
      ensures Enabled(states'[k], actions'[k]) && states'[k + 1] == Apply(states'[k], actions'[k])
      ensures RespectsDependencies(states'[k], actions'[k])
    {
      assert Enabled(states[k + 1], actions[k + 1]) && RespectsDependencies(states[k + 1], actions[k + 1]);
    }
    forall k: nat | k < |states|
      ensures DependencySafe(states[k].rows)
    {
      if k > 0 {
        RespectfulRunIsSafe(states', actions', k - 1);
      }
    }
  }

  // ---------------------------------------------------------------- inputs that fail

  lemma OneMoreAction(actions: seq<Action>, s: State, a: Action)
    requires After(actions) == Some(s) && Enabled(s, a)
    ensures After(actions + [a]) == Some(Apply(s, a))
  {
    assert (actions + [a])[..|actions|] == actions;
  }

  lemma TwoMoreActions(actions: seq<Action>, s: State, a: Action, b: Action)
    requires After(actions) == Some(s) && Enabled(s, a) && Enabled(Apply(s, a), b)
    ensures After(actions + [a, b]) == Some(Apply(Apply(s, a), b))
  {
    OneMoreAction(actions, s, a);
    OneMoreAction(actions + [a], Apply(s, a), b);
    assert actions + [a, b] == actions + [a] + [b];
  }

  /** A job that waits for a row that is not there. */
  lemma WaiterIsStored(c: JobData)
    requires c.status == Pending && c.dependsOn != []
    ensures var run := [BeginEnqueue(0, c), CheckDeps(0), Write(0), CountDeps(0)];
            After(run) == Some(State(Upsert(map[], c.(status := Waiting)), {c.id}, {c.id}, map[]))
  {
    var waiting := c.(status := Waiting);
    var rows := Upsert(map[], waiting);
    var s2 := State(map[], {c.id}, {}, map[0 := Writing(waiting, false)]);
    assert c.dependsOn[0] in c.dependsOn;
    assert !AllCompleted(map[], c.dependsOn) && !AllCompleted(rows, c.dependsOn);
    assert Apply(Apply(INITIAL, BeginEnqueue(0, c)), CheckDeps(0)) == s2;
    TwoMoreActions([], INITIAL, BeginEnqueue(0, c), CheckDeps(0));
    var s4 := State(rows, {c.id}, {c.id}, map[]);
    assert Apply(Apply(s2, Write(0)), CountDeps(0)) == s4;
    TwoMoreActions([] + [BeginEnqueue(0, c), CheckDeps(0)], s2, Write(0), CountDeps(0));
    assert [] + [BeginEnqueue(0, c), CheckDeps(0)] + [Write(0), CountDeps(0)]
        == [BeginEnqueue(0, c), CheckDeps(0), Write(0), CountDeps(0)];
  }

  /** A job cancelled while it waits and then retried is pending with its dependencies open. */
  lemma RetryReleasesEarly(c: JobData)
    requires c.status == Pending && c.dependsOn != []
    ensures var run := [BeginEnqueue(0, c), CheckDeps(0), Write(0), CountDeps(0), Cancel(c.id), RetryJob(c.id)];
            After(run).Some? && !DependencySafe(After(run).value.rows)
  {
    var enqueued := [BeginEnqueue(0, c), CheckDeps(0), Write(0), CountDeps(0)];
    WaiterIsStored(c);
    var s := State(Upsert(map[], c.(status := Waiting)), {c.id}, {c.id}, map[]);
    var s' := Apply(s, Cancel(c.id));
    assert s'.rows[c.id].status == Cancelled;
    TwoMoreActions(enqueued, s, Cancel(c.id), RetryJob(c.id));
    assert enqueued + [Cancel(c.id), RetryJob(c.id)]
        == [BeginEnqueue(0, c), CheckDeps(0), Write(0), CountDeps(0), Cancel(c.id), RetryJob(c.id)];
    var rows := Apply(Apply(s, Cancel(c.id)), RetryJob(c.id)).rows;
    assert rows[c.id].status == Pending && c.dependsOn[0] in rows[c.id].dependsOn;
    assert !AllCompleted(rows, rows[c.id].dependsOn);
  }

  /** A job without dependencies is enqueued and completed. */
  function CompletingRun(d: JobData, a: Attempt): seq<Action> {
    [] + [BeginEnqueue(0, d), CheckDeps(0)] + [Write(0), Claim(0, d.id, a.startedAt)]
    + [ReadFresh(0), Start(0, a)] + [Finish(0, a), Fetch(0, [])] + [CountFirst(0)]
  }

  lemma JobIsChecked(run: seq<Action>, d: JobData)
    requires After(run) == Some(INITIAL) && d.status == Pending && d.dependsOn == []
    ensures After(run + [BeginEnqueue(0, d), CheckDeps(0)])
         == Some(State(map[], {d.id}, {}, map[0 := Writing(d, false)]))
  {
    var s1 := State(map[], {d.id}, {}, map[0 := Checking(d, false)]);
    assert Apply(INITIAL, BeginEnqueue(0, d)) == s1;
    assert Apply(s1, CheckDeps(0)) == State(map[], {d.id}, {}, map[0 := Writing(d, false)]);
    TwoMoreActions(run, INITIAL, BeginEnqueue(0, d), CheckDeps(0));
  }

  lemma JobIsClaimed(run: seq<Action>, d: JobData, now: real) returns (j: JobData)
    requires After(run) == Some(State(map[], {d.id}, {}, map[0 := Writing(d, false)]))
    requires d.status == Pending && d.runAt.None?
    ensures j.id == d.id && j.status == Running
    ensures After(run + [Write(0), Claim(0, d.id, now)])
         == Some(State(map[j.id := j], {j.id}, {j.id}, map[0 := Claimed(j)]))
  {
    var s := State(map[], {d.id}, {}, map[0 := Writing(d, false)]);
    var s1 := State(Upsert(map[], d), {d.id}, {d.id}, map[]);
    assert Apply(s, Write(0)) == s1;
    j := s1.rows[d.id].(status := Running, startedAt := Some(now));
    assert Apply(s1, Claim(0, d.id, now)) == State(map[j.id := j], {j.id}, {j.id}, map[0 := Claimed(j)]);
    TwoMoreActions(run, s, Write(0), Claim(0, d.id, now));
  }

  lemma ClaimedJobRuns(run: seq<Action>, j: JobData, a: Attempt) returns (k: JobData)
    requires After(run) == Some(State(map[j.id := j], {j.id}, {j.id}, map[0 := Claimed(j)])) && j.status == Running
    ensures k.id == j.id && k.status == Running
    ensures After(run + [ReadFresh(0), Start(0, a)])
         == Some(State(map[j.id := k], {j.id}, {j.id}, map[0 := Executing(Begin(j, a))]))
  {
    var s := State(map[j.id := j], {j.id}, {j.id}, map[0 := Claimed(j)]);
    TwoMoreActions(run, s, ReadFresh(0), Start(0, a));
    var s' := Apply(Apply(s, ReadFresh(0)), Start(0, a));
    k := s'.rows[j.id];
    assert s' == State(map[j.id := k], {j.id}, {j.id}, map[0 := Executing(Begin(j, a))]);
  }

  lemma RunningJobIsStored(run: seq<Action>, id: string, k: JobData, j: JobData, a: Attempt) returns (done: JobData)
    requires After(run) == Some(State(map[id := k], {id}, {id}, map[0 := Executing(j)]))
    requires j.id == id && a.outcome.Success?
    ensures done.status == Completed
    ensures After(run + [Finish(0, a), Fetch(0, [])])
         == Some(State(map[id := done], {id}, {id}, map[0 := Scanning(id, [])]))
  {
    var s := State(map[id := k], {id}, {id}, map[0 := Executing(j)]);
    var s1 := Apply(s, Finish(0, a));
    done := s1.rows[id];
    assert s1 == State(map[id := done], {id}, {id}, map[0 := Fetching(id)]);
    assert Apply(s1, Fetch(0, [])) == State(map[id := done], {id}, {id}, map[0 := Scanning(id, [])]);
    TwoMoreActions(run, s, Finish(0, a), Fetch(0, []));
  }

  lemma JobCompletes(d: JobData, a: Attempt) returns (done: JobData)
    requires d.status == Pending && d.dependsOn == [] && d.runAt.None? && a.outcome.Success?
    ensures After(CompletingRun(d, a)) == Some(State(map[d.id := done], {d.id}, {d.id}, map[]))
    ensures done.status == Completed
  {
    var run2 := [] + [BeginEnqueue(0, d), CheckDeps(0)];
    JobIsChecked([], d);
    var run4 := run2 + [Write(0), Claim(0, d.id, a.startedAt)];
    var j := JobIsClaimed(run2, d, a.startedAt);
    var run6 := run4 + [ReadFresh(0), Start(0, a)];
    var k := ClaimedJobRuns(run4, j, a);
    var run8 := run6 + [Finish(0, a), Fetch(0, [])];
    done := RunningJobIsStored(run6, d.id, k, Begin(j, a), a);
    var s8 := State(map[d.id := done], {d.id}, {d.id}, map[0 := Scanning(d.id, [])]);
    assert Apply(s8, CountFirst(0)) == State(map[d.id := done], {d.id}, {d.id}, map[]);
    OneMoreAction(run8, s8, CountFirst(0));
  }

  lemma DependentIsChecked(run: seq<Action>, id: string, done: JobData, c: JobData)
    requires After(run) == Some(State(map[id := done], {id}, {id}, map[])) && done.status == Completed
    requires c.status == Pending && c.dependsOn == [id] && c.id != id
    ensures After(run + [BeginEnqueue(0, c), CheckDeps(0)])
         == Some(State(map[id := done], {id, c.id}, {id}, map[0 := Writing(c, false)]))
  {
    var s := State(map[id := done], {id}, {id}, map[]);
    var s1 := State(map[id := done], {id, c.id}, {id}, map[0 := Checking(c, false)]);
    assert Apply(s, BeginEnqueue(0, c)) == s1;
    assert Apply(s1, CheckDeps(0)) == State(map[id := done], {id, c.id}, {id}, map[0 := Writing(c, false)]);
    TwoMoreActions(run, s, BeginEnqueue(0, c), CheckDeps(0));
  }

  lemma PurgeAfterWrite(run: seq<Action>, id: string, done: JobData, c: JobData)
    requires After(run) == Some(State(map[id := done], {id, c.id}, {id}, map[0 := Writing(c, false)]))
    requires done.status == Completed && c.status == Pending && c.dependsOn == [id] && c.id != id
    ensures After(run + [Write(0), Purge({id})]).Some?
    ensures !DependencySafe(After(run + [Write(0), Purge({id})]).value.rows)
  {
    var s := State(map[id := done], {id, c.id}, {id}, map[0 := Writing(c, false)]);
    TwoMoreActions(run, s, Write(0), Purge({id}));
    var left := Apply(Apply(s, Write(0)), Purge({id})).rows;
    assert left[c.id].status == Pending && id in left[c.id].dependsOn && id !in left;
    assert !AllCompleted(left, left[c.id].dependsOn);
  }

  lemma PurgeBeforeItsWrite(run: seq<Action>, id: string, done: JobData, c: JobData)
    requires After(run) == Some(State(map[id := done], {id, c.id}, {id}, map[0 := Writing(c, false)]))
    requires done.status == Completed && c.status == Pending && c.dependsOn == [id] && c.id != id
    ensures After(run + [Purge({id})]).Some? && DependencySafe(After(run + [Purge({id})]).value.rows)
    ensures After(run + [Purge({id}), Write(0)]).Some?
    ensures !DependencySafe(After(run + [Purge({id}), Write(0)]).value.rows)
  {
    var s := State(map[id := done], {id, c.id}, {id}, map[0 := Writing(c, false)]);
    var s1 := State(map[], {id, c.id}, {id}, map[0 := Writing(c, false)]);
    assert Apply(s, Purge({id})) == s1;
    OneMoreAction(run, s, Purge({id}));
    TwoMoreActions(run, s, Purge({id}), Write(0));
    OpenDependency(Apply(s1, Write(0)).rows, c.id, id);
  }

  /** Purging a completed dependency of a released job leaves that job released without it. */
  lemma PurgeLeavesOpen(d: JobData, c: JobData, a: Attempt)
    requires d.status == Pending && d.dependsOn == [] && d.runAt.None? && a.outcome.Success?
    requires c.status == Pending && c.dependsOn == [d.id] && c.id != d.id
    ensures var run := CompletingRun(d, a) + [BeginEnqueue(0, c), CheckDeps(0)] + [Write(0), Purge({d.id})];
            After(run).Some? && !DependencySafe(After(run).value.rows)
  {
    var done := JobCompletes(d, a);
    DependentIsChecked(CompletingRun(d, a), d.id, done, c);
    PurgeAfterWrite(CompletingRun(d, a) + [BeginEnqueue(0, c), CheckDeps(0)], d.id, done, c);
  }

  /** The same while the dependent is between its check and its write: the purge then leaves no released row
      with an open dependency, and the write does. */
  lemma PurgeBetweenCheckAndWrite(d: JobData, c: JobData, a: Attempt)
    requires d.status == Pending && d.dependsOn == [] && d.runAt.None? && a.outcome.Success?
    requires c.status == Pending && c.dependsOn == [d.id] && c.id != d.id
    ensures var purged := After(CompletingRun(d, a) + [BeginEnqueue(0, c), CheckDeps(0)] + [Purge({d.id})]);
            purged.Some? && DependencySafe(purged.value.rows)
    ensures var end := After(CompletingRun(d, a) + [BeginEnqueue(0, c), CheckDeps(0)] + [Purge({d.id}), Write(0)]);
            end.Some? && !DependencySafe(end.value.rows)
  {
    var done := JobCompletes(d, a);
    DependentIsChecked(CompletingRun(d, a), d.id, done, c);
    PurgeBeforeItsWrite(CompletingRun(d, a) + [BeginEnqueue(0, c), CheckDeps(0)], d.id, done, c);
  }

  // ---------------------------------------------------------------- no lost wake-up

  /** The client will still decide about waiting row `c`, whose dependencies are `deps`. */
  predicate WillDecide(p: Proc, c: string, deps: seq<string>) {
    || ((p.Promoting? || p.Marking?) && p.target == c)
    || (p.Fetching? && p.finished in deps)
    || ((p.Scanning? || p.MarkingFirst?) && p.finished in deps && Waiter(c, deps) in p.todo)
  }

  predicate Decides(s: State, pid: nat, c: string) {
    pid in s.procs && c in s.rows && WillDecide(s.procs[pid], c, s.rows[c].dependsOn)
  }

  /** A waiting row whose dependencies are all completed. */
  predicate Overdue(rows: JobMap, c: string) {
    HasStatus(rows, c, Waiting) && AllCompleted(rows, rows[c].dependsOn)
  }

  /** Every overdue row has a client that has not decided about it yet. */
  ghost predicate NothingForgotten(s: State) {
    forall c | Overdue(s.rows, c) :: exists pid :: Decides(s, pid, c)
  }

  lemma StartsWaiting(s: State, a: Action, c: string)
    requires Inv(s) && Enabled(s, a)
    requires HasStatus(NextRows(s, a), c, Waiting) && !HasStatus(s.rows, c, Waiting)
    ensures a.Write? && s.procs[a.pid].job.id == c && s.procs[a.pid].job.status == Waiting
  {
  }

  lemma BecomesCompleted(s: State, a: Action, d: string)
    requires Inv(s) && Enabled(s, a)
    requires HasStatus(NextRows(s, a), d, Completed) && !HasStatus(s.rows, d, Completed)
    ensures a.Finish? && NextProc(s, a) == Some(Fetching(d))
  {
    if a.FailUnknown? || a.Finish? || a.Start? {
      assert HeldBy(s, a.pid, s.procs[a.pid].job.id);
    }
  }

  /** A client does not drop an overdue row that stays waiting. */
  lemma DecisionIsCarried(s: State, a: Action, c: string)
    requires Inv(s) && Enabled(s, a) && FromClient(a)
    requires Overdue(s.rows, c) && Decides(s, a.pid, c) && HasStatus(NextRows(s, a), c, Waiting)
    ensures NextProc(s, a).Some? && WillDecide(NextProc(s, a).value, c, s.rows[c].dependsOn)
  {
    var p := s.procs[a.pid];
    if (p.Scanning? || p.MarkingFirst?) && p.todo != [] {
      assert p.todo == [p.todo[0]] + p.todo[1..];
    }
  }

  lemma OverdueKept(s: State, a: Action, c: string)
    requires Inv(s) && Enabled(s, a) && NothingForgotten(s) && Overdue(NextRows(s, a), c)
    ensures exists pid :: Decides(Apply(s, a), pid, c)
  {
    var s' := Apply(s, a);
    if !HasStatus(s.rows, c, Waiting) {
      StartsWaiting(s, a, c);
      assert Decides(s', a.pid, c);
    } else {
      RowIdentityKept(s, a, c);
      if AllCompleted(s.rows, s.rows[c].dependsOn) {
        assert Overdue(s.rows, c);
        var pid :| Decides(s, pid, c);
        if FromClient(a) && pid == a.pid {
          DecisionIsCarried(s, a, c);
        }
        assert Decides(s', pid, c);
      } else {
        var d :| d in s.rows[c].dependsOn && !HasStatus(s.rows, d, Completed);
        assert HasStatus(s'.rows, d, Completed);
        BecomesCompleted(s, a, d);
        assert Decides(s', a.pid, c);
      }
    }
  }

  lemma NothingForgottenKept(s: State, a: Action)
    requires Inv(s) && Enabled(s, a) && NothingForgotten(s)
    ensures NothingForgotten(Apply(s, a))
  {
    forall c | Overdue(NextRows(s, a), c)
      ensures exists pid :: Decides(Apply(s, a), pid, c)
    {
      OverdueKept(s, a, c);
    }
  }

  lemma {:induction false} EveryRunForgetsNothing(actions: seq<Action>)
    requires After(actions).Some?
    ensures NothingForgotten(After(actions).value)
    decreases |actions|
  {
    if actions != [] {
      var before := actions[..|actions| - 1];
      EveryRunForgetsNothing(before);
      EveryRunIsExclusive(before);
      NothingForgottenKept(After(before).value, actions[|actions| - 1]);
    }
  }

  /** No enqueue is between its write and its promotion, and no completer between its write and
      the end of its scan. Enqueues that have not written and workers may be anywhere. */
  predicate PromotionsDone(s: State) {
    forall pid | pid in s.procs ::
      var p := s.procs[pid];
      p.Checking? || p.Writing? || p.Claimed? || p.Cleared? || p.Executing?
  }

  /** No lost wake-up: when all promotions are done, no waiting job has all dependencies completed,
      whatever was enqueued, completed, cancelled, retried or purged in between. */
  lemma NoLostWakeUp(actions: seq<Action>, c: string)
    requires After(actions).Some? && PromotionsDone(After(actions).value)
    ensures !Overdue(After(actions).value.rows, c)
  {
    EveryRunForgetsNothing(actions);
    var s := After(actions).value;
    forall pid
      ensures !Decides(s, pid, c)
    {
    }
  }
}
