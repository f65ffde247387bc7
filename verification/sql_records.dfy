/** What the rows record under concurrency (src/aioq/backends/postgres.py, worker.py): between its statements a worker
    keeps a copy of its job, every statement stores what the attempt made of it, and so retries are counted. */
module SqlRecords {
  import opened Jobs
  import opened Attempts
  import opened SqlMachine

  // ---------------------------------------------------------------- the worker's copy

  /** A failed attempt's copy beside the row, which is still that of the running attempt. */
  predicate Rescheduled(row: JobData, j: JobData) {
    && row.retries < row.maxRetries
    && j == row.(retries := row.retries + 1, status := j.status, error := j.error, runAt := j.runAt,
                 startedAt := None, workerId := None)
  }

  /** A worker's copy is the row; only the copy of a failed attempt is ahead of it. */
  predicate CopyFits(rows: JobMap, p: Proc) {
    if p.Claimed? || p.Cleared? || p.Executing? then p.job.id in rows && rows[p.job.id] == p.job
    else if (p.Checking? || p.Writing?) && p.retry then p.job.id in rows && Rescheduled(rows[p.job.id], p.job)
    else true
  }

  ghost predicate CopiesFit(s: State) {
    forall pid | pid in s.procs :: CopyFits(s.rows, s.procs[pid])
  }

  predicate Acts(a: Action, pid: nat) {
    FromClient(a) && a.pid == pid
  }

  /** No other client's statement touches the row of a held job. */
  lemma HeldRowIsSpared(s: State, a: Action, pid: nat, id: string)
    requires Inv(s) && Enabled(s, a) && HeldBy(s, pid, id) && !Acts(a, pid)
    ensures id in NextRows(s, a) && NextRows(s, a)[id] == s.rows[id]
  {
    if a.Write? {
      WriterIsKnown(s, a);
    } else if a.FailUnknown? || a.Start? || a.Finish? {
      assert HeldBy(s, a.pid, s.procs[a.pid].job.id);
    }
  }

  lemma ClientStays(s: State, a: Action, pid: nat)
    requires Enabled(s, a) && !Acts(a, pid)
    ensures pid in NextProcs(s, a) <==> pid in s.procs
    ensures pid in s.procs ==> NextProcs(s, a)[pid] == s.procs[pid]
  {
  }

  lemma CopyStays(s: State, a: Action, pid: nat)
    requires Inv(s) && Enabled(s, a) && pid in s.procs && CopyFits(s.rows, s.procs[pid]) && !Acts(a, pid)
    ensures CopyFits(NextRows(s, a), s.procs[pid])
  {
    var p := s.procs[pid];
    if p.Claimed? || p.Cleared? || p.Executing? || ((p.Checking? || p.Writing?) && p.retry) {
      HeldRowIsSpared(s, a, pid, p.job.id);
    }
  }

  lemma FailedCopyFits(s: State, a: Action)
    requires Inv(s) && Enabled(s, a) && a.Finish? && CopyFits(s.rows, s.procs[a.pid])
    requires Conclude(s.procs[a.pid].job, a.attempt).status == Retrying
    ensures Rescheduled(s.rows[s.procs[a.pid].job.id], Conclude(s.procs[a.pid].job, a.attempt))
    ensures NextRows(s, a) == s.rows
  {
  }

  lemma OwnCopyFits(s: State, a: Action)
    requires Inv(s) && CopiesFit(s) && Enabled(s, a) && FromClient(a) && NextProc(s, a).Some?
    ensures CopyFits(NextRows(s, a), NextProc(s, a).value)
  {
    if a.Finish? {
      assert CopyFits(s.rows, s.procs[a.pid]);
      if Conclude(s.procs[a.pid].job, a.attempt).status == Retrying {
        FailedCopyFits(s, a);
      }
    } else if !a.Claim? {
      assert a.pid in s.procs ==> CopyFits(s.rows, s.procs[a.pid]);
    }
  }

  lemma CopiesKept(s: State, a: Action)
    requires Inv(s) && CopiesFit(s) && Enabled(s, a)
    ensures CopiesFit(Apply(s, a))
  {
    forall pid | pid in NextProcs(s, a)
      ensures CopyFits(NextRows(s, a), NextProcs(s, a)[pid])
    {
      if Acts(a, pid) {
        OwnCopyFits(s, a);
      } else {
        ClientStays(s, a, pid);
        CopyStays(s, a, pid);
      }
    }
  }

  lemma {:induction false} RunKeepsCopies(states: seq<State>, actions: seq<Action>, n: nat)
    requires IsRun(states, actions) && states[0] == INITIAL && n < |states|
    ensures Inv(states[n]) && CopiesFit(states[n])
  {
    if n > 0 {
      RunKeepsCopies(states, actions, n - 1);
      InvKept(states[n - 1], actions[n - 1]);
      CopiesKept(states[n - 1], actions[n - 1]);
    }
  }

  /** The columns that an update never writes. */
  predicate SameRest(row: JobData, j: JobData) {
    j == row.(status := j.status, queue := j.queue, retries := j.retries, startedAt := j.startedAt,
              completedAt := j.completedAt, result := j.result, error := j.error, workerId := j.workerId,
              runAt := j.runAt)
  }

  lemma UpdateStoresAll(rows: JobMap, j: JobData)
    requires j.id in rows && SameRest(rows[j.id], j)
    ensures Update(rows, j) == rows[j.id := j]
  {
  }

  /** The record that the attempt makes of a job when this action ends or starts it. */
  function AttemptRecord(j: JobData, a: Action): JobData
    requires a.Start? || a.FailUnknown? || a.Finish?
  {
    if a.Start? then Begin(j, a.attempt) else if a.Finish? then Conclude(j, a.attempt) else Fail(j, a.error, a.now)
  }

  lemma AttemptKeepsRest(j: JobData, a: Action)
    requires a.Start? || a.FailUnknown? || a.Finish?
    ensures SameRest(j, AttemptRecord(j, a)) && AttemptRecord(j, a).id == j.id
    ensures AttemptRecord(j, a).status != Retrying ==> AttemptRecord(j, a).retries == j.retries
  {
  }

  /** A statement that starts or ends an attempt leaves in the row the whole record that the attempt makes of it, and
      changes no other row. */
  lemma AttemptIsStored(s: State, a: Action)
    requires Inv(s) && CopiesFit(s) && Enabled(s, a) && (a.Start? || a.FailUnknown? || a.Finish?)
    requires AttemptRecord(s.procs[a.pid].job, a).status != Retrying
    ensures var id := s.procs[a.pid].job.id;
            id in s.rows && NextRows(s, a) == s.rows[id := AttemptRecord(s.rows[id], a)]
  {
    var j := s.procs[a.pid].job;
    assert CopyFits(s.rows, s.procs[a.pid]);
    AttemptKeepsRest(j, a);
    UpdateStoresAll(s.rows, AttemptRecord(j, a));
  }

  /** Between the failure of an attempt and the write of its retry: the client has the attempt's record, at most made
      to wait, and the row is still that of the running attempt. */
  predicate Carried(s: State, pid: nat, row: JobData, j: JobData) {
    && pid in s.procs && (s.procs[pid].Checking? || s.procs[pid].Writing?) && s.procs[pid].retry
    && s.procs[pid].job == j.(status := s.procs[pid].job.status) && s.procs[pid].job.status in {j.status, Waiting}
    && j.id in s.rows && s.rows[j.id] == row
  }

  lemma CarriedFirst(s: State, a: Action)
    requires Inv(s) && CopiesFit(s) && Enabled(s, a) && a.Finish?
    requires Conclude(s.procs[a.pid].job, a.attempt).status == Retrying
    ensures Carried(Apply(s, a), a.pid, s.procs[a.pid].job, Conclude(s.procs[a.pid].job, a.attempt))
  {
    assert CopyFits(s.rows, s.procs[a.pid]);
    FailedCopyFits(s, a);
  }

  lemma CarriedOn(s: State, a: Action, pid: nat, row: JobData, j: JobData)
    requires Inv(s) && Enabled(s, a) && Carried(s, pid, row, j) && a != Write(pid)
    ensures Carried(Apply(s, a), pid, row, j)
  {
    if !Acts(a, pid) {
      ClientStays(s, a, pid);
      HeldRowIsSpared(s, a, pid, j.id);
    }
  }

  lemma {:induction false} CopyIsCarried(states: seq<State>, actions: seq<Action>, k: nat, m: nat, pid: nat)
    requires IsRun(states, actions) && states[0] == INITIAL && k < m < |states|
    requires actions[k].Finish? && actions[k].pid == pid
    requires Conclude(states[k].procs[pid].job, actions[k].attempt).status == Retrying
    requires forall i | k < i < m :: actions[i] != Write(pid)
    ensures Carried(states[m], pid, states[k].procs[pid].job, Conclude(states[k].procs[pid].job, actions[k].attempt))
  {
    RunKeepsCopies(states, actions, m - 1);
    if m == k + 1 {
      CarriedFirst(states[k], actions[k]);
    } else {
      CopyIsCarried(states, actions, k, m - 1, pid);
      CarriedOn(states[m - 1], actions[m - 1], pid, states[k].procs[pid].job,
                Conclude(states[k].procs[pid].job, actions[k].attempt));
    }
  }

  /** When the retry of a failed attempt is written, with whatever statements of others in between, the row is that
      of the attempt with one retry more and the time of the next attempt, in its queue, to run again or to wait. */
  lemma RetryIsStored(states: seq<State>, actions: seq<Action>, k: nat, m: nat, pid: nat)
    requires IsRun(states, actions) && states[0] == INITIAL && k < m < |actions|
    requires actions[k].Finish? && actions[k].pid == pid && actions[m] == Write(pid)
    requires Conclude(states[k].procs[pid].job, actions[k].attempt).status == Retrying
    requires forall i | k < i < m :: actions[i] != Write(pid)
    ensures var (j, rows) := (states[k].procs[pid].job, states[m + 1].rows);
            && j.id in rows && rows[j.id].status in {Retrying, Waiting}
            && rows[j.id] == j.(status := rows[j.id].status, retries := j.retries + 1,
                                runAt := Conclude(j, actions[k].attempt).runAt)
  {
    CopyIsCarried(states, actions, k, m, pid);
    RunKeepsCopies(states, actions, m);
    assert states[m + 1].rows == Upsert(states[m].rows, states[m].procs[pid].job);
  }

  /** A new job on its way to the table, at most made to wait. */
  predicate OnItsWay(s: State, pid: nat, j: JobData) {
    && pid in s.procs && (s.procs[pid].Checking? || s.procs[pid].Writing?) && !s.procs[pid].retry
    && s.procs[pid].job == j.(status := s.procs[pid].job.status) && s.procs[pid].job.status in {j.status, Waiting}
  }

  lemma WayGoesOn(s: State, a: Action, pid: nat, j: JobData)
    requires Enabled(s, a) && OnItsWay(s, pid, j) && a != Write(pid)
    ensures OnItsWay(Apply(s, a), pid, j)
  {
    if !Acts(a, pid) {
      ClientStays(s, a, pid);
    }
  }

  lemma {:induction false} EnqueuedGoesOn(states: seq<State>, actions: seq<Action>, k: nat, m: nat, pid: nat)
    requires IsRun(states, actions) && k < m < |states| && actions[k].BeginEnqueue? && actions[k].pid == pid
    requires forall i | k < i < m :: actions[i] != Write(pid)
    ensures OnItsWay(states[m], pid, actions[k].job)
  {
    if m > k + 1 {
      EnqueuedGoesOn(states, actions, k, m - 1, pid);
      WayGoesOn(states[m - 1], actions[m - 1], pid, actions[k].job);
    }
  }

  /** When a new job is written, with whatever statements of others in between, the row is the job as it was handed in,
      to run or to wait, with nothing of an attempt yet. */
  lemma EnqueueIsStored(states: seq<State>, actions: seq<Action>, k: nat, m: nat, pid: nat)
    requires IsRun(states, actions) && states[0] == INITIAL && k < m < |actions|
    requires actions[k].BeginEnqueue? && actions[k].pid == pid && actions[m] == Write(pid)
    requires forall i | k < i < m :: actions[i] != Write(pid)
    ensures var (j, rows) := (actions[k].job, states[m + 1].rows);
            && j.id in rows && rows[j.id].status in {Pending, Waiting}
            && rows[j.id] == j.(status := rows[j.id].status, startedAt := None, completedAt := None, result := None,
                                error := None, workerId := None)
  {
    EnqueuedGoesOn(states, actions, k, m, pid);
    RunKeepsCopies(states, actions, m);
    WriterIsKnown(states[m], actions[m]);
    assert Enabled(states[k], actions[k]);
    assert states[m + 1].rows == Upsert(states[m].rows, states[m].procs[pid].job);
  }

  // ---------------------------------------------------------------- counting retries

  /** The attempts of a job that were rescheduled since it was enqueued or last retried by hand, and how many may. */
  datatype Account = Account(used: nat, allowed: int)

  function RetriesLeft(j: JobData): int {
    j.maxRetries - j.retries
  }

  /** The attempt that this action ends is to be made again. */
  predicate EndsRetrying(s: State, a: Action, id: string) {
    a.Finish? && HeldBy(s, a.pid, id) && Conclude(s.procs[a.pid].job, a.attempt).status == Retrying
  }

  function NextAccount(acc: Account, s: State, a: Action, id: string): Account {
    if a.BeginEnqueue? && a.job.id == id then Account(0, RetriesLeft(a.job))
    else if a.RetryJob? && a.id == id then Account(0, if id in s.rows then s.rows[id].maxRetries else 0)
    else if EndsRetrying(s, a, id) then acc.(used := acc.used + 1)
    else acc
  }

  function AccountAt(states: seq<State>, actions: seq<Action>, id: string, n: nat): Account
    requires n <= |actions| < |states|
  {
    if n == 0 then Account(0, 0)
    else NextAccount(AccountAt(states, actions, id, n - 1), states[n - 1], actions[n - 1], id)
  }

  predicate Carries(s: State, pid: nat, id: string) {
    HeldBy(s, pid, id) && (s.procs[pid].Checking? || s.procs[pid].Writing?)
  }

  /** What the account leaves is what the job's record leaves: a new job's in its client, that of a failed attempt in
      the worker's copy, any other in its row. */
  ghost predicate AccountFits(s: State, id: string, acc: Account) {
    && (acc.used > 0 ==> acc.used <= acc.allowed)
    && (forall pid | CreatedBy(s, pid, id) :: acc == Account(0, RetriesLeft(s.procs[pid].job)))
    && (forall pid | Carries(s, pid, id) :: acc.allowed - acc.used == RetriesLeft(s.procs[pid].job))
    && (id in s.rows && (forall pid :: !Carries(s, pid, id)) ==> acc.allowed - acc.used == RetriesLeft(s.rows[id]))
  }

  lemma AttemptKeepsRetries(s: State, a: Action, id: string)
    requires Inv(s) && CopiesFit(s) && Enabled(s, a) && (a.FailUnknown? || a.Start? || a.Finish?) && id in s.rows
    ensures id in NextRows(s, a) && RetriesLeft(NextRows(s, a)[id]) == RetriesLeft(s.rows[id])
  {
    var j := s.procs[a.pid].job;
    AttemptKeepsRest(j, a);
    if AttemptRecord(j, a).status != Retrying {
      AttemptIsStored(s, a);
      AttemptKeepsRest(s.rows[j.id], a);
      assert CopyFits(s.rows, s.procs[a.pid]);
    }
  }

  /** A row's remaining retries change only by the write of a retry and by a retry by hand. */
  lemma RowKeepsRetries(s: State, a: Action, id: string)
    requires Inv(s) && CopiesFit(s) && Enabled(s, a) && id in s.rows && id in NextRows(s, a)
    requires !(a.Write? && Carries(s, a.pid, id)) && !(a.RetryJob? && a.id == id)
    ensures RetriesLeft(NextRows(s, a)[id]) == RetriesLeft(s.rows[id])
  {
    if a.Write? {
      WriterIsKnown(s, a);
    } else if a.FailUnknown? || a.Start? || a.Finish? {
      AttemptKeepsRetries(s, a, id);
    }
  }

  lemma RetriedRow(s: State, a: Action, id: string)
    requires Inv(s) && Enabled(s, a) && a.RetryJob? && a.id == id
    ensures id in NextRows(s, a) && RetriesLeft(NextRows(s, a)[id]) == s.rows[id].maxRetries
    ensures forall pid :: !HeldBy(s, pid, id) && !CreatedBy(s, pid, id)
  {
  }

  lemma WrittenRow(s: State, a: Action, id: string)
    requires Inv(s) && CopiesFit(s) && Enabled(s, a) && a.Write? && s.procs[a.pid].job.id == id
    ensures id in NextRows(s, a) && RetriesLeft(NextRows(s, a)[id]) == RetriesLeft(s.procs[a.pid].job)
  {
    WriterIsKnown(s, a);
    assert CopyFits(s.rows, s.procs[a.pid]);
  }

  lemma CreatorMoves(s: State, a: Action, pid: nat, id: string)
    requires Inv(s) && Enabled(s, a) && CreatedBy(Apply(s, a), pid, id)
    ensures if a.BeginEnqueue? && a.pid == pid then NextProcs(s, a)[pid].job == a.job
            else CreatedBy(s, pid, id) && RetriesLeft(NextProcs(s, a)[pid].job) == RetriesLeft(s.procs[pid].job)
  {
  }

  lemma CarrierComes(s: State, a: Action, pid: nat, id: string)
    requires Inv(s) && CopiesFit(s) && Enabled(s, a) && Carries(Apply(s, a), pid, id) && !Carries(s, pid, id)
    ensures a.Finish? && a.pid == pid && EndsRetrying(s, a, id) && id in s.rows
    ensures RetriesLeft(NextProcs(s, a)[pid].job) == RetriesLeft(s.rows[id]) - 1 >= 0
  {
    if !Acts(a, pid) {
      ClientStays(s, a, pid);
    } else {
      assert pid in s.procs ==> CopyFits(s.rows, s.procs[pid]);
    }
  }

  lemma CarrierMoves(s: State, a: Action, pid: nat, id: string)
    requires Inv(s) && CopiesFit(s) && Enabled(s, a) && Carries(Apply(s, a), pid, id)
    ensures if Carries(s, pid, id) then RetriesLeft(NextProcs(s, a)[pid].job) == RetriesLeft(s.procs[pid].job)
            else
              && a.Finish? && a.pid == pid && EndsRetrying(s, a, id) && id in s.rows
              && RetriesLeft(NextProcs(s, a)[pid].job) == RetriesLeft(s.rows[id]) - 1 >= 0
  {
    if !Carries(s, pid, id) {
      CarrierComes(s, a, pid, id);
    } else if !Acts(a, pid) {
      ClientStays(s, a, pid);
    }
  }

  lemma CarrierStays(s: State, a: Action, pid: nat, id: string)
    requires Inv(s) && Enabled(s, a) && Carries(s, pid, id) && a != Write(pid)
    ensures Carries(Apply(s, a), pid, id)
  {
    if !Acts(a, pid) {
      ClientStays(s, a, pid);
    }
  }

  lemma FailureIsCarried(s: State, a: Action, id: string)
    requires Inv(s) && CopiesFit(s) && Enabled(s, a) && EndsRetrying(s, a, id)
    ensures id in s.rows && RetriesLeft(s.rows[id]) >= 1 && Carries(Apply(s, a), a.pid, id)
    ensures forall pid :: !Carries(s, pid, id) && !CreatedBy(s, pid, id)
  {
    assert CopyFits(s.rows, s.procs[a.pid]);
    FailedCopyFits(s, a);
  }

  lemma CreatorsFit(s: State, a: Action, id: string, acc: Account, pid: nat)
    requires Inv(s) && CopiesFit(s) && Enabled(s, a) && AccountFits(s, id, acc) && CreatedBy(Apply(s, a), pid, id)
    ensures NextAccount(acc, s, a, id) == Account(0, RetriesLeft(NextProcs(s, a)[pid].job))
  {
    CreatorMoves(s, a, pid, id);
    if EndsRetrying(s, a, id) {
      FailureIsCarried(s, a, id);
    } else if a.RetryJob? && a.id == id {
      RetriedRow(s, a, id);
    }
  }

  lemma CarriersFit(s: State, a: Action, id: string, acc: Account, pid: nat)
    requires Inv(s) && CopiesFit(s) && Enabled(s, a) && AccountFits(s, id, acc) && Carries(Apply(s, a), pid, id)
    ensures var acc' := NextAccount(acc, s, a, id); acc'.allowed - acc'.used == RetriesLeft(NextProcs(s, a)[pid].job)
  {
    CarrierMoves(s, a, pid, id);
    if EndsRetrying(s, a, id) {
      FailureIsCarried(s, a, id);
    } else if a.RetryJob? && a.id == id {
      RetriedRow(s, a, id);
    }
  }

  lemma RowFits(s: State, a: Action, id: string, acc: Account)
    requires Inv(s) && CopiesFit(s) && Enabled(s, a) && AccountFits(s, id, acc)
    requires id in NextRows(s, a) && forall pid :: !Carries(Apply(s, a), pid, id)
    ensures var acc' := NextAccount(acc, s, a, id); acc'.allowed - acc'.used == RetriesLeft(NextRows(s, a)[id])
  {
    if EndsRetrying(s, a, id) {
      FailureIsCarried(s, a, id);
    } else if a.RetryJob? && a.id == id {
      RetriedRow(s, a, id);
    } else if a.Write? && s.procs[a.pid].job.id == id {
      WrittenRow(s, a, id);
      WriterIsKnown(s, a);
    } else {
      RowsComeAndGo(s, a, id);
      forall pid
        ensures !Carries(s, pid, id)
      {
        if Carries(s, pid, id) {
          CarrierStays(s, a, pid, id);
        }
      }
      RowKeepsRetries(s, a, id);
    }
  }

  lemma AccountKept(s: State, a: Action, id: string, acc: Account)
    requires Inv(s) && CopiesFit(s) && Enabled(s, a) && AccountFits(s, id, acc)
    ensures AccountFits(Apply(s, a), id, NextAccount(acc, s, a, id))
  {
    var s', acc' := Apply(s, a), NextAccount(acc, s, a, id);
    if EndsRetrying(s, a, id) {
      FailureIsCarried(s, a, id);
    }
    forall pid | CreatedBy(s', pid, id)
      ensures acc' == Account(0, RetriesLeft(s'.procs[pid].job))
    {
      CreatorsFit(s, a, id, acc, pid);
    }
    forall pid | Carries(s', pid, id)
      ensures acc'.allowed - acc'.used == RetriesLeft(s'.procs[pid].job)
    {
      CarriersFit(s, a, id, acc, pid);
    }
    if id in s'.rows && forall pid :: !Carries(s', pid, id) {
      RowFits(s, a, id, acc);
    }
  }

  lemma {:induction false} RunKeepsAccount(states: seq<State>, actions: seq<Action>, id: string, n: nat)
    requires IsRun(states, actions) && states[0] == INITIAL && n < |states|
    ensures AccountFits(states[n], id, AccountAt(states, actions, id, n))
  {
    if n > 0 {
      RunKeepsAccount(states, actions, id, n - 1);
      RunKeepsCopies(states, actions, n - 1);
      AccountKept(states[n - 1], actions[n - 1], id, AccountAt(states, actions, id, n - 1));
    }
  }

  function AtLeastZero(x: int): (r: nat)
    ensures r >= x && (r == x || r == 0)
  {
    if x < 0 then 0 else x
  }

  /** In every run the attempts of a job that are made again, since it was enqueued or last retried by hand, are no
      more than its retries allow, and exactly as many when an attempt ends it failed or dead. */
  lemma RetriesAreBounded(states: seq<State>, actions: seq<Action>, id: string, n: nat)
    requires IsRun(states, actions) && states[0] == INITIAL && n < |states|
    ensures var acc := AccountAt(states, actions, id, n);
            && acc.used <= AtLeastZero(acc.allowed)
            && (n < |actions| && actions[n].Finish? && HeldBy(states[n], actions[n].pid, id)
                && Conclude(states[n].procs[actions[n].pid].job, actions[n].attempt).status in {Failed, Dead}
                ==> acc.used == AtLeastZero(acc.allowed))
  {
    RunKeepsAccount(states, actions, id, n);
    RunKeepsCopies(states, actions, n);
    if n < |actions| && actions[n].Finish? && HeldBy(states[n], actions[n].pid, id) {
      LastAttempt(states[n], actions[n], id);
    }
  }

  lemma LastAttempt(s: State, a: Action, id: string)
    requires Inv(s) && CopiesFit(s) && Enabled(s, a) && a.Finish? && HeldBy(s, a.pid, id)
    ensures id in s.rows && forall pid :: !Carries(s, pid, id)
    ensures Conclude(s.procs[a.pid].job, a.attempt).status in {Failed, Dead} ==> RetriesLeft(s.rows[id]) <= 0
  {
    assert CopyFits(s.rows, s.procs[a.pid]);
  }

  // ---------------------------------------------------------------- what is allowed

  /** The job keeps the number of retries it was enqueued with. */
  ghost predicate KeepsLimit(s: State, job: JobData, allowed: int) {
    && job.id in s.issued && allowed <= job.maxRetries + AtLeastZero(-job.retries)
    && (job.id in s.rows ==> s.rows[job.id].maxRetries == job.maxRetries)
    && (forall pid | CreatedBy(s, pid, job.id) :: s.procs[pid].job.maxRetries == job.maxRetries)
  }

  lemma RowKeepsLimit(s: State, a: Action, id: string)
    requires Inv(s) && CopiesFit(s) && Enabled(s, a) && id in NextRows(s, a)
    ensures if id in s.rows then NextRows(s, a)[id].maxRetries == s.rows[id].maxRetries
            else a.Write? && CreatedBy(s, a.pid, id) && NextRows(s, a)[id].maxRetries == s.procs[a.pid].job.maxRetries
  {
    RowsComeAndGo(s, a, id);
  }

  lemma CreatorKeepsLimit(s: State, a: Action, pid: nat, id: string)
    requires Inv(s) && Enabled(s, a) && CreatedBy(Apply(s, a), pid, id) && id in s.issued
    ensures CreatedBy(s, pid, id) && NextProcs(s, a)[pid].job.maxRetries == s.procs[pid].job.maxRetries
  {
  }

  lemma LimitIsNotRaised(s: State, a: Action, job: JobData, acc: Account)
    requires Inv(s) && Enabled(s, a) && KeepsLimit(s, job, acc.allowed)
    ensures NextAccount(acc, s, a, job.id).allowed <= job.maxRetries + AtLeastZero(-job.retries)
  {
  }

  lemma LimitKept(s: State, a: Action, job: JobData, acc: Account)
    requires Inv(s) && CopiesFit(s) && Enabled(s, a) && KeepsLimit(s, job, acc.allowed)
    ensures KeepsLimit(Apply(s, a), job, NextAccount(acc, s, a, job.id).allowed)
  {
    LimitIsNotRaised(s, a, job, acc);
    if job.id in NextRows(s, a) {
      RowKeepsLimit(s, a, job.id);
    }
    forall pid | CreatedBy(Apply(s, a), pid, job.id)
      ensures NextProcs(s, a)[pid].job.maxRetries == job.maxRetries
    {
      CreatorKeepsLimit(s, a, pid, job.id);
    }
  }

  lemma {:induction false} RunKeepsLimit(states: seq<State>, actions: seq<Action>, k: nat, n: nat)
    requires IsRun(states, actions) && states[0] == INITIAL && k < n < |states| && actions[k].BeginEnqueue?
    ensures KeepsLimit(states[n], actions[k].job, AccountAt(states, actions, actions[k].job.id, n).allowed)
  {
    var s, a := states[n - 1], actions[n - 1];
    RunKeepsCopies(states, actions, n - 1);
    if n - 1 == k {
      EnqueueSetsLimit(s, a);
    } else {
      RunKeepsLimit(states, actions, k, n - 1);
      LimitKept(s, a, actions[k].job, AccountAt(states, actions, actions[k].job.id, n - 1));
    }
  }

  lemma EnqueueSetsLimit(s: State, a: Action)
    requires Inv(s) && Enabled(s, a) && a.BeginEnqueue?
    ensures KeepsLimit(Apply(s, a), a.job, RetriesLeft(a.job))
  {
    forall pid | CreatedBy(Apply(s, a), pid, a.job.id)
      ensures NextProcs(s, a)[pid].job.maxRetries == a.job.maxRetries
    {
      CreatorMoves(s, a, pid, a.job.id);
    }
  }

  /** A job enqueued with at least 0 retries behind it is made again at most max_retries times in a row, whatever the
      clients do. */
  lemma RetriesAreAtMostMax(states: seq<State>, actions: seq<Action>, k: nat, n: nat)
    requires IsRun(states, actions) && states[0] == INITIAL && k < n < |states|
    requires actions[k].BeginEnqueue? && actions[k].job.retries >= 0
    ensures AccountAt(states, actions, actions[k].job.id, n).used <= AtLeastZero(actions[k].job.maxRetries)
  {
    RetriesAreBounded(states, actions, actions[k].job.id, n);
    RunKeepsLimit(states, actions, k, n);
  }

  // ---------------------------------------------------------------- cancel and retry statements

  /** Exactly pending, retrying and waiting rows are cancelled, and the row stays what it was but for that. */
  lemma CancelStatement(s: State, id: string)
    ensures Enabled(s, Cancel(id)) <==> id in s.rows && s.rows[id].status in {Pending, Retrying, Waiting}
    ensures Enabled(s, Cancel(id)) ==> NextRows(s, Cancel(id)) == s.rows[id := s.rows[id].(status := Cancelled)]
  {
  }

  /** Exactly failed and cancelled rows are retried by hand. Whatever the attempts were, the row can then be claimed at
      any time, and its account allows all its retries again. */
  lemma RetryStatement(s: State, id: string, acc: Account, pid: nat, now: real)
    ensures Enabled(s, RetryJob(id)) <==> id in s.rows && s.rows[id].status in {Failed, Cancelled}
    ensures Enabled(s, RetryJob(id)) && pid !in s.procs ==> Enabled(Apply(s, RetryJob(id)), Claim(pid, id, now))
    ensures Enabled(s, RetryJob(id)) ==> NextAccount(acc, s, RetryJob(id), id) == Account(0, s.rows[id].maxRetries)
  {
  }

  /** A job whose last attempt failed in the table can be retried by hand right away. */
  lemma FailedRowIsRetried(s: State, a: Action)
    requires Inv(s) && CopiesFit(s) && Enabled(s, a) && a.Finish?
    requires Conclude(s.procs[a.pid].job, a.attempt).status == Failed
    ensures Enabled(Apply(s, a), RetryJob(s.procs[a.pid].job.id))
  {
    AttemptIsStored(s, a);
    assert CopyFits(s.rows, s.procs[a.pid]);
  }

  // ---------------------------------------------------------------- no early start

  predicate NotBefore(j: JobData, t: real) {
    j.runAt.Some? && j.runAt.value >= t
  }

  /** Nobody runs the job, and wherever it is stored or on its way to be stored, it is not to run before `t`. */
  ghost predicate Postponed(s: State, id: string, t: real) {
    && id in s.issued
    && (forall pid | HeldBy(s, pid, id) :: Carries(s, pid, id))
    && (forall pid | Carries(s, pid, id) || CreatedBy(s, pid, id) :: NotBefore(s.procs[pid].job, t))
    && (id in s.rows && (forall pid :: !Carries(s, pid, id)) ==> NotBefore(s.rows[id], t))
  }

  predicate Frees(a: Action, id: string) {
    (a.Claim? && a.id == id) || (a.RetryJob? && a.id == id)
  }

  lemma PostponedClients(s: State, a: Action, id: string, t: real, pid: nat)
    requires Inv(s) && Enabled(s, a) && Postponed(s, id, t) && !Frees(a, id)
    ensures HeldBy(Apply(s, a), pid, id) ==>
              Carries(s, pid, id) && Carries(Apply(s, a), pid, id) && NotBefore(NextProcs(s, a)[pid].job, t)
    ensures CreatedBy(Apply(s, a), pid, id) ==> CreatedBy(s, pid, id) && NotBefore(NextProcs(s, a)[pid].job, t)
  {
    if Acts(a, pid) {
      if HeldBy(Apply(s, a), pid, id) {
        HolderChanges(s, a, pid, id);
      }
    } else {
      ClientStays(s, a, pid);
    }
  }

  lemma UnheldRowKeepsTime(s: State, a: Action, id: string)
    requires Inv(s) && Enabled(s, a) && !Frees(a, id) && id in s.rows && id in NextRows(s, a)
    requires (forall pid :: !HeldBy(s, pid, id)) && !(a.Write? && s.procs[a.pid].job.id == id)
    ensures NextRows(s, a)[id].runAt == s.rows[id].runAt
  {
    if a.FailUnknown? || a.Start? || a.Finish? {
      assert HeldBy(s, a.pid, s.procs[a.pid].job.id);
    }
  }

  lemma PostponedRow(s: State, a: Action, id: string, t: real)
    requires Inv(s) && Enabled(s, a) && Postponed(s, id, t) && !Frees(a, id)
    requires id in NextRows(s, a) && forall pid :: !Carries(Apply(s, a), pid, id)
    ensures NotBefore(NextRows(s, a)[id], t)
  {
    if a.Write? && s.procs[a.pid].job.id == id {
      WriterIsKnown(s, a);
    } else {
      RowsComeAndGo(s, a, id);
      forall pid
        ensures !Carries(s, pid, id)
      {
        if Carries(s, pid, id) {
          CarrierStays(s, a, pid, id);
        }
      }
      UnheldRowKeepsTime(s, a, id);
    }
  }

  lemma PostponedKept(s: State, a: Action, id: string, t: real)
    requires Inv(s) && Enabled(s, a) && Postponed(s, id, t) && !Frees(a, id)
    ensures Postponed(Apply(s, a), id, t)
  {
    forall pid
      ensures HeldBy(Apply(s, a), pid, id) ==>
                Carries(Apply(s, a), pid, id) && NotBefore(NextProcs(s, a)[pid].job, t)
      ensures CreatedBy(Apply(s, a), pid, id) ==> NotBefore(NextProcs(s, a)[pid].job, t)
    {
      PostponedClients(s, a, id, t, pid);
    }
    if id in NextRows(s, a) && forall pid :: !Carries(Apply(s, a), pid, id) {
      PostponedRow(s, a, id, t);
    }
  }

  /** The action that puts a job off: its enqueue with a run time, or the failure of an attempt with a wait. */
  predicate Postpones(s: State, a: Action, id: string, t: real) {
    || (a.BeginEnqueue? && a.job.id == id && a.job.runAt == Some(t))
    || (EndsRetrying(s, a, id)
        && var j := s.procs[a.pid].job;
           var wait := RetryDelayOf(j.(retries := j.retries + 1), a.attempt.draw);
           wait > 0.0 && t == a.attempt.endedAt + wait)
  }

  lemma EnqueuePostpones(s: State, a: Action, t: real)
    requires Inv(s) && Enabled(s, a) && a.BeginEnqueue? && a.job.runAt == Some(t)
    ensures Postponed(Apply(s, a), a.job.id, t)
  {
    forall pid | CreatedBy(Apply(s, a), pid, a.job.id)
      ensures NextProcs(s, a)[pid].job == a.job
    {
      CreatorMoves(s, a, pid, a.job.id);
    }
    assert a.job.id !in NextRows(s, a);
  }

  lemma FailurePostpones(s: State, a: Action, id: string, t: real)
    requires Inv(s) && CopiesFit(s) && Enabled(s, a) && EndsRetrying(s, a, id)
    requires NotBefore(Conclude(s.procs[a.pid].job, a.attempt), t)
    ensures Postponed(Apply(s, a), id, t)
  {
    FailureIsCarried(s, a, id);
    forall pid | HeldBy(Apply(s, a), pid, id)
      ensures pid == a.pid
    {
      HolderChanges(s, a, pid, id);
    }
    forall pid
      ensures !CreatedBy(Apply(s, a), pid, id)
    {
      if CreatedBy(Apply(s, a), pid, id) {
        CreatorMoves(s, a, pid, id);
      }
    }
  }

  lemma FailedIsNotBefore(j: JobData, a: Attempt)
    requires Conclude(j, a).status == Retrying && a.outcome.Failure?
    ensures var wait := RetryDelayOf(j.(retries := j.retries + 1), a.draw);
            wait > 0.0 ==> NotBefore(Conclude(j, a), a.endedAt + wait)
  {
  }

  lemma PostponedFirst(s: State, a: Action, id: string, t: real)
    requires Inv(s) && CopiesFit(s) && Enabled(s, a) && Postpones(s, a, id, t)
    ensures Postponed(Apply(s, a), id, t)
  {
    if a.BeginEnqueue? {
      EnqueuePostpones(s, a, t);
    } else {
      FailedIsNotBefore(s.procs[a.pid].job, a.attempt);
      FailurePostpones(s, a, id, t);
    }
  }

  lemma {:induction false} StaysPostponed(states: seq<State>, actions: seq<Action>, k: nat, n: nat, id: string, t: real)
    requires IsRun(states, actions) && states[0] == INITIAL && k < n < |states|
    requires Postpones(states[k], actions[k], id, t)
    requires forall i | k < i < n :: !Frees(actions[i], id)
    ensures Postponed(states[n], id, t)
  {
    RunKeepsCopies(states, actions, n - 1);
    if n - 1 == k {
      PostponedFirst(states[k], actions[k], id, t);
    } else {
      StaysPostponed(states, actions, k, n - 1, id, t);
      PostponedKept(states[n - 1], actions[n - 1], id, t);
    }
  }

  /** In every interleaving a deferred job, and a job whose attempt failed with a wait, is not claimed before its time,
      unless somebody retries it by hand. */
  lemma NoEarlyClaim(states: seq<State>, actions: seq<Action>, k: nat, n: nat, id: string, t: real)
    requires IsRun(states, actions) && states[0] == INITIAL && k < n < |actions|
    requires Postpones(states[k], actions[k], id, t) && actions[n].Claim? && actions[n].id == id
    requires forall i | k < i < n :: !Frees(actions[i], id)
    ensures actions[n].now >= t
  {
    StaysPostponed(states, actions, k, n, id, t);
    RunKeepsCopies(states, actions, n);
    assert Enabled(states[n], actions[n]);
  }
}
