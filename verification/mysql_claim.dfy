/** The MySQL claim transaction (src/aioq/backends/mysql.py, `_claim_one`): begin, select the first
    due row FOR UPDATE SKIP LOCKED, update it in place, read it back, commit or roll back, with any
    number of transactions and other statements interleaved. */
module MySqlClaim {
  import opened Jobs
  import SqlMachine

  /** A transaction after its update keeps the before-image InnoDB would restore. */
  datatype Txn =
    | Began
    | Locked(id: string)
    | Updated(id: string, before: JobData, at: real)
    | ReadBack(id: string, before: JobData, at: real, copy: JobData)

  datatype State = State(rows: JobMap, locks: map<string, nat>, txns: map<nat, Txn>, now: real)

  /** `Write` and `Delete` stand for every autocommitted statement of other clients; they wait for row locks. */
  datatype Action =
    | Begin(pid: nat)
    | Lock(pid: nat, queues: set<string>, id: string)
    | LockNothing(pid: nat, queues: set<string>)
    | Set(pid: nat)
    | Read(pid: nat)
    | Commit(pid: nat)
    | Rollback(pid: nat)
    | Write(job: JobData)
    | Delete(id: string)
    | Tick(time: real)

  predicate Candidate(s: State, queues: set<string>, id: string) {
    && id in s.rows && id !in s.locks && s.rows[id].queue in queues
    && Runnable(s.rows[id].status) && s.rows[id].Due(s.now)
  }

  /** ORDER BY priority DESC, enqueued_at LIMIT 1 over the due, runnable, unlocked rows. */
  ghost predicate FirstCandidate(s: State, queues: set<string>, id: string) {
    && Candidate(s, queues, id)
    && forall c | Candidate(s, queues, c) :: !ClaimKeyLess(s.rows[c], s.rows[id])
  }

  /** No other candidate has a higher priority, or the same one and an earlier time. */
  lemma FirstIsMostUrgent(s: State, queues: set<string>, id: string, c: string)
    requires FirstCandidate(s, queues, id) && Candidate(s, queues, c)
    ensures s.rows[c].priority <= s.rows[id].priority
    ensures s.rows[c].priority == s.rows[id].priority ==> s.rows[id].enqueuedAt <= s.rows[c].enqueuedAt
  {
  }

  ghost predicate Enabled(s: State, a: Action) {
    match a
    case Begin(pid) => pid !in s.txns
    case Lock(pid, queues, id) => pid in s.txns && s.txns[pid].Began? && FirstCandidate(s, queues, id)
    case LockNothing(pid, queues) =>
      pid in s.txns && s.txns[pid].Began? && forall c :: !Candidate(s, queues, c)
    case Set(pid) => pid in s.txns && s.txns[pid].Locked?
    case Read(pid) => pid in s.txns && s.txns[pid].Updated?
    case Commit(pid) => pid in s.txns && s.txns[pid].ReadBack?
    case Rollback(pid) => pid in s.txns
    case Write(job) => job.id !in s.locks
    case Delete(id) => id !in s.locks
    case Tick(time) => s.now <= time
  }

  predicate HasRow(t: Txn) { !t.Began? }
  predicate HasImage(t: Txn) { t.Updated? || t.ReadBack? }

  function SetRunning(j: JobData, at: real): JobData {
    j.(status := Running, startedAt := Some(at))
  }

  function Unlock(s: State, pid: nat): State
    requires pid in s.txns
  {
    var t := s.txns[pid];
    s.(txns := s.txns - {pid}, locks := if HasRow(t) then s.locks - {t.id} else s.locks)
  }

  ghost function Apply(s: State, a: Action): State
    requires Enabled(s, a)
  {
    match a
    case Begin(pid) => s.(txns := s.txns[pid := Began])
    case Lock(pid, _, id) => s.(txns := s.txns[pid := Locked(id)], locks := s.locks[id := pid])
    case LockNothing(pid, _) => Unlock(s, pid)
    case Set(pid) =>
      var id := s.txns[pid].id;
      if id !in s.rows then s else
      s.(rows := s.rows[id := SetRunning(s.rows[id], s.now)],
         txns := s.txns[pid := Updated(id, s.rows[id], s.now)])
    case Read(pid) =>
      var t := s.txns[pid];
      if t.id !in s.rows then s else
      s.(txns := s.txns[pid := ReadBack(t.id, t.before, t.at, s.rows[t.id])])
    case Commit(pid) => Unlock(s, pid)
    case Rollback(pid) =>
      var t := s.txns[pid];
      Unlock(if HasImage(t) then s.(rows := s.rows[t.id := t.before]) else s, pid)
    case Write(job) => s.(rows := s.rows[job.id := job])
    case Delete(id) => s.(rows := s.rows - {id})
    case Tick(time) => s.(now := time)
  }

  // ---------------------------------------------------------------- locking

  ghost predicate GoodTxn(s: State, pid: nat) {
    pid in s.txns
    && var t := s.txns[pid];
      && (HasRow(t) ==> t.id in s.rows && t.id in s.locks && s.locks[t.id] == pid)
      && (t.Locked? ==> Runnable(s.rows[t.id].status) && s.rows[t.id].Due(s.now))
      && (HasImage(t) ==>
            Runnable(t.before.status) && t.before.Due(t.at) && s.rows[t.id] == SetRunning(t.before, t.at))
      && (t.ReadBack? ==> t.copy == s.rows[t.id])
  }

  /** A row is locked by exactly the one transaction that works on it. */
  ghost predicate Inv(s: State) {
    && (forall id | id in s.rows :: s.rows[id].id == id)
    && (forall id | id in s.locks ::
          s.locks[id] in s.txns && HasRow(s.txns[s.locks[id]]) && s.txns[s.locks[id]].id == id)
    && (forall pid | pid in s.txns :: GoodTxn(s, pid))
  }

  predicate OfClient(a: Action) {
    !a.Write? && !a.Delete? && !a.Tick?
  }

  lemma OtherTxnKept(s: State, a: Action, pid: nat)
    requires Inv(s) && Enabled(s, a) && pid in s.txns && (OfClient(a) ==> a.pid != pid)
    ensures GoodTxn(Apply(s, a), pid)
  {
    assert GoodTxn(s, pid);
    assert OfClient(a) && !a.Begin? ==> GoodTxn(s, a.pid);
  }

  lemma OwnTxnKept(s: State, a: Action)
    requires Inv(s) && Enabled(s, a) && OfClient(a) && a.pid in Apply(s, a).txns
    ensures GoodTxn(Apply(s, a), a.pid)
  {
    assert !a.Begin? ==> GoodTxn(s, a.pid);
  }

  lemma GoodTxnKept(s: State, a: Action, pid: nat)
    requires Inv(s) && Enabled(s, a) && pid in Apply(s, a).txns
    ensures GoodTxn(Apply(s, a), pid)
  {
    if OfClient(a) && a.pid == pid {
      OwnTxnKept(s, a);
    } else {
      OtherTxnKept(s, a, pid);
    }
  }

  lemma LocksKept(s: State, a: Action, id: string)
    requires Inv(s) && Enabled(s, a) && id in Apply(s, a).locks
    ensures var s' := Apply(s, a);
            s'.locks[id] in s'.txns && HasRow(s'.txns[s'.locks[id]]) && s'.txns[s'.locks[id]].id == id
  {
    assert !a.Begin? && !a.Write? && !a.Delete? && !a.Tick? ==> GoodTxn(s, a.pid);
  }

  lemma InvKept(s: State, a: Action)
    requires Inv(s) && Enabled(s, a)
    ensures Inv(Apply(s, a))
  {
    var s' := Apply(s, a);
    forall pid | pid in s'.txns
      ensures GoodTxn(s', pid)
    {
      GoodTxnKept(s, a, pid);
    }
    forall id | id in s'.locks
      ensures s'.locks[id] in s'.txns && HasRow(s'.txns[s'.locks[id]]) && s'.txns[s'.locks[id]].id == id
    {
      LocksKept(s, a, id);
    }
    forall id | id in s'.rows
      ensures s'.rows[id].id == id
    {
      assert a.Rollback? ==> GoodTxn(s, a.pid);
    }
  }

  lemma NoSharedRow(s: State, pid: nat, pid': nat)
    requires Inv(s) && pid in s.txns && pid' in s.txns && HasRow(s.txns[pid]) && HasRow(s.txns[pid'])
    requires s.txns[pid].id == s.txns[pid'].id
    ensures pid == pid'
  {
    assert GoodTxn(s, pid) && GoodTxn(s, pid');
  }

  // ---------------------------------------------------------------- refinement

  /** The table every other transaction sees: uncommitted updates read as their before-images. */
  function CommittedRow(s: State, id: string): JobData
    requires id in s.rows
  {
    if id in s.locks && s.locks[id] in s.txns && HasImage(s.txns[s.locks[id]])
    then s.txns[s.locks[id]].before else s.rows[id]
  }

  function Committed(s: State): JobMap {
    map id | id in s.rows :: CommittedRow(s, id)
  }

  /** Another client's row, locked or not, looks the same after an inner step. */
  lemma StepSparesRow(s: State, a: Action, id: string)
    requires Inv(s) && Enabled(s, a) && !a.Commit? && !a.Write? && !a.Delete? && id in s.rows
    requires OfClient(a) && !(a.pid in s.txns && HasRow(s.txns[a.pid]) && s.txns[a.pid].id == id)
    ensures id in Apply(s, a).rows && CommittedRow(Apply(s, a), id) == CommittedRow(s, id)
  {
    assert id in s.locks ==> GoodTxn(s, s.locks[id]);
    assert !a.Begin? ==> GoodTxn(s, a.pid);
  }

  lemma InnerStepHidesRow(s: State, a: Action, id: string)
    requires Inv(s) && Enabled(s, a) && !a.Commit? && !a.Write? && !a.Delete? && id in s.rows
    ensures id in Apply(s, a).rows && CommittedRow(Apply(s, a), id) == CommittedRow(s, id)
  {
    if OfClient(a) && !(a.pid in s.txns && HasRow(s.txns[a.pid]) && s.txns[a.pid].id == id) {
      StepSparesRow(s, a, id);
    } else {
      assert id in s.locks ==> GoodTxn(s, s.locks[id]);
      assert OfClient(a) ==> GoodTxn(s, a.pid);
    }
  }

  lemma InnerStepHidden(s: State, a: Action)
    requires Inv(s) && Enabled(s, a) && !a.Commit? && !a.Write? && !a.Delete?
    ensures Committed(Apply(s, a)) == Committed(s)
  {
    assert Apply(s, a).rows.Keys == s.rows.Keys by {
      assert !a.Begin? && !a.Tick? ==> GoodTxn(s, a.pid);
    }
    forall id | id in s.rows
      ensures CommittedRow(Apply(s, a), id) == CommittedRow(s, id)
    {
      InnerStepHidesRow(s, a, id);
    }
  }

  lemma CommitPublishes(s: State, pid: nat)
    requires Inv(s) && Enabled(s, Commit(pid))
    ensures var t := s.txns[pid];
            && t.id in Committed(s) && Committed(s)[t.id] == t.before
            && Committed(Apply(s, Commit(pid))) == Committed(s)[t.id := SetRunning(t.before, t.at)]
  {
    assert GoodTxn(s, pid);
    forall id | id in s.rows && id in s.locks
      ensures GoodTxn(s, s.locks[id])
    {
    }
  }

  /** The committed view moves only when a transaction commits, and then exactly as the
      single-statement claim does; the returned row is the committed one. A roll-back and every
      inner step leave the view alone. */
  lemma TransactionRefinesClaim(s: State, a: Action)
    requires Inv(s) && Enabled(s, a)
    ensures a.Commit? ==>
              var t := s.txns[a.pid];
              && t.id in Committed(s) && Runnable(Committed(s)[t.id].status) && Committed(s)[t.id].Due(t.at)
              && Committed(Apply(s, a)) == Committed(s)[t.id := SetRunning(Committed(s)[t.id], t.at)]
              && t.copy == Committed(Apply(s, a))[t.id]
    ensures a.Write? ==> Committed(Apply(s, a)) == Committed(s)[a.job.id := a.job]
    ensures a.Delete? ==> Committed(Apply(s, a)) == Committed(s) - {a.id}
    ensures !a.Commit? && !a.Write? && !a.Delete? ==> Committed(Apply(s, a)) == Committed(s)
  {
    if a.Commit? {
      CommitPublishes(s, a.pid);
      assert GoodTxn(s, a.pid);
    } else if !a.Write? && !a.Delete? {
      InnerStepHidden(s, a);
    }
  }

  /** A commit is the Claim action of the SQL step machine on the committed table. */
  lemma CommitIsClaim(s: State, pid: nat, sql: SqlMachine.State, worker: nat)
    requires Inv(s) && Enabled(s, Commit(pid))
    requires sql.rows == Committed(s) && worker !in sql.procs
    ensures var claim := SqlMachine.Claim(worker, s.txns[pid].id, s.txns[pid].at);
            && SqlMachine.Enabled(sql, claim)
            && SqlMachine.NextRows(sql, claim) == Committed(Apply(s, Commit(pid)))
            && SqlMachine.NextProc(sql, claim) == Some(SqlMachine.Claimed(s.txns[pid].copy))
  {
    TransactionRefinesClaim(s, Commit(pid));
  }

  // ---------------------------------------------------------------- whole runs

  const INITIAL := State(map[], map[], map[], 0.0)

  /** `states` is the run that `actions` produce from the empty table. */
  ghost predicate IsRun(states: seq<State>, actions: seq<Action>) {
    && |states| == |actions| + 1 && states[0] == INITIAL
    && forall k | 0 <= k < |actions| :: Enabled(states[k], actions[k]) && states[k + 1] == Apply(states[k], actions[k])
  }

  lemma {:induction false} EveryRunIsExclusive(states: seq<State>, actions: seq<Action>, k: nat)
    requires IsRun(states, actions) && k < |states|
    ensures Inv(states[k])
  {
    if k > 0 {
      EveryRunIsExclusive(states, actions, k - 1);
      InvKept(states[k - 1], actions[k - 1]);
    }
  }

  predicate Works(s: State, pid: nat, id: string) {
    pid in s.txns && HasRow(s.txns[pid]) && s.txns[pid].id == id
  }

  lemma WorkedRowExists(s: State, pid: nat, id: string)
    requires Inv(s) && Works(s, pid, id)
    ensures id in s.rows
  {
    assert GoodTxn(s, pid);
  }

  lemma FrozenStep(s: State, a: Action, pid: nat, id: string)
    requires Inv(s) && Enabled(s, a) && Works(s, pid, id) && Works(Apply(s, a), pid, id)
    ensures id in s.rows && id in Apply(s, a).rows
    ensures CommittedRow(Apply(s, a), id) == CommittedRow(s, id)
  {
    assert GoodTxn(s, pid);
    if !a.Commit? && !a.Write? && !a.Delete? {
      InnerStepHidesRow(s, a, id);
    }
  }

  /** While a transaction works on a row, nobody else changes it: from the lock on, its committed
      value is the one the lock saw. */
  lemma {:induction false} LockedRowIsFrozen(states: seq<State>, actions: seq<Action>, n: nat, m: nat,
                                             pid: nat, id: string)
    requires IsRun(states, actions) && n <= m < |states|
    requires forall k | n <= k <= m :: Works(states[k], pid, id)
    ensures id in states[n].rows && id in states[m].rows
    ensures CommittedRow(states[m], id) == CommittedRow(states[n], id)
    decreases m
  {
    if n < m {
      LockedRowIsFrozen(states, actions, n, m - 1, pid, id);
      EveryRunIsExclusive(states, actions, m - 1);
      var s, a := states[m - 1], actions[m - 1];
      assert Works(s, pid, id) && Works(states[m], pid, id);
      assert Enabled(s, a) && states[m] == Apply(s, a);
      FrozenStep(s, a, pid, id);
    } else {
      EveryRunIsExclusive(states, actions, m);
      WorkedRowExists(states[m], pid, id);
    }
  }

  lemma RollbackStep(s: State, pid: nat, id: string)
    requires Inv(s) && Works(s, pid, id)
    ensures var s' := Apply(s, Rollback(pid));
            && id in s.rows && id in s'.rows && s'.rows[id] == CommittedRow(s, id)
            && id !in s'.locks && pid !in s'.txns
  {
    assert GoodTxn(s, pid);
  }

  lemma LockStep(s: State, pid: nat, queues: set<string>, id: string)
    requires Inv(s) && Enabled(s, Lock(pid, queues, id))
    ensures CommittedRow(Apply(s, Lock(pid, queues, id)), id) == s.rows[id]
  {
  }

  /** A transaction that commits, rolls back or finds no row is over and holds no lock, and a row it did not change
      is as it was. */
  lemma EndsWithoutLock(s: State, a: Action)
    requires Inv(s) && Enabled(s, a) && (a.Commit? || a.Rollback? || a.LockNothing?)
    ensures var s' := Apply(s, a);
            && a.pid !in s'.txns && (forall id | id in s'.locks :: s'.locks[id] != a.pid)
            && (a.LockNothing? ==> s'.rows == s.rows && s'.locks == s.locks)
  {
    assert GoodTxn(s, a.pid);
  }

  /** A roll-back leaves the row as the lock found it, and unlocked. */
  lemma RollbackRestores(states: seq<State>, actions: seq<Action>, n: nat, m: nat,
                         pid: nat, queues: set<string>, id: string)
    requires IsRun(states, actions) && n < m < |actions|
    requires actions[n] == Lock(pid, queues, id) && actions[m] == Rollback(pid)
    requires forall k | n < k <= m :: Works(states[k], pid, id)
    ensures id in states[n].rows && id in states[m + 1].rows
    ensures states[m + 1].rows[id] == states[n].rows[id]
    ensures id !in states[m + 1].locks && pid !in states[m + 1].txns
  {
    EveryRunIsExclusive(states, actions, n);
    EveryRunIsExclusive(states, actions, m);
    LockStep(states[n], pid, queues, id);
    LockedRowIsFrozen(states, actions, n + 1, m, pid, id);
    RollbackStep(states[m], pid, id);
  }

  predicate CommitsRow(s: State, a: Action, id: string) {
    a.Commit? && a.pid in s.txns && HasRow(s.txns[a.pid]) && s.txns[a.pid].id == id
  }

  predicate TouchesRow(a: Action, id: string) {
    (a.Write? && a.job.id == id) || (a.Delete? && a.id == id)
  }

  lemma ClaimedStep(s: State, a: Action, id: string)
    requires Inv(s) && Enabled(s, a) && !TouchesRow(a, id)
    requires CommitsRow(s, a, id) || (id in s.rows && CommittedRow(s, id).status == Running)
    ensures id in Apply(s, a).rows && CommittedRow(Apply(s, a), id).status == Running
  {
    TransactionRefinesClaim(s, a);
    assert id in Committed(Apply(s, a)) && Committed(Apply(s, a))[id].status == Running;
  }

  lemma RunningRowIsNotClaimed(s: State, a: Action, id: string)
    requires Inv(s) && Enabled(s, a) && id in s.rows && CommittedRow(s, id).status == Running
    ensures !CommitsRow(s, a, id)
  {
    if a.Commit? {
      CommitPublishes(s, a.pid);
      assert GoodTxn(s, a.pid);
    }
  }

  /** A claimed row is claimed again only after another statement has written it. */
  lemma {:induction false} ClaimedRowStaysClaimed(states: seq<State>, actions: seq<Action>, n: nat, m: nat, id: string)
    requires IsRun(states, actions) && n < m < |actions|
    requires CommitsRow(states[n], actions[n], id)
    requires forall k | n < k < m :: !TouchesRow(actions[k], id)
    ensures id in states[m].rows && CommittedRow(states[m], id).status == Running
    ensures !CommitsRow(states[m], actions[m], id)
    decreases m
  {
    if n < m - 1 {
      ClaimedRowStaysClaimed(states, actions, n, m - 1, id);
    }
    EveryRunIsExclusive(states, actions, m - 1);
    EveryRunIsExclusive(states, actions, m);
    ClaimedStep(states[m - 1], actions[m - 1], id);
    RunningRowIsNotClaimed(states[m], actions[m], id);
  }
}
