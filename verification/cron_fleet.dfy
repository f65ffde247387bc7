/** Several workers' cron loops on one broker (src/aioq/worker.py, src/aioq/backends/memory.py), their
    attempts in any order and with purges in between: how often does an occurrence fire? */
module CronFleet {
  import opened Jobs
  import opened Cron
  import opened CronLoop
  import opened MemoryBroker

  const NOTHING := Score(map[], [], [])

  /** What one worker fired in a history that starts without locks. */
  function FiredBy(history: seq<Step>, ttl: real, worker: nat): seq<Occurrence> {
    Play(NOTHING, history, ttl, worker).fired
  }

  function LocksAfter(history: seq<Step>, ttl: real): Locks {
    Play(NOTHING, history, ttl, 0).locks
  }

  /** The clock never goes back from one step to the next. */
  ghost predicate Timely(history: seq<Step>, clock: real) {
    && (forall k | 0 <= k < |history| :: history[k].at <= clock)
    && (forall i, k | 0 <= i < k < |history| :: history[i].at <= history[k].at)
  }

  // ---------------------------------------------------------------- adding to a history

  lemma {:induction false} SameLocks(a: Score, b: Score, steps: seq<Step>, ttl: real, i: nat, k: nat)
    requires a.locks == b.locks
    ensures Play(a, steps, ttl, i).locks == Play(b, steps, ttl, k).locks
  {
    if steps != [] {
      SameLocks(a, b, steps[..|steps| - 1], ttl, i, k);
    }
  }

  lemma {:induction false} PlayConcat(score: Score, a: seq<Step>, b: seq<Step>, ttl: real, worker: nat)
    ensures Play(score, a + b, ttl, worker) == Play(Play(score, a, ttl, worker), b, ttl, worker)
  {
    if b == [] {
      assert a + b == a;
    } else {
      var n := |b| - 1;
      PlayConcat(score, a, b[..n], ttl, worker);
      assert b == b[..n] + [b[n]] && a + b == (a + b[..n]) + [b[n]];
      PlayNext(score, a + b[..n], b[n], ttl, worker);
      PlayNext(Play(score, a, ttl, worker), b[..n], b[n], ttl, worker);
    }
  }

  /** The attempts of another worker change only the locks. */
  lemma {:induction false} OthersAttempts(score: Score, tries: seq<Step>, ttl: real, other: nat, worker: nat)
    requires other != worker && forall k | 0 <= k < |tries| :: tries[k].Attempted? && tries[k].worker == other
    ensures Play(score, tries, ttl, worker) == score.(locks := Play(score, tries, ttl, other).locks)
  {
    if tries != [] {
      OthersAttempts(score, tries[..|tries| - 1], ttl, other, worker);
    }
  }

  lemma TimelyGrows(history: seq<Step>, clock: real, more: seq<Step>, worker: nat, last: real)
    requires Timely(history, clock) && InTime(more, worker, clock, last)
    ensures Timely(history + more, last)
  {
  }

  class Fleet {
    const broker: Broker
    const ttl: real
    const workers: seq<CronWorker>
    var clock: real
    /** Every attempt and purge so far, in order; only the proof needs it. */
    ghost var history: seq<Step>

    constructor (broker: Broker, ttl: real, workers: seq<CronWorker>)
      requires broker.Valid() && broker.cronLocks == map[]
      requires forall i | 0 <= i < |workers| :: StartsIn(workers[i], i, broker, ttl)
      ensures Valid() && history == [] && this.broker == broker && this.ttl == ttl && this.workers == workers
    {
      this.broker, this.ttl, this.workers, clock, history := broker, ttl, workers, 0.0, [];
    }

    static ghost predicate StartsIn(w: CronWorker, i: nat, broker: Broker, ttl: real)
      reads w
    {
      w.id == i && w.broker == broker && w.ttl == ttl && w.Valid() && w.fired == [] && w.attempts == []
    }

    /** Each worker fired exactly what it won in the history, and attempts its schedule. */
    ghost predicate Valid()
      reads this, workers, broker
    {
      StandsAt(history, clock)
    }

    /** What the workers and the locks are after these steps. */
    ghost predicate StandsAt(steps: seq<Step>, at: real)
      reads workers, broker
    {
      && broker.Valid() && Timely(steps, at) && broker.cronLocks == LocksAfter(steps, ttl) && AllStand(steps)
    }

    /** One due attempt of one worker, between any attempts of the others. */
    method Attempt(i: nat, name: string) returns (ghost s: Step)
      requires Valid() && i < |workers|
      requires name in workers[i].schedule && workers[i].schedule[name] as real <= clock
      modifies `clock, `history, workers[i], broker`cronLocks
      ensures Valid() && history == old(history) + [s] && clock == s.at
      ensures s.Attempted? && s.worker == i && s.occurrence == Occurrence(name, old(workers[i].schedule)[name])
    {
      assert Belongs(workers[i], i);
      ghost var from := workers[i].Standing();
      var step := workers[i].TakeOccurrence(name, clock);
      s := step;
      OneIsAll(from, s, ttl, i);
      TriesStanding(i, from, [s], step.at);
      Record([s], step.at);
    }

    /** One whole pass of one worker. */
    method Tick(i: nat) returns (ghost tries: seq<Step>)
      requires Valid() && i < |workers|
      modifies `clock, `history, workers[i], broker`cronLocks
      ensures Valid() && history == old(history) + tries && InTime(tries, i, old(clock), clock)
      ensures PassedBut({}, old(workers[i].schedule), old(clock), old(workers[i].attempts), workers[i].attempts)
    {
      assert Belongs(workers[i], i);
      ghost var from := workers[i].Standing();
      var last;
      tries, last := workers[i].Tick(clock);
      TriesStanding(i, from, tries, last);
      Record(tries, last);
    }

    /** Notes the steps that have just been made. */
    method Record(ghost steps: seq<Step>, last: real)
      requires StandsAt(history + steps, last)
      modifies `clock, `history
      ensures Valid() && history == old(history) + steps && clock == last
    {
      history, clock := history + steps, last;
    }

    /** The attempts that one worker has just made, recorded. */
    lemma TriesStanding(i: nat, from: Score, tries: seq<Step>, last: real)
      requires i < |workers| && InTime(tries, i, clock, last) && Timely(history, clock) && broker.Valid()
      requires from == Play(NOTHING, history, ttl, i)
      requires Belongs(workers[i], i) && workers[i].Standing() == Play(from, tries, ttl, i)
      requires forall k: nat | k < |workers| && k != i :: Belongs(workers[k], k) && Trails(workers[k], k, history)
      ensures StandsAt(history + tries, last)
    {
      TimelyGrows(history, clock, tries, i, last);
      forall k: nat | k < |workers|
        ensures Belongs(workers[k], k) && workers[k].Standing() == Play(NOTHING, history + tries, ttl, k)
      {
        PassRecorded(NOTHING, history, tries, ttl, i, k);
        assert k != i ==> Trails(workers[k], k, history);
      }
      PassRecorded(NOTHING, history, tries, ttl, i, 0);
    }

    ghost predicate Belongs(w: CronWorker, i: nat)
      reads w
    {
      w.id == i && w.broker == broker && w.ttl == ttl && w.Valid()
    }

    /** What the worker fired and attempted is what the history says, whatever the locks are. */
    ghost predicate Trails(w: CronWorker, i: nat, steps: seq<Step>)
      reads w
    {
      var score := Play(NOTHING, steps, ttl, i); w.fired == score.fired && w.attempts == score.log
    }

    ghost predicate AllTrail(steps: seq<Step>)
      reads workers
    {
      forall k: nat | k < |workers| :: Belongs(workers[k], k) && Trails(workers[k], k, steps)
    }

    /** A purge of the broker. */
    method Sweep(wanted: set<Status>, cutoff: real, at: real)
      requires Valid() && clock <= at
      modifies `clock, `history, broker`jobs, broker`ready, broker`cronLocks
      ensures Valid() && history == old(history) + [Swept(at)]
    {
      var _ := broker.Purge(wanted, cutoff, at);
      SweepStanding(at);
      Record([Swept(at)], at);
    }

    /** Every worker is where the history with these steps puts it. */
    ghost predicate AllStand(steps: seq<Step>)
      reads workers, broker
    {
      forall k: nat | k < |workers| :: Belongs(workers[k], k) && workers[k].Standing() == Play(NOTHING, steps, ttl, k)
    }

    lemma SweepStanding(at: real)
      requires clock <= at && Timely(history, clock) && broker.Valid()
      requires broker.cronLocks == DropExpired(LocksAfter(history, ttl), at)
      requires AllTrail(history)
      ensures StandsAt(history + [Swept(at)], at)
    {
      SweepIsTimely(history, clock, at);
      SweepRecorded(history, at, ttl, 0, broker.cronLocks);
      forall k: nat | k < |workers|
        ensures Belongs(workers[k], k) && workers[k].Standing() == Play(NOTHING, history + [Swept(at)], ttl, k)
      {
        assert Belongs(workers[k], k) && Trails(workers[k], k, history);
        SweepRecorded(history, at, ttl, k, broker.cronLocks);
      }
    }
  }

  lemma SweepIsTimely(history: seq<Step>, clock: real, at: real)
    requires Timely(history, clock) && clock <= at
    ensures Timely(history + [Swept(at)], at)
  {
  }

  lemma SweepRecorded(before: seq<Step>, at: real, ttl: real, k: nat, locks: Locks)
    requires locks == DropExpired(LocksAfter(before, ttl), at)
    ensures Play(NOTHING, before + [Swept(at)], ttl, k) == Play(NOTHING, before, ttl, k).(locks := locks)
  {
    PlayNext(NOTHING, before, Swept(at), ttl, k);
    SameLocks(NOTHING, NOTHING, before, ttl, k, 0);
  }

  lemma OneIsAll(from: Score, s: Step, ttl: real, worker: nat)
    ensures Play(from, [s], ttl, worker) == PlayOne(from, s, ttl, worker)
  {
    PlayNext(from, [], s, ttl, worker);
    assert [] + [s] == [s];
  }

  lemma PassRecorded(start: Score, before: seq<Step>, tries: seq<Step>, ttl: real, i: nat, k: nat)
    requires forall m | 0 <= m < |tries| :: tries[m].Attempted? && tries[m].worker == i
    ensures var from, to := Play(start, before, ttl, k), Play(Play(start, before, ttl, i), tries, ttl, i);
            Play(start, before + tries, ttl, k) == if k == i then to else from.(locks := to.locks)
  {
    PlayConcat(start, before, tries, ttl, k);
    SameLocks(start, start, before, ttl, i, k);
    if k != i {
      OthersAttempts(Play(start, before, ttl, k), tries, ttl, i, k);
      SameLocks(Play(start, before, ttl, k), Play(start, before, ttl, i), tries, ttl, i, i);
    }
  }

  // ---------------------------------------------------------------- how often an occurrence fires

  predicate Tries(history: seq<Step>, k: nat, o: Occurrence) {
    k < |history| && history[k].Attempted? && history[k].occurrence == o
  }

  predicate WinsAt(history: seq<Step>, k: nat, o: Occurrence, ttl: real) {
    Tries(history, k, o) && Succeeds(LocksAfter(history[..k], ttl), history[k], ttl)
  }

  function States(history: seq<Step>, ttl: real): (r: seq<Locks>)
    ensures |r| == |history| + 1 && forall n | 0 <= n < |r| :: r[n] == LocksAfter(history[..n], ttl)
  {
    seq(|history| + 1, n requires 0 <= n <= |history| => LocksAfter(history[..n], ttl))
  }

  function Events(history: seq<Step>): (r: seq<Event>)
    ensures |r| == |history| && forall n | 0 <= n < |r| :: r[n] == EventOf(history[n])
  {
    seq(|history|, n requires 0 <= n < |history| => EventOf(history[n]))
  }

  function KeyOf(o: Occurrence): string {
    LockKey(o.name, o.second)
  }

  /** The fleet's history is a run of the lock dictionary. */
  lemma HistoryIsRun(history: seq<Step>, ttl: real, clock: real)
    requires Timely(history, clock)
    ensures IsRun(States(history, ttl), Events(history), ttl)
  {
    var states, events := States(history, ttl), Events(history);
    forall n | 0 <= n < |events|
      ensures states[n + 1] == Next(states[n], events[n], ttl)
    {
      assert history[..n + 1] == history[..n] + [history[n]];
      PlayNext(NOTHING, history[..n], history[n], ttl, 0);
    }
    assert forall n | 0 <= n < |events| :: events[n].now == history[n].at;
  }

  lemma SameAttempts(history: seq<Step>, ttl: real, k: nat, o: Occurrence)
    ensures Attempts(Events(history), k, KeyOf(o)) <==> Tries(history, k, o)
    ensures Wins(States(history, ttl), Events(history), k, KeyOf(o), ttl) <==> WinsAt(history, k, o, ttl)
  {
    if k < |history| && history[k].Attempted? && KeyOf(history[k].occurrence) == KeyOf(o) {
      LockKeyInjective(history[k].occurrence.name, history[k].occurrence.second, o.name, o.second);
    }
  }

  /** How often one worker fired the occurrence. */
  function Firings(history: seq<Step>, ttl: real, worker: nat, o: Occurrence): nat {
    multiset(FiredBy(history, ttl, worker))[o]
  }

  lemma FiringsNext(history: seq<Step>, n: nat, ttl: real, worker: nat, o: Occurrence)
    requires n < |history|
    ensures Firings(history[..n + 1], ttl, worker, o)
         == Firings(history[..n], ttl, worker, o)
            + (if WinsAt(history, n, o, ttl) && history[n].worker == worker then 1 else 0)
  {
    assert history[..n + 1] == history[..n] + [history[n]];
    PlayNext(NOTHING, history[..n], history[n], ttl, worker);
    SameLocks(NOTHING, NOTHING, history[..n], ttl, worker, 0);
  }

  /** Whether step k is one of the first n and of this worker, as a number. */
  function Share(history: seq<Step>, n: nat, k: nat, worker: nat): nat {
    if k < n && k < |history| && history[k].Attempted? && history[k].worker == worker then 1 else 0
  }

  lemma {:induction false} OneWinCounts(history: seq<Step>, n: nat, ttl: real, first: nat, worker: nat, o: Occurrence)
    requires n <= |history| && WinsAt(history, first, o, ttl)
    requires forall k: nat | WinsAt(history, k, o, ttl) :: k == first
    ensures Firings(history[..n], ttl, worker, o) == Share(history, n, first, worker)
  {
    if n > 0 {
      OneWinCounts(history, n - 1, ttl, first, worker, o);
      FiringsNext(history, n - 1, ttl, worker, o);
    }
  }

  lemma WinsShare(history: seq<Step>, n: nat, ttl: real, a: nat, worker: nat, o: Occurrence)
    requires n < |history| && WinsAt(history, a, o, ttl)
    ensures Share(history, n + 1, a, worker)
         == Share(history, n, a, worker) + (if a == n && history[n].worker == worker then 1 else 0)
  {
  }

  lemma {:induction false} TwoWinsCount(history: seq<Step>, n: nat, ttl: real, a: nat, b: nat, worker: nat,
                                        o: Occurrence)
    requires n <= |history| && a != b && WinsAt(history, a, o, ttl) && WinsAt(history, b, o, ttl)
    ensures Firings(history[..n], ttl, worker, o) >= Share(history, n, a, worker) + Share(history, n, b, worker)
  {
    if n > 0 {
      TwoWinsCount(history, n - 1, ttl, a, b, worker, o);
      FiringsNext(history, n - 1, ttl, worker, o);
      WinsShare(history, n - 1, ttl, a, worker, o);
      WinsShare(history, n - 1, ttl, b, worker, o);
    }
  }

  /** In any history of the fleet an occurrence is fired by exactly one worker and exactly once, namely by the
      first one to attempt it, if and only if every attempt comes less than the ttl after the first. */
  lemma FleetFiresOnceExactly(history: seq<Step>, ttl: real, clock: real, first: nat, o: Occurrence)
    requires Timely(history, clock) && ttl > 0.0
    requires Tries(history, first, o) && forall k: nat | k < first :: !Tries(history, k, o)
    ensures (forall w: nat :: Firings(history, ttl, w, o) == if w == history[first].worker then 1 else 0)
            <==> (forall k: nat | Tries(history, k, o) :: history[k].at < history[first].at + ttl)
  {
    var states, events := States(history, ttl), Events(history);
    HistoryIsRun(history, ttl, clock);
    forall k: nat
      ensures Attempts(events, k, KeyOf(o)) <==> Tries(history, k, o)
      ensures Wins(states, events, k, KeyOf(o), ttl) <==> WinsAt(history, k, o, ttl)
      ensures k < |history| ==> events[k].now == history[k].at
    {
      SameAttempts(history, ttl, k, o);
    }
    FiresExactlyOnce(states, events, ttl, first, KeyOf(o));
    assert WinsAt(history, first, o, ttl);
    UniqueWinIsOneFiring(history, ttl, first, o);
    assert (forall k: nat | WinsAt(history, k, o, ttl) :: k == first)
           <==> (forall k: nat | Tries(history, k, o) :: history[k].at < history[first].at + ttl);
  }

  /** An attempt at or past the ttl of the first fires the occurrence again. */
  lemma LateAttemptFiresAgain(o: Occurrence, ttl: real, at: real, late: real)
    requires ttl > 0.0 && late >= at + ttl
    ensures var history := [Attempted(0, o, at), Attempted(1, o, late)];
            Timely(history, late) && FiredBy(history, ttl, 0) == [o] && FiredBy(history, ttl, 1) == [o]
  {
    var first, second := Attempted(0, o, at), Attempted(1, o, late);
    assert [first, second] == [first] + [second];
    forall w: nat
      ensures Play(NOTHING, [first, second], ttl, w) == PlayOne(PlayOne(NOTHING, first, ttl, w), second, ttl, w)
    {
      OneIsAll(NOTHING, first, ttl, w);
      PlayNext(NOTHING, [first], second, ttl, w);
    }
  }

  lemma UniqueWinIsOneFiring(history: seq<Step>, ttl: real, first: nat, o: Occurrence)
    requires WinsAt(history, first, o, ttl)
    ensures (forall w: nat :: Firings(history, ttl, w, o) == if w == history[first].worker then 1 else 0)
            <==> (forall k: nat | WinsAt(history, k, o, ttl) :: k == first)
  {
    assert history[..|history|] == history;
    if forall k: nat | WinsAt(history, k, o, ttl) :: k == first {
      forall w: nat
        ensures Firings(history, ttl, w, o) == if w == history[first].worker then 1 else 0
      {
        OneWinCounts(history, |history|, ttl, first, w, o);
      }
    } else {
      var k: nat :| WinsAt(history, k, o, ttl) && k != first;
      TwoWinsCount(history, |history|, ttl, first, k, history[k].worker, o);
      assert Firings(history, ttl, history[k].worker, o)
          != if history[k].worker == history[first].worker then 1 else 0;
    }
  }
}
