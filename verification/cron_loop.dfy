/** The workers' cron loops (src/aioq/worker.py): their schedule dictionaries, and the locks of the broker
    that they compete for. */
module CronLoop {
  import opened Cron
  import opened MemoryBroker

  datatype Occurrence = Occurrence(name: string, second: int)

  /** What happens to the locks, in order: an attempt of one worker, or a purge. */
  datatype Step = Attempted(worker: nat, occurrence: Occurrence, at: real) | Swept(at: real)

  function EventOf(s: Step): Event {
    match s
    case Attempted(_, o, at) => Event.Attempt(LockKey(o.name, o.second), at)
    case Swept(at) => Event.Purge(at)
  }

  /** The attempt gets the lock. */
  predicate Succeeds(locks: Locks, s: Step, ttl: real) {
    s.Attempted? && Acquire(locks, LockKey(s.occurrence.name, s.occurrence.second), s.at, ttl).1
  }

  /** The locks, and what one worker fired and attempted. */
  datatype Score = Score(locks: Locks, fired: seq<Occurrence>, log: seq<Occurrence>)

  /** The score of a worker after one more step of any worker. */
  function PlayOne(score: Score, s: Step, ttl: real, worker: nat): Score {
    var own := s.Attempted? && s.worker == worker;
    Score(Next(score.locks, EventOf(s), ttl),
          if own && Succeeds(score.locks, s, ttl) then score.fired + [s.occurrence] else score.fired,
          if own then score.log + [s.occurrence] else score.log)
  }

  function Play(score: Score, steps: seq<Step>, ttl: real, worker: nat): Score {
    if steps == [] then score
    else PlayOne(Play(score, steps[..|steps| - 1], ttl, worker), steps[|steps| - 1], ttl, worker)
  }

  lemma PlayNext(score: Score, steps: seq<Step>, s: Step, ttl: real, worker: nat)
    ensures Play(score, steps + [s], ttl, worker) == PlayOne(Play(score, steps, ttl, worker), s, ttl, worker)
  {
    assert (steps + [s])[..|steps|] == steps;
  }

  /** Attempts of one worker in the order of time, between two readings of the clock. */
  ghost predicate InTime(tries: seq<Step>, worker: nat, since: real, last: real) {
    && since <= last
    && (forall k | 0 <= k < |tries| :: tries[k].Attempted? && tries[k].worker == worker && since <= tries[k].at <= last)
    && (forall i, k | 0 <= i < k < |tries| :: tries[i].at <= tries[k].at)
  }

  lemma InTimeNext(tries: seq<Step>, worker: nat, since: real, last: real, s: Step)
    requires InTime(tries, worker, since, last) && s.Attempted? && s.worker == worker && last <= s.at
    ensures InTime(tries + [s], worker, since, s.at)
  {
  }

  // ---------------------------------------------------------------- the schedule of one worker

  /** The occurrences of one cron among those attempted, in order. */
  function AttemptsOf(log: seq<Occurrence>, name: string): seq<int> {
    if log == [] then []
    else
      var n := |log| - 1;
      AttemptsOf(log[..n], name) + (if log[n].name == name then [log[n].second] else [])
  }

  lemma AttemptsOfNext(log: seq<Occurrence>, o: Occurrence, name: string)
    ensures AttemptsOf(log + [o], name) == AttemptsOf(log, name) + (if o.name == name then [o.second] else [])
  {
    assert (log + [o])[..|log|] == log;
  }

  /** The attempts of one cron are the occurrences a worker visits, and `entry` is the next one. */
  ghost predicate OnSchedule(seconds: seq<int>, entry: int, points: nat -> int, start: int)
    requires IsSchedule(points)
  {
    && (forall k: nat | k < |seconds| :: seconds[k] == Visited(points, start, k))
    && entry == Visited(points, start, |seconds|)
  }

  lemma OnScheduleNext(seconds: seq<int>, entry: int, points: nat -> int, start: int)
    requires IsSchedule(points) && OnSchedule(seconds, entry, points, start)
    ensures OnSchedule(seconds + [entry], NextRun(points, entry), points, start)
  {
  }

  /** What the loop attempted of one cron are the schedule points after its start, in order and without
      gaps, and its dictionary holds the next one. */
  lemma AttemptIsSchedulePoint(seconds: seq<int>, entry: int, points: nat -> int, start: int, k: nat)
    requires IsSchedule(points) && OnSchedule(seconds, entry, points, start) && k <= |seconds|
    ensures (seconds + [entry])[k] == points(NextIndex(points, start, 0) + k)
  {
    VisitsEveryPoint(points, start, k);
  }

  /** A pass over the dictionary that still has `todo` to look at. */
  ghost predicate PassedBut(todo: set<string>, before: map<string, int>, now: real, log: seq<Occurrence>,
                            log': seq<Occurrence>) {
    forall name | name in before ::
      AttemptsOf(log', name) == AttemptsOf(log, name)
        + (if name !in todo && before[name] as real <= now then [before[name]] else [])
  }

  lemma PassNext(todo: set<string>, before: map<string, int>, now: real, log: seq<Occurrence>, log': seq<Occurrence>,
                 name: string)
    requires PassedBut(todo, before, now, log, log') && name in todo && name in before
    ensures PassedBut(todo - {name}, before, now, log,
                      if before[name] as real <= now then log' + [Occurrence(name, before[name])] else log')
  {
    var more := if before[name] as real <= now then log' + [Occurrence(name, before[name])] else log';
    forall o | o in before
      ensures AttemptsOf(more, o) == AttemptsOf(log, o)
                + (if o !in todo - {name} && before[o] as real <= now then [before[o]] else [])
    {
      assert AttemptsOf(log', o)
          == AttemptsOf(log, o) + (if o !in todo && before[o] as real <= now then [before[o]] else []);
      AttemptsOfNext(log', Occurrence(name, before[name]), o);
    }
  }

  /** The middle of a pass: `todo` is left, and the attempts so far took the worker from one standing to
      the other. */
  ghost predicate Passing(todo: set<string>, before: map<string, int>, schedule: map<string, int>, now: real,
                          tries: seq<Step>, last: real, ttl: real, worker: nat, from: Score, to: Score)
  {
    && todo <= schedule.Keys == before.Keys && (forall name | name in todo :: schedule[name] == before[name])
    && PassedBut(todo, before, now, from.log, to.log)
    && InTime(tries, worker, now, last) && to == Play(from, tries, ttl, worker)
  }

  lemma PassingSkips(todo: set<string>, before: map<string, int>, schedule: map<string, int>, now: real,
                     tries: seq<Step>, last: real, ttl: real, worker: nat, from: Score, to: Score, name: string)
    requires Passing(todo, before, schedule, now, tries, last, ttl, worker, from, to)
    requires name in todo && schedule[name] as real > now
    ensures Passing(todo - {name}, before, schedule, now, tries, last, ttl, worker, from, to)
  {
    PassNext(todo, before, now, from.log, to.log, name);
  }

  lemma PassingTakes(todo: set<string>, before: map<string, int>, schedule: map<string, int>, now: real,
                     tries: seq<Step>, last: real, ttl: real, worker: nat, from: Score, to: Score, name: string,
                     s: Step, entry: int)
    requires Passing(todo, before, schedule, now, tries, last, ttl, worker, from, to)
    requires name in todo && schedule[name] as real <= now
    requires s.Attempted? && s.worker == worker && s.occurrence == Occurrence(name, schedule[name]) && last <= s.at
    ensures Passing(todo - {name}, before, schedule[name := entry], now, tries + [s], s.at, ttl, worker,
                    from, PlayOne(to, s, ttl, worker))
  {
    PassNext(todo, before, now, from.log, to.log, name);
    InTimeNext(tries, worker, now, last, s);
    PlayNext(from, tries, s, ttl, worker);
  }

  class CronWorker {
    const id: nat
    const broker: Broker
    const ttl: real
    /** croniter: the first occurrence of a cron after a time. */
    const next: (string, int) -> int
    ghost const points: string -> nat -> int
    ghost const start: int
    var schedule: map<string, int>
    var fired: seq<Occurrence>
    ghost var attempts: seq<Occurrence>

    constructor (id: nat, broker: Broker, ttl: real, names: set<string>, next: (string, int) -> int, start: int,
                 ghost points: string -> nat -> int)
      requires forall name | name in names :: IsSchedule(points(name))
      requires forall name, t | name in names :: next(name, t) == NextRun(points(name), t)
      ensures Valid() && schedule.Keys == names && attempts == [] && fired == []
      ensures this.id == id && this.broker == broker && this.ttl == ttl && this.start == start
    {
      this.id, this.broker, this.ttl, this.next, this.points, this.start := id, broker, ttl, next, points, start;
      schedule := map name | name in names :: next(name, start);
      fired, attempts := [], [];
    }

    ghost predicate Valid()
      reads this
    {
      AllAttended(schedule, attempts)
    }

    ghost predicate AllAttended(schedule: map<string, int>, attempts: seq<Occurrence>) {
      forall name | name in schedule :: Attended(schedule, attempts, name)
    }

    /** The entry and the attempts of one cron follow its schedule. */
    ghost predicate Attended(schedule: map<string, int>, attempts: seq<Occurrence>, name: string)
      requires name in schedule
    {
      && IsSchedule(points(name)) && (forall t :: next(name, t) == NextRun(points(name), t))
      && OnSchedule(AttemptsOf(attempts, name), schedule[name], points(name), start)
    }

    ghost function Standing(): Score
      reads `fired, `attempts, broker`cronLocks
    {
      Score(broker.cronLocks, fired, attempts)
    }

    /** The clock never goes back. */
    method ReadClock(last: real) returns (now: real)
      ensures last <= now
    {
      now := *;
      if now < last {
        now := last;
      }
    }

    /** Competes for one occurrence at a time that is not before `last`. */
    method MaybeFire(o: Occurrence, last: real) returns (s: Step)
      modifies `fired, `attempts, broker`cronLocks
      ensures s.Attempted? && s.worker == id && s.occurrence == o && last <= s.at
      ensures Standing() == PlayOne(old(Standing()), s, ttl, id)
    {
      var at := ReadClock(last);
      s := Attempted(id, o, at);
      var won := broker.AcquireCronLock(LockKey(o.name, o.second), at, ttl);
      attempts := attempts + [o];
      if won {
        fired := fired + [o];
      }
    }

    /** One pass over the dictionary: every occurrence that has come is attempted once, and its entry
        moves to the next one. The attempts compete for the locks, and exactly those that win are fired. */
    method Tick(now: real) returns (ghost tries: seq<Step>, last: real)
      requires Valid()
      modifies this, broker`cronLocks
      ensures Valid() && schedule.Keys == old(schedule).Keys
      ensures PassedBut({}, old(schedule), now, old(attempts), attempts)
      ensures InTime(tries, id, now, last) && Standing() == Play(old(Standing()), tries, ttl, id)
    {
      var todo := schedule.Keys;
      ghost var before, from := schedule, Standing();
      last, tries := now, [];
      while todo != {}
        invariant Valid() && Passing(todo, before, schedule, now, tries, last, ttl, id, from, Standing())
        decreases todo
      {
        var name :| name in todo;
        ghost var until, entries, to := last, schedule, Standing();
        if schedule[name] as real <= now {
          var s := TakeOccurrence(name, last);
          PassingTakes(todo, before, entries, now, tries, until, ttl, id, from, to, name, s, schedule[name]);
          tries, last := tries + [s], s.at;
        } else {
          PassingSkips(todo, before, entries, now, tries, until, ttl, id, from, to, name);
        }
        todo := todo - {name};
      }
    }

    /** The body of the pass for an occurrence that has come. */
    method TakeOccurrence(name: string, last: real) returns (s: Step)
      requires Valid() && name in schedule
      modifies this, broker`cronLocks
      ensures Valid() && schedule == old(schedule)[name := next(name, old(schedule)[name])]
      ensures s.Attempted? && s.worker == id && s.occurrence == Occurrence(name, old(schedule)[name]) && last <= s.at
      ensures Standing() == PlayOne(old(Standing()), s, ttl, id)
    {
      var occurrence := schedule[name];
      AllAttendedNext(schedule, attempts, name);
      schedule := schedule[name := next(name, occurrence)];
      s := MaybeFire(Occurrence(name, occurrence), last);
    }

    lemma AllAttendedNext(schedule: map<string, int>, attempts: seq<Occurrence>, name: string)
      requires AllAttended(schedule, attempts) && name in schedule
      ensures AllAttended(schedule[name := next(name, schedule[name])], attempts + [Occurrence(name, schedule[name])])
    {
      var schedule' := schedule[name := next(name, schedule[name])];
      var attempts' := attempts + [Occurrence(name, schedule[name])];
      forall o | o in schedule'
        ensures Attended(schedule', attempts', o)
      {
        AttendedNext(schedule, attempts, name, o);
      }
    }

    lemma AttendedNext(schedule: map<string, int>, attempts: seq<Occurrence>, name: string, o: string)
      requires name in schedule && o in schedule
      requires Attended(schedule, attempts, name) && Attended(schedule, attempts, o)
      ensures Attended(schedule[name := next(name, schedule[name])], attempts + [Occurrence(name, schedule[name])], o)
    {
      OnScheduleNext(AttemptsOf(attempts, name), schedule[name], points(name), start);
      AttemptsOfNext(attempts, Occurrence(name, schedule[name]), o);
    }
  }
}
