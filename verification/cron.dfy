/** Cron coordination: occurrence lock keys and schedule points (src/aioq/cron.py, src/aioq/worker.py)
    and the fire locks of the in-process broker (src/aioq/backends/memory.py). */
module Cron {

  // ---------------------------------------------------------------- lock keys

  function Digits(n: nat): (s: string)
    ensures if n < 10 then |s| == 1 else |s| >= 2
  {
    var last := ['0', '1', '2', '3', '4', '5', '6', '7', '8', '9'][n % 10];
    if n < 10 then [last] else Digits(n / 10) + [last]
  }

  function IntToString(n: int): string {
    if n < 0 then "-" + Digits(-n) else Digits(n)
  }

  /** f"{name}@{int(occurrence)}" for an occurrence in the given whole second. */
  function LockKey(name: string, second: int): string {
    name + "@" + IntToString(second)
  }

  lemma {:induction false} DigitsAreDigits(n: nat)
    ensures forall c | c in Digits(n) :: '0' <= c <= '9'
  {
    if n >= 10 {
      DigitsAreDigits(n / 10);
    }
  }

  lemma {:induction false} DigitsInjective(m: nat, n: nat)
    requires Digits(m) == Digits(n)
    ensures m == n
  {
    var a, b := Digits(m), Digits(n);
    assert a[|a| - 1] == b[|b| - 1];
    assert m % 10 == n % 10;
    if m >= 10 && n >= 10 {
      assert Digits(m / 10) == a[..|a| - 1] && Digits(n / 10) == b[..|b| - 1];
      DigitsInjective(m / 10, n / 10);
    }
  }

  lemma IntToStringHasNoAt(n: int)
    ensures '@' !in IntToString(n)
  {
    DigitsAreDigits(if n < 0 then -n else n);
  }

  lemma SignShows(n: int)
    ensures |IntToString(n)| > 0 && (IntToString(n)[0] == '-' <==> n < 0)
  {
    if n >= 0 {
      DigitsAreDigits(n);
      assert IntToString(n)[0] in Digits(n);
    }
  }

  lemma IntToStringInjective(m: int, n: int)
    requires IntToString(m) == IntToString(n)
    ensures m == n
  {
    SignShows(m);
    SignShows(n);
    if m < 0 {
      assert Digits(-m) == IntToString(m)[1..] && Digits(-n) == IntToString(n)[1..];
      DigitsInjective(-m, -n);
    } else {
      DigitsInjective(m, n);
    }
  }

  /** The last '@' of a key ends the name. */
  lemma LastAt(a: string, x: string)
    requires '@' !in x
    ensures var s := a + "@" + x;
            s[|a|] == '@' && forall i | |a| < i < |s| :: s[i] != '@'
  {
    var s := a + "@" + x;
    assert forall i | |a| < i < |s| :: s[i] == x[i - |a| - 1];
  }

  lemma LastAtSplits(a: string, x: string, b: string, y: string)
    requires a + "@" + x == b + "@" + y && '@' !in x && '@' !in y
    ensures a == b && x == y
  {
    var s := a + "@" + x;
    LastAt(a, x);
    LastAt(b, y);
    assert |a| == |b|;
    assert a == s[..|a|] && b == s[..|b|] && x == s[|a| + 1..] && y == s[|b| + 1..];
  }

  /** Different crons, and different seconds of one cron, never share a key, whatever the names. */
  lemma LockKeyInjective(name: string, second: int, name': string, second': int)
    requires LockKey(name, second) == LockKey(name', second')
    ensures name == name' && second == second'
  {
    IntToStringHasNoAt(second);
    IntToStringHasNoAt(second');
    LastAtSplits(name, IntToString(second), name', IntToString(second'));
    IntToStringInjective(second, second');
  }

  // ---------------------------------------------------------------- schedule points

  /** The schedule points of a cron expression, in order. */
  ghost predicate IsSchedule(points: nat -> int) {
    forall i: nat, j: nat | i < j :: points(i) < points(j)
  }

  /** Index of the first schedule point after `t`, searching from index k. */
  ghost function NextIndex(points: nat -> int, t: int, k: nat): (n: nat)
    requires IsSchedule(points)
    requires forall i | 0 <= i < k :: points(i) <= t
    ensures points(n) > t && forall i | 0 <= i < n :: points(i) <= t
    decreases t - points(k)
  {
    if points(k) > t then k
    else
      assert points(k) < points(k + 1);
      NextIndex(points, t, k + 1)
  }

  /** CronDef.next_run: the first occurrence after `t`. */
  ghost function NextRun(points: nat -> int, t: int): int
    requires IsSchedule(points)
  {
    points(NextIndex(points, t, 0))
  }

  /** The n-th occurrence a worker attempts that computed its first one at time `start`. */
  ghost function Visited(points: nat -> int, start: int, n: nat): int
    requires IsSchedule(points)
  {
    if n == 0 then NextRun(points, start) else NextRun(points, Visited(points, start, n - 1))
  }

  lemma NextAfterPoint(points: nat -> int, k: nat)
    requires IsSchedule(points)
    ensures NextRun(points, points(k)) == points(k + 1)
  {
    assert points(k) < points(k + 1);
    assert NextIndex(points, points(k), 0) == k + 1;
  }

  /** A worker visits every schedule point after its start, in order and without gaps. */
  lemma {:induction false} VisitsEveryPoint(points: nat -> int, start: int, n: nat)
    requires IsSchedule(points)
    ensures Visited(points, start, n) == points(NextIndex(points, start, 0) + n)
  {
    if n > 0 {
      VisitsEveryPoint(points, start, n - 1);
      NextAfterPoint(points, NextIndex(points, start, 0) + n - 1);
    }
  }

  // ---------------------------------------------------------------- fire locks

  type Locks = map<string, real>

  /** acquire_cron_lock: an unexpired lock refuses, anything else is overwritten. */
  function Acquire(locks: Locks, key: string, now: real, ttl: real): (Locks, bool) {
    if key in locks && locks[key] > now then (locks, false)
    else (locks[key := now + ttl], true)
  }

  /** The part of purge that drops expired locks. */
  function DropExpired(locks: Locks, now: real): Locks {
    map k | k in locks && locks[k] > now :: locks[k]
  }

  /** A purge keeps exactly the locks that still refuse an attempt, as they are. */
  lemma DropsExactlyTheFree(locks: Locks, key: string, now: real, ttl: real)
    ensures key in DropExpired(locks, now) <==> !Acquire(locks, key, now, ttl).1
    ensures key in DropExpired(locks, now) ==> DropExpired(locks, now)[key] == locks[key]
  {
  }

  datatype Event = Attempt(key: string, now: real) | Purge(now: real)

  function Next(locks: Locks, e: Event, ttl: real): Locks {
    match e
    case Attempt(key, now) => Acquire(locks, key, now, ttl).0
    case Purge(now) => DropExpired(locks, now)
  }

  /** The fleet's attempts and purges on one broker, with a clock that never goes back. */
  ghost predicate IsRun(states: seq<Locks>, events: seq<Event>, ttl: real) {
    && |states| == |events| + 1
    && (forall i | 0 <= i < |events| :: states[i + 1] == Next(states[i], events[i], ttl))
    && (forall i, j | 0 <= i < j < |events| :: events[i].now <= events[j].now)
  }

  predicate Wins(states: seq<Locks>, events: seq<Event>, i: nat, key: string, ttl: real)
    requires |states| == |events| + 1
  {
    i < |events| && events[i].Attempt? && events[i].key == key
    && Acquire(states[i], key, events[i].now, ttl).1
  }

  /** After a win at time t the key stays locked until t + ttl, purges or not. */
  lemma {:induction false} LockedUntil(states: seq<Locks>, events: seq<Event>, ttl: real, i: nat, j: nat, key: string)
    requires IsRun(states, events, ttl) && ttl >= 0.0 && Wins(states, events, i, key, ttl)
    requires i < j < |events|
    ensures (key in states[j] && states[j][key] >= events[i].now + ttl) || events[j].now >= events[i].now + ttl
    decreases j
  {
    assert states[j] == Next(states[j - 1], events[j - 1], ttl);
    if i < j - 1 {
      LockedUntil(states, events, ttl, i, j - 1, key);
    }
  }

  /** Two wins of one key are at least the ttl apart. */
  lemma WinsAreApart(states: seq<Locks>, events: seq<Event>, ttl: real, i: nat, j: nat, key: string)
    requires IsRun(states, events, ttl) && ttl >= 0.0 && i < j
    requires Wins(states, events, i, key, ttl) && Wins(states, events, j, key, ttl)
    ensures events[j].now >= events[i].now + ttl
  {
    LockedUntil(states, events, ttl, i, j, key);
  }

  lemma {:induction false} UntouchedKey(states: seq<Locks>, events: seq<Event>, ttl: real, n: nat, key: string)
    requires IsRun(states, events, ttl) && key !in states[0] && n < |states|
    requires forall i | 0 <= i < n :: events[i].Attempt? ==> events[i].key != key
    ensures key !in states[n]
  {
    if n > 0 {
      UntouchedKey(states, events, ttl, n - 1, key);
      assert states[n] == Next(states[n - 1], events[n - 1], ttl);
    }
  }

  /** Without another win the lock is gone or expires exactly at t + ttl. */
  lemma {:induction false} OnlyWinExpires(states: seq<Locks>, events: seq<Event>, ttl: real, i: nat, j: nat,
                                          key: string)
    requires IsRun(states, events, ttl) && Wins(states, events, i, key, ttl) && i < j < |states|
    requires forall m: nat | i < m < j :: !Wins(states, events, m, key, ttl)
    ensures key in states[j] ==> states[j][key] == events[i].now + ttl
    decreases j
  {
    assert states[j] == Next(states[j - 1], events[j - 1], ttl);
    if i < j - 1 {
      OnlyWinExpires(states, events, ttl, i, j - 1, key);
      assert !Wins(states, events, j - 1, key, ttl);
    }
  }

  predicate Attempts(events: seq<Event>, i: nat, key: string) {
    i < |events| && events[i].Attempt? && events[i].key == key
  }

  /** An occurrence fires exactly once across the fleet if and only if every worker attempts it
      less than the ttl after the first attempt. */
  lemma FiresExactlyOnce(states: seq<Locks>, events: seq<Event>, ttl: real, first: nat, key: string)
    requires IsRun(states, events, ttl) && ttl > 0.0 && key !in states[0]
    requires Attempts(events, first, key) && forall i: nat | i < first :: !Attempts(events, i, key)
    ensures Wins(states, events, first, key, ttl)
    ensures (forall j: nat | Wins(states, events, j, key, ttl) :: j == first)
            <==> (forall j: nat | Attempts(events, j, key) :: events[j].now < events[first].now + ttl)
  {
    assert forall i: nat | i < first :: events[i].Attempt? ==> !Attempts(events, i, key);
    UntouchedKey(states, events, ttl, first, key);
    if forall j: nat | Wins(states, events, j, key, ttl) :: j == first {
      forall j: nat | Attempts(events, j, key)
        ensures events[j].now < events[first].now + ttl
      {
        if j > first {
          OnlyWinExpires(states, events, ttl, first, j, key);
          assert !Wins(states, events, j, key, ttl);
        }
      }
    }
    if forall j: nat | Attempts(events, j, key) :: events[j].now < events[first].now + ttl {
      forall j: nat | Wins(states, events, j, key, ttl)
        ensures j == first
      {
        assert Attempts(events, j, key);
        if j > first {
          LockedUntil(states, events, ttl, first, j, key);
        }
      }
    }
  }

  /** An attempt at or past the ttl of the first wins again. */
  lemma LateAttemptWins(key: string, ttl: real, at: real, late: real)
    requires ttl > 0.0 && late >= at + ttl
    ensures var events := [Attempt(key, at), Attempt(key, late)];
            var states := [map[], map[key := at + ttl], map[key := late + ttl]];
            IsRun(states, events, ttl) && Wins(states, events, 0, key, ttl) && Wins(states, events, 1, key, ttl)
  {
    assert map[key := at + ttl][key := late + ttl] == map[key := late + ttl];
  }
}
