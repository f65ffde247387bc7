/** Concurrency slots of a worker (src/aioq/worker.py): the semaphore, the main loop, the in-flight
    tasks with their done callbacks, and the final drain, as interleaved event-loop steps. */
module Slots {

  /** The main loop sleeps after a failed dequeue, and yields a turn after an empty one. */
  datatype LoopPoint = AtTop | Acquiring | Dequeuing | Sleeping | Exited

  /** A task leaves the worker's set only when its done callback runs, after it has ended. */
  datatype TaskState = Running | Ended

  /** gather() waits for the tasks it was given: for each, its own callback runs after the
      worker's callback, which was registered first. */
  datatype Drain = NotStarted | Gathering(waiting: set<nat>) | Drained

  datatype State = State(
    free: nat,
    loop: LoopPoint,
    stop: bool,
    inFlight: map<nat, TaskState>,
    claimed: set<nat>,
    ended: set<nat>,
    drain: Drain)

  datatype Action =
    | CheckStop
    | Acquire
    | AcquireCancelled
    | DequeueFails
    | DequeueEmpty
    | DequeueCancelled
    | WakesUp
    | SleepCancelled
    | DequeueJob(task: nat)
    | TaskEnds(task: nat)
    | JobDone(task: nat)
    | RequestStop
    | StartDrain
    | GatherHears(task: nat)
    | DrainEnds

  predicate Enabled(s: State, a: Action) {
    match a
    case CheckStop => s.loop == AtTop
    case Acquire => s.loop == Acquiring && s.free > 0
    case AcquireCancelled => s.loop == Acquiring
    case DequeueFails => s.loop == Dequeuing
    case DequeueEmpty => s.loop == Dequeuing
    case DequeueCancelled => s.loop == Dequeuing
    case WakesUp => s.loop == Sleeping
    case SleepCancelled => s.loop == Sleeping
    case DequeueJob(task) => s.loop == Dequeuing && task !in s.claimed
    case TaskEnds(task) => task in s.inFlight && s.inFlight[task] == Running
    case JobDone(task) => task in s.inFlight && s.inFlight[task] == Ended
    case RequestStop => true
    case StartDrain => s.loop == Exited && s.drain == NotStarted
    case GatherHears(task) => s.drain.Gathering? && task in s.drain.waiting && task !in s.inFlight
    case DrainEnds => s.drain == Gathering({})
  }

  function Apply(s: State, a: Action): State
    requires Enabled(s, a)
  {
    match a
    case CheckStop => s.(loop := if s.stop then Exited else Acquiring)
    case Acquire => s.(free := s.free - 1, loop := Dequeuing)
    case AcquireCancelled => s.(loop := Exited)
    case DequeueFails => s.(free := s.free + 1, loop := Sleeping)
    case DequeueEmpty => s.(free := s.free + 1, loop := Sleeping)
    case WakesUp => s.(loop := AtTop)
    case SleepCancelled => s.(loop := Exited)
    case DequeueCancelled => s.(free := s.free + 1, loop := Exited)
    case DequeueJob(task) =>
      s.(loop := AtTop, inFlight := s.inFlight[task := Running], claimed := s.claimed + {task})
    case TaskEnds(task) => s.(inFlight := s.inFlight[task := Ended], ended := s.ended + {task})
    case JobDone(task) => s.(free := s.free + 1, inFlight := s.inFlight - {task})
    case RequestStop => s.(stop := true)
    case StartDrain =>
      s.(drain := if s.inFlight == map[] then Drained else Gathering(s.inFlight.Keys))
    case GatherHears(task) => s.(drain := Gathering(s.drain.waiting - {task}))
    case DrainEnds => s.(drain := Drained)
  }

  function Initial(concurrency: nat, stop: bool): State {
    State(concurrency, AtTop, stop, map[], {}, {}, NotStarted)
  }

  /** `states` is a run of the worker; stop may have been requested before it started. */
  ghost predicate IsRun(states: seq<State>, actions: seq<Action>, concurrency: nat) {
    && |states| == |actions| + 1 && (exists stop :: states[0] == Initial(concurrency, stop))
    && forall k | 0 <= k < |actions| :: Enabled(states[k], actions[k]) && states[k + 1] == Apply(states[k], actions[k])
  }

  function HeldByLoop(s: State): nat {
    if s.loop == Dequeuing then 1 else 0
  }

  /** No slot is lost or invented. */
  predicate SlotsAddUp(s: State, concurrency: nat) {
    s.free + HeldByLoop(s) + |s.inFlight| == concurrency
  }

  /** Draining waits for whatever is still in flight, and every claimed job is running or ended. */
  ghost predicate TasksAccounted(s: State) {
    && s.inFlight.Keys <= s.claimed && s.ended <= s.claimed
    && (forall t | t in s.claimed :: t in s.ended || (t in s.inFlight && s.inFlight[t] == Running))
    && (s.drain != NotStarted ==> s.loop == Exited)
    && (s.drain.Gathering? ==> s.inFlight.Keys <= s.drain.waiting)
    && (s.drain.Drained? ==> s.inFlight == map[])
  }

  ghost predicate Conserved(s: State, concurrency: nat) {
    SlotsAddUp(s, concurrency) && TasksAccounted(s)
  }

  lemma SlotsKept(s: State, a: Action, concurrency: nat)
    requires Conserved(s, concurrency) && Enabled(s, a)
    ensures SlotsAddUp(Apply(s, a), concurrency)
  {
    match a
    case JobDone(task) =>
      assert s.inFlight == (s.inFlight - {task})[task := Ended];
    case TaskEnds(task) =>
      assert s.inFlight[task := Ended].Keys == s.inFlight.Keys;
      assert |s.inFlight[task := Ended]| == |s.inFlight|;
    case _ =>
  }

  lemma TasksKept(s: State, a: Action)
    requires TasksAccounted(s) && Enabled(s, a)
    ensures TasksAccounted(Apply(s, a))
  {
    if a.DrainEnds? {
      assert s.inFlight.Keys == {};
    }
  }

  lemma ConservedKept(s: State, a: Action, concurrency: nat)
    requires Conserved(s, concurrency) && Enabled(s, a)
    ensures Conserved(Apply(s, a), concurrency)
  {
    SlotsKept(s, a, concurrency);
    TasksKept(s, a);
  }

  /** Slot conservation in every reachable state. */
  lemma {:induction false} EveryRunConserves(states: seq<State>, actions: seq<Action>, concurrency: nat, k: nat)
    requires IsRun(states, actions, concurrency) && k < |states|
    ensures Conserved(states[k], concurrency)
    ensures |states[k].inFlight| <= concurrency
  {
    if k > 0 {
      EveryRunConserves(states, actions, concurrency, k - 1);
      ConservedKept(states[k - 1], actions[k - 1], concurrency);
    }
  }

  /** When the drain is over, every claimed job has been processed to its end and all slots are free. */
  lemma DrainedMeansDone(states: seq<State>, actions: seq<Action>, concurrency: nat, k: nat)
    requires IsRun(states, actions, concurrency) && k < |states| && states[k].drain.Drained?
    ensures states[k].ended == states[k].claimed && states[k].free == concurrency
  {
    EveryRunConserves(states, actions, concurrency, k);
    assert forall t | t in states[k].claimed :: t in states[k].ended;
  }

  // ---------------------------------------------------------------- stopping

  function Taken(actions: seq<Action>, k: nat, n: nat): nat
    requires k <= n <= |actions|
  {
    if n == k then 0 else Taken(actions, k, n - 1) + (if actions[n - 1].DequeueJob? then 1 else 0)
  }

  /** The loop is past its look at the stop flag. */
  function MayTake(s: State): nat {
    if s.loop == Acquiring || s.loop == Dequeuing then 1 else 0
  }

  /** Once stop is requested the worker takes at most the one job it may be waiting for, and once the loop has looked
      at the flag none at all. */
  lemma {:induction false} StopTakesAtMostOne(states: seq<State>, actions: seq<Action>, concurrency: nat, k: nat,
                                              n: nat)
    requires IsRun(states, actions, concurrency) && k < n <= |actions| && actions[k].RequestStop?
    ensures states[n].stop && Taken(actions, k + 1, n) + MayTake(states[n]) <= 1
  {
    if n > k + 1 {
      StopTakesAtMostOne(states, actions, concurrency, k, n - 1);
    }
    assert Enabled(states[n - 1], actions[n - 1]) && states[n] == Apply(states[n - 1], actions[n - 1]);
  }

  /** Without a cancellation the loop goes on until stop is requested. */
  predicate Cancels(a: Action) {
    a.AcquireCancelled? || a.DequeueCancelled? || a.SleepCancelled?
  }

  lemma {:induction false} ExitsOnlyOnStop(states: seq<State>, actions: seq<Action>, concurrency: nat, n: nat)
    requires IsRun(states, actions, concurrency) && n < |states| && states[n].loop == Exited
    ensures states[n].stop || exists k :: 0 <= k < n && Cancels(actions[k])
  {
    if n > 0 {
      assert Enabled(states[n - 1], actions[n - 1]) && states[n] == Apply(states[n - 1], actions[n - 1]);
      if states[n - 1].loop == Exited {
        ExitsOnlyOnStop(states, actions, concurrency, n - 1);
      } else {
        assert states[n - 1].stop || Cancels(actions[n - 1]);
      }
    }
  }
}
