/** One execution attempt of a job (src/aioq/worker.py), as functions on the job's fields,
    and the hook trace of a job's whole life. */
module Attempts {
  import opened Jobs
  import Retry

  datatype Outcome = Success(result: string) | Failure(error: string)

  /** What an attempt draws from its surroundings. */
  datatype Attempt = Attempt(worker: string, startedAt: real, endedAt: real, draw: real, outcome: Outcome)

  datatype Event = OnStart | OnRetry | OnSuccess | OnFailure | OnDead

  function Begin(j: JobData, a: Attempt): JobData {
    j.(status := Running, startedAt := Some(a.startedAt), workerId := Some(a.worker), error := None)
  }

  function HandleSuccess(j: JobData, result: string, now: real): JobData {
    j.(status := Completed, completedAt := Some(now),
       result := if j.saveResult then Some(result) else j.result)
  }

  function RetryDelayOf(j: JobData, draw: real): real {
    Retry.ComputeRetryDelay(j.retryDelay, j.retries, j.retryBackoff, j.retryBackoffMax, true, draw)
  }

  function ScheduleRetry(j: JobData, error: string, now: real, draw: real): JobData {
    var bumped := j.(retries := j.retries + 1, status := Retrying, error := Some(error));
    var delay := RetryDelayOf(bumped, draw);
    bumped.(runAt := if delay > 0.0 then Some(now + delay) else None, startedAt := None, workerId := None)
  }

  function MoveToDlq(j: JobData, error: string, now: real): JobData {
    j.(status := Dead, error := Some(error), completedAt := Some(now),
       queue := if j.HasDeadLetterQueue() then j.deadLetterQueue.value else j.queue)
  }

  function Fail(j: JobData, error: string, now: real): JobData {
    j.(status := Failed, error := Some(error), completedAt := Some(now))
  }

  /** The job as the attempt leaves it, before the broker call that stores it. */
  function Conclude(j: JobData, a: Attempt): JobData {
    match a.outcome
    case Success(result) => HandleSuccess(j, result, a.endedAt)
    case Failure(error) =>
      if j.retries < j.maxRetries then ScheduleRetry(j, error, a.endedAt, a.draw)
      else if j.HasDeadLetterQueue() then MoveToDlq(j, error, a.endedAt)
      else Fail(j, error, a.endedAt)
  }

  function Run(j: JobData, a: Attempt): JobData {
    Conclude(Begin(j, a), a)
  }

  function ClosingEvent(j: JobData): Event {
    match j.status
    case Completed => OnSuccess
    case Failed => OnFailure
    case Dead => OnDead
    case _ => OnRetry
  }

  /** Hook trace of a job that runs through `attempts` until it is not rescheduled any more. */
  function Lifecycle(j: JobData, attempts: seq<Attempt>): (JobData, seq<Event>)
    decreases |attempts|
  {
    if attempts == [] then (j, [])
    else
      var j' := Run(j, attempts[0]);
      var events := [OnStart, ClosingEvent(j')];
      if j'.status != Retrying then (j', events)
      else
        var rest := Lifecycle(j', attempts[1..]);
        (rest.0, events + rest.1)
  }

  /** How one attempt of a job ends. */
  lemma RunStatus(j: JobData, a: Attempt)
    ensures var j' := Run(j, a);
            && j'.maxRetries == j.maxRetries && j'.deadLetterQueue == j.deadLetterQueue
            && (j'.status == Completed <==> a.outcome.Success?)
            && (j'.status == Retrying <==> a.outcome.Failure? && j.retries < j.maxRetries)
            && (j'.status == Dead <==>
                a.outcome.Failure? && j.retries >= j.maxRetries && j.HasDeadLetterQueue())
            && (j'.status == Failed <==>
                a.outcome.Failure? && j.retries >= j.maxRetries && !j.HasDeadLetterQueue())
            && j'.retries == (if j'.status == Retrying then j.retries + 1 else j.retries)
            && (j'.status == Dead ==> j'.queue == j.deadLetterQueue.value)
            && (j'.status != Dead ==> j'.queue == j.queue)
  {
  }

  function RetryBudget(j: JobData): nat {
    if j.retries < j.maxRetries then j.maxRetries - j.retries else 0
  }

  function StartRetryTimes(k: nat): (t: seq<Event>)
    ensures |t| == 2 * k
  {
    if k == 0 then [] else [OnStart, OnRetry] + StartRetryTimes(k - 1)
  }

  /** Index of the first successful attempt, or the number of attempts. */
  function FirstSuccess(attempts: seq<Attempt>): (k: nat)
    ensures k <= |attempts|
    ensures k < |attempts| ==> attempts[k].outcome.Success?
    ensures forall i | 0 <= i < k :: attempts[i].outcome.Failure?
  {
    if attempts == [] || attempts[0].outcome.Success? then 0
    else 1 + FirstSuccess(attempts[1..])
  }

  /** Failures before the first success, capped by the retry budget. */
  function Retries(j: JobData, attempts: seq<Attempt>): nat {
    var success := FirstSuccess(attempts);
    if success <= RetryBudget(j) then success else RetryBudget(j)
  }

  lemma LifecycleUnfolds(j: JobData, attempts: seq<Attempt>)
    requires attempts != []
    ensures var j' := Run(j, attempts[0]);
            if j'.status != Retrying then Lifecycle(j, attempts) == (j', [OnStart, ClosingEvent(j')])
            else
              var (end, trace) := Lifecycle(j', attempts[1..]);
              Lifecycle(j, attempts) == (end, [OnStart, OnRetry] + trace)
  {
  }

  /** One more attempt goes on from where the earlier ones left the job. */
  lemma {:induction false} LifecycleGoesOn(j: JobData, attempts: seq<Attempt>, a: Attempt)
    requires attempts == [] || Lifecycle(j, attempts).0.status == Retrying
    ensures var (end, trace) := Lifecycle(j, attempts);
            Lifecycle(j, attempts + [a]) == (Run(end, a), trace + [OnStart, ClosingEvent(Run(end, a))])
    decreases |attempts|
  {
    if attempts != [] {
      LifecycleUnfolds(j, attempts);
      LifecycleUnfolds(j, attempts + [a]);
      LifecycleGoesOn(Run(j, attempts[0]), attempts[1..], a);
      assert (attempts + [a])[1..] == attempts[1..] + [a];
      var (end, rest) := Lifecycle(Run(j, attempts[0]), attempts[1..]);
      var last := [OnStart, ClosingEvent(Run(end, a))];
      assert [OnStart, OnRetry] + rest + last == [OnStart, OnRetry] + (rest + last);
    } else {
      var end := Run(j, a);
      assert attempts + [a] == [a] && [a][1..] == [];
      LifecycleUnfolds(j, [a]);
      var events := [OnStart, ClosingEvent(end)];
      assert events + [] == events && [] + events == events;
      assert Lifecycle(end, []) == (end, []);
    }
  }

  /** The trace of the first attempts is where the trace of more attempts starts. */
  lemma {:induction false} LifecyclePrefix(j: JobData, attempts: seq<Attempt>, more: seq<Attempt>)
    ensures Lifecycle(j, attempts).1 <= Lifecycle(j, attempts + more).1
    decreases |attempts|
  {
    if attempts != [] {
      LifecycleUnfolds(j, attempts);
      LifecycleUnfolds(j, attempts + more);
      LifecyclePrefix(Run(j, attempts[0]), attempts[1..], more);
      assert (attempts + more)[1..] == attempts[1..] + more;
    }
  }

  /** The trace is (start retry)^k, start, and one closing event. The job ends completed
      exactly when a success comes within the retry budget, and otherwise dead or failed
      exactly as it has a dead letter queue or not. */
  ghost predicate EndsWell(j: JobData, attempts: seq<Attempt>, end: JobData, trace: seq<Event>) {
    var k := Retries(j, attempts);
    && end.status in {Completed, Failed, Dead}
    && trace == StartRetryTimes(k) + [OnStart, ClosingEvent(end)]
    && end.retries == j.retries + k
    && (end.status == Completed <==> FirstSuccess(attempts) <= RetryBudget(j))
    && (end.status == Dead ==> j.HasDeadLetterQueue() && end.queue == j.deadLetterQueue.value)
    && (end.status == Failed ==> !j.HasDeadLetterQueue())
  }

  lemma EndsWellAfterRetry(j: JobData, attempts: seq<Attempt>, end: JobData, trace: seq<Event>)
    requires attempts != [] && Run(j, attempts[0]).status == Retrying
    requires EndsWell(Run(j, attempts[0]), attempts[1..], end, trace)
    ensures EndsWell(j, attempts, end, [OnStart, OnRetry] + trace)
  {
    var j', rest := Run(j, attempts[0]), attempts[1..];
    RunStatus(j, attempts[0]);
    assert RetryBudget(j) == RetryBudget(j') + 1;
    assert FirstSuccess(attempts) == FirstSuccess(rest) + 1;
    var k := Retries(j, attempts);
    var last := [OnStart, ClosingEvent(end)];
    assert [OnStart, OnRetry] + (StartRetryTimes(k - 1) + last) == StartRetryTimes(k) + last;
  }

  /** The attempts take the job to its end: one succeeds, or they use up its retries. */
  predicate Enough(j: JobData, attempts: seq<Attempt>) {
    |attempts| > RetryBudget(j) || FirstSuccess(attempts) < |attempts|
  }

  /** Every job given enough attempts ends, with the trace and end status above. */
  lemma {:induction false} LifecycleTrace(j: JobData, attempts: seq<Attempt>)
    requires Enough(j, attempts)
    ensures EndsWell(j, attempts, Lifecycle(j, attempts).0, Lifecycle(j, attempts).1)
    decreases |attempts|
  {
    var j', rest := Run(j, attempts[0]), attempts[1..];
    RunStatus(j, attempts[0]);
    LifecycleUnfolds(j, attempts);
    if j'.status == Retrying {
      LifecycleTrace(j', rest);
      EndsWellAfterRetry(j, attempts, Lifecycle(j', rest).0, Lifecycle(j', rest).1);
    } else {
      assert StartRetryTimes(0) == [];
    }
  }

  /** Fewer attempts leave the job rescheduled, with nothing but starts and retries behind it. */
  lemma {:induction false} UnfinishedTrace(j: JobData, attempts: seq<Attempt>)
    requires !Enough(j, attempts) && attempts != []
    ensures var (end, trace) := Lifecycle(j, attempts);
            && end.status == Retrying && end.retries == j.retries + |attempts|
            && trace == StartRetryTimes(|attempts|)
    decreases |attempts|
  {
    var j', rest := Run(j, attempts[0]), attempts[1..];
    RunStatus(j, attempts[0]);
    LifecycleUnfolds(j, attempts);
    assert FirstSuccess(attempts) == FirstSuccess(rest) + 1;
    if rest == [] {
      assert Lifecycle(j', rest) == (j', []) && StartRetryTimes(1) == [OnStart, OnRetry] + StartRetryTimes(0);
    } else {
      UnfinishedTrace(j', rest);
    }
  }

  /** A job enqueued with retries = 0 retries at most max_retries times, and exactly
      max_retries times whenever it ends failed or dead. */
  lemma FreshLifecycle(j: JobData, attempts: seq<Attempt>)
    requires j.retries == 0 && Enough(j, attempts)
    ensures var end := Lifecycle(j, attempts).0;
            var allowed := if j.maxRetries < 0 then 0 else j.maxRetries;
            && 0 <= end.retries <= allowed
            && (end.status in {Failed, Dead} ==> end.retries == allowed)
            && Lifecycle(j, attempts).1 == StartRetryTimes(end.retries) + [OnStart, ClosingEvent(end)]
  {
    LifecycleTrace(j, attempts);
  }
}
