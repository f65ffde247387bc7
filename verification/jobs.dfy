/** The job record and its status rules (src/aioq/models.py), shared by every broker model. */
module Jobs {

  datatype Option<+T> = None | Some(value: T)

  datatype Status = Pending | Waiting | Running | Completed | Failed | Retrying | Cancelled | Dead

  const ALL_STATUSES: seq<Status> :=
    [Pending, Waiting, Running, Completed, Failed, Retrying, Cancelled, Dead]

  predicate Terminal(s: Status) {
    s == Completed || s == Failed || s == Cancelled || s == Dead
  }

  predicate Cancellable(s: Status) {
    s == Pending || s == Retrying || s == Waiting
  }

  predicate Retriable(s: Status) {
    s == Failed || s == Cancelled
  }

  /** The statuses a dequeue may claim. */
  predicate Runnable(s: Status) {
    s == Pending || s == Retrying
  }

  /** A job record as a value: a stored row, a serialised record, or a snapshot of a Job object.
      Times are seconds; the payload fields that no modelled branch inspects are left out. */
  datatype JobData = JobData(
    id: string,
    taskName: string,
    queue: string,
    priority: int,
    status: Status,
    retries: int,
    maxRetries: int,
    retryDelay: real,
    retryBackoff: bool,
    retryBackoffMax: real,
    enqueuedAt: real,
    startedAt: Option<real>,
    completedAt: Option<real>,
    runAt: Option<real>,
    result: Option<string>,
    resultTtl: int,
    error: Option<string>,
    workerId: Option<string>,
    saveResult: bool,
    deadLetterQueue: Option<string>,
    dependsOn: seq<string>)
  {
    /** Per-attempt state cleared, status left to the caller. */
    function ResetForReplay(): JobData {
      this.(retries := 0, error := None, result := None, startedAt := None,
            completedAt := None, workerId := None, runAt := None)
    }

    predicate Due(now: real) {
      runAt.None? || runAt.value <= now
    }

    /** A missing or empty dead letter queue is falsy in the source. */
    predicate HasDeadLetterQueue() {
      deadLetterQueue.Some? && deadLetterQueue.value != ""
    }

    /** The time a purge compares with its cutoff. */
    function FinishedAt(): real {
      if completedAt.Some? then completedAt.value else enqueuedAt
    }
  }

  type JobMap = map<string, JobData>

  /** Every id names a completed job: the plain form of the dependency test. */
  predicate AllCompleted(jobs: JobMap, ids: seq<string>) {
    forall d | d in ids :: d in jobs && jobs[d].status == Completed
  }

  /** Lexicographic order on strings, the tie-breaker of Python's tuple comparison. */
  predicate StringLess(a: string, b: string) {
    if |b| == 0 then false
    else if |a| == 0 then true
    else if a[0] != b[0] then a[0] < b[0]
    else StringLess(a[1..], b[1..])
  }

  lemma {:induction false} StringLessTotal(a: string, b: string)
    ensures a == b || StringLess(a, b) || StringLess(b, a)
    ensures !(StringLess(a, b) && StringLess(b, a))
    ensures !StringLess(a, a)
  {
    if |a| != 0 {
      StringLessTotal(a[1..], a[1..]);
    }
    if |a| != 0 && |b| != 0 && a[0] == b[0] {
      StringLessTotal(a[1..], b[1..]);
      if a[1..] == b[1..] {
        assert a == [a[0]] + a[1..] && b == [b[0]] + b[1..];
      }
    }
  }

  /** The usual reading: a proper prefix comes first, and otherwise the first different characters decide. */
  predicate DiffersAt(a: string, b: string, n: nat) {
    n <= |a| && n < |b| && (forall i | 0 <= i < n :: a[i] == b[i]) && (n == |a| || a[n] < b[n])
  }

  lemma {:induction false} StringLessExactly(a: string, b: string)
    ensures StringLess(a, b) <==> exists n: nat :: DiffersAt(a, b, n)
  {
    if a != [] && b != [] && a[0] == b[0] {
      StringLessExactly(a[1..], b[1..]);
      forall n: nat | DiffersAt(a[1..], b[1..], n)
        ensures DiffersAt(a, b, n + 1)
      {
        assert forall i | 0 < i < n + 1 :: a[i] == a[1..][i - 1] && b[i] == b[1..][i - 1];
      }
      forall n: nat | DiffersAt(a, b, n)
        ensures n > 0 && DiffersAt(a[1..], b[1..], n - 1)
      {
        assert forall i | 0 <= i < n - 1 :: a[1..][i] == a[i + 1] && b[1..][i] == b[i + 1];
      }
    } else if b != [] {
      assert DiffersAt(a, b, 0) <==> a == [] || a[0] < b[0];
    }
  }

  lemma {:induction false} StringLessTransitive(a: string, b: string, c: string)
    requires StringLess(a, b) && StringLess(b, c)
    ensures StringLess(a, c)
  {
    if |a| != 0 && a[0] == b[0] && b[0] == c[0] {
      StringLessTransitive(a[1..], b[1..], c[1..]);
    }
  }

  /** The claim order of the SQL brokers: ORDER BY priority DESC, enqueued_at. */
  predicate ClaimKeyLess(a: JobData, b: JobData) {
    a.priority > b.priority || (a.priority == b.priority && a.enqueuedAt < b.enqueuedAt)
  }

  /** The candidate order of the in-process broker: claim order, ties by queue then id. */
  predicate CandidateLess(a: JobData, b: JobData) {
    ClaimKeyLess(a, b)
    || (!ClaimKeyLess(b, a)
        && (StringLess(a.queue, b.queue) || (a.queue == b.queue && StringLess(a.id, b.id))))
  }

  lemma CandidateLessTransitive(a: JobData, b: JobData, c: JobData)
    requires CandidateLess(a, b) && CandidateLess(b, c)
    ensures CandidateLess(a, c)
  {
    if StringLess(a.queue, b.queue) && StringLess(b.queue, c.queue) {
      StringLessTransitive(a.queue, b.queue, c.queue);
    }
    if StringLess(a.id, b.id) && StringLess(b.id, c.id) {
      StringLessTransitive(a.id, b.id, c.id);
    }
  }

  lemma CandidateLessTotal(a: JobData, b: JobData)
    ensures CandidateLess(a, b) || CandidateLess(b, a) || (a.queue == b.queue && a.id == b.id)
    ensures !(CandidateLess(a, b) && CandidateLess(b, a))
    ensures a.priority > b.priority ==> CandidateLess(a, b)
    ensures a.priority == b.priority && a.enqueuedAt < b.enqueuedAt ==> CandidateLess(a, b)
  {
    StringLessTotal(a.queue, b.queue);
    StringLessTotal(a.id, b.id);
  }
}
