/** Retry delays (src/aioq/retry.py), over the reals. The jitter draw is an input in [0, 1]. */
module Retry {

  function Pow2(n: nat): (r: real)
    ensures r >= 1.0
  {
    if n == 0 then 1.0 else 2.0 * Pow2(n - 1)
  }

  function Min(a: real, b: real): real {
    if a <= b then a else b
  }

  /** The delay before jitter; `attempt` is 1-based and clamped from below. */
  function Unjittered(baseDelay: real, attempt: int, backoff: bool, backoffMax: real): real {
    if baseDelay <= 0.0 then 0.0
    else
      var n: int := if attempt < 1 then 1 else attempt;
      if backoff then Min(baseDelay * Pow2(n - 1), backoffMax) else baseDelay
  }

  /** random.uniform(0, delay) is modelled as delay * draw. */
  function ComputeRetryDelay(baseDelay: real, attempt: int, backoff: bool, backoffMax: real,
                             jitter: bool, draw: real): real
  {
    var delay := Unjittered(baseDelay, attempt, backoff, backoffMax);
    if baseDelay > 0.0 && jitter && backoff then delay * draw else delay
  }

  lemma {:induction false} Pow2Monotone(m: nat, n: nat)
    requires m <= n
    ensures Pow2(m) <= Pow2(n)
  {
    if m < n {
      Pow2Monotone(m, n - 1);
    }
  }

  lemma ScaleBound(a: real, u: real)
    requires 0.0 <= a && 0.0 <= u <= 1.0
    ensures 0.0 <= a * u <= a
  {
    assert a * u <= a * 1.0;
  }

  lemma ProductsCompare(a: real, p: real, q: real, x: real, y: real)
    requires 0.0 < a && p <= q && x == a * p && y == a * q
    ensures x <= y
  {
    assert y - x == a * (q - p);
  }

  /** With backoff the delay is a doubled base under the cap. */
  lemma RawDelay(baseDelay: real, attempt: int, backoffMax: real) returns (doublings: nat, raw: real)
    requires baseDelay > 0.0
    ensures doublings == if attempt < 1 then 0 else attempt - 1
    ensures raw == baseDelay * Pow2(doublings)
    ensures Unjittered(baseDelay, attempt, true, backoffMax) == Min(raw, backoffMax)
  {
    doublings := if attempt < 1 then 0 else attempt - 1;
    raw := baseDelay * Pow2(doublings);
  }

  lemma UnjitteredNonnegative(baseDelay: real, attempt: int, backoffMax: real)
    requires backoffMax >= 0.0
    ensures 0.0 <= Unjittered(baseDelay, attempt, true, backoffMax)
  {
    if baseDelay > 0.0 {
      var n, raw := RawDelay(baseDelay, attempt, backoffMax);
      ProductsCompare(baseDelay, 0.0, Pow2(n), 0.0, raw);
    }
  }

  lemma JitteredDelayBound(baseDelay: real, attempt: int, backoffMax: real, draw: real)
    requires backoffMax >= 0.0 && 0.0 <= draw <= 1.0
    ensures 0.0 <= ComputeRetryDelay(baseDelay, attempt, true, backoffMax, true, draw)
                <= Unjittered(baseDelay, attempt, true, backoffMax)
  {
    UnjitteredNonnegative(baseDelay, attempt, backoffMax);
    var delay := Unjittered(baseDelay, attempt, true, backoffMax);
    ScaleBound(delay, draw);
    assert baseDelay > 0.0 ==> ComputeRetryDelay(baseDelay, attempt, true, backoffMax, true, draw) == delay * draw;
  }

  ghost predicate DelayInRange(baseDelay: real, attempt: int, backoffMax: real, draw: real) {
    0.0 <= ComputeRetryDelay(baseDelay, attempt, true, backoffMax, true, draw)
        <= Unjittered(baseDelay, attempt, true, backoffMax)
  }

  /** With backoff and a positive base the delay lies in [0, min(base * 2^(n-1), max)] for every draw
      exactly when the cap is not negative; without a positive base it is 0. */
  lemma DelayRangeExactly(baseDelay: real, attempt: int, backoffMax: real)
    ensures (forall draw: real | 0.0 <= draw <= 1.0 :: DelayInRange(baseDelay, attempt, backoffMax, draw))
            <==> baseDelay <= 0.0 || backoffMax >= 0.0
  {
    if backoffMax >= 0.0 {
      forall draw: real | 0.0 <= draw <= 1.0
        ensures DelayInRange(baseDelay, attempt, backoffMax, draw)
      {
        JitteredDelayBound(baseDelay, attempt, backoffMax, draw);
      }
    } else if baseDelay > 0.0 {
      var cap := Unjittered(baseDelay, attempt, true, backoffMax);
      assert cap < 0.0 && cap * 1.0 == cap;
      assert !DelayInRange(baseDelay, attempt, backoffMax, 1.0);
    }
  }

  /** The unjittered delay never decreases with the attempt number. */
  lemma UnjitteredMonotone(baseDelay: real, m: int, n: int, backoff: bool, backoffMax: real)
    requires m <= n
    ensures Unjittered(baseDelay, m, backoff, backoffMax) <= Unjittered(baseDelay, n, backoff, backoffMax)
  {
    if baseDelay > 0.0 && backoff {
      var i, x := RawDelay(baseDelay, m, backoffMax);
      var j, y := RawDelay(baseDelay, n, backoffMax);
      Pow2Monotone(i, j);
      ProductsCompare(baseDelay, Pow2(i), Pow2(j), x, y);
    }
  }

  /** Total wait over retries 1 .. |draws|, one draw per retry. */
  function TotalWait(baseDelay: real, backoffMax: real, draws: seq<real>): real {
    if draws == [] then 0.0
    else TotalWait(baseDelay, backoffMax, draws[..|draws| - 1])
         + ComputeRetryDelay(baseDelay, |draws|, true, backoffMax, true, draws[|draws| - 1])
  }

  /** The two bounds on the total wait: doubling sums to 2^n - 1 delays, and the cap to n caps. */
  function DoublingBound(baseDelay: real, n: nat): real {
    baseDelay * (Pow2(n) - 1.0)
  }

  function CapBound(backoffMax: real, n: nat): real {
    n as real * backoffMax
  }

  lemma BoundsGrow(baseDelay: real, backoffMax: real, n: nat, raw: real)
    requires n >= 1 && raw == baseDelay * Pow2(n - 1)
    ensures DoublingBound(baseDelay, n - 1) + raw == DoublingBound(baseDelay, n)
    ensures CapBound(backoffMax, n - 1) + backoffMax == CapBound(backoffMax, n)
  {
    DoublesAdd(baseDelay, Pow2(n - 1));
    CapsAdd(backoffMax, (n - 1) as real);
  }

  lemma DoublesAdd(a: real, p: real)
    ensures a * (p - 1.0) + a * p == a * (2.0 * p - 1.0)
  {
  }

  lemma CapsAdd(cap: real, k: real)
    ensures k * cap + cap == (k + 1.0) * cap
  {
  }

  lemma BoundsStart(baseDelay: real, backoffMax: real)
    ensures DoublingBound(baseDelay, 0) == 0.0 && CapBound(backoffMax, 0) == 0.0
  {
    assert baseDelay * 0.0 == 0.0 && 0.0 * backoffMax == 0.0;
  }

  lemma AddUnderMin(total: real, delay: real, raw: real, cap: real, doubling: real, caps: real)
    requires 0.0 <= total <= Min(doubling, caps) && 0.0 <= delay <= Min(raw, cap)
    ensures 0.0 <= total + delay <= Min(doubling + raw, caps + cap)
  {
  }

  ghost predicate WithinBounds(baseDelay: real, backoffMax: real, n: nat, total: real) {
    0.0 <= total <= Min(DoublingBound(baseDelay, n), CapBound(backoffMax, n))
  }

  lemma WithinBoundsStep(baseDelay: real, backoffMax: real, n: nat, total: real, delay: real)
    requires baseDelay > 0.0 && n >= 1
    requires WithinBounds(baseDelay, backoffMax, n - 1, total)
    requires 0.0 <= delay <= Unjittered(baseDelay, n, true, backoffMax)
    ensures WithinBounds(baseDelay, backoffMax, n, total + delay)
  {
    var _, raw := RawDelay(baseDelay, n, backoffMax);
    BoundsGrow(baseDelay, backoffMax, n, raw);
    AddUnderMin(total, delay, raw, backoffMax, DoublingBound(baseDelay, n - 1), CapBound(backoffMax, n - 1));
  }

  lemma {:induction false} TotalWaitBound(baseDelay: real, backoffMax: real, draws: seq<real>)
    requires baseDelay > 0.0 && backoffMax >= 0.0
    requires forall u | u in draws :: 0.0 <= u <= 1.0
    ensures WithinBounds(baseDelay, backoffMax, |draws|, TotalWait(baseDelay, backoffMax, draws))
  {
    if draws == [] {
      BoundsStart(baseDelay, backoffMax);
    } else {
      var n := |draws|;
      var rest, last := draws[..n - 1], draws[n - 1];
      assert last in draws;
      assert forall u | u in rest :: u in draws;
      TotalWaitBound(baseDelay, backoffMax, rest);
      JitteredDelayBound(baseDelay, n, backoffMax, last);
      WithinBoundsStep(baseDelay, backoffMax, n, TotalWait(baseDelay, backoffMax, rest),
                       ComputeRetryDelay(baseDelay, n, true, backoffMax, true, last));
    }
  }
}
