/** The exponential retry policy (pkg/backoff/exponential.go): two nested loops
    over 64-bit durations, and the three limits built on them. */
module Backoff {
  import opened Int64
  import opened Results

  const TWO62 := 0x4000_0000_0000_0000

  datatype Policy = Exponential(min: int64, max: int64, abort: int64, maxAttempts: int) {

    // ---- What the loops compute, step by step, with Go's wrap-around ----

    function Clip(d: int64): int64 {
      if d > max then max else d
    }

    function Delay(n: nat): int64 {
      if n == 0 then min else Clip(Wrap(2 * Delay(n - 1)))
    }

    function Elapsed(n: nat): int64 {
      if n == 0 then 0 else Wrap(Elapsed(n - 1) + Delay(n - 1))
    }

    method RetryDelayForAttempt(attemptNumber: nat) returns (delay: int64)
      ensures delay == Delay(attemptNumber)
    {
      delay := min;
      for i := 0 to attemptNumber
        invariant delay == Delay(i)
      {
        delay := Wrap(2 * delay);
        if delay > max {
          delay := max;
        }
      }
    }

    method ElapsedBeforeAttempt(attemptNumber: nat) returns (elapsed: int64)
      ensures elapsed == Elapsed(attemptNumber)
    {
      elapsed := 0;
      for i := 0 to attemptNumber
        invariant elapsed == Elapsed(i)
      {
        var d := RetryDelayForAttempt(i);
        elapsed := Wrap(elapsed + d);
      }
    }

    // ---- The policy's four answers ----

    function GetRetryDelay(n: nat): Option<int64> {
      if maxAttempts > 0 && n + 1 >= maxAttempts then None
      else if Wrap(Elapsed(n) + Delay(n)) > abort then None
      else Some(Delay(n))
    }

    predicate CanRetryAttempt(n: nat) {
      !(maxAttempts > 0 && n >= maxAttempts)
    }

    function LimitRetryDelay(n: nat, delay: int64): Option<int64> {
      if Wrap(Elapsed(n) + delay) > abort then None else Some(delay)
    }

    predicate WithinWindow(elapsed: int64) {
      elapsed <= abort
    }

    // ---- The intended, unbounded arithmetic ----

    /** min * 2^n (lemma DoubledIsPower). */
    function Doubled(n: nat): int {
      if n == 0 then min else 2 * Doubled(n - 1)
    }

    function ExactDelay(n: nat): int {
      Int64.Min(Doubled(n), max)
    }

    function ExactElapsed(n: nat): int {
      if n == 0 then 0 else ExactElapsed(n - 1) + ExactDelay(n - 1)
    }

    /** The configurations whose arithmetic stays in range: ordered delays that
        survive one doubling, and a budget that leaves room for one more delay,
        the policy's or the longest Retry-After. */
    predicate Sane() {
      0 <= min <= max < TWO62 && 0 <= abort && abort + Int64.Max(max, SIX_HOURS) <= MAX
    }

    /** The first doubling that meets the cap. */
    function CapIndex(): (k: nat)
      requires 0 < min <= max
      ensures max <= Doubled(k)
      ensures forall i: nat :: i < k ==> Doubled(i) < max
    {
      CapFrom(0)
    }

    function CapFrom(k: nat): (r: nat)
      requires 0 < min <= max && 0 < Doubled(k)
      requires forall i: nat :: i < k ==> Doubled(i) < max
      ensures max <= Doubled(r)
      ensures forall i: nat :: i < r ==> Doubled(i) < max
      decreases max - Doubled(k)
    {
      if max <= Doubled(k) then k else CapFrom(k + 1)
    }

    /** Geometric growth up to the cap, then one capped delay per attempt. */
    function TwoPhase(n: nat): int
      requires 0 < min <= max
    {
      var k := CapIndex();
      if n <= k then Doubled(n) - min else Doubled(k) - min + (n - k) * max
    }

    /** The worker asks for attempt n + 1 only after attempts 0 .. n were granted. */
    predicate Granted(n: nat) {
      forall m: nat :: m < n ==> GetRetryDelay(m).Some?
    }

    /** What the limits are for: attempt n starts within the nominal budget and
        under the attempt cap (attempt 0 is always allowed). */
    predicate WithinBudget(n: nat) {
      ExactElapsed(n) <= abort && (maxAttempts > 0 && n > 0 ==> n < maxAttempts)
    }

    /** One more wait after attempt n, of the policy or of the longest Retry-After,
        still fits 64 bits. */
    predicate Room(n: nat) {
      ExactElapsed(n) + Int64.Max(max, SIX_HOURS) <= MAX
    }
  }

  const SECOND := 1_000_000_000
  const SIX_HOURS := 6 * 3600 * SECOND

  function Pow2(n: nat): (r: nat)
    ensures r >= 1
  {
    if n == 0 then 1 else 2 * Pow2(n - 1)
  }

  // ---- The doubling loop against its closed form ----

  lemma {:induction false} DoubledIsPower(p: Policy, n: nat)
    ensures p.Doubled(n) == p.min * Pow2(n)
  {
    if n > 0 {
      DoubledIsPower(p, n - 1);
      MulStep(Pow2(n - 1), p.min);
    }
  }

  lemma MulStep(b: int, a: int)
    ensures a * (2 * b) == 2 * (a * b)
  {
  }

  lemma {:induction false} DoubledMonotone(p: Policy, m: nat, n: nat)
    requires 0 <= p.min && m <= n
    ensures p.min <= p.Doubled(m) <= p.Doubled(n)
  {
    if m < n {
      DoubledMonotone(p, m, n - 1);
    } else if 0 < m {
      DoubledMonotone(p, m - 1, n - 1);
    }
  }

  lemma {:induction false} DelayInRange(p: Policy, n: nat)
    requires 0 <= p.min <= p.max
    requires p.min == 0 || p.max < TWO62
    ensures p.Delay(n) == p.ExactDelay(n)
    ensures p.min <= p.ExactDelay(n) <= p.max
  {
    if n > 0 {
      DelayInRange(p, n - 1);
      DoubledMonotone(p, 0, n - 1);
      DoubledIsPower(p, n - 1);
    }
    DoubledMonotone(p, 0, n);
  }

  lemma DoubledBy256(p: Policy, n: nat)
    ensures p.Doubled(n + 8) == 256 * p.Doubled(n)
  {
    assert p.Doubled(n + 2) == 4 * p.Doubled(n);
    assert p.Doubled(n + 4) == 16 * p.Doubled(n);
    assert p.Doubled(n + 6) == 64 * p.Doubled(n);
  }

  lemma Doubled62(p: Policy)
    ensures p.Doubled(62) == TWO62 * p.min
  {
    assert p.Doubled(1) == 2 * p.min;
    assert p.Doubled(2) == 4 * p.min;
    assert p.Doubled(4) == 16 * p.min;
    assert p.Doubled(6) == 64 * p.min;
    DoubledBy256(p, 6);
    DoubledBy256(p, 14);
    DoubledBy256(p, 22);
    DoubledBy256(p, 30);
    DoubledBy256(p, 38);
    DoubledBy256(p, 46);
    DoubledBy256(p, 54);
  }

  /** When a positive delay meets a cap of 2^62 or more, one more doubling turns
      it negative. */
  lemma DoublingOverflows(p: Policy)
    requires 0 < p.min <= p.max && TWO62 <= p.max
    ensures p.Delay(62) != p.ExactDelay(62) || p.Delay(63) < 0 <= p.ExactDelay(63)
  {
    Doubled62(p);
    if p.Delay(62) == p.ExactDelay(62) {
      assert p.Delay(63) == p.Clip(Wrap(2 * p.Delay(62)));
      assert p.Doubled(63) == 2 * p.Doubled(62);
    }
  }

  /** The loop computes min(min * 2^n, max) for every n exactly when it never
      doubles a value of 2^62 or more. */
  lemma DoublingLoopExact(p: Policy)
    requires 0 <= p.min <= p.max
    ensures (forall n: nat :: p.Delay(n) == Int64.Min(p.min * Pow2(n), p.max))
            <==> (p.min == 0 || p.max < TWO62)
  {
    forall n: nat ensures p.ExactDelay(n) == Int64.Min(p.min * Pow2(n), p.max) {
      DoubledIsPower(p, n);
    }
    if p.min == 0 || p.max < TWO62 {
      forall n: nat ensures p.Delay(n) == Int64.Min(p.min * Pow2(n), p.max) {
        DelayInRange(p, n);
      }
    } else {
      DoublingOverflows(p);
    }
  }

  // ---- The nested elapsed loop against its two-phase closed form ----

  lemma {:induction false} ElapsedTwoPhase(p: Policy, n: nat)
    requires 0 < p.min <= p.max
    ensures p.ExactElapsed(n) == p.TwoPhase(n)
  {
    if n > 0 {
      ElapsedTwoPhase(p, n - 1);
      var k := p.CapIndex();
      if n <= k {
        assert p.Doubled(n - 1) < p.max;
      } else {
        DoubledMonotone(p, k, n - 1);
        MulSucc(n - k, p.max);
      }
    }
  }

  lemma MulSucc(q: int, d: int)
    ensures q * d == (q - 1) * d + d
  {
  }

  lemma {:induction false} ElapsedMonotone(p: Policy, m: nat, n: nat)
    requires 0 <= p.min <= p.max && m <= n
    ensures 0 <= p.ExactElapsed(m) <= p.ExactElapsed(n)
  {
    if n > 0 {
      DoubledMonotone(p, 0, n - 1);
      ElapsedMonotone(p, if m < n then m else m - 1, n - 1);
    }
  }

  /** The wrapped sum is the exact one as long as the exact one is in range. */
  lemma {:induction false} ElapsedInRange(p: Policy, n: nat)
    requires 0 <= p.min <= p.max < TWO62
    requires p.ExactElapsed(n) <= MAX
    ensures p.Elapsed(n) == p.ExactElapsed(n)
  {
    if n > 0 {
      ElapsedMonotone(p, n - 1, n);
      ElapsedInRange(p, n - 1);
      DelayInRange(p, n - 1);
      ElapsedMonotone(p, n, n);
    }
  }

  /** One grant, decided exactly: attempt n within the budget is followed by
      attempt n + 1 if and only if that one is within the budget too. */
  lemma GrantIff(p: Policy, n: nat)
    requires p.Sane() && p.WithinBudget(n)
    ensures p.GetRetryDelay(n).Some? <==> p.WithinBudget(n + 1)
    ensures p.GetRetryDelay(n).Some? ==> p.GetRetryDelay(n).value == p.ExactDelay(n)
  {
    ElapsedInRange(p, n);
    DelayInRange(p, n);
    ElapsedMonotone(p, 0, n);
  }

  /** The attempt numbers the worker can reach one grant at a time are exactly
      those within the budget. */
  lemma {:induction false} GrantedIff(p: Policy, n: nat)
    requires p.Sane()
    ensures p.Granted(n) <==> p.WithinBudget(n)
  {
    if n > 0 {
      GrantedIff(p, n - 1);
      ElapsedMonotone(p, n - 1, n);
      if p.WithinBudget(n - 1) {
        GrantIff(p, n - 1);
      }
    }
  }

  /** Without an attempt cap the reachable attempt numbers past the doubling
      phase stop at an explicit one. */
  lemma GrantedBound(p: Policy, n: nat)
    requires p.Sane() && 0 < p.min && p.maxAttempts <= 0
    ensures p.Granted(n) ==> n <= p.abort / p.min
    ensures var k := p.CapIndex();
            k <= n ==> (p.Granted(n) <==> n <= k + (p.abort - (p.min * Pow2(k) - p.min)) / p.max)
  {
    GrantedIff(p, n);
    ElapsedTwoPhase(p, n);
    ElapsedAtLeast(p, n);
    QuotientIff(n, p.min, p.abort);
    var k := p.CapIndex();
    DoubledIsPower(p, k);
    if k <= n {
      MulZero(p.max);
      QuotientIff(n - k, p.max, p.abort - (p.Doubled(k) - p.min));
    }
  }

  lemma MulZero(d: int)
    ensures 0 * d == 0
  {
  }

  lemma QuotientIff(q: int, d: int, x: int)
    requires d > 0
    ensures q * d <= x <==> q <= x / d
  {
    var z := x / d;
    assert z * d <= x < (z + 1) * d;
    if q <= z {
      MulMonotone(q, z, d);
    } else {
      MulMonotone(z + 1, q, d);
    }
  }

  lemma MulMonotone(a: int, b: int, d: int)
    requires a <= b && 0 <= d
    ensures a * d <= b * d
  {
    assert 0 <= (b - a) * d == b * d - a * d;
  }

  lemma {:induction false} ElapsedAtLeast(p: Policy, n: nat)
    requires 0 <= p.min <= p.max
    ensures n * p.min <= p.ExactElapsed(n)
  {
    if n > 0 {
      ElapsedAtLeast(p, n - 1);
      DoubledMonotone(p, 0, n - 1);
      MulSucc(n, p.min);
    } else {
      MulZero(p.min);
    }
  }

  // ---- Attempt numbers the engine never grants ----

  lemma {:induction false} ElapsedWraps(p: Policy, n: nat)
    requires 0 <= p.min <= p.max < TWO62
    ensures p.Elapsed(n) == Wrap(p.ExactElapsed(n))
  {
    if n > 0 {
      ElapsedWraps(p, n - 1);
      DelayInRange(p, n - 1);
      WrapSum(p.ExactElapsed(n - 1), p.ExactDelay(n - 1));
    }
  }

  /** GetRetryDelay decides attempt n as the unbounded sums would. */
  predicate DecidedExactly(p: Policy, n: nat) {
    p.GetRetryDelay(n).Some? <==> UnderCap(p, n) && p.ExactElapsed(n + 1) <= p.abort
  }

  /** It grants an attempt past the budget exactly when the next sum, some times
      round, wraps to at most the budget; otherwise it decides every attempt
      number, granted before or not, as it should. */
  lemma DecidedExactlyIff(p: Policy, n: nat)
    requires p.Sane()
    ensures !DecidedExactly(p, n) <==>
              UnderCap(p, n)
              && exists q: nat :: q > 0 && q * SPAN + MIN <= p.ExactElapsed(n + 1) <= q * SPAN + p.abort
  {
    var x := p.ExactElapsed(n + 1);
    ElapsedWraps(p, n + 1);
    ElapsedMonotone(p, 0, n + 1);
    if UnderCap(p, n) {
      AnswerIsNextSum(p, n);
      var q: nat := (x - MIN) / SPAN;
      assert x - MIN == q * SPAN + (x - MIN) % SPAN;
      WrapsRound(x, q);
      if r: nat :| r > 0 && r * SPAN + MIN <= x <= r * SPAN + p.abort {
        WrapsRound(x, r);
      }
    }
  }

  lemma BudgetLeavesRoom(p: Policy, n: nat)
    requires p.Sane() && p.WithinBudget(n)
    ensures p.Room(n)
  {
  }

  /** GetRetryDelay accepts no number above one it refuses. */
  ghost predicate AcceptedDownwardClosed(p: Policy) {
    forall m: nat, n: nat :: m < n && p.GetRetryDelay(n).Some? ==> p.GetRetryDelay(m).Some?
  }

  /** No sum for a number under the attempt cap leaves 64 bits. */
  predicate SumsFit(p: Policy) {
    p.min == 0 || (p.maxAttempts > 0 && p.ExactElapsed(p.maxAttempts - 1) <= MAX)
  }

  predicate UnderCap(p: Policy, n: nat) {
    p.maxAttempts > 0 ==> n + 1 < p.maxAttempts
  }

  lemma {:induction false} NoDelayNoSum(p: Policy, n: nat)
    requires p.min == 0 <= p.max
    ensures p.ExactElapsed(n) == 0
  {
    if n > 0 {
      NoDelayNoSum(p, n - 1);
      DoubledIsPower(p, n - 1);
      MulZero(Pow2(n - 1));
    }
  }

  /** While the sums fit, a number is accepted exactly when the next is within the
      budget. */
  lemma AcceptedIff(p: Policy, n: nat)
    requires p.Sane() && SumsFit(p)
    ensures p.GetRetryDelay(n).Some? <==> UnderCap(p, n) && p.ExactElapsed(n + 1) <= p.abort
  {
    if UnderCap(p, n) {
      if p.min == 0 {
        NoDelayNoSum(p, n + 1);
      } else {
        ElapsedMonotone(p, n + 1, p.maxAttempts - 1);
      }
      ElapsedInRange(p, n + 1);
    }
  }

  /** The first sum that does not fit. */
  lemma {:induction false} FirstOverflow(p: Policy, n: nat) returns (m: nat)
    requires p.Sane() && MAX < p.ExactElapsed(n)
    ensures 0 < m <= n && p.ExactElapsed(m - 1) <= MAX < p.ExactElapsed(m)
  {
    if p.ExactElapsed(n - 1) <= MAX {
      m := n;
    } else {
      m := FirstOverflow(p, n - 1);
    }
  }

  lemma AnswerIsNextSum(p: Policy, n: nat)
    requires UnderCap(p, n)
    ensures p.GetRetryDelay(n).Some? <==> p.Elapsed(n + 1) <= p.abort
  {
    assert p.Elapsed(n + 1) == Wrap(p.Elapsed(n) + p.Delay(n));
  }

  lemma OverflowIsNegative(p: Policy, m: nat)
    requires p.Sane() && m > 0 && p.ExactElapsed(m - 1) <= MAX < p.ExactElapsed(m)
    ensures p.Elapsed(m) < 0 && p.Elapsed(m - 1) > p.abort
  {
    DelayInRange(p, m - 1);
    ElapsedInRange(p, m - 1);
    assert p.Elapsed(m) == Wrap(p.ExactElapsed(m));
  }

  /** It wraps to a negative one, which is accepted, after a refused one. */
  lemma OverflowAccepts(p: Policy, m: nat)
    requires p.Sane() && m > 1 && p.ExactElapsed(m - 1) <= MAX < p.ExactElapsed(m) && UnderCap(p, m - 1)
    ensures p.GetRetryDelay(m - 2).None? && p.GetRetryDelay(m - 1).Some?
  {
    OverflowIsNegative(p, m);
    AnswerIsNextSum(p, m - 1);
    AnswerIsNextSum(p, m - 2);
  }

  /** The accepted attempt numbers are downward closed exactly for the policies
      whose sums fit; in particular an uncapped policy with a positive minimum delay
      always accepts some number above a refused one. */
  lemma AcceptedDownwardClosedIff(p: Policy)
    requires p.Sane()
    ensures AcceptedDownwardClosed(p) <==> SumsFit(p)
  {
    if SumsFit(p) {
      forall m: nat, n: nat | m < n && p.GetRetryDelay(n).Some? ensures p.GetRetryDelay(m).Some? {
        AcceptedIff(p, m);
        AcceptedIff(p, n);
        ElapsedMonotone(p, m + 1, n + 1);
      }
    } else {
      var n := OverflowingNumber(p);
      var m := FirstOverflow(p, n);
      DelayInRange(p, 0);
      assert p.ExactElapsed(1) == p.ExactDelay(0) + p.ExactElapsed(0);
      OverflowAccepts(p, m);
    }
  }

  lemma OverflowingNumber(p: Policy) returns (n: nat)
    requires p.Sane() && !SumsFit(p)
    ensures MAX < p.ExactElapsed(n) && (p.maxAttempts > 0 ==> n < p.maxAttempts)
  {
    if p.maxAttempts > 0 {
      n := p.maxAttempts - 1;
    } else {
      n := MAX + 1;
      ElapsedAtLeast(p, n);
      MulMonotone(1, p.min, n);
    }
  }

  /** For instance: this policy refuses attempt 0 and accepts attempt 4. */
  lemma UnreachedNumbersCanWrap()
    ensures var p := Exponential(TWO62 / 2, TWO62 / 2, 0, 0);
            p.Sane() && p.GetRetryDelay(0).None? && p.GetRetryDelay(4).Some?
  {
    var p := Exponential(TWO62 / 2, TWO62 / 2, 0, 0);
    assert p.Delay(1) == p.Delay(2) == p.Delay(3) == p.Delay(4) == TWO62 / 2;
    assert p.Elapsed(1) == TWO62 / 2;
    assert p.Elapsed(2) == TWO62;
    assert p.Elapsed(3) == TWO62 + TWO62 / 2;
    assert p.Elapsed(4) == MIN;
  }
}
