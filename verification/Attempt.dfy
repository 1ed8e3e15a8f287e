/** One HTTP attempt (pkg/attempt.go): what the response says about the delivery
    and when the next attempt is due. The HTTP exchange itself is an input. */
module Attempt {
  import opened Clock
  import opened Int64
  import opened Results
  import opened Backoff

  /** A Retry-After header after trimming: the outcome of strconv.Atoi, else of
      http.ParseTime. */
  datatype Header = Absent | Seconds(secs: int64) | Date(at: Time) | Unparseable

  datatype HttpResult =
    | TransportError
    | Response(code: int, bodyRead: bool, retryAfter: Header)

  datatype AttemptStatus = Success | ToRetry | Failed

  datatype Attempt = Attempt(status: AttemptStatus, code: int, nextRetryAfter: Option<Time>)

  predicate IsPermanentClientError(code: int) {
    400 <= code < 500 && code != 408 && code != 429
  }

  function TerminalStatus(code: int): Option<AttemptStatus> {
    if 200 <= code < 300 then Some(Success)
    else if IsPermanentClientError(code) then Some(Failed)
    else None
  }

  function ParseRetryAfter(h: Header, now: Time): Option<int64> {
    match h
    case Seconds(secs) =>
      if secs < 0 then None else Some(Min(Wrap(secs * SECOND), SIX_HOURS))
    case Date(at) =>
      var d := Saturate(at - now);
      if d > 0 then Some(Min(d, SIX_HOURS)) else None
    case _ => None
  }

  function ResolveRetryDelay(p: Policy, n: nat, now: Time, h: Header): Option<int64> {
    match p.GetRetryDelay(n)
    case None => None
    case Some(delay) =>
      match ParseRetryAfter(h, now)
      case Some(retryAfter) =>
        if retryAfter > delay then p.LimitRetryDelay(n, retryAfter) else Some(delay)
      case None => Some(delay)
  }

  /** LimitRetryWindow on the distance from the first attempt; no check when the
      first attempt's time is unknown. */
  predicate WindowAllows(p: Policy, first: Option<Time>, next: Time) {
    first.Some? ==> p.WithinWindow(Saturate(next - first.value))
  }

  function ScheduleRetry(base: Attempt, p: Policy, n: nat, now: Time, first: Option<Time>,
                         requested: Option<int64>): Attempt
  {
    var delay := if requested.Some? then requested else p.GetRetryDelay(n);
    if delay.None? || !WindowAllows(p, first, now + delay.value) then
      base.(status := Failed)
    else
      base.(status := ToRetry, nextRetryAfter := Some(now + delay.value))
  }

  /** classifyResponse, with its separate branch for a body that could not be
      read. */
  function ClassifyResponse(p: Policy, n: nat, now: Time, first: Option<Time>, r: HttpResult): Attempt {
    var blank := Attempt(Failed, 0, None);
    match r
    case TransportError => ScheduleRetry(blank, p, n, now, first, None)
    case Response(code, bodyRead, header) =>
      var base := blank.(code := code);
      if !bodyRead then
        match TerminalStatus(code) {
          case Some(status) => base.(status := status)
          case None =>
            var delay := ResolveRetryDelay(p, n, now, header);
            if delay.None? then base else ScheduleRetry(base, p, n, now, first, delay)
        }
      else
        match TerminalStatus(code) {
          case Some(status) => base.(status := status)
          case None =>
            var delay := ResolveRetryDelay(p, n, now, header);
            if delay.None? then base else ScheduleRetry(base, p, n, now, first, delay)
        }
  }

  // ---- The decision stated without the code's order of checks ----

  /** The wait the endpoint and the policy ask for together. */
  function RequestedWait(p: Policy, n: nat, now: Time, r: HttpResult): int {
    var asked := if r.Response? then ParseRetryAfter(r.retryAfter, now) else None;
    if asked.Some? then Max(p.ExactDelay(n), asked.value) else p.ExactDelay(n)
  }

  predicate Retryable(r: HttpResult) {
    r.TransportError? || r.code == 408 || r.code == 429 || !(200 <= r.code < 300 || 400 <= r.code < 500)
  }

  /** The nominal budget and the attempt cap allow one more retry after wait. */
  predicate BudgetAllows(p: Policy, n: nat, wait: int) {
    (p.maxAttempts > 0 ==> n + 1 < p.maxAttempts) && p.ExactElapsed(n) + wait <= p.abort
  }

  lemma GetRetryDelayExact(p: Policy, n: nat)
    requires p.Sane() && p.Room(n)
    ensures p.GetRetryDelay(n) == if BudgetAllows(p, n, p.ExactDelay(n)) then Some(p.ExactDelay(n)) else None
  {
    ElapsedInRange(p, n);
    DelayInRange(p, n);
    ElapsedMonotone(p, 0, n);
  }

  lemma LimitRetryDelayExact(p: Policy, n: nat, delay: int64)
    requires p.Sane() && p.Room(n) && 0 <= delay <= SIX_HOURS
    ensures p.LimitRetryDelay(n, delay) == if p.ExactElapsed(n) + delay <= p.abort then Some(delay) else None
  {
    ElapsedInRange(p, n);
    ElapsedMonotone(p, 0, n);
  }

  lemma ResolveRetryDelayExact(p: Policy, n: nat, now: Time, r: HttpResult)
    requires p.Sane() && p.Room(n) && r.Response?
    ensures var wait := RequestedWait(p, n, now, r);
            Fits(wait)
            && ResolveRetryDelay(p, n, now, r.retryAfter) == if BudgetAllows(p, n, wait) then Some(wait) else None
  {
    DelayInRange(p, n);
    GetRetryDelayExact(p, n);
    var asked := ParseRetryAfter(r.retryAfter, now);
    if asked.Some? && asked.value > p.ExactDelay(n) {
      LimitRetryDelayExact(p, n, asked.value);
    }
  }

  /** A retry is scheduled if and only if the answer is retryable, an attempt is
      left, and the requested wait fits both the nominal budget and the real
      window; it is then scheduled after exactly that wait. Whether the body
      could be read plays no part, nor whether the attempt was within the budget. */
  lemma RetryEnvelope(p: Policy, n: nat, now: Time, first: Option<Time>, r: HttpResult)
    requires p.Sane() && p.Room(n)
    ensures var a := ClassifyResponse(p, n, now, first, r);
            var wait := RequestedWait(p, n, now, r);
            && (a.status == Success <==> r.Response? && 200 <= r.code < 300)
            && (a.status == ToRetry <==>
                  Retryable(r) && BudgetAllows(p, n, wait)
                  && (first.Some? ==> now + wait - first.value <= p.abort))
            && a.nextRetryAfter == (if a.status == ToRetry then Some(now + wait) else None)
            && a.code == (if r.Response? then r.code else 0)
  {
    GetRetryDelayExact(p, n);
    if r.Response? {
      ResolveRetryDelayExact(p, n, now, r);
    }
  }

  /** The wait of a scheduled retry is bracketed by the policy's delay and the
      Retry-After below, and by the policy's delay or six hours above. */
  lemma WaitBracket(p: Policy, n: nat, now: Time, r: HttpResult)
    requires p.Sane()
    ensures var wait := RequestedWait(p, n, now, r);
            && 0 <= p.min <= p.ExactDelay(n) <= wait <= Max(p.ExactDelay(n), SIX_HOURS)
            && (r.Response? && ParseRetryAfter(r.retryAfter, now).Some? ==>
                  ParseRetryAfter(r.retryAfter, now).value <= wait)
  {
    DelayInRange(p, n);
  }

  /** A retry granted at attempt n leaves attempt n + 1 within the budget, even if
      attempt n was not. */
  lemma RetryStaysWithinBudget(p: Policy, n: nat, now: Time, first: Option<Time>, r: HttpResult)
    requires p.Sane() && p.Room(n)
    requires ClassifyResponse(p, n, now, first, r).status == ToRetry
    ensures p.WithinBudget(n + 1)
    ensures now <= ClassifyResponse(p, n, now, first, r).nextRetryAfter.value
  {
    RetryEnvelope(p, n, now, first, r);
    WaitBracket(p, n, now, r);
  }

  // ---- Retry-After as a date ----

  /** A date is honoured exactly when it lies ahead, up to six hours; a negative number
      of seconds, like no header, is not. */
  lemma DateHonoured(at: Time, now: Time)
    ensures ParseRetryAfter(Date(at), now)
         == if at > now then Some(Min(at - now, 21_600_000_000_000)) else None
    ensures ParseRetryAfter(Absent, now) == ParseRetryAfter(Unparseable, now) == None
    ensures forall secs: int64 :: secs < 0 ==> ParseRetryAfter(Seconds(secs), now) == None
  {
  }

  // ---- Retry-After in seconds ----

  const LAST_UNWRAPPED_SECOND := 9223372036

  /** The seconds whose nanoseconds wrap, q times round, to six hours or more. */
  function FirstHonoured(q: nat): int {
    (q * SPAN + SIX_HOURS + SECOND - 1) / SECOND
  }

  function LastHonoured(q: nat): int {
    (q * SPAN + MAX) / SECOND
  }

  /** A non-negative number of seconds is honoured, clamped to six hours, exactly
      when its nanoseconds fit a duration, or lie in one of the ranges that wrap to
      six hours or more. */
  lemma SecondsHonoured(secs: int64, now: Time)
    requires 0 <= secs
    ensures ParseRetryAfter(Seconds(secs), now) == Some(Min(secs * SECOND, SIX_HOURS))
            <==> secs <= LAST_UNWRAPPED_SECOND || exists q: nat :: FirstHonoured(q) <= secs <= LastHonoured(q)
  {
    var x := secs * SECOND;
    var q: nat := (x - MIN) / SPAN;
    assert x - MIN == q * SPAN + (x - MIN) % SPAN;
    WrapsRound(x, q);
    if secs > LAST_UNWRAPPED_SECOND {
      assert x > SIX_HOURS;
      HonouredIff(secs, q);
      if r: nat :| FirstHonoured(r) <= secs <= LastHonoured(r) {
        HonouredIff(secs, r);
        WrapsRound(x, r);
      }
    }
  }

  lemma HonouredIff(secs: int, q: nat)
    ensures FirstHonoured(q) <= secs <= LastHonoured(q) <==> q * SPAN + SIX_HOURS <= secs * SECOND <= q * SPAN + MAX
  {
    CeilIff(secs, q * SPAN + SIX_HOURS);
    FloorIff(secs, q * SPAN + MAX);
  }

  lemma FloorIff(n: int, x: int)
    ensures n <= x / SECOND <==> n * SECOND <= x
  {
  }

  lemma CeilIff(n: int, x: int)
    ensures (x + SECOND - 1) / SECOND <= n <==> x <= n * SECOND
  {
  }

  /** One second more than fits: the header asks for centuries, and the parsed
      delay is negative, so the policy's own delay is used. */
  lemma HugeSecondsAreIgnored(p: Policy, n: nat, now: Time)
    requires p.Sane()
    ensures var h := Seconds(LAST_UNWRAPPED_SECOND + 1);
            && ParseRetryAfter(h, now).Some? && ParseRetryAfter(h, now).value < 0
            && ResolveRetryDelay(p, n, now, h) == p.GetRetryDelay(n)
  {
    DelayInRange(p, n);
  }
}
