/** How many HTTP calls one replay generation can cost, although crashes lose the
    record of some of them, and why the retry arithmetic stays in range. */
module CallBounds {
  import opened Clock
  import opened Results
  import opened Int64
  import opened Backoff
  import opened Tables
  import A = Attempt
  import opened Protocol
  import opened Lifecycle
  import opened Fencing
  import opened Reachable
  import opened FencingResults

  // ---- Counting ----

  lemma {:induction false} InjectiveBound(m: map<nat, nat>, b: nat)
    requires forall k :: k in m ==> m[k] < b
    requires forall j, k :: j in m && k in m && m[j] == m[k] ==> j == k
    ensures |m| <= b
  {
    if b == 0 {
      assert m.Keys == {};
    } else if k :| k in m && m[k] == b - 1 {
      InjectiveBound(m - {k}, b - 1);
      assert |m - {k}| == |m| - 1 by {
        assert (m - {k}).Keys == m.Keys - {k};
      }
    } else {
      InjectiveBound(m, b - 1);
    }
  }

  lemma SizeWithoutKey(m: map<nat, int>, k: nat)
    requires k in m
    ensures |m - {k}| == |m| - 1
  {
    assert (m - {k}).Keys == m.Keys - {k};
  }

  /** Instants more than gap apart within [lo, hi]. */
  lemma {:induction false} SpacedBound(m: map<nat, int>, lo: int, hi: int, gap: nat)
    requires m.Keys != {}
    requires forall k :: k in m ==> lo <= m[k] <= hi
    requires forall j, k :: j in m && k in m && j < k ==> m[j] + gap < m[k]
    ensures (|m| - 1) * gap <= hi - lo
  {
    var k := Greatest(m.Keys);
    var rest := m - {k};
    assert rest.Keys == m.Keys - {k};
    SizeWithoutKey(m, k);
    if rest.Keys != {} {
      SpacedBound(rest, lo, m[k] - gap, gap);
      MulSucc(|rest|, gap);
    } else {
      MulZero(gap);
    }
  }

  lemma {:induction false} Greatest(s: set<nat>) returns (k: nat)
    requires s != {}
    ensures k in s && forall j :: j in s ==> j <= k
  {
    var x :| x in s;
    if s == {x} {
      k := x;
    } else {
      var y := Greatest(s - {x});
      assert forall j :: j in s ==> j == x || j in s - {x};
      k := if x < y then y else x;
    }
  }

  // ---- The calls of one generation ----

  predicate IsCall(l: Lease, i: DeliveryId, g: nat) {
    l.id == i && l.copy.generation == g && l.calledAt.Some?
  }

  function RecordedCalls(w: World, i: DeliveryId, g: nat): set<nat> {
    set k | 0 <= k < |w.leases| && IsCall(w.leases[k], i, g) && w.leases[k].recorded
  }

  function LostCalls(w: World, i: DeliveryId, g: nat): set<nat> {
    set k | 0 <= k < |w.leases| && IsCall(w.leases[k], i, g) && !w.leases[k].recorded
  }

  ghost predicate Called(w: World, k: nat) {
    k < |w.leases| && w.leases[k].calledAt.Some?
  }

  /** The step sends the HTTP request of claim k. */
  ghost predicate Calls(p: Policy, w: World, s: Step, k: nat) {
    s == Preflight(k) && At(w, k, Resolved) && PreflightPasses(p, w.leases[k].copy, w.now)
  }

  lemma CallStep(p: Policy, w: World, s: Step, k: nat)
    requires Inv(p, w)
    ensures var w1 := Apply(p, w, s);
            if Called(w, k) then !Calls(p, w, s, k) && Called(w1, k) && w1.leases[k].calledAt == w.leases[k].calledAt
            else Called(w1, k) <==> Calls(p, w, s, k)
  {
    if s.Claim? {
      if k < |ClaimDue(w, s.limit).leases| {
        LeasesAfterClaim(w, s.limit, k);
      }
    } else {
      CallOfWorker(p, w, s, k);
    }
  }

  lemma CallOfWorker(p: Policy, w: World, s: Step, k: nat)
    requires Inv(p, w) && !s.Claim?
    ensures var w1 := Apply(p, w, s);
            if Called(w, k) then !Calls(p, w, s, k) && Called(w1, k) && w1.leases[k].calledAt == w.leases[k].calledAt
            else Called(w1, k) <==> Calls(p, w, s, k)
  {
    if OfWorker(s) {
      WorkCalls(p, w, s, k);
    } else {
      assert Serve(w, s).leases == w.leases;
    }
  }

  lemma WorkCalls(p: Policy, w: World, s: Step, k: nat)
    requires Inv(p, w)
    ensures var w1 := Work(p, w, s);
            if Called(w, k) then !Calls(p, w, s, k) && Called(w1, k) && w1.leases[k].calledAt == w.leases[k].calledAt
            else Called(w1, k) <==> Calls(p, w, s, k)
  {
    if k < |w.leases| {
      assert LeaseOk(p, w.t.Row(w.leases[k].id), w.leases[k], w.issued, w.now);
      assert w.leases[k].stage == Resolved ==> w.leases[k].calledAt.None?;
      WorkSends(p, w, s, k);
    } else {
      assert |Work(p, w, s).leases| == |w.leases|;
    }
  }

  lemma WorkSends(p: Policy, w: World, s: Step, k: nat)
    requires k < |w.leases| && (w.leases[k].stage == Resolved ==> w.leases[k].calledAt.None?)
    ensures var l := w.leases[k];
            && k < |Work(p, w, s).leases|
            && (if l.calledAt.Some? then !Calls(p, w, s, k) && Work(p, w, s).leases[k].calledAt == l.calledAt
                else Work(p, w, s).leases[k].calledAt.Some? <==> Calls(p, w, s, k))
  {
  }

  /** How often claim k's request is sent in a run. */
  ghost function CallsMade(p: Policy, w: World, steps: seq<Step>, k: nat): nat
    decreases |steps|
  {
    if steps == [] then 0
    else (if Calls(p, w, steps[0], k) then 1 else 0) + CallsMade(p, Apply(p, w, steps[0]), steps[1..], k)
  }

  /** A claim makes at most one HTTP call in any run, and its time is remembered. */
  lemma {:induction false} OneCallPerClaim(p: Policy, w: World, steps: seq<Step>, k: nat)
    requires Inv(p, w)
    ensures var w1 := Run(p, w, steps);
            && CallsMade(p, w, steps, k) == (if Called(w1, k) && !Called(w, k) then 1 else 0)
            && (Called(w, k) ==> Called(w1, k) && w1.leases[k].calledAt == w.leases[k].calledAt)
    decreases |steps|
  {
    if steps != [] {
      StepKeepsInv(p, w, steps[0]);
      CallStep(p, w, steps[0], k);
      OneCallPerClaim(p, Apply(p, w, steps[0]), steps[1..], k);
    }
  }

  lemma SameNumberSameCall(p: Policy, w: World, i: DeliveryId, g: nat, j: nat, k: nat)
    requires Inv(p, w) && j in RecordedCalls(w, i, g) && k in RecordedCalls(w, i, g)
    requires w.leases[j].copy.attemptCount == w.leases[k].copy.attemptCount
    ensures j == k
  {
    assert j < k ==> Ordered(w.leases[j], w.leases[k]);
    assert k < j ==> Ordered(w.leases[k], w.leases[j]);
    assert LeaseOk(p, w.t.Row(w.leases[j].id), w.leases[j], w.issued, w.now);
    assert LeaseOk(p, w.t.Row(w.leases[k].id), w.leases[k], w.issued, w.now);
  }

  /** The recorded calls of a generation have different attempt numbers. */
  lemma NumbersBound(p: Policy, w: World, i: DeliveryId, g: nat, b: nat)
    requires Inv(p, w)
    requires forall k :: k in RecordedCalls(w, i, g) ==> w.leases[k].copy.attemptCount < b
    ensures |RecordedCalls(w, i, g)| <= b
  {
    var calls := RecordedCalls(w, i, g);
    var numbers: map<nat, nat> := map k | k in calls :: w.leases[k].copy.attemptCount;
    forall j, k | j in numbers && k in numbers && numbers[j] == numbers[k] ensures j == k {
      SameNumberSameCall(p, w, i, g, j, k);
    }
    InjectiveBound(numbers, b);
    assert numbers.Keys == calls;
  }

  lemma RecordedCallsBound(p: Policy, w: World, i: DeliveryId, g: nat)
    requires Inv(p, w) && p.maxAttempts > 0
    ensures |RecordedCalls(w, i, g)| <= p.maxAttempts
  {
    forall k | k in RecordedCalls(w, i, g) ensures w.leases[k].copy.attemptCount < p.maxAttempts {
      assert LeaseOk(p, w.t.Row(w.leases[k].id), w.leases[k], w.issued, w.now);
    }
    NumbersBound(p, w, i, g, p.maxAttempts);
  }

  /** A call passes its preflight at most abort after the cycle's first claim. */
  lemma CallWithinWindow(p: Policy, w: World, k: nat)
    requires Inv(p, w) && p.abort < MAX && k < |w.leases| && w.leases[k].calledAt.Some?
    ensures var l := w.leases[k];
            && l.copy.cycleStartedAt.Some? && l.copy.claimedAt.Some?
            && l.copy.cycleStartedAt.value <= ClaimedAt(l) <= l.calledAt.value <= l.copy.cycleStartedAt.value + p.abort
  {
    assert LeaseOk(p, w.t.Row(w.leases[k].id), w.leases[k], w.issued, w.now);
  }

  lemma SameCycle(p: Policy, w: World, i: DeliveryId, g: nat, first: nat, k: nat)
    requires Inv(p, w) && p.abort < MAX && first in LostCalls(w, i, g) && k in LostCalls(w, i, g)
    ensures w.leases[first].copy.cycleStartedAt.Some? && w.leases[k].copy.claimedAt.Some?
    ensures w.leases[first].copy.cycleStartedAt.value <= ClaimedAt(w.leases[k])
         <= w.leases[first].copy.cycleStartedAt.value + p.abort
  {
    CallWithinWindow(p, w, first);
    CallWithinWindow(p, w, k);
    assert k < first ==> Ordered(w.leases[k], w.leases[first]);
    assert first < k ==> Ordered(w.leases[first], w.leases[k]);
  }

  /** When the claims of the lost calls were made. */
  function LostClaims(w: World, i: DeliveryId, g: nat): map<nat, Time> {
    map k | k in LostCalls(w, i, g) && w.leases[k].copy.claimedAt.Some? :: ClaimedAt(w.leases[k])
  }

  lemma LostInOrder(p: Policy, w: World, i: DeliveryId, g: nat, j: nat, k: nat)
    requires Inv(p, w) && j in LostClaims(w, i, g) && k in LostClaims(w, i, g) && j < k
    ensures LostClaims(w, i, g)[j] + STALE < LostClaims(w, i, g)[k]
  {
    assert Ordered(w.leases[j], w.leases[k]);
  }

  lemma LostCallsBound(p: Policy, w: World, i: DeliveryId, g: nat)
    requires Inv(p, w) && p.abort < MAX && LostCalls(w, i, g) != {}
    ensures (|LostCalls(w, i, g)| - 1) * STALE <= p.abort
  {
    var first :| first in LostCalls(w, i, g);
    CallWithinWindow(p, w, first);
    var cycle := w.leases[first].copy.cycleStartedAt.value;
    var claims := LostClaims(w, i, g);
    LostInWindow(p, w, i, g, first);
    forall j, k | j in claims && k in claims && j < k ensures claims[j] + STALE < claims[k] {
      LostInOrder(p, w, i, g, j, k);
    }
    SpacedBound(claims, cycle, cycle + p.abort, STALE);
  }

  lemma LostInWindow(p: Policy, w: World, i: DeliveryId, g: nat, first: nat)
    requires Inv(p, w) && p.abort < MAX && first in LostCalls(w, i, g) && w.leases[first].copy.cycleStartedAt.Some?
    ensures var claims, cycle := LostClaims(w, i, g), w.leases[first].copy.cycleStartedAt.value;
            claims.Keys == LostCalls(w, i, g) && forall k :: k in claims ==> cycle <= claims[k] <= cycle + p.abort
  {
    forall k | k in LostCalls(w, i, g)
      ensures k in LostClaims(w, i, g)
      ensures w.leases[first].copy.cycleStartedAt.value <= ClaimedAt(w.leases[k])
           <= w.leases[first].copy.cycleStartedAt.value + p.abort
    {
      SameCycle(p, w, i, g, first, k);
    }
  }

  /** After any run, one generation of one delivery has cost at most maxAttempts
      recorded HTTP calls, and as many lost ones as recoveries fit in the abort
      window, plus one. */
  lemma HttpCallsBounded(p: Policy, w0: World, steps: seq<Step>, i: DeliveryId, g: nat)
    requires Start(w0) && 0 <= p.abort < MAX && p.maxAttempts > 0
    ensures var w := Run(p, w0, steps);
            && |RecordedCalls(w, i, g)| <= p.maxAttempts
            && (|LostCalls(w, i, g)| - 1) * STALE <= p.abort
            && |RecordedCalls(w, i, g)| + |LostCalls(w, i, g)| <= p.maxAttempts + p.abort / STALE + 1
  {
    StartSatisfies(p, w0);
    RunKeepsInv(p, w0, steps);
    CallsBounded(p, Run(p, w0, steps), i, g);
  }

  lemma CallsBounded(p: Policy, w: World, i: DeliveryId, g: nat)
    requires Inv(p, w) && 0 <= p.abort < MAX && p.maxAttempts > 0
    ensures |RecordedCalls(w, i, g)| <= p.maxAttempts
    ensures (|LostCalls(w, i, g)| - 1) * STALE <= p.abort
    ensures |RecordedCalls(w, i, g)| + |LostCalls(w, i, g)| <= p.maxAttempts + p.abort / STALE + 1
  {
    RecordedCallsBound(p, w, i, g);
    var lost := |LostCalls(w, i, g)|;
    if LostCalls(w, i, g) != {} {
      LostCallsBound(p, w, i, g);
    }
    QuotientIff(lost - 1, STALE, p.abort);
  }

  // ---- The arithmetic on reachable attempt numbers ----

  /** Imported rows bring an attempt number of the old queue into generation 0. */
  predicate Counted(d: Delivery) {
    d.event.Broker? || d.generation > 0
  }

  /** The attempt number of a delivery that still runs leaves room for the sums, and
      is within the budget if the engine has counted it. */
  predicate InBudget(p: Policy, d: Delivery) {
    d.status == Pending || d.status == Delivering ==>
      p.Room(d.attemptCount) && (Counted(d) ==> p.WithinBudget(d.attemptCount))
  }

  ghost predicate BudgetInv(p: Policy, w: World) {
    && (forall i :: i in w.t.deliveries ==> InBudget(p, w.t.deliveries[i]))
    && (forall k :: 0 <= k < |w.leases| ==>
          InBudget(p, w.leases[k].copy) && (w.leases[k].stage.Responded? ==> InBudget(p, w.leases[k].stage.done)))
  }

  lemma AnswerInBudget(p: Policy, d: Delivery, calledAt: Option<Time>, http: A.HttpResult, now: Time)
    requires p.Sane() && d.cycleStartedAt.Some? && d.status == Delivering && InBudget(p, d)
    ensures Answered(p, d, calledAt, http, now).Responded? && InBudget(p, Answered(p, d, calledAt, http, now).done)
  {
    var a := A.ClassifyResponse(p, d.attemptCount, now, d.cycleStartedAt, http);
    if a.status == A.ToRetry {
      A.RetryStaysWithinBudget(p, d.attemptCount, now, d.cycleStartedAt, http);
      BudgetLeavesRoom(p, d.attemptCount + 1);
    }
  }

  lemma RowInBudget(p: Policy, r: Option<Delivery>, r1: Option<Delivery>, now: Time)
    requires p.Sane() && (Unclaimed(r, r1, now) || Claimed(r, r1, now) || FailedEarly(r, r1, now))
    requires r.Some? ==> InBudget(p, r.value)
    ensures r1.Some? ==> InBudget(p, r1.value)
  {
  }

  lemma FinishInBudget(p: Policy, w: World, k: nat, i: DeliveryId)
    requires Inv(p, w) && BudgetInv(p, w) && i in Work(p, w, Finish(k)).t.deliveries
    ensures InBudget(p, Work(p, w, Finish(k)).t.deliveries[i])
  {
    if k < |w.leases| && w.leases[k].stage.Responded? {
      var l := w.leases[k];
      assert InBudget(p, l.stage.done);
      assert LeaseOk(p, w.t.Row(l.id), l, w.issued, w.now);
      var t1 := Work(p, w, Finish(k)).t;
      if i != l.id || t1 == w.t {
        assert InBudget(p, w.t.deliveries[i]);
      }
    }
  }

  lemma RowsInBudget(p: Policy, w: World, s: Step, i: DeliveryId)
    requires p.Sane() && Inv(p, w) && BudgetInv(p, w) && i in Apply(p, w, s).t.deliveries
    ensures InBudget(p, Apply(p, w, s).t.deliveries[i])
  {
    if s.Finish? {
      FinishInBudget(p, w, s.k, i);
    } else {
      TransitionGraph(p, w, s, i);
      RowInBudget(p, w.t.Row(i), Apply(p, w, s).t.Row(i), w.now);
    }
  }

  lemma LeasesInBudget(p: Policy, w: World, s: Step, k: nat)
    requires p.Sane() && Inv(p, w) && BudgetInv(p, w) && !s.Claim? && k < |Apply(p, w, s).leases|
    ensures var l := Apply(p, w, s).leases[k];
            InBudget(p, l.copy) && (l.stage.Responded? ==> InBudget(p, l.stage.done))
  {
    if OfWorker(s) {
      WorkInBudget(p, w, s, k);
    } else {
      assert Serve(w, s).leases == w.leases;
    }
  }

  lemma WorkInBudget(p: Policy, w: World, s: Step, k: nat)
    requires p.Sane() && Inv(p, w) && BudgetInv(p, w) && k < |Work(p, w, s).leases|
    ensures var l := Work(p, w, s).leases[k];
            InBudget(p, l.copy) && (l.stage.Responded? ==> InBudget(p, l.stage.done))
  {
    assert InBudget(p, w.leases[k].copy);
    if s.Respond? && s.k == k && At(w, k, Calling) {
      assert LeaseOk(p, w.t.Row(w.leases[k].id), w.leases[k], w.issued, w.now);
      AnswerInBudget(p, w.leases[k].copy, w.leases[k].calledAt, s.http, w.now);
    }
  }

  lemma StepKeepsBudget(p: Policy, w: World, s: Step)
    requires p.Sane() && Inv(p, w) && BudgetInv(p, w)
    ensures BudgetInv(p, Apply(p, w, s))
  {
    var w1 := Apply(p, w, s);
    forall i | i in w1.t.deliveries ensures InBudget(p, w1.t.deliveries[i]) {
      RowsInBudget(p, w, s, i);
    }
    forall k | 0 <= k < |w1.leases|
      ensures InBudget(p, w1.leases[k].copy) && (w1.leases[k].stage.Responded? ==> InBudget(p, w1.leases[k].stage.done))
    {
      if s.Claim? {
        LeasesAfterClaim(w, s.limit, k);
        if k >= |w.leases| {
          RowsInBudget(p, w, s, w1.leases[k].id);
        }
      } else {
        LeasesInBudget(p, w, s, k);
      }
    }
  }

  lemma {:induction false} RunKeepsBudget(p: Policy, w: World, steps: seq<Step>)
    requires p.Sane() && Inv(p, w) && BudgetInv(p, w)
    ensures BudgetInv(p, Run(p, w, steps))
    decreases |steps|
  {
    if steps != [] {
      StepKeepsInv(p, w, steps[0]);
      StepKeepsBudget(p, w, steps[0]);
      RunKeepsBudget(p, Apply(p, w, steps[0]), steps[1..]);
    }
  }

  /** The delivery is unfinished in the table, or a worker has it as its copy,
      whatever became of the row since. */
  ghost predicate InUse(w: World, d: Delivery) {
    || (exists i :: i in w.t.deliveries && w.t.deliveries[i] == d && !d.Terminal())
    || (exists k :: 0 <= k < |w.leases| && w.leases[k].copy == d)
  }

  /** For every attempt number a worker can ask the policy about, after any run, every
      shift and sum of the two loops is exact: no intermediate value wraps. Those
      the engine has counted are within the budget. Of imported rows BudgetInv asks
      only that their first number leaves room. */
  lemma ReachableArithmeticIsExact(p: Policy, w0: World, steps: seq<Step>, d: Delivery, m: nat)
    requires p.Sane() && Start(w0) && BudgetInv(p, w0)
    requires InUse(Run(p, w0, steps), d) && m <= d.attemptCount
    ensures p.Room(d.attemptCount) && (Counted(d) ==> p.WithinBudget(d.attemptCount))
    ensures Fits(2 * p.Delay(m)) && p.Delay(m) == p.ExactDelay(m)
    ensures Fits(p.Elapsed(m) + p.Delay(m)) && p.Elapsed(m) == p.ExactElapsed(m)
  {
    StartSatisfies(p, w0);
    RunKeepsInv(p, w0, steps);
    RunKeepsBudget(p, w0, steps);
    InUseIsInBudget(p, Run(p, w0, steps), d);
    ElapsedMonotone(p, m, d.attemptCount);
    ElapsedInRange(p, m);
    DelayInRange(p, m);
  }

  lemma InUseIsInBudget(p: Policy, w: World, d: Delivery)
    requires Inv(p, w) && BudgetInv(p, w) && InUse(w, d)
    ensures p.Room(d.attemptCount) && (Counted(d) ==> p.WithinBudget(d.attemptCount))
  {
    if k :| 0 <= k < |w.leases| && w.leases[k].copy == d {
      assert LeaseOk(p, w.t.Row(w.leases[k].id), w.leases[k], w.issued, w.now);
      assert InBudget(p, w.leases[k].copy);
    }
  }

  /** The claims of delivery i are of an event of the broker. */
  ghost predicate FromBroker(w: World, i: DeliveryId) {
    forall k :: 0 <= k < |w.leases| && w.leases[k].id == i ==> w.leases[k].copy.event.Broker?
  }

  /** With a positive minimum delay even an uncapped policy records a bounded
      number of calls per generation that the engine counts from 0. */
  lemma UncappedCallsBounded(p: Policy, w0: World, steps: seq<Step>, i: DeliveryId, g: nat)
    requires p.Sane() && 0 < p.min && Start(w0) && BudgetInv(p, w0)
    requires g > 0 || FromBroker(Run(p, w0, steps), i)
    ensures |RecordedCalls(Run(p, w0, steps), i, g)| <= p.abort / p.min + 1
  {
    StartSatisfies(p, w0);
    RunKeepsInv(p, w0, steps);
    RunKeepsBudget(p, w0, steps);
    BudgetBoundsCalls(p, Run(p, w0, steps), i, g);
  }

  lemma CallNumber(p: Policy, w: World, k: nat)
    requires p.Sane() && 0 < p.min && Inv(p, w) && BudgetInv(p, w)
    requires k < |w.leases| && Counted(w.leases[k].copy)
    ensures w.leases[k].copy.attemptCount < p.abort / p.min + 1
  {
    assert LeaseOk(p, w.t.Row(w.leases[k].id), w.leases[k], w.issued, w.now);
    assert InBudget(p, w.leases[k].copy);
    ElapsedAtLeast(p, w.leases[k].copy.attemptCount);
    QuotientIff(w.leases[k].copy.attemptCount, p.min, p.abort);
  }

  lemma BudgetBoundsCalls(p: Policy, w: World, i: DeliveryId, g: nat)
    requires p.Sane() && 0 < p.min && Inv(p, w) && BudgetInv(p, w)
    requires g > 0 || FromBroker(w, i)
    ensures |RecordedCalls(w, i, g)| <= p.abort / p.min + 1
  {
    forall k | k in RecordedCalls(w, i, g) ensures w.leases[k].copy.attemptCount < p.abort / p.min + 1 {
      CallNumber(p, w, k);
    }
    NumbersBound(p, w, i, g, p.abort / p.min + 1);
  }
}
