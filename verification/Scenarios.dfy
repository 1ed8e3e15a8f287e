/** Small runs from a start world, and small tables, in which the engine and the
    import do what their documentation does not say: each shows that the exact
    condition of a theorem is met. */
module Scenarios {
  import opened Clock
  import opened Int64
  import opened Results
  import opened Backoff
  import opened Keyset
  import opened Tables
  import opened Transactions
  import opened Invariants
  import A = Attempt
  import opened Protocol
  import opened Fencing
  import opened Reachable
  import opened FencingResults
  import opened Overtaking
  import B = Backfill

  const ONE_SECOND_POLICY := Exponential(SECOND, SECOND, 1000 * SECOND, 0)

  /** One live config, subscribed to event type 0. */
  const SUBSCRIBER := Config({0}, true, 0, None)

  const FIRST := NewDelivery(Broker(0), 0, 0)

  /** One delivery, due at time 0. */
  const BEGIN := World(Tables(map[0 := SUBSCRIBER], map[0 := FIRST], map[], map[]), 0, [], {0}, [])

  lemma BeginIsStart()
    ensures Start(BEGIN)
  {
  }

  lemma OnlyDue(t: Tables, limit: int, now: Time, k: Key)
    requires DueKeys(t, now) == {k}
    ensures ClaimKeys(t, limit, now) == [k]
  {
    Sorts(Asc, {k});
    assert Sorted(Asc, {k})[0] in Sorted(Asc, {k});
    assert Sorted(Asc, {k}) == [k];
  }

  lemma OnlyClaimed(t: Tables, limit: int, now: Time, d: Delivery)
    requires t.deliveries == map[0 := d] && Due(t, d, now)
    ensures ClaimKeys(t, limit, now) == [Key(d.nextAttemptAt.value, 0)]
    ensures ClaimDeliveries(t, limit, now) == t.(deliveries := map[0 := ClaimRow(d, now)])
  {
    var k := Key(d.nextAttemptAt.value, 0);
    assert DueKeys(t, now) == {k} by {
      forall x ensures x in DueKeys(t, now) <==> x == k {
      }
    }
    OnlyDue(t, limit, now, k);
    assert k in [k];
    assert 0 in Ids([k]);
    assert ClaimDeliveries(t, limit, now).deliveries == map[0 := ClaimRow(d, now)];
  }

  /** A claim of the one delivery there is. */
  lemma ClaimOnly(w: World, limit: int, d: Delivery)
    requires w.t.deliveries == map[0 := d] && Due(w.t, d, w.now)
    ensures ClaimDue(w, limit)
         == w.(t := w.t.(deliveries := map[0 := ClaimRow(d, w.now)]),
               leases := w.leases + [Lease(0, ClaimRow(d, w.now), Fresh, None, false)])
  {
    OnlyClaimed(w.t, limit, w.now, d);
    ClaimedAreRows(w.t, limit, w.now);
    var t1 := ClaimDeliveries(w.t, limit, w.now);
    assert NewLeases(t1, [Key(d.nextAttemptAt.value, 0)]) == [Lease(0, t1.deliveries[0], Fresh, None, false)];
  }

  // ---- A cancelled delivery on a live config ----

  const HELD := ClaimRow(FIRST, 0)

  /** The world with one row and the leases of its claims. */
  function With(config: Config, d: Delivery, leases: seq<Lease>, now: Time): World {
    World(Tables(map[0 := config], map[0 := d], map[], map[]), now, leases, {0}, [])
  }

  function Old(s: Stage): Lease {
    Lease(0, HELD, s, None, false)
  }

  const INACTIVE := SUBSCRIBER.(active := false)

  const CLAIMED := With(SUBSCRIBER, HELD, [Old(Fresh)], 0)
  const SWITCHED_OFF := With(INACTIVE, HELD, [Old(Fresh)], 0)
  const LOOKED_UP := With(INACTIVE, HELD, [Old(Doomed)], 0)
  const SWITCHED_ON := With(SUBSCRIBER, HELD, [Old(Doomed)], 0)

  const LATE_CANCEL: seq<Step> := [Claim(1), SetActive(0, false)] + [Lookup(0), SetActive(0, true)]

  lemma FirstClaim(p: Policy)
    ensures Apply(p, BEGIN, Claim(1)) == CLAIMED
  {
    ClaimOnly(BEGIN, 1, FIRST);
  }

  lemma SwitchedOff(p: Policy)
    ensures Apply(p, CLAIMED, SetActive(0, false)) == SWITCHED_OFF
  {
    assert CancelPending(SWITCHED_OFF.t, 0, 0).deliveries == map[0 := HELD];
  }

  lemma LookedUp(p: Policy)
    ensures Apply(p, SWITCHED_OFF, Lookup(0)) == LOOKED_UP
  {
    assert WithStage(SWITCHED_OFF, 0, Doomed).leases == [Old(Doomed)];
  }

  lemma SwitchedOn(p: Policy)
    ensures Apply(p, LOOKED_UP, SetActive(0, true)) == SWITCHED_ON
  {
    assert LOOKED_UP.t.configs[0 := SUBSCRIBER] == map[0 := SUBSCRIBER];
  }

  /** The worker looks its config up while it is switched off. */
  lemma LookupWhileInactive(p: Policy)
    ensures Run(p, BEGIN, LATE_CANCEL) == SWITCHED_ON
  {
    FirstClaim(p);
    SwitchedOff(p);
    RunThrough(p, BEGIN, Claim(1), CLAIMED, SetActive(0, false), SWITCHED_OFF);
    LookedUp(p);
    SwitchedOn(p);
    RunThrough(p, SWITCHED_OFF, Lookup(0), LOOKED_UP, SetActive(0, true), SWITCHED_ON);
    RunAppend(p, BEGIN, [Claim(1), SetActive(0, false)], [Lookup(0), SetActive(0, true)]);
  }

  lemma RunIsInv(p: Policy, steps: seq<Step>)
    ensures Inv(p, Run(p, BEGIN, steps))
  {
    BeginIsStart();
    StartSatisfies(p, BEGIN);
    RunKeepsInv(p, BEGIN, steps);
  }

  /** It still holds its claim, and cancels the delivery after its config is live
      again. */
  lemma HolderCancelsOnLiveConfig(p: Policy)
    ensures Start(BEGIN) && Run(p, BEGIN, LATE_CANCEL) == SWITCHED_ON
    ensures Current(SWITCHED_ON.t.Row(0), SWITCHED_ON.leases[0])
    ensures CancelledOnLive(SWITCHED_ON.t, Apply(p, SWITCHED_ON, CancelLease(0)).t, 0)
  {
    BeginIsStart();
    LookupWhileInactive(p);
    RunIsInv(p, LATE_CANCEL);
    CancelIsNotFenced(p, SWITCHED_ON, CancelLease(0), 0);
  }

  const WAITS := RecoverRow(HELD, true, STALE + 1)
  const RECOVERED := With(SUBSCRIBER, WAITS, [Old(Doomed)], STALE + 1)

  lemma RecoveredRun(p: Policy)
    ensures Run(p, BEGIN, LATE_CANCEL + [Tick(STALE + 1), Recover]) == RECOVERED
  {
    LookupWhileInactive(p);
    var late := With(SUBSCRIBER, HELD, [Old(Doomed)], STALE + 1);
    assert Apply(p, SWITCHED_ON, Tick(STALE + 1)) == late;
    StaleIsRecovered(p);
    RunThrough(p, SWITCHED_ON, Tick(STALE + 1), late, Recover, RECOVERED);
    RunAppend(p, BEGIN, LATE_CANCEL, [Tick(STALE + 1), Recover]);
  }

  lemma StaleIsRecovered(p: Policy)
    ensures Apply(p, With(SUBSCRIBER, HELD, [Old(Doomed)], STALE + 1), Recover) == RECOVERED
  {
    var t := With(SUBSCRIBER, HELD, [Old(Doomed)], STALE + 1).t;
    assert RecoverStaleDeliveries(t, STALE, STALE + 1).deliveries == map[0 := WAITS];
  }

  /** It has lost its claim to a recovery, and cancels the row that waits. */
  lemma SupersededCancelsWaitingRow(p: Policy)
    ensures Run(p, BEGIN, LATE_CANCEL + [Tick(STALE + 1), Recover]) == RECOVERED && PendingAt(RECOVERED.t, 0)
    ensures CancelledOnLive(RECOVERED.t, Apply(p, RECOVERED, CancelLease(0)).t, 0)
  {
    RecoveredRun(p);
    RunIsInv(p, LATE_CANCEL + [Tick(STALE + 1), Recover]);
    CancelIsNotFenced(p, RECOVERED, CancelLease(0), 0);
  }

  const AGAIN := ClaimRow(WAITS, STALE + 1)
  const RECLAIMED := With(SUBSCRIBER, AGAIN, [Old(Doomed), Lease(0, AGAIN, Fresh, None, false)], STALE + 1)

  lemma Reclaimed(p: Policy)
    ensures Apply(p, RECOVERED, Claim(1)) == RECLAIMED
  {
    ClaimOnly(RECOVERED, 1, WAITS);
  }

  /** A newer claim holds the row, and loses it to the old worker. */
  lemma SupersededCancelsHeldRow(p: Policy)
    ensures Run(p, BEGIN, LATE_CANCEL + [Tick(STALE + 1), Recover] + [Claim(1)]) == RECLAIMED
    ensures Current(RECLAIMED.t.Row(0), RECLAIMED.leases[1])
    ensures CancelledOnLive(RECLAIMED.t, Apply(p, RECLAIMED, CancelLease(0)).t, 0)
  {
    var steps := LATE_CANCEL + [Tick(STALE + 1), Recover];
    RecoveredRun(p);
    Reclaimed(p);
    RunOfOne(p, RECOVERED, Claim(1));
    RunAppend(p, BEGIN, steps, [Claim(1)]);
    RunIsInv(p, steps + [Claim(1)]);
    CancelIsNotFenced(p, RECLAIMED, CancelLease(0), 0);
  }

  // ---- A slow completion ahead of a waiting row ----

  const CALL: seq<Step> := [Claim(1), Lookup(0)] + [Preflight(0), Respond(0, A.TransportError)]

  const RETRY := HELD.(status := Pending, attemptCount := 1, nextAttemptAt := Some(SECOND), lastAttemptAt := Some(0))

  const ANSWERED := Responded(RETRY, AttemptRow(RetryableFailure, 0, 0))

  const RESOLVED := With(SUBSCRIBER, HELD, [Old(Resolved)], 0)
  const CALLING := With(SUBSCRIBER, HELD, [Lease(0, HELD, Calling, Some(0), false)], 0)
  const FAILED := With(SUBSCRIBER, HELD, [Lease(0, HELD, ANSWERED, Some(0), false)], 0)

  lemma ConfigFound(p: Policy)
    ensures Apply(p, CLAIMED, Lookup(0)) == RESOLVED
  {
    assert WithStage(CLAIMED, 0, Resolved).leases == [Old(Resolved)];
  }

  lemma CallSent()
    ensures Apply(ONE_SECOND_POLICY, RESOLVED, Preflight(0)) == CALLING
  {
    assert PreflightPasses(ONE_SECOND_POLICY, HELD, 0);
    assert [Old(Resolved)][0 := Lease(0, HELD, Calling, Some(0), false)] == CALLING.leases;
  }

  lemma FailureAnswered()
    ensures Apply(ONE_SECOND_POLICY, CALLING, Respond(0, A.TransportError)) == FAILED
  {
    FirstFailure();
    assert WithStage(CALLING, 0, ANSWERED).leases == FAILED.leases;
  }

  lemma CallFails()
    ensures Run(ONE_SECOND_POLICY, BEGIN, CALL) == FAILED
  {
    var p := ONE_SECOND_POLICY;
    FirstClaim(p);
    ConfigFound(p);
    RunThrough(p, BEGIN, Claim(1), CLAIMED, Lookup(0), RESOLVED);
    CallSent();
    FailureAnswered();
    RunThrough(p, RESOLVED, Preflight(0), CALLING, Respond(0, A.TransportError), FAILED);
    RunAppend(p, BEGIN, [Claim(1), Lookup(0)], [Preflight(0), Respond(0, A.TransportError)]);
  }

  lemma FirstFailure()
    ensures Answered(ONE_SECOND_POLICY, HELD, Some(0), A.TransportError, 0)
         == Responded(RETRY, AttemptRow(RetryableFailure, 0, 0))
  {
    var p := ONE_SECOND_POLICY;
    assert p.GetRetryDelay(0) == Some(SECOND);
    assert A.ClassifyResponse(p, 0, 0, Some(0), A.TransportError) == A.Attempt(A.ToRetry, 0, Some(SECOND));
  }

  const SLOW: seq<Step> := [Tick(5 * SECOND), Enqueue(1, 0, 5 * SECOND, map[1 := 0])] + [Tick(6 * SECOND)]

  const SECOND_DUE := Key(5 * SECOND, 1)

  const TWO_ROWS :=
    Tables(map[0 := SUBSCRIBER], map[0 := HELD, 1 := NewDelivery(Broker(1), 0, 5 * SECOND)], map[], map[])

  const WAITED := World(TWO_ROWS, 6 * SECOND, FAILED.leases, {0, 1}, [])

  /** Delivery 1 has waited for a second and is next; when the worker's completion
      commits, the retry of delivery 0 is ahead of it. */
  lemma SlowCompletionGoesFirst()
    ensures Start(BEGIN) && Run(ONE_SECOND_POLICY, BEGIN, CALL + SLOW) == WAITED
    ensures Waiting(WAITED, SECOND_DUE) && Ahead(WAITED, SECOND_DUE) == {}
    ensures Ahead(Apply(ONE_SECOND_POLICY, WAITED, Finish(0)), SECOND_DUE) == {Key(SECOND, 0)}
  {
    BeginIsStart();
    SlowRun();
    RunIsInv(ONE_SECOND_POLICY, CALL + SLOW);
    NoneAhead();
    RetryGoesFirst();
  }

  lemma RetryGoesFirst()
    requires Inv(ONE_SECOND_POLICY, WAITED) && Ahead(WAITED, SECOND_DUE) == {}
    ensures Ahead(Apply(ONE_SECOND_POLICY, WAITED, Finish(0)), SECOND_DUE) == {Key(SECOND, 0)}
  {
    SlowCompletionOvertakes(ONE_SECOND_POLICY, WAITED, 0, SECOND_DUE);
    assert Stamp(WAITED, 0) == Key(SECOND, 0);
  }

  lemma NoneAhead()
    ensures Ahead(WAITED, SECOND_DUE) == {}
  {
    assert DueKeys(TWO_ROWS, 6 * SECOND) == {SECOND_DUE} by {
      forall k ensures k in DueKeys(TWO_ROWS, 6 * SECOND) <==> k == SECOND_DUE {
      }
    }
  }

  lemma SlowRun()
    ensures Run(ONE_SECOND_POLICY, BEGIN, CALL + SLOW) == WAITED
  {
    var p := ONE_SECOND_POLICY;
    CallFails();
    var later := FAILED.(now := 5 * SECOND);
    var queued := WAITED.(now := 5 * SECOND);
    assert Apply(p, FAILED, Tick(5 * SECOND)) == later;
    SecondQueued();
    assert Apply(p, queued, Tick(6 * SECOND)) == WAITED;
    RunThrough(p, FAILED, Tick(5 * SECOND), later, Enqueue(1, 0, 5 * SECOND, map[1 := 0]), queued);
    RunOfOne(p, queued, Tick(6 * SECOND));
    RunAppend(p, FAILED, [Tick(5 * SECOND), Enqueue(1, 0, 5 * SECOND, map[1 := 0])], [Tick(6 * SECOND)]);
    RunAppend(p, BEGIN, CALL, SLOW);
  }

  lemma SecondQueued()
    ensures Apply(ONE_SECOND_POLICY, FAILED.(now := 5 * SECOND), Enqueue(1, 0, 5 * SECOND, map[1 := 0]))
         == WAITED.(now := 5 * SECOND)
  {
    var w := FAILED.(now := 5 * SECOND);
    var plan: map<DeliveryId, ConfigId> := map[1 := 0];
    assert Matching(w.t, 0) == {0};
    assert 1 in plan && plan[1] == 0;
    assert FreshPlan(w.t, 0, plan, w.issued);
    EnqueueSecond(w);
    assert w.issued + plan.Keys == {0, 1};
  }

  lemma EnqueueSecond(w: World)
    requires w.t == Tables(map[0 := SUBSCRIBER], map[0 := HELD], map[], map[])
    ensures EnqueueEvent(w.t, Broker(1), 5 * SECOND, map[1 := 0]).deliveries
         == map[0 := HELD, 1 := NewDelivery(Broker(1), 0, 5 * SECOND)]
  {
    assert !w.t.HasRow(Broker(1), 0);
    var rows := PlannedRows(Broker(1), 5 * SECOND, map[1 := 0]);
    assert rows == map[1 := NewDelivery(Broker(1), 0, 5 * SECOND)];
    assert Unconflicted(w.t, rows) == rows;
  }

  // ---- An import that never ends ----

  const OPTIONS := B.Options(100, 100, 1)

  /** Two outstanding attempts of one webhook, the older one updated last. */
  const OLDER := B.LegacyAttempt(7, 1, 9, Some(0), SUBSCRIBER, 500, B.ToRetry, 20)
  const NEWER := B.LegacyAttempt(7, 2, 5, Some(0), SUBSCRIBER, 500, B.ToRetry, 20)
  const STUCK: B.Legacy := map[0 := OLDER, 1 := NEWER]

  const NO_ROWS := Tables(map[0 := SUBSCRIBER], map[], map[], map[])

  lemma StuckHistory()
    ensures B.History(STUCK, 7) == [OLDER, NEWER]
  {
    B.AttemptKeysAre(STUCK, 7, [Key(1, 0), Key(2, 1)]);
  }

  /** Every pass imports the webhook again. */
  lemma ImportLoopsForEver(clock: nat -> Time)
    requires Monotone(clock)
    ensures B.Importable(NO_ROWS, STUCK) && B.Selected(NO_ROWS, STUCK, 7, OPTIONS, clock(0)) && !B.LastIsNewest(STUCK, 7)
    ensures !B.Terminates(NO_ROWS, STUCK, OPTIONS, clock)
  {
    StuckIsSelected(clock(0));
    StuckIsImportable();
    B.OutstandingNeverAges(STUCK, OPTIONS, clock, 0);
    B.LoopHaltsIff(NO_ROWS, STUCK, OPTIONS, clock);
    assert 7 in B.Stuck(NO_ROWS, STUCK, OPTIONS, clock(0));
  }

  lemma StuckIsSelected(now: Time)
    ensures B.Selected(NO_ROWS, STUCK, 7, OPTIONS, now) && !B.LastIsNewest(STUCK, 7) && 7 in B.Webhooks(STUCK)
  {
    StuckHistory();
    assert 0 in STUCK && B.Outstanding(STUCK[0]) && B.Retained(STUCK[0], OPTIONS, now);
    assert B.StoredUpdate(NO_ROWS, 7) < STUCK[0].updatedAt;
    assert STUCK[0].webhook in B.Webhooks(STUCK);
  }

  lemma StuckIsImportable()
    ensures B.Importable(NO_ROWS, STUCK)
  {
    forall w | w in B.Webhooks(STUCK) ensures B.CanImport(NO_ROWS, STUCK, w) {
      OnlyWebhook(w);
      StuckHistory();
    }
  }

  lemma OnlyWebhook(w: DeliveryId)
    requires w in B.Webhooks(STUCK)
    ensures w == 7
  {
  }

  // ---- An import over a replayed delivery ----

  /** A replayed import: the row opened generation 1 at time 10, after its one attempt.
      An old worker has written that attempt once more, at time 20. */
  const REPLAYED := Delivery(EventId.Legacy(7), 0, Pending, 0, 1, None, Some(10), None, Some(1), Some(500), 1, 10)
  const REWRITTEN := B.LegacyAttempt(7, 1, 20, Some(0), SUBSCRIBER, 500, B.GaveUp, 0)
  const MIXED: B.Legacy := map[0 := REWRITTEN]
  const AFTER_REPLAY :=
    Tables(map[0 := SUBSCRIBER], map[7 := REPLAYED],
           map[AttemptKey(7, 0, 1) := AttemptRow(PermanentFailure, 500, 1)], map[])

  lemma MixedHistory()
    ensures B.History(MIXED, 7) == [REWRITTEN]
  {
    B.AttemptKeysAre(MIXED, 7, [Key(1, 0)]);
  }

  /** The webhook is selected, and its import leaves generation 1 with a count of one
      and no attempt. It takes an old worker beside the engine. */
  lemma MixedWorkersBreakNumbering()
    ensures TableInv(AFTER_REPLAY, 30) && B.LegacyKeyed(AFTER_REPLAY)
    ensures B.Selected(AFTER_REPLAY, MIXED, 7, OPTIONS, 30) && !B.HistoryFits(AFTER_REPLAY, MIXED, 7)
    ensures var r := B.BackfillWebhook(AFTER_REPLAY, MIXED, 7, 30);
            r.Ok? && !CurrentNumbering(r.value)
  {
    MixedHistory();
    ReplayedTables();
    assert 0 in MIXED && B.Retained(MIXED[0], OPTIONS, 30);
    B.NumberingIff(AFTER_REPLAY, MIXED, 7, 30);
  }

  lemma ReplayedTables()
    ensures TableInv(AFTER_REPLAY, 30) && B.LegacyKeyed(AFTER_REPLAY)
  {
  }

  // ---- An imported attempt number without room ----

  const TWO61 := TWO62 / 2

  /** A sane policy whose fourth sum is 2^63. */
  const WIDE := Exponential(TWO61, TWO61, TWO62, 0)

  const HOUR := 3600 * SECOND

  /** An outstanding delivery of the old queue, imported with four attempts. */
  const IMPORTED := Delivery(EventId.Legacy(0), 0, Pending, 4, 0, Some(0), Some(HOUR), None, Some(0), Some(500), 0, 0)

  const OLD_ATTEMPT := AttemptRow(RetryableFailure, 500, 0)

  const IMPORTS := World(
    Tables(map[0 := SUBSCRIBER], map[0 := IMPORTED],
           map[AttemptKey(0, 0, 1) := OLD_ATTEMPT, AttemptKey(0, 0, 2) := OLD_ATTEMPT,
               AttemptKey(0, 0, 3) := OLD_ATTEMPT, AttemptKey(0, 0, 4) := OLD_ATTEMPT], map[]),
    HOUR, [], {0}, [])

  lemma ImportsAreStart()
    ensures Start(IMPORTS)
  {
  }

  lemma WideSums()
    ensures WIDE.Sane() && !WIDE.Room(4) && WIDE.ExactElapsed(5) > WIDE.abort
    ensures WIDE.GetRetryDelay(4) == Some(TWO61)
  {
    assert WIDE.Delay(1) == WIDE.Delay(2) == WIDE.Delay(3) == WIDE.Delay(4) == TWO61;
    assert WIDE.Elapsed(1) == TWO61;
    assert WIDE.Elapsed(2) == TWO62;
    assert WIDE.Elapsed(3) == TWO62 + TWO61;
    assert WIDE.Elapsed(4) == MIN;
    assert WIDE.ExactElapsed(1) == TWO61;
    assert WIDE.ExactElapsed(2) == TWO62;
    assert WIDE.ExactElapsed(3) == TWO62 + TWO61;
    assert WIDE.ExactElapsed(4) == 2 * TWO62;
    assert WIDE.ExactElapsed(5) == 2 * TWO62 + TWO61;
  }

  lemma WideRetries(d: Delivery)
    requires d.attemptCount == 4 && d.cycleStartedAt == Some(0)
    ensures PreflightPasses(WIDE, d, HOUR)
    ensures A.ClassifyResponse(WIDE, 4, HOUR, Some(0), A.TransportError).status == A.ToRetry
  {
    WideSums();
  }

  /** A worker that claims it is let through, and schedules a retry past the budget. */
  lemma ImportedCountWraps()
    ensures Start(IMPORTS) && WIDE.Sane()
    ensures var d := ClaimRow(IMPORTED, HOUR);
            && ClaimDue(IMPORTS, 1).leases == [Lease(0, d, Fresh, None, false)]
            && PreflightPasses(WIDE, d, HOUR)
            && A.ClassifyResponse(WIDE, d.attemptCount, HOUR, d.cycleStartedAt, A.TransportError).status == A.ToRetry
            && WIDE.ExactElapsed(d.attemptCount) + WIDE.ExactDelay(d.attemptCount) > WIDE.abort
  {
    ImportsAreStart();
    WideSums();
    WideRetries(ClaimRow(IMPORTED, HOUR));
    ClaimOnly(IMPORTS, 1, IMPORTED);
  }
}
