/** Where deliveries end up: absorbing states, configs that go away, duplicate
    events, and retention. */
module Outcomes {
  import opened Clock
  import opened Results
  import opened Backoff
  import opened Tables
  import opened Transactions
  import opened Invariants
  import opened Protocol
  import opened Lifecycle
  import opened Fencing
  import opened Reachable
  import opened FencingResults

  // ---- Terminal states ----

  lemma AbsorbingRow(r: Option<Delivery>, r1: Option<Delivery>, now: Time)
    requires RowStep(r, r1, now) && r.Some? && r.value.status in {Succeeded, Cancelled}
    ensures r1.None? || r1 == r
  {
  }

  /** Succeeded and cancelled rows never change again; they can only be purged. */
  lemma {:induction false} SucceededAndCancelledAbsorb(p: Policy, w: World, steps: seq<Step>, i: DeliveryId)
    requires Inv(p, w) && i in w.t.deliveries && w.t.deliveries[i].status in {Succeeded, Cancelled}
    ensures var r1 := Run(p, w, steps).t.Row(i); r1.None? || r1 == w.t.Row(i)
    decreases |steps|
  {
    if steps != [] {
      var w1 := Apply(p, w, steps[0]);
      TransitionGraph(p, w, steps[0], i);
      AbsorbingRow(w.t.Row(i), w1.t.Row(i), w.now);
      StepKeepsInv(p, w, steps[0]);
      if i in w1.t.deliveries {
        SucceededAndCancelledAbsorb(p, w1, steps[1..], i);
      } else {
        GoneForGood(p, w1, steps[1..], i);
      }
    }
  }

  lemma {:induction false} GoneForGood(p: Policy, w: World, steps: seq<Step>, i: DeliveryId)
    requires Inv(p, w) && i in w.issued && i !in w.t.deliveries
    ensures i !in Run(p, w, steps).t.deliveries
    decreases |steps|
  {
    if steps != [] {
      TransitionGraph(p, w, steps[0], i);
      StepKeepsInv(p, w, steps[0]);
      GoneForGood(p, Apply(p, w, steps[0]), steps[1..], i);
    }
  }

  /** A failed row is left only by a replay on a live config, which opens the next
      generation with a fresh budget, or by the purge. */
  lemma FailedLeftByReplay(p: Policy, w: World, s: Step, i: DeliveryId)
    requires Inv(p, w) && i in w.t.deliveries && w.t.deliveries[i].status == Failed
    requires Apply(p, w, s).t.Row(i) != w.t.Row(i)
    ensures var d, r1 := w.t.deliveries[i], Apply(p, w, s).t.Row(i);
            || (s.Purge? && r1.None?)
            || (&& (s.ReplayOne? || s.ReplayBulk?) && w.t.LiveConfig(d.config) && r1.Some?
                && r1.value.status == Pending && r1.value.generation == d.generation + 1
                && r1.value.attemptCount == 0 && r1.value.cycleStartedAt.None?
                && r1.value.nextAttemptAt == Some(w.now) && r1.value.claimedAt.None?)
  {
    if s.Purge? {
      PurgedTables(w, s);
      DeleteMoves(w.t, s.deletion, BatchSize(s.batch), w.now, i);
    } else if s.ReplayOne? || s.ReplayBulk? {
      FailedReplayed(p, w, s, i);
    } else {
      FailedKept(p, w, s, i);
    }
  }

  lemma FailedKept(p: Policy, w: World, s: Step, i: DeliveryId)
    requires Inv(p, w) && i in w.t.deliveries && w.t.deliveries[i].status == Failed
    requires !s.ReplayOne? && !s.ReplayBulk? && !s.Purge?
    ensures Apply(p, w, s).t.Row(i) == w.t.Row(i)
  {
    if s.Claim? {
      FailedNotClaimed(p, w, s.limit, i);
    } else if s.SetActive? || s.DropConfig? || s.Enqueue? || s.Recover? {
      FailedKeptByQueue(p, w, s, i);
    } else {
      FailedKeptByWorkers(p, w, s, i);
    }
  }

  lemma ReopenedRow(t: Tables, t1: Tables, i: DeliveryId, now: Time)
    requires i in t.deliveries && t.deliveries[i].status == Failed && t1.configs == t.configs
    requires t1.Row(i).Some? && t1.Row(i) != t.Row(i) && Unclaimed(t.Row(i), t1.Row(i), now) && PendingIsLive(t1)
    requires t1.deliveries[i].config == t.deliveries[i].config
    ensures var d, d1 := t.deliveries[i], t1.deliveries[i];
            && t.LiveConfig(d.config) && d1.status == Pending && d1.generation == d.generation + 1
            && d1.attemptCount == 0 && d1.cycleStartedAt.None? && d1.nextAttemptAt == Some(now) && d1.claimedAt.None?
  {
  }

  lemma FailedReplayed(p: Policy, w: World, s: Step, i: DeliveryId)
    requires Inv(p, w) && i in w.t.deliveries && w.t.deliveries[i].status == Failed
    requires s.ReplayOne? || s.ReplayBulk?
    requires Apply(p, w, s).t.Row(i) != w.t.Row(i)
    ensures var d, r1 := w.t.deliveries[i], Apply(p, w, s).t.Row(i);
            && w.t.LiveConfig(d.config) && r1.Some?
            && r1.value.status == Pending && r1.value.generation == d.generation + 1
            && r1.value.attemptCount == 0 && r1.value.cycleStartedAt.None?
            && r1.value.nextAttemptAt == Some(w.now) && r1.value.claimedAt.None?
  {
    StepKeepsInv(p, w, s);
    ReplaysKeepConfigs(p, w, s);
    RowsPersist(p, w, s, i);
    UnclaimedSteps(p, w, s, i);
    ReopenedRow(w.t, Apply(p, w, s).t, i, w.now);
  }

  lemma FailedNotClaimed(p: Policy, w: World, limit: int, i: DeliveryId)
    requires i in w.t.deliveries && w.t.deliveries[i].status == Failed
    ensures Serve(w, Claim(limit)).t.Row(i) == w.t.Row(i)
  {
    ClaimMoves(w.t, limit, w.now, i);
    ClaimedAreRows(w.t, limit, w.now);
  }

  lemma FailedKeptByQueue(p: Policy, w: World, s: Step, i: DeliveryId)
    requires Inv(p, w) && i in w.t.deliveries && w.t.deliveries[i].status == Failed
    requires s.SetActive? || s.DropConfig? || s.Enqueue? || s.Recover?
    ensures Serve(w, s).t.Row(i) == w.t.Row(i)
  {
    if s.Enqueue? && s.createdAt <= w.now && FreshPlan(w.t, s.ty, s.plan, w.issued) {
      EnqueueMoves(w.t, Broker(s.message), s.createdAt, s.plan, w.issued, w.now, i);
    }
  }

  lemma FailedKeptByWorkers(p: Policy, w: World, s: Step, i: DeliveryId)
    requires i in w.t.deliveries && w.t.deliveries[i].status == Failed
    requires !(s.SetActive? || s.DropConfig? || s.Enqueue? || s.Claim? || s.Recover?)
    requires !s.ReplayOne? && !s.ReplayBulk? && !s.Purge?
    ensures Apply(p, w, s).t.Row(i) == w.t.Row(i)
  {
  }

  lemma ReplaysKeepConfigs(p: Policy, w: World, s: Step)
    requires s.ReplayOne? || s.ReplayBulk?
    ensures Serve(w, s).t.configs == w.t.configs
  {
  }

  /** Replaying a pending row keeps its generation, its attempt count and its
      budget, and stamps it with the present: it gets no earlier if and only if it
      was due already. */
  lemma PendingIsExpedited(p: Policy, w: World, id: DeliveryId, key: IdempotencyKey)
    requires Inv(p, w) && id in w.t.deliveries && w.t.deliveries[id].status == Pending
    requires ReplayDelivery(w.t, id, key, w.now).answer.Applied?
    ensures var t1 := Apply(p, w, ReplayOne(id, key)).t;
            var d, d1 := w.t.deliveries[id], t1.deliveries[id];
            && Due(t1, d1, w.now) && d1.generation == d.generation && d1.attemptCount == d.attemptCount
            && d1.cycleStartedAt == d.cycleStartedAt && t1.attempts == w.t.attempts
            && d.nextAttemptAt.Some? && d1.nextAttemptAt == Some(w.now)
            && (d.nextAttemptAt.value <= d1.nextAttemptAt.value <==> Due(w.t, d, w.now))
  {
  }

  // ---- Configs that go away ----

  /** After any run, every pending delivery's config exists, is active and is not
      deleted. */
  lemma PendingImpliesLiveConfig(p: Policy, w0: World, steps: seq<Step>, i: DeliveryId)
    requires Start(w0)
    requires i in Run(p, w0, steps).t.deliveries && Run(p, w0, steps).t.deliveries[i].status == Pending
    ensures Run(p, w0, steps).t.LiveConfig(Run(p, w0, steps).t.deliveries[i].config)
  {
    StartSatisfies(p, w0);
    RunKeepsInv(p, w0, steps);
  }

  /** The config of delivery i is not live at any point of the run. */
  ghost predicate StaysDead(p: Policy, w: World, steps: seq<Step>, c: ConfigId)
    decreases |steps|
  {
    !w.t.LiveConfig(c) && (steps != [] ==> StaysDead(p, Apply(p, w, steps[0]), steps[1..], c))
  }

  lemma NotQueuedAgain(r: Option<Delivery>, r1: Option<Delivery>, t1: Tables, now: Time)
    requires RowStep(r, r1, now) && r.Some? && r1.Some? && r.value.status != Pending
    requires r1.value.status == Pending ==> t1.LiveConfig(r1.value.config)
    requires !t1.LiveConfig(r.value.config)
    ensures r1.value.status != Pending && r1.value.generation == r.value.generation && r1.value.config == r.value.config
  {
  }

  /** While its config stays dead, a delivery in flight is delivering still, or has
      ended succeeded, failed or cancelled, in the same generation: it is never
      queued again. */
  lemma {:induction false} InFlightOnDeadConfigEnds(p: Policy, w: World, steps: seq<Step>, i: DeliveryId)
    requires Inv(p, w) && i in w.t.deliveries && w.t.deliveries[i].status != Pending
    requires StaysDead(p, w, steps, w.t.deliveries[i].config)
    ensures var r1 := Run(p, w, steps).t.Row(i);
            r1.Some? ==> r1.value.status != Pending && r1.value.generation == w.t.deliveries[i].generation
    decreases |steps|
  {
    if steps != [] {
      var w1 := Apply(p, w, steps[0]);
      TransitionGraph(p, w, steps[0], i);
      StepKeepsInv(p, w, steps[0]);
      if i in w1.t.deliveries {
        NotQueuedAgain(w.t.Row(i), w1.t.Row(i), w1.t, w.now);
        InFlightOnDeadConfigEnds(p, w1, steps[1..], i);
      } else {
        GoneForGood(p, w1, steps[1..], i);
      }
    }
  }

  // ---- Duplicate events ----

  /** The step may delete deliveries. */
  predicate PurgesRows(s: Step) {
    s.Purge? && s.deletion.OldRows?
  }

  /** Replay records and deleted configs may be purged, deliveries not. */
  predicate NoRowsPurged(steps: seq<Step>) {
    forall j :: 0 <= j < |steps| ==> !PurgesRows(steps[j])
  }

  /** The configs that matched and were live at some commit of message e. */
  ghost function MatchedBy(w: World, s: Step, e: nat): set<ConfigId> {
    match s
    case Enqueue(message, ty, createdAt, plan) =>
      if message == e && createdAt <= w.now && FreshPlan(w.t, ty, plan, w.issued)
      then set c | c in w.t.configs && ty in w.t.configs[c].eventTypes
                   && w.t.configs[c].active && w.t.configs[c].deletedAt.None?
      else {}
    case _ => {}
  }

  ghost function EverMatched(p: Policy, w: World, steps: seq<Step>, e: nat): set<ConfigId>
    decreases |steps|
  {
    if steps == [] then {}
    else MatchedBy(w, steps[0], e) + EverMatched(p, Apply(p, w, steps[0]), steps[1..], e)
  }

  lemma RowsPersist(p: Policy, w: World, s: Step, i: DeliveryId)
    requires Inv(p, w) && !PurgesRows(s) && i in w.t.deliveries
    ensures var t1 := Apply(p, w, s).t;
            i in t1.deliveries && t1.deliveries[i].event == w.t.deliveries[i].event
            && t1.deliveries[i].config == w.t.deliveries[i].config
  {
    KeysPersist(p, w, s, i);
    TransitionGraph(p, w, s, i);
    IdentityKept(w.t.Row(i), Apply(p, w, s).t.Row(i), w.now);
  }

  lemma IdentityKept(r: Option<Delivery>, r1: Option<Delivery>, now: Time)
    requires RowStep(r, r1, now) && r.Some? && r1.Some?
    ensures r1.value.event == r.value.event && r1.value.config == r.value.config && r1.value.createdAt == r.value.createdAt
  {
  }

  lemma KeysPersist(p: Policy, w: World, s: Step, i: DeliveryId)
    requires !PurgesRows(s) && i in w.t.deliveries
    ensures i in Apply(p, w, s).t.deliveries
  {
    if OfWorker(s) {
      WorkKeepsKeys(p, w, s, i);
    } else {
      ServingKeepsKeys(w, s, i);
    }
  }

  lemma WorkKeepsKeys(p: Policy, w: World, s: Step, i: DeliveryId)
    requires i in w.t.deliveries
    ensures i in Work(p, w, s).t.deliveries
  {
  }

  lemma ServingKeepsKeys(w: World, s: Step, i: DeliveryId)
    requires !PurgesRows(s) && i in w.t.deliveries
    ensures i in Serve(w, s).t.deliveries
  {
    if s.ReplayBulk? {
      BulkTables(w, s);
      BulkMoves(w.t, s.request, s.key, w.now, i);
    } else if s.Purge? {
      PurgedTables(w, s);
    } else if s.Enqueue? {
      EnqueueKeepsKeys(w, s, i);
    } else {
      RowStepKeys(w, s);
    }
  }

  lemma EnqueueKeepsKeys(w: World, s: Step, i: DeliveryId)
    requires s.Enqueue? && i in w.t.deliveries
    ensures i in Serve(w, s).t.deliveries
  {
  }

  /** New rows come from Enqueue only, one for each match that had none. */
  lemma NewRowMatches(p: Policy, w: World, s: Step, i: DeliveryId)
    requires Inv(p, w) && i !in w.t.deliveries && i in Apply(p, w, s).t.deliveries
    ensures s.Enqueue?
    ensures var d := Apply(p, w, s).t.deliveries[i];
            d.event == Broker(s.message) && d.config in MatchedBy(w, s, s.message)
  {
    InsertedByEnqueue(p, w, s, i);
    assert s.createdAt <= w.now && FreshPlan(w.t, s.ty, s.plan, w.issued);
    EnqueueMoves(w.t, Broker(s.message), s.createdAt, s.plan, w.issued, w.now, i);
  }

  lemma MatchInserts(t: Tables, e: EventId, createdAt: Time, plan: map<DeliveryId, ConfigId>, i: DeliveryId)
    requires i in plan && !t.HasRow(e, plan[i])
    ensures EnqueueEvent(t, e, createdAt, plan).HasRow(e, plan[i])
  {
    assert EnqueueEvent(t, e, createdAt, plan).deliveries[i] == NewDelivery(e, plan[i], createdAt);
  }

  lemma PlannedHasRow(t: Tables, e: EventId, createdAt: Time, plan: map<DeliveryId, ConfigId>, issued: set<DeliveryId>,
                      i: DeliveryId)
    requires i in plan && t.deliveries.Keys <= issued && plan.Keys !! issued
    ensures EnqueueEvent(t, e, createdAt, plan).HasRow(e, plan[i])
  {
    if t.HasRow(e, plan[i]) {
      var j :| j in t.deliveries && t.deliveries[j].event == e && t.deliveries[j].config == plan[i];
      assert EnqueueEvent(t, e, createdAt, plan).deliveries[j] == t.deliveries[j];
    } else {
      MatchInserts(t, e, createdAt, plan, i);
    }
  }

  lemma MatchGetsRow(p: Policy, w: World, s: Step, e: nat, c: ConfigId)
    requires Inv(p, w) && c in MatchedBy(w, s, e)
    ensures Apply(p, w, s).t.HasRow(Broker(e), c)
  {
    assert c in Matching(w.t, s.ty);
    var i :| i in s.plan && s.plan[i] == c;
    PlannedHasRow(w.t, Broker(e), s.createdAt, s.plan, w.issued, i);
  }

  lemma RowsForEvent(p: Policy, w: World, s: Step, e: nat, c: ConfigId)
    requires Inv(p, w) && !PurgesRows(s)
    ensures Apply(p, w, s).t.HasRow(Broker(e), c) <==> w.t.HasRow(Broker(e), c) || c in MatchedBy(w, s, e)
  {
    var t1 := Apply(p, w, s).t;
    if c in MatchedBy(w, s, e) {
      MatchGetsRow(p, w, s, e, c);
    } else if w.t.HasRow(Broker(e), c) {
      var i :| i in w.t.deliveries && w.t.deliveries[i].event == Broker(e) && w.t.deliveries[i].config == c;
      RowsPersist(p, w, s, i);
    } else if t1.HasRow(Broker(e), c) {
      var i :| i in t1.deliveries && t1.deliveries[i].event == Broker(e) && t1.deliveries[i].config == c;
      if i in w.t.deliveries {
        RowsPersist(p, w, s, i);
      } else {
        NewRowMatches(p, w, s, i);
      }
    }
  }

  /** However often the broker redelivers a message, and whatever runs in between,
      its rows are those it had and one for each config that matched and was live
      at some commit; no (event, config) pair ever has two rows. */
  lemma {:induction false} RedeliveryDeduplicates(p: Policy, w: World, steps: seq<Step>, e: nat, c: ConfigId)
    requires Inv(p, w) && NoRowsPurged(steps)
    ensures Run(p, w, steps).t.HasRow(Broker(e), c)
            <==> w.t.HasRow(Broker(e), c) || c in EverMatched(p, w, steps, e)
    ensures OneRowPerEventAndConfig(Run(p, w, steps).t)
    decreases |steps|
  {
    if steps != [] {
      StepKeepsInv(p, w, steps[0]);
      RowsForEvent(p, w, steps[0], e, c);
      assert NoRowsPurged(steps[1..]);
      RedeliveryDeduplicates(p, Apply(p, w, steps[0]), steps[1..], e, c);
    }
  }

  /** An enqueue changes no row that exists, in whatever state. */
  lemma EnqueueNeverOverwrites(p: Policy, w: World, s: Step, i: DeliveryId)
    requires Inv(p, w) && s.Enqueue? && i in w.t.deliveries
    ensures Apply(p, w, s).t.Row(i) == w.t.Row(i)
  {
    if s.createdAt <= w.now && FreshPlan(w.t, s.ty, s.plan, w.issued) {
      EnqueueMoves(w.t, Broker(s.message), s.createdAt, s.plan, w.issued, w.now, i);
    }
  }

  // ---- Retention ----

  /** A row is purged only when it is terminal and older than its class allows. */
  predicate MayPurge(r: Delivery, d: Deletion, now: Time) {
    d.OldRows? && d.age > 0 && r.status in ClassStatuses(d.succeeded) && r.updatedAt < now - d.age
  }

  ghost predicate RowsPurged(t: Tables, t1: Tables, d: Deletion, n: nat, now: Time) {
    && (forall i :: i in t1.deliveries ==> i in t.deliveries && t1.deliveries[i] == t.deliveries[i])
    && (forall i :: i in t.deliveries && i !in t1.deliveries ==> MayPurge(t.deliveries[i], d, now))
    && |t.deliveries.Keys - t1.deliveries.Keys| <= n
    && (forall k :: k in t1.attempts <==> k in t.attempts && k.delivery in t1.deliveries)
    && (forall k :: k in t1.attempts ==> t1.attempts[k] == t.attempts[k])
  }

  ghost predicate ConfigsPurged(t: Tables, t1: Tables, d: Deletion, n: nat) {
    && (forall c :: c in t1.configs ==> c in t.configs && t1.configs[c] == t.configs[c])
    && (forall c :: c in t.configs && c !in t1.configs ==>
          d.DeletedConfigs? && t.configs[c].deletedAt.Some? && !Referenced(t1, c))
    && |t.configs.Keys - t1.configs.Keys| <= n
  }

  /** A statement of the purge removes only old terminal rows of its class, at most
      a batch, with exactly their attempts; never a row a worker still holds; and
      no config that is not deleted or that a delivery refers to. */
  lemma PurgeIsSafe(p: Policy, w: World, d: Deletion, batch: int)
    requires Inv(p, w)
    ensures var t, t1 := w.t, Delete(w.t, d, BatchSize(batch), w.now);
            && RowsPurged(t, t1, d, BatchSize(batch), w.now)
            && ConfigsPurged(t, t1, d, BatchSize(batch))
            && (forall l :: l in w.leases && Current(t.Row(l.id), l) ==> l.id in t1.deliveries)
            && References(t1)
  {
    DeletedTables(w.t, d, BatchSize(batch), w.now);
    DeletionSpares(w.t, Delete(w.t, d, BatchSize(batch), w.now), d, BatchSize(batch), w.leases, w.now);
  }

  lemma DeletionSpares(t: Tables, t1: Tables, d: Deletion, n: nat, leases: seq<Lease>, now: Time)
    requires RowsPurged(t, t1, d, n, now)
    ensures forall l :: l in leases && Current(t.Row(l.id), l) ==> l.id in t1.deliveries
  {
    forall l | l in leases && Current(t.Row(l.id), l) ensures l.id in t1.deliveries {
      assert !MayPurge(t.deliveries[l.id], d, now);
    }
  }

  lemma DeletedTables(t: Tables, d: Deletion, n: nat, now: Time)
    requires TableInv(t, now)
    ensures var t1 := Delete(t, d, n, now);
            RowsPurged(t, t1, d, n, now) && ConfigsPurged(t, t1, d, n) && References(t1)
  {
    DeleteKeeps(t, d, n, now);
    match d
    case OldRows(succeeded, age) => ClassDeleted(t, d, n, now);
    case OldRecords => RecordsDeleted(t, n, now);
    case DeletedConfigs => ConfigsDeleted(t, n, now);
  }

  lemma RecordsDeleted(t: Tables, n: nat, now: Time)
    requires References(t)
    ensures var t1 := Delete(t, OldRecords, n, now);
            RowsPurged(t, t1, OldRecords, n, now) && ConfigsPurged(t, t1, OldRecords, n)
  {
    assert t.deliveries.Keys - t.deliveries.Keys == {} && t.configs.Keys - t.configs.Keys == {};
  }

  lemma ConfigsDeleted(t: Tables, n: nat, now: Time)
    requires References(t)
    ensures var t1 := Delete(t, DeletedConfigs, n, now);
            RowsPurged(t, t1, DeletedConfigs, n, now) && ConfigsPurged(t, t1, DeletedConfigs, n)
  {
    assert t.deliveries.Keys - t.deliveries.Keys == {};
    UnusedConfigsDeleted(t, n);
  }

  lemma UnusedConfigsDeleted(t: Tables, n: nat)
    ensures ConfigsPurged(t, PurgeConfigs(t, n), DeletedConfigs, n)
  {
    PurgedConfigs(t, n);
    forall c ensures Referenced(t, c) <==> Referenced(PurgeConfigs(t, n), c) {
    }
  }

  lemma ClassDeleted(t: Tables, d: Deletion, n: nat, now: Time)
    requires References(t) && d.OldRows?
    ensures var t1 := Delete(t, d, n, now);
            RowsPurged(t, t1, d, n, now) && ConfigsPurged(t, t1, d, n)
  {
    PurgeClassRows(t, ClassStatuses(d.succeeded), d.age, n, now);
    var t1 := Delete(t, d, n, now);
    forall i | i in t.deliveries && i !in t1.deliveries ensures MayPurge(t.deliveries[i], d, now) {
      assert Purgeable(t.deliveries[i], ClassStatuses(d.succeeded), d.age, now);
    }
  }

  // ---- The purge is a run ----

  function PurgeSteps(deletions: seq<Deletion>, n: nat, batch: int, clock: nat -> Time): seq<Step>
    requires n <= |deletions|
  {
    if n == 0 then []
    else PurgeSteps(deletions, n - 1, batch, clock) + [Tick(clock(n - 1)), Purge(deletions[n - 1], batch)]
  }

  /** The run leaves these tables, at that time or before. */
  ghost predicate Leaves(p: Policy, w: World, steps: seq<Step>, t: Tables, until: Time) {
    Run(p, w, steps).t == t && Run(p, w, steps).now <= until
  }

  lemma PurgeSnoc(p: Policy, w: World, before: seq<Step>, t: Tables, at: Time, d: Deletion, batch: int, until: Time)
    requires Leaves(p, w, before, t, at) && at <= until
    ensures Leaves(p, w, before + [Tick(at), Purge(d, batch)], Delete(t, d, BatchSize(batch), at), until)
  {
    RunAppend(p, w, before, [Tick(at), Purge(d, batch)]);
    TickThenPurge(p, Run(p, w, before), at, d, batch);
  }

  lemma TickThenPurge(p: Policy, w: World, at: Time, d: Deletion, batch: int)
    requires w.now <= at
    ensures var w1 := Run(p, w, [Tick(at), Purge(d, batch)]);
            w1.t == Delete(w.t, d, BatchSize(batch), at) && w1.now == at
  {
    var steps := [Tick(at), Purge(d, batch)];
    assert steps[1..] == [Purge(d, batch)] && steps[1..][1..] == [];
    var w1 := Apply(p, w, Tick(at));
    assert Run(p, w, steps) == Run(p, w1, steps[1..]);
    assert Run(p, w1, steps[1..]) == Apply(p, w1, Purge(d, batch));
  }

  /** A run leaves the tables that the first n statements of the purge leave. */
  ghost predicate PurgeRuns(p: Policy, w: World, deletions: seq<Deletion>, n: nat, batch: int, clock: nat -> Time) {
    n <= |deletions|
    && Leaves(p, w, PurgeSteps(deletions, n, batch, clock), PurgedBy(w.t, deletions, n, BatchSize(batch), clock), clock(n))
  }

  /** The statements of a purge are steps of a run, so others may come between. */
  lemma PurgeIsRun(p: Policy, w: World, deletions: seq<Deletion>, n: nat, batch: int, clock: nat -> Time)
    requires n <= |deletions| && w.now <= clock(0) && Monotone(clock)
    ensures PurgeRuns(p, w, deletions, n, batch, clock)
  {
    NothingPurged(p, w, deletions, batch, clock);
    for m := 0 to n
      invariant PurgeRuns(p, w, deletions, m, batch, clock)
    {
      PurgeOneMore(p, w, deletions, m, batch, clock);
    }
  }

  lemma NothingPurged(p: Policy, w: World, deletions: seq<Deletion>, batch: int, clock: nat -> Time)
    requires w.now <= clock(0)
    ensures PurgeRuns(p, w, deletions, 0, batch, clock)
  {
  }

  lemma PurgeOneMore(p: Policy, w: World, deletions: seq<Deletion>, n: nat, batch: int, clock: nat -> Time)
    requires n < |deletions| && Monotone(clock) && PurgeRuns(p, w, deletions, n, batch, clock)
    ensures PurgeRuns(p, w, deletions, n + 1, batch, clock)
  {
    EarlierReading(clock, n, n + 1);
    var t := PurgedBy(w.t, deletions, n, BatchSize(batch), clock);
    PurgeUnfolds(w.t, deletions, n + 1, batch, clock);
    PurgeSnoc(p, w, PurgeSteps(deletions, n, batch, clock), t, clock(n), deletions[n], batch, clock(n + 1));
  }

  lemma PurgeUnfolds(t: Tables, deletions: seq<Deletion>, n: nat, batch: int, clock: nat -> Time)
    requires 0 < n <= |deletions|
    ensures PurgeSteps(deletions, n, batch, clock)
         == PurgeSteps(deletions, n - 1, batch, clock) + [Tick(clock(n - 1)), Purge(deletions[n - 1], batch)]
    ensures PurgedBy(t, deletions, n, BatchSize(batch), clock)
         == Delete(PurgedBy(t, deletions, n - 1, BatchSize(batch), clock), deletions[n - 1], BatchSize(batch), clock(n - 1))
  {
  }
}
