/** The transition graph of one delivery row: every step of the engine moves each
    row along one of these edges, or leaves it alone. */
module Lifecycle {
  import opened Clock
  import opened Results
  import opened Backoff
  import opened Tables
  import opened Transactions
  import opened Invariants
  import opened Protocol

  predicate Inserted(r: Option<Delivery>, r1: Option<Delivery>, now: Time) {
    && r.None? && r1.Some? && r1.value.event.Broker? && r1.value.createdAt <= now
    && r1.value == NewDelivery(r1.value.event, r1.value.config, r1.value.createdAt)
  }

  predicate Recovered(r: Option<Delivery>, r1: Option<Delivery>, now: Time) {
    && r.Some? && r.value.status == Delivering && r.value.claimedAt.Some?
    && r.value.claimedAt.value < now - STALE
    && (r1 == Some(RecoverRow(r.value, true, now)) || r1 == Some(RecoverRow(r.value, false, now)))
  }

  predicate WasCancelled(r: Option<Delivery>, r1: Option<Delivery>, now: Time) {
    r.Some? && r.value.status in {Pending, Delivering} && r1 == Some(CancelRow(r.value, now))
  }

  predicate Reopened(r: Option<Delivery>, r1: Option<Delivery>, now: Time) {
    r.Some? && r.value.status == Failed && r1 == Some(ReplayRow(r.value, now))
  }

  predicate Expedited(r: Option<Delivery>, r1: Option<Delivery>, now: Time) {
    r.Some? && r.value.status == Pending && r1 == Some(ExpediteRow(r.value, now))
  }

  predicate Removed(r: Option<Delivery>, r1: Option<Delivery>) {
    r.Some? && r.value.Terminal() && r1.None?
  }

  /** The edges that need no claim. */
  predicate Unclaimed(r: Option<Delivery>, r1: Option<Delivery>, now: Time) {
    r1 == r || Inserted(r, r1, now) || Recovered(r, r1, now) || WasCancelled(r, r1, now)
    || Reopened(r, r1, now) || Expedited(r, r1, now) || Removed(r, r1)
  }

  predicate Claimed(r: Option<Delivery>, r1: Option<Delivery>, now: Time) {
    r.Some? && r.value.status == Pending && r1 == Some(ClaimRow(r.value, now))
  }

  predicate FailedEarly(r: Option<Delivery>, r1: Option<Delivery>, now: Time) {
    r.Some? && r.value.status == Delivering && r1 == Some(FailRow(r.value, now))
  }

  /** A completion: one attempt more, to a status the worker or a dead config
      decided. */
  predicate Completed(r: Option<Delivery>, r1: Option<Delivery>, now: Time) {
    && r.Some? && r1.Some? && r.value.status == Delivering
    && r1.value.event == r.value.event && r1.value.config == r.value.config && r1.value.createdAt == r.value.createdAt
    && r1.value.status in {Pending, Succeeded, Failed, Cancelled}
    && r1.value.generation == r.value.generation && r1.value.attemptCount == r.value.attemptCount + 1
    && r1.value.cycleStartedAt == r.value.cycleStartedAt && r1.value.claimedAt.None?
    && (r1.value.status == Pending <==> r1.value.nextAttemptAt.Some?)
    && r1.value.updatedAt == now
  }

  predicate RowStep(r: Option<Delivery>, r1: Option<Delivery>, now: Time) {
    Unclaimed(r, r1, now) || Claimed(r, r1, now) || FailedEarly(r, r1, now) || Completed(r, r1, now)
  }

  // ---- The steps that need no claim ----

  predicate NeedsClaim(s: Step) {
    s.Claim? || s.Finish? || s.FailLease?
  }

  lemma CancelPendingMoves(t: Tables, c: ConfigId, now: Time, i: DeliveryId)
    requires Shapes(t, now)
    ensures Unclaimed(t.Row(i), CancelPending(t, c, now).Row(i), now)
  {
    if i in t.deliveries {
      assert Shape(t.deliveries[i], now);
    }
  }

  lemma BulkMoves(t: Tables, request: BulkRequest, key: IdempotencyKey, now: Time, i: DeliveryId)
    ensures Unclaimed(t.Row(i), ReplayDeliveries(t, request, key, now).tables.Row(i), now)
  {
    var t1 := ReplayDeliveries(t, request, key, now).tables;
    if ReplayCached(t, key, Bulk(request.(cursor := None)), now) == Miss {
      var r := Normalize(request, now);
      var ids := Ids(BulkPage(t, r));
      assert t1.deliveries == BulkRows(t, ids, now);
      BulkRowMoves(t, ids, now, i);
    }
  }

  lemma BulkRowMoves(t: Tables, ids: set<DeliveryId>, now: Time, i: DeliveryId)
    ensures var rows := BulkRows(t, ids, now);
            Unclaimed(t.Row(i), if i in rows then Some(rows[i]) else None, now)
  {
  }

  lemma ClassMoves(t: Tables, t1: Tables, statuses: set<Status>, age: int, now: Time, i: DeliveryId)
    requires forall j :: j in t1.deliveries ==> j in t.deliveries && t1.deliveries[j] == t.deliveries[j]
    requires forall j :: j in t.deliveries && j !in t1.deliveries ==> Purgeable(t.deliveries[j], statuses, age, now)
    requires Pending !in statuses && Delivering !in statuses
    ensures t1.Row(i) == t.Row(i) || Removed(t.Row(i), t1.Row(i))
  {
    if i in t.deliveries && i !in t1.deliveries {
      assert Purgeable(t.deliveries[i], statuses, age, now);
    }
  }

  lemma DeleteMoves(t: Tables, d: Deletion, batch: nat, now: Time, i: DeliveryId)
    ensures var r, r1 := t.Row(i), Delete(t, d, batch, now).Row(i);
            r1 == r || Removed(r, r1)
  {
    match d
    case OldRows(succeeded, age) =>
      PurgeClassRows(t, ClassStatuses(succeeded), age, batch, now);
      ClassMoves(t, Delete(t, d, batch, now), ClassStatuses(succeeded), age, now, i);
    case OldRecords =>
    case DeletedConfigs =>
  }

  lemma EnqueueMoves(t: Tables, e: EventId, createdAt: Time, plan: map<DeliveryId, ConfigId>, issued: set<DeliveryId>,
                     now: Time, i: DeliveryId)
    requires t.deliveries.Keys <= issued && plan.Keys !! issued && createdAt <= now && e.Broker?
    ensures var r, r1 := t.Row(i), EnqueueEvent(t, e, createdAt, plan).Row(i);
            r1 == r || (Inserted(r, r1, now) && i in plan && r1.value.config == plan[i]
                        && r1.value.createdAt == createdAt && r1.value.event == e)
  {
    assert i in plan ==> i !in t.deliveries;
  }

  lemma UnclaimedSteps(p: Policy, w: World, s: Step, i: DeliveryId)
    requires Shapes(w.t, w.now) && w.t.deliveries.Keys <= w.issued && !NeedsClaim(s)
    ensures Unclaimed(w.t.Row(i), Apply(p, w, s).t.Row(i), w.now)
  {
    if OfWorker(s) {
      WorkMoves(p, w, s, i);
    } else if s.SetActive? || s.DropConfig? {
      ConfigSteps(p, w, s, i);
    } else {
      ServeMoves(w, s, i);
    }
  }

  lemma WorkMoves(p: Policy, w: World, s: Step, i: DeliveryId)
    requires OfWorker(s) && !NeedsClaim(s)
    ensures Unclaimed(w.t.Row(i), Work(p, w, s).t.Row(i), w.now)
  {
  }

  lemma ServeMoves(w: World, s: Step, i: DeliveryId)
    requires Shapes(w.t, w.now) && w.t.deliveries.Keys <= w.issued
    requires !OfWorker(s) && !NeedsClaim(s) && !s.SetActive? && !s.DropConfig?
    ensures Unclaimed(w.t.Row(i), Serve(w, s).t.Row(i), w.now)
  {
    match s
    case Enqueue(message, ty, createdAt, plan) =>
      if createdAt <= w.now && FreshPlan(w.t, ty, plan, w.issued) {
        EnqueueMoves(w.t, Broker(message), createdAt, plan, w.issued, w.now, i);
      }
    case Recover => RecoverMoves(w.t, w.now, i);
    case ReplayOne(id, key) => ReplayMoves(w.t, id, key, w.now, i);
    case ReplayBulk(request, key) =>
      BulkTables(w, s);
      BulkMoves(w.t, request, key, w.now, i);
    case Purge(deletion, batch) =>
      PurgedTables(w, s);
      DeleteMoves(w.t, deletion, BatchSize(batch), w.now, i);
    case _ =>
  }

  lemma RecoverMoves(t: Tables, now: Time, i: DeliveryId)
    requires Shapes(t, now)
    ensures Unclaimed(t.Row(i), RecoverStaleDeliveries(t, STALE, now).Row(i), now)
  {
  }

  lemma ReplayMoves(t: Tables, id: DeliveryId, key: IdempotencyKey, now: Time, i: DeliveryId)
    requires Shapes(t, now)
    ensures Unclaimed(t.Row(i), ReplayDelivery(t, id, key, now).tables.Row(i), now)
  {
  }

  lemma ConfigSteps(p: Policy, w: World, s: Step, i: DeliveryId)
    requires Shapes(w.t, w.now) && (s.SetActive? || s.DropConfig?)
    ensures Unclaimed(w.t.Row(i), Serve(w, s).t.Row(i), w.now)
  {
    match s
    case SetActive(c, active) =>
      if UpdateOneConfigActivation(w.t, c, active, w.now).Ok? {
        var t1 := w.t.(configs := w.t.configs[c := w.t.configs[c].(active := active, updatedAt := w.now)]);
        CancelPendingMoves(t1, c, w.now, i);
      }
    case DropConfig(c) =>
      if DeleteOneConfig(w.t, c, w.now).Ok? {
        var cfg := w.t.configs[c].(active := false, deletedAt := Some(w.now), updatedAt := w.now);
        CancelPendingMoves(w.t.(configs := w.t.configs[c := cfg]), c, w.now, i);
      }
  }

  lemma NothingInserted(p: Policy, w: World, s: Step, i: DeliveryId)
    requires i !in w.t.deliveries && !s.Enqueue? && !s.Purge?
    ensures i !in Apply(p, w, s).t.deliveries
  {
    if OfWorker(s) {
      WorkInsertsNothing(p, w, s, i);
    } else {
      ServeInsertsNothing(w, s, i);
    }
  }

  lemma WorkInsertsNothing(p: Policy, w: World, s: Step, i: DeliveryId)
    requires i !in w.t.deliveries
    ensures i !in Work(p, w, s).t.deliveries
  {
  }

  lemma ServeInsertsNothing(w: World, s: Step, i: DeliveryId)
    requires i !in w.t.deliveries && !s.Enqueue? && !s.Purge?
    ensures i !in Serve(w, s).t.deliveries
  {
    if s.ReplayBulk? {
      BulkTables(w, s);
      BulkMoves(w.t, s.request, s.key, w.now, i);
    } else {
      RowStepKeys(w, s);
    }
  }

  /** The other steps of the clock, the API and the background jobs keep the rows'
      IDs. */
  lemma RowStepKeys(w: World, s: Step)
    requires !s.ReplayBulk? && !s.Enqueue? && !s.Purge?
    ensures Serve(w, s).t.deliveries.Keys == w.t.deliveries.Keys
  {
    match s
    case Claim(limit) => ClaimedAreRows(w.t, limit, w.now);
    case ReplayOne(id, key) =>
    case _ =>
  }

  // ---- The steps of a claim ----

  lemma ClaimMoves(t: Tables, limit: int, now: Time, i: DeliveryId)
    ensures var r, r1 := t.Row(i), ClaimDeliveries(t, limit, now).Row(i);
            if i in Ids(ClaimKeys(t, limit, now)) then Claimed(r, r1, now) && Due(t, r.value, now) else r1 == r
  {
    ClaimedAreDue(t, limit, now);
  }

  lemma CompletionMoves(t: Tables, i: DeliveryId, done: Delivery, a: AttemptRow, now: Time)
    requires CompleteDelivery(t, i, done, a, now).Ok? && Continues(t.deliveries[i], done)
    ensures Completed(t.Row(i), CompleteDelivery(t, i, done, a, now).value.tables.Row(i), now)
  {
  }
}
