/** What every transaction keeps true of the tables: the shape of a row's lease
    fields, live configs behind pending rows, the unique indexes, referential
    integrity and a gapless attempt history. */
module Invariants {
  import opened Clock
  import opened Results
  import opened Keyset
  import opened Tables
  import opened Transactions

  /** The lease fields a status implies. */
  predicate Shape(d: Delivery, now: Time) {
    && (d.status == Pending ==> d.nextAttemptAt.Some? && d.claimedAt.None?)
    && (d.status == Delivering ==>
          d.claimedAt.Some? && d.cycleStartedAt.Some? && d.cycleStartedAt.value <= d.claimedAt.value <= now)
    && (d.Terminal() ==> d.nextAttemptAt.None? && d.claimedAt.None?)
    && (d.cycleStartedAt.Some? ==> d.cycleStartedAt.value <= now)
    && (d.attemptCount > 0 ==> d.cycleStartedAt.Some?)
  }

  ghost predicate Shapes(t: Tables, now: Time) {
    forall i :: i in t.deliveries ==> Shape(t.deliveries[i], now)
  }

  ghost predicate PendingIsLive(t: Tables) {
    forall i :: i in t.deliveries && t.deliveries[i].status == Pending ==> t.LiveConfig(t.deliveries[i].config)
  }

  /** deliveries_config_id_fkey and delivery_attempts_delivery_id_fkey. */
  ghost predicate References(t: Tables) {
    && (forall i :: i in t.deliveries ==> t.deliveries[i].config in t.configs)
    && (forall k :: k in t.attempts ==> k.delivery in t.deliveries)
  }

  /** idx_deliveries_event_config. */
  ghost predicate OneRowPerEventAndConfig(t: Tables) {
    forall i, j ::
      (i in t.deliveries && j in t.deliveries && t.deliveries[i].event == t.deliveries[j].event
       && t.deliveries[i].config == t.deliveries[j].config) ==> i == j
  }

  /** The attempts of the current generation are numbered 1 .. attempt_count. */
  ghost predicate CurrentNumbering(t: Tables) {
    forall i, n: nat :: i in t.deliveries ==>
      (AttemptKey(i, t.deliveries[i].generation, n) in t.attempts <==> 1 <= n <= t.deliveries[i].attemptCount)
  }

  /** No attempt of a generation yet to come, and no gap in a past one. */
  ghost predicate PastNumbering(t: Tables) {
    && (forall k :: k in t.attempts ==> k.delivery in t.deliveries && k.generation <= t.deliveries[k.delivery].generation)
    && (forall k, m: nat :: k in t.attempts && 1 <= m <= k.number ==> AttemptKey(k.delivery, k.generation, m) in t.attempts)
    && (forall k :: k in t.attempts ==> 1 <= k.number)
  }

  ghost predicate TableInv(t: Tables, now: Time) {
    && Shapes(t, now) && PendingIsLive(t) && References(t) && OneRowPerEventAndConfig(t)
    && CurrentNumbering(t) && PastNumbering(t)
  }

  /** A row keeps its identity and its shape, waits only for a live config, and
      keeps its attempt numbering or opens the next generation. */
  predicate RowKept(t1: Tables, d: Delivery, d1: Delivery, now: Time) {
    && d1.event == d.event && d1.config == d.config && d1.createdAt == d.createdAt
    && Shape(d1, now)
    && (d1.status == Pending ==> t1.LiveConfig(d1.config))
    && ((d1.generation == d.generation && d1.attemptCount == d.attemptCount)
        || (d1.generation == d.generation + 1 && d1.attemptCount == 0))
  }

  /** Transactions that rewrite rows without touching attempts. */
  lemma RowwiseKeeps(t: Tables, t1: Tables, now: Time)
    requires TableInv(t, now) && t1.attempts == t.attempts
    requires t1.deliveries.Keys == t.deliveries.Keys && t.configs.Keys <= t1.configs.Keys
    requires forall i :: i in t.deliveries ==> RowKept(t1, t.deliveries[i], t1.deliveries[i], now)
    ensures TableInv(t1, now)
  {
    forall i, n: nat | i in t1.deliveries
      ensures AttemptKey(i, t1.deliveries[i].generation, n) in t1.attempts <==> 1 <= n <= t1.deliveries[i].attemptCount
    {
      assert RowKept(t1, t.deliveries[i], t1.deliveries[i], now);
      if AttemptKey(i, t1.deliveries[i].generation, n) in t1.attempts {
        assert AttemptKey(i, t1.deliveries[i].generation, n).generation <= t.deliveries[i].generation;
      }
    }
    forall i, j | i in t1.deliveries && j in t1.deliveries && t1.deliveries[i].event == t1.deliveries[j].event
                  && t1.deliveries[i].config == t1.deliveries[j].config
      ensures i == j
    {
      assert RowKept(t1, t.deliveries[i], t1.deliveries[i], now) && RowKept(t1, t.deliveries[j], t1.deliveries[j], now);
    }
    forall i | i in t1.deliveries
      ensures t1.deliveries[i].config in t1.configs && Shape(t1.deliveries[i], now)
      ensures t1.deliveries[i].status == Pending ==> t1.LiveConfig(t1.deliveries[i].config)
    {
      assert RowKept(t1, t.deliveries[i], t1.deliveries[i], now);
    }
    forall k | k in t1.attempts
      ensures k.delivery in t1.deliveries && k.generation <= t1.deliveries[k.delivery].generation
    {
      assert RowKept(t1, t.deliveries[k.delivery], t1.deliveries[k.delivery], now);
    }
  }

  // ---- Configs ----

  lemma InsertConfigKeeps(t: Tables, c: ConfigId, types: set<EventType>, now: Time)
    requires TableInv(t, now) && c !in t.configs
    ensures TableInv(InsertConfig(t, c, types, now), now)
  {
    RowwiseKeeps(t, InsertConfig(t, c, types, now), now);
  }

  lemma UpdateConfigKeeps(t: Tables, c: ConfigId, types: set<EventType>, now: Time)
    requires TableInv(t, now)
    ensures TableInv(UpdateConfig(t, c, types), now)
  {
    RowwiseKeeps(t, UpdateConfig(t, c, types), now);
  }

  lemma DeleteConfigKeeps(t: Tables, c: ConfigId, now: Time)
    requires TableInv(t, now) && DeleteOneConfig(t, c, now).Ok?
    ensures TableInv(DeleteOneConfig(t, c, now).value, now)
  {
    RowwiseKeeps(t, DeleteOneConfig(t, c, now).value, now);
  }

  lemma ActivationKeeps(t: Tables, c: ConfigId, active: bool, now: Time)
    requires TableInv(t, now) && UpdateOneConfigActivation(t, c, active, now).Ok?
    ensures TableInv(UpdateOneConfigActivation(t, c, active, now).value, now)
  {
    RowwiseKeeps(t, UpdateOneConfigActivation(t, c, active, now).value, now);
  }

  // ---- Deliveries ----

  lemma EnqueueKeeps(t: Tables, ty: EventType, e: EventId, createdAt: Time, plan: map<DeliveryId, ConfigId>,
                     issued: set<DeliveryId>, now: Time)
    requires TableInv(t, now) && createdAt <= now
    requires FreshPlan(t, ty, plan, issued) && t.deliveries.Keys <= issued
    ensures TableInv(EnqueueEvent(t, e, createdAt, plan), now)
  {
    var t1 := EnqueueEvent(t, e, createdAt, plan);
    forall i | i in t1.deliveries && i !in t.deliveries
      ensures i in plan && t1.deliveries[i] == NewDelivery(e, plan[i], createdAt)
      ensures !t.HasRow(e, plan[i]) && t.LiveConfig(plan[i])
    {
    }
    assert forall i :: i in t.deliveries ==> i in t1.deliveries && t1.deliveries[i] == t.deliveries[i];
    InsertionKeeps(t, t1, e, plan, createdAt, now);
  }

  lemma InsertionKeeps(t: Tables, t1: Tables, e: EventId, plan: map<DeliveryId, ConfigId>, createdAt: Time, now: Time)
    requires TableInv(t, now) && t1.configs == t.configs && t1.attempts == t.attempts && createdAt <= now
    requires forall i :: i in t.deliveries ==> i in t1.deliveries && t1.deliveries[i] == t.deliveries[i]
    requires forall i :: i in t1.deliveries && i !in t.deliveries ==>
               i in plan && t1.deliveries[i] == NewDelivery(e, plan[i], createdAt)
               && !t.HasRow(e, plan[i]) && t.LiveConfig(plan[i])
    requires forall i, j :: i in plan && j in plan && plan[i] == plan[j] ==> i == j
    ensures TableInv(t1, now)
  {
    InsertedNumbering(t, t1);
    InsertedPairs(t, t1, e, plan);
    forall i | i in t1.deliveries
      ensures Shape(t1.deliveries[i], now) && t1.deliveries[i].config in t1.configs
      ensures t1.deliveries[i].status == Pending ==> t1.LiveConfig(t1.deliveries[i].config)
    {
      if i in t.deliveries {
        assert Shape(t.deliveries[i], now);
      }
    }
  }

  /** No new row has the pair of another. */
  lemma InsertedPairs(t: Tables, t1: Tables, e: EventId, plan: map<DeliveryId, ConfigId>)
    requires OneRowPerEventAndConfig(t)
    requires forall i :: i in t.deliveries ==> i in t1.deliveries && t1.deliveries[i] == t.deliveries[i]
    requires forall i :: i in t1.deliveries && i !in t.deliveries ==>
               i in plan && t1.deliveries[i].event == e && t1.deliveries[i].config == plan[i] && !t.HasRow(e, plan[i])
    requires forall i, j :: i in plan && j in plan && plan[i] == plan[j] ==> i == j
    ensures OneRowPerEventAndConfig(t1)
  {
    forall i, j | i in t1.deliveries && j in t1.deliveries && t1.deliveries[i].event == t1.deliveries[j].event
                  && t1.deliveries[i].config == t1.deliveries[j].config
      ensures i == j
    {
      assert i in t.deliveries ==> t.HasRow(t.deliveries[i].event, t.deliveries[i].config);
      assert j in t.deliveries ==> t.HasRow(t.deliveries[j].event, t.deliveries[j].config);
    }
  }

  /** A new row has no attempt yet, and its count is 0. */
  lemma InsertedNumbering(t: Tables, t1: Tables)
    requires CurrentNumbering(t) && PastNumbering(t) && t1.attempts == t.attempts
    requires forall i :: i in t.deliveries ==> i in t1.deliveries && t1.deliveries[i] == t.deliveries[i]
    requires forall i :: i in t1.deliveries && i !in t.deliveries ==>
               t1.deliveries[i].generation == 0 && t1.deliveries[i].attemptCount == 0
    ensures CurrentNumbering(t1) && PastNumbering(t1)
  {
    assert forall i, n: nat :: i !in t.deliveries ==> AttemptKey(i, 0, n) !in t.attempts;
  }

  lemma ClaimKeeps(t: Tables, limit: int, now: Time)
    requires TableInv(t, now)
    ensures TableInv(ClaimDeliveries(t, limit, now), now)
  {
    ClaimedAreDue(t, limit, now);
    ClaimRowsKeep(t, Ids(ClaimKeys(t, limit, now)), now);
    RowwiseKeeps(t, ClaimDeliveries(t, limit, now), now);
  }

  lemma ClaimRowsKeep(t: Tables, ids: set<DeliveryId>, now: Time)
    requires TableInv(t, now)
    requires forall i :: i in ids ==> i in t.deliveries && Due(t, t.deliveries[i], now)
    ensures var t1 := t.(deliveries := ClaimRows(t, ids, now));
            forall i :: i in t.deliveries ==> RowKept(t1, t.deliveries[i], t1.deliveries[i], now)
  {
  }

  lemma ClaimedAreDue(t: Tables, limit: int, now: Time)
    ensures forall i :: i in Ids(ClaimKeys(t, limit, now)) ==> i in t.deliveries && Due(t, t.deliveries[i], now)
  {
    TakeSubset(Asc, DueKeys(t, now), ClaimLimit(limit));
    forall i | i in Ids(ClaimKeys(t, limit, now)) ensures i in t.deliveries && Due(t, t.deliveries[i], now) {
      var k :| k in ClaimKeys(t, limit, now) && k.id == i;
      assert k in ToSet(ClaimKeys(t, limit, now));
      assert k in DueKeys(t, now);
    }
  }

  /** What the worker may hand to CompleteDelivery: one attempt more on the
      generation it claimed. */
  predicate Continues(d: Delivery, done: Delivery) {
    && done.event == d.event && done.config == d.config && done.createdAt == d.createdAt
    && done.generation == d.generation && done.attemptCount == d.attemptCount + 1
    && done.cycleStartedAt == d.cycleStartedAt && done.cycleStartedAt.Some?
    && done.claimedAt == d.claimedAt
    && done.status in {Pending, Succeeded, Failed}
    && (done.status == Pending <==> done.nextAttemptAt.Some?)
  }

  /** The completion of a claim that still holds never fails: in particular its
      attempt number is free. */
  lemma CompleteKeeps(t: Tables, i: DeliveryId, done: Delivery, a: AttemptRow, now: Time)
    requires TableInv(t, now)
    requires i in t.deliveries && Holds(t.deliveries[i], done.claimedAt) && Continues(t.deliveries[i], done)
    ensures CompleteDelivery(t, i, done, a, now).Ok?
    ensures TableInv(CompleteDelivery(t, i, done, a, now).value.tables, now)
  {
    var t1 := CompleteDelivery(t, i, done, a, now).value.tables;
    var key := AttemptKey(i, done.generation, done.attemptCount);
    assert key !in t.attempts;
    assert t1.attempts == t.attempts[key := a];
    var d1 := t1.deliveries[i];
    assert t1.deliveries == t.deliveries[i := d1];
    assert Shape(d1, now) && d1.generation == done.generation && d1.attemptCount == done.attemptCount;
    assert d1.event == t.deliveries[i].event && d1.config == t.deliveries[i].config;
    assert d1.status == Pending ==> t1.LiveConfig(d1.config);
    AttemptAppended(t, t1, i, a, now);
  }

  lemma NumberAppended(t: Tables, t1: Tables, i: DeliveryId, a: AttemptRow)
    requires CurrentNumbering(t) && i in t.deliveries && i in t1.deliveries
    requires var d, d1 := t.deliveries[i], t1.deliveries[i];
             && t1.attempts == t.attempts[AttemptKey(i, d.generation, d.attemptCount + 1) := a]
             && t1.deliveries == t.deliveries[i := d1]
             && d1.generation == d.generation && d1.attemptCount == d.attemptCount + 1
    ensures CurrentNumbering(t1)
  {
  }

  lemma AttemptAppended(t: Tables, t1: Tables, i: DeliveryId, a: AttemptRow, now: Time)
    requires TableInv(t, now) && i in t.deliveries && i in t1.deliveries
    requires var d, d1 := t.deliveries[i], t1.deliveries[i];
             && t1.attempts == t.attempts[AttemptKey(i, d.generation, d.attemptCount + 1) := a]
             && t1.deliveries == t.deliveries[i := d1] && t1.configs == t.configs
             && d1.event == d.event && d1.config == d.config
             && d1.generation == d.generation && d1.attemptCount == d.attemptCount + 1
             && Shape(d1, now) && (d1.status == Pending ==> t1.LiveConfig(d1.config))
    ensures TableInv(t1, now)
  {
    var key := AttemptKey(i, t.deliveries[i].generation, t.deliveries[i].attemptCount + 1);
    NumberAppended(t, t1, i, a);
    forall k, m: nat | k in t1.attempts && 1 <= m <= k.number
      ensures AttemptKey(k.delivery, k.generation, m) in t1.attempts
    {
      if k == key && m < k.number {
        assert AttemptKey(i, t.deliveries[i].generation, m) in t.attempts;
      } else if k != key {
        assert AttemptKey(k.delivery, k.generation, m) in t.attempts;
      }
    }
  }

  lemma CancelKeeps(t: Tables, i: DeliveryId, now: Time)
    requires TableInv(t, now) && CancelDelivery(t, i, now).Ok?
    ensures TableInv(CancelDelivery(t, i, now).value, now)
  {
    RowwiseKeeps(t, CancelDelivery(t, i, now).value, now);
  }

  lemma FailKeeps(t: Tables, i: DeliveryId, claimedAt: Time, now: Time)
    requires TableInv(t, now) && FailClaimedDelivery(t, i, claimedAt, now).Ok?
    ensures TableInv(FailClaimedDelivery(t, i, claimedAt, now).value, now)
  {
    RowwiseKeeps(t, FailClaimedDelivery(t, i, claimedAt, now).value, now);
  }

  lemma RecoverKeeps(t: Tables, age: int, now: Time)
    requires TableInv(t, now)
    ensures TableInv(RecoverStaleDeliveries(t, age, now), now)
  {
    RowwiseKeeps(t, RecoverStaleDeliveries(t, age, now), now);
  }

  /** Transactions that rewrite one row. */
  lemma OneRowKeeps(t: Tables, t1: Tables, i: DeliveryId, now: Time)
    requires TableInv(t, now) && t1.attempts == t.attempts && t1.configs == t.configs
    requires i in t.deliveries && i in t1.deliveries && t1.deliveries == t.deliveries[i := t1.deliveries[i]]
    requires RowKept(t1, t.deliveries[i], t1.deliveries[i], now)
    ensures TableInv(t1, now)
  {
    forall j | j in t.deliveries ensures RowKept(t1, t.deliveries[j], t1.deliveries[j], now) {
      assert Shape(t.deliveries[j], now);
    }
    RowwiseKeeps(t, t1, now);
  }

  lemma ReplayedRowKept(t: Tables, i: DeliveryId, key: IdempotencyKey, now: Time)
    requires Shapes(t, now) && ReplayDelivery(t, i, key, now).answer.Applied?
    ensures var t1 := ReplayDelivery(t, i, key, now).tables;
            && t1.attempts == t.attempts && t1.configs == t.configs && i in t.deliveries && i in t1.deliveries
            && t1.deliveries == t.deliveries[i := t1.deliveries[i]]
            && RowKept(t1, t.deliveries[i], t1.deliveries[i], now)
  {
    assert Shape(t.deliveries[i], now);
  }

  lemma ReplayDeliveryKeeps(t: Tables, i: DeliveryId, key: IdempotencyKey, now: Time)
    requires TableInv(t, now)
    ensures TableInv(ReplayDelivery(t, i, key, now).tables, now)
  {
    if ReplayDelivery(t, i, key, now).answer.Applied? {
      ReplayedRowKept(t, i, key, now);
      OneRowKeeps(t, ReplayDelivery(t, i, key, now).tables, i, now);
    } else {
      assert ReplayDelivery(t, i, key, now).tables == t;
    }
  }

  lemma BulkPageLive(t: Tables, r: BulkRequest)
    requires r.to.Some? && r.pageSize > 0
    ensures forall k :: k in BulkPage(t, r) ==> k in CandidateKeys(t, r)
    ensures forall i :: i in Ids(BulkPage(t, r)) ==> i in t.deliveries && InBulk(t, t.deliveries[i], r)
  {
    PageBounds(Asc, CandidateKeys(t, r), r.cursor, r.pageSize);
    forall i | i in Ids(BulkPage(t, r)) ensures i in t.deliveries && InBulk(t, t.deliveries[i], r) {
      var k :| k in BulkPage(t, r) && k.id == i;
      assert k in CandidateKeys(t, r);
    }
  }

  lemma PageIds(t: Tables, r: BulkRequest)
    requires r.to.Some? && r.pageSize > 0
    ensures forall i, j :: 0 <= i < j < |BulkPage(t, r)| ==> BulkPage(t, r)[i].id != BulkPage(t, r)[j].id
    ensures |Ids(BulkPage(t, r))| == |BulkPage(t, r)|
  {
    var page := BulkPage(t, r);
    BulkPageLive(t, r);
    PageBounds(Asc, CandidateKeys(t, r), r.cursor, r.pageSize);
    forall i, j | 0 <= i < j < |page| ensures page[i].id != page[j].id {
      assert Before(Asc, page[i], page[j]);
      assert page[i] in page && page[j] in page;
    }
    DistinctIds(page);
  }

  lemma {:induction false} DistinctIds(keys: seq<Key>)
    requires forall i, j :: 0 <= i < j < |keys| ==> keys[i].id != keys[j].id
    ensures |Ids(keys)| == |keys|
  {
    if keys != [] {
      var m := |keys| - 1;
      DistinctIds(keys[..m]);
      IdsOfSnoc(keys[..m], keys[m]);
      assert keys == keys[..m] + [keys[m]];
      assert keys[m].id !in Ids(keys[..m]);
    }
  }

  lemma IdsOfSnoc(keys: seq<Key>, k: Key)
    ensures Ids(keys + [k]) == Ids(keys) + {k.id}
  {
    assert k in keys + [k];
    forall i | i in Ids(keys) ensures i in Ids(keys + [k]) {
      var x :| x in keys && x.id == i;
      assert x in keys + [k];
    }
  }

  lemma BulkRowsKeep(t: Tables, ids: set<DeliveryId>, r: BulkRequest, now: Time)
    requires TableInv(t, now) && r.to.Some?
    requires forall i :: i in ids ==> i in t.deliveries && InBulk(t, t.deliveries[i], r)
    ensures var t1 := t.(deliveries := BulkRows(t, ids, now));
            forall i :: i in t.deliveries ==> RowKept(t1, t.deliveries[i], t1.deliveries[i], now)
  {
  }

  lemma ReplayDeliveriesKeeps(t: Tables, request: BulkRequest, key: IdempotencyKey, now: Time)
    requires TableInv(t, now)
    ensures TableInv(ReplayDeliveries(t, request, key, now).tables, now)
  {
    if ReplayCached(t, key, Bulk(request.(cursor := None)), now) == Miss {
      var r := Normalize(request, now);
      BulkPageLive(t, r);
      BulkRowsKeep(t, Ids(BulkPage(t, r)), r, now);
      RowwiseKeeps(t, t.(deliveries := BulkRows(t, Ids(BulkPage(t, r)), now)), now);
    }
  }

  // ---- Purge ----

  /** A class purge removed only old rows of the class, at most a batch, with
      their attempts. */
  ghost predicate ClassPurged(t: Tables, t1: Tables, statuses: set<Status>, age: int, batch: nat, now: Time) {
    && t1.configs == t.configs && t1.replays == t.replays
    && (forall i :: i in t1.deliveries ==> i in t.deliveries && t1.deliveries[i] == t.deliveries[i])
    && (forall i :: i in t.deliveries && i !in t1.deliveries ==>
          age > 0 && Purgeable(t.deliveries[i], statuses, age, now))
    && (forall k :: k in t1.attempts <==> k in t.attempts && (k.delivery in t.deliveries ==> k.delivery in t1.deliveries))
    && (forall k :: k in t1.attempts ==> t1.attempts[k] == t.attempts[k])
    && |t.deliveries.Keys - t1.deliveries.Keys| <= batch
  }

  lemma PurgeClassRows(t: Tables, statuses: set<Status>, age: int, batch: nat, now: Time)
    ensures ClassPurged(t, PurgeClass(t, statuses, age, batch, now), statuses, age, batch, now)
  {
    if age > 0 {
      var at := map i | i in t.deliveries && Purgeable(t.deliveries[i], statuses, age, now) :: t.deliveries[i].updatedAt;
      var keys := PurgeKeys(t, statuses, age, batch, now);
      TakeSubset(Asc, KeySet(at), batch);
      forall i | i in Ids(keys) ensures i in t.deliveries && Purgeable(t.deliveries[i], statuses, age, now) {
        var k :| k in keys && k.id == i;
        assert k in ToSet(keys);
        assert k in KeySet(at);
      }
      IdsSize(keys);
      SubsetSize(t.deliveries.Keys - PurgeClass(t, statuses, age, batch, now).deliveries.Keys, Ids(keys));
    }
  }

  lemma {:induction false} IdsSize(keys: seq<Key>)
    ensures |Ids(keys)| <= |keys|
  {
    if keys != [] {
      var m := |keys| - 1;
      IdsSize(keys[..m]);
      assert keys == keys[..m] + [keys[m]];
      assert Ids(keys) == Ids(keys[..m]) + {keys[m].id};
    }
  }

  lemma RemovalKeeps(t: Tables, t1: Tables, now: Time)
    requires TableInv(t, now) && t1.configs == t.configs
    requires forall i :: i in t1.deliveries ==> i in t.deliveries && t1.deliveries[i] == t.deliveries[i]
    requires forall k :: k in t1.attempts <==> k in t.attempts && (k.delivery in t.deliveries ==> k.delivery in t1.deliveries)
    ensures TableInv(t1, now)
  {
    forall k, m: nat | k in t1.attempts && 1 <= m <= k.number
      ensures AttemptKey(k.delivery, k.generation, m) in t1.attempts
    {
      assert AttemptKey(k.delivery, k.generation, m) in t.attempts;
    }
  }

  lemma PurgedConfigs(t: Tables, batch: nat)
    ensures var t1 := PurgeConfigs(t, batch);
            && t1.deliveries == t.deliveries && t1.attempts == t.attempts && t1.replays == t.replays
            && (forall c :: c in t1.configs ==> c in t.configs && t1.configs[c] == t.configs[c])
            && (forall c :: c in t.configs && c !in t1.configs ==> t.configs[c].deletedAt.Some? && !Referenced(t, c))
            && |t.configs.Keys - t1.configs.Keys| <= batch
  {
    var at := map c | c in t.configs && t.configs[c].deletedAt.Some? && !Referenced(t, c) :: t.configs[c].deletedAt.value;
    var keys := Take(Sorted(Asc, KeySet(at)), batch);
    TakeSubset(Asc, KeySet(at), batch);
    forall c | c in Ids(keys) ensures c in at {
      var k :| k in keys && k.id == c;
      assert k in ToSet(keys);
      assert k in KeySet(at);
    }
    IdsSize(keys);
    SubsetSize(t.configs.Keys - PurgeConfigs(t, batch).configs.Keys, Ids(keys));
  }

  lemma PurgeClassKeeps(t: Tables, statuses: set<Status>, age: int, batch: nat, now: Time)
    requires TableInv(t, now)
    ensures TableInv(PurgeClass(t, statuses, age, batch, now), now)
  {
    PurgeClassRows(t, statuses, age, batch, now);
    RemovalKeeps(t, PurgeClass(t, statuses, age, batch, now), now);
  }

  lemma PurgeConfigsKeeps(t: Tables, batch: nat, now: Time)
    requires TableInv(t, now)
    ensures TableInv(PurgeConfigs(t, batch), now)
  {
    PurgedConfigs(t, batch);
    ConfigRemovalKeeps(t, PurgeConfigs(t, batch), now);
  }

  lemma PurgeReplaysKeeps(t: Tables, now: Time)
    requires TableInv(t, now)
    ensures TableInv(PurgeReplays(t, now), now)
  {
  }

  lemma DeleteKeeps(t: Tables, d: Deletion, batch: nat, now: Time)
    requires TableInv(t, now)
    ensures TableInv(Delete(t, d, batch, now), now)
  {
    match d
    case OldRows(succeeded, age) => PurgeClassKeeps(t, ClassStatuses(succeeded), age, batch, now);
    case OldRecords => PurgeReplaysKeeps(t, now);
    case DeletedConfigs => PurgeConfigsKeeps(t, batch, now);
  }

  lemma ConfigRemovalKeeps(t: Tables, t1: Tables, now: Time)
    requires TableInv(t, now) && t1.deliveries == t.deliveries && t1.attempts == t.attempts
    requires forall c :: c in t1.configs ==> c in t.configs && t1.configs[c] == t.configs[c]
    requires forall c :: c in t.configs && c !in t1.configs ==> !Referenced(t, c)
    ensures TableInv(t1, now)
  {
    forall i | i in t1.deliveries ensures t1.deliveries[i].config in t1.configs {
      assert Referenced(t, t1.deliveries[i].config);
    }
  }
}
