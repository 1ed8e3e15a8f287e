/** The PostgreSQL tables (pkg/delivery.go, pkg/config.go, pkg/storage/migrations.go)
    as maps from primary keys to rows, and what one SQL statement does to one row. */
module Tables {
  import opened Clock
  import opened Results
  import opened Keyset

  type ConfigId = nat
  type DeliveryId = nat
  type EventType = nat
  type IdempotencyKey = string

  /** A broker message ID, or "legacy:" followed by a webhook ID. */
  datatype EventId = Broker(message: nat) | Legacy(webhook: DeliveryId)

  datatype Config = Config(eventTypes: set<EventType>, active: bool, updatedAt: Time, deletedAt: Option<Time>) {
    predicate Live() {
      active && deletedAt.None?
    }
  }

  datatype Status = Pending | Delivering | Succeeded | Failed | Cancelled

  datatype Delivery = Delivery(
    event: EventId,
    config: ConfigId,
    status: Status,
    attemptCount: nat,
    generation: nat,
    cycleStartedAt: Option<Time>,
    nextAttemptAt: Option<Time>,
    claimedAt: Option<Time>,
    lastAttemptAt: Option<Time>,
    lastStatusCode: Option<int>,
    createdAt: Time,
    updatedAt: Time)
  {
    predicate Terminal() {
      status != Pending && status != Delivering
    }
  }

  datatype Outcome = DeliverySucceeded | RetryableFailure | PermanentFailure

  /** The unique index (delivery_id, replay_generation, attempt_number). */
  datatype AttemptKey = AttemptKey(delivery: DeliveryId, generation: nat, number: nat)

  datatype AttemptRow = AttemptRow(outcome: Outcome, code: int, createdAt: Time)

  datatype ReplayCursor = ReplayCursor(position: Key, from: Time, to: Time, statuses: seq<Status>, configIds: seq<ConfigId>)

  /** A zero createdAtTo, cursor or token is None. */
  datatype BulkRequest = BulkRequest(
    from: Time,
    to: Option<Time>,
    statuses: seq<Status>,
    configIds: seq<ConfigId>,
    cursor: Option<Key>,
    token: Option<ReplayCursor>,
    pageSize: int)

  datatype BulkResult = BulkResult(
    replayed: nat,
    expedited: nat,
    skipped: nat,
    hasMore: bool,
    nextCursor: Option<Key>,
    token: Option<ReplayCursor>,
    to: Time)

  /** What requestHash hashes: the route and the request; the decoded cursor is
      not part of the JSON, its token is. */
  datatype Request = OneDelivery(id: DeliveryId) | Bulk(request: BulkRequest)

  datatype Response = Replayed(id: DeliveryId, row: Delivery) | BulkDone(result: BulkResult)

  datatype ReplayRecord = ReplayRecord(request: Request, response: Response, createdAt: Time)

  datatype Tables = Tables(
    configs: map<ConfigId, Config>,
    deliveries: map<DeliveryId, Delivery>,
    attempts: map<AttemptKey, AttemptRow>,
    replays: map<IdempotencyKey, ReplayRecord>)
  {
    predicate LiveConfig(c: ConfigId) {
      c in configs && configs[c].Live()
    }

    function Row(i: DeliveryId): Option<Delivery> {
      if i in deliveries then Some(deliveries[i]) else None
    }

    predicate HasRow(e: EventId, c: ConfigId) {
      exists i :: i in deliveries && deliveries[i].event == e && deliveries[i].config == c
    }
  }

  datatype StoreError =
    | ConfigNotFound
    | ConfigNotModified
    | DeliveryNotFound
    | DeliveryNotReplayable
    | IdempotencyConflict
    | DatabaseError

  // ---- Rows as the statements write them ----

  /** EnqueueEvent's new row. */
  function NewDelivery(e: EventId, c: ConfigId, createdAt: Time): Delivery {
    Delivery(e, c, Pending, 0, 0, None, Some(createdAt), None, None, None, createdAt, createdAt)
  }

  function ClaimRow(d: Delivery, now: Time): Delivery {
    d.(status := Delivering, claimedAt := Some(now), updatedAt := now,
       cycleStartedAt := if d.cycleStartedAt.Some? then d.cycleStartedAt else Some(now))
  }

  function RecoverRow(d: Delivery, live: bool, now: Time): Delivery {
    if live then d.(status := Pending, claimedAt := None, nextAttemptAt := Some(now), updatedAt := now)
    else d.(status := Cancelled, claimedAt := None, nextAttemptAt := None, updatedAt := now)
  }

  function CancelRow(d: Delivery, now: Time): Delivery {
    d.(status := Cancelled, claimedAt := None, nextAttemptAt := None, updatedAt := now)
  }

  /** cancelPendingDeliveries leaves claimed_at alone. */
  function CancelPendingRow(d: Delivery, now: Time): Delivery {
    d.(status := Cancelled, nextAttemptAt := None, updatedAt := now)
  }

  function FailRow(d: Delivery, now: Time): Delivery {
    d.(status := Failed, claimedAt := None, nextAttemptAt := None, updatedAt := now)
  }

  /** CompleteDelivery's update: the columns the worker computed. */
  function CompleteRow(d: Delivery, done: Delivery, now: Time): Delivery {
    d.(status := done.status, attemptCount := done.attemptCount, cycleStartedAt := done.cycleStartedAt,
       nextAttemptAt := done.nextAttemptAt, claimedAt := None, lastAttemptAt := done.lastAttemptAt,
       lastStatusCode := done.lastStatusCode, updatedAt := now)
  }

  function ReplayRow(d: Delivery, now: Time): Delivery {
    d.(status := Pending, generation := d.generation + 1, attemptCount := 0, cycleStartedAt := None,
       nextAttemptAt := Some(now), claimedAt := None, updatedAt := now)
  }

  function ExpediteRow(d: Delivery, now: Time): Delivery {
    d.(nextAttemptAt := Some(now), updatedAt := now)
  }

  // ---- Result sets ordered by (timestamp, id) ----

  /** The sort keys of a result set: each id with its sorting timestamp. */
  function KeySet(at: map<nat, Time>): (s: set<Key>)
    ensures forall k :: k in s <==> k.id in at && at[k.id] == k.at
    ensures |s| == |at|
  {
    var s := set i | i in at :: Key(at[i], i);
    KeySetSize(at, s);
    s
  }

  lemma {:induction false} KeySetSize(at: map<nat, Time>, s: set<Key>)
    requires forall k :: k in s <==> k.id in at && at[k.id] == k.at
    ensures |s| == |at|
  {
    if at.Keys == {} {
      assert s == {};
    } else {
      var i :| i in at.Keys;
      var k := Key(at[i], i);
      assert k in s;
      KeySetSize(at - {i}, s - {k});
      assert |(at - {i}).Keys| == |at.Keys - {i}|;
    }
  }

  function Ids(keys: seq<Key>): set<nat> {
    set k | k in keys :: k.id
  }
}
