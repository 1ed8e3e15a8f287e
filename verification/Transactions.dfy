/** What each store transaction does to the tables (pkg/storage/postgres), as
    functions of the tables, the clock and the arguments. The Store class is
    proved to compute them; the protocol is built from them. */
module Transactions {
  import opened Clock
  import opened Results
  import opened Keyset
  import opened Tables

  const MINUTE := 60 * 1_000_000_000
  const DAY := 24 * 60 * MINUTE
  const DEFAULT_STALE := 5 * MINUTE
  const MAX_PAGE := 1000

  // ---- Configs ----

  function InsertConfig(t: Tables, c: ConfigId, types: set<EventType>, now: Time): Tables
    requires c !in t.configs
  {
    t.(configs := t.configs[c := Config(types, true, now, None)])
  }

  function UpdateConfig(t: Tables, c: ConfigId, types: set<EventType>): Tables {
    if c in t.configs && t.configs[c].deletedAt.None?
    then t.(configs := t.configs[c := t.configs[c].(eventTypes := types)])
    else t
  }

  function CancelPending(t: Tables, c: ConfigId, now: Time): Tables {
    t.(deliveries := map i | i in t.deliveries ::
      var d := t.deliveries[i];
      if d.config == c && d.status == Pending then CancelPendingRow(d, now) else d)
  }

  function DeleteOneConfig(t: Tables, c: ConfigId, now: Time): Result<Tables, StoreError> {
    if c !in t.configs || t.configs[c].deletedAt.Some? then Err(ConfigNotFound)
    else
      var cfg := t.configs[c].(active := false, deletedAt := Some(now), updatedAt := now);
      Ok(CancelPending(t.(configs := t.configs[c := cfg]), c, now))
  }

  function UpdateOneConfigActivation(t: Tables, c: ConfigId, active: bool, now: Time): Result<Tables, StoreError> {
    if c !in t.configs || t.configs[c].deletedAt.Some? then Err(ConfigNotFound)
    else if t.configs[c].active == active then Err(ConfigNotModified)
    else
      var t1 := t.(configs := t.configs[c := t.configs[c].(active := active, updatedAt := now)]);
      Ok(if active then t1 else CancelPending(t1, c, now))
  }

  // ---- Enqueue ----

  function Matching(t: Tables, ty: EventType): set<ConfigId> {
    set c | c in t.configs && ty in t.configs[c].eventTypes && t.configs[c].Live()
  }

  /** The UUIDs drawn for the selected configs: one fresh ID each. */
  ghost predicate FreshPlan(t: Tables, ty: EventType, plan: map<DeliveryId, ConfigId>, issued: set<DeliveryId>) {
    && plan.Keys !! issued
    && (forall i :: i in plan ==> plan[i] in Matching(t, ty))
    && (forall c :: c in Matching(t, ty) ==> exists i :: i in plan && plan[i] == c)
    && (forall i, j :: i in plan && j in plan && plan[i] == plan[j] ==> i == j)
  }

  /** What ON CONFLICT (event_id, config_id) DO NOTHING lets in. */
  function Unconflicted(t: Tables, rows: map<DeliveryId, Delivery>): map<DeliveryId, Delivery> {
    map i | i in rows && !t.HasRow(rows[i].event, rows[i].config) :: rows[i]
  }

  function PlannedRows(e: EventId, createdAt: Time, plan: map<DeliveryId, ConfigId>): map<DeliveryId, Delivery> {
    map i | i in plan :: NewDelivery(e, plan[i], createdAt)
  }

  function EnqueueEvent(t: Tables, e: EventId, createdAt: Time, plan: map<DeliveryId, ConfigId>): Tables {
    t.(deliveries := t.deliveries + Unconflicted(t, PlannedRows(e, createdAt, plan)))
  }

  // ---- Claim ----

  predicate Due(t: Tables, d: Delivery, now: Time) {
    d.status == Pending && d.nextAttemptAt.Some? && d.nextAttemptAt.value <= now && t.LiveConfig(d.config)
  }

  function DueKeys(t: Tables, now: Time): set<Key> {
    KeySet(map i | i in t.deliveries && Due(t, t.deliveries[i], now) :: t.deliveries[i].nextAttemptAt.value)
  }

  function ClaimLimit(limit: int): nat {
    if limit <= 0 then 50 else limit
  }

  function ClaimKeys(t: Tables, limit: int, now: Time): seq<Key> {
    Take(Sorted(Asc, DueKeys(t, now)), ClaimLimit(limit))
  }

  function ClaimRows(t: Tables, ids: set<DeliveryId>, now: Time): map<DeliveryId, Delivery> {
    map i | i in t.deliveries :: if i in ids then ClaimRow(t.deliveries[i], now) else t.deliveries[i]
  }

  function ClaimDeliveries(t: Tables, limit: int, now: Time): Tables {
    t.(deliveries := ClaimRows(t, Ids(ClaimKeys(t, limit, now)), now))
  }

  // ---- Complete, cancel, fail, recover ----

  predicate Holds(d: Delivery, claimedAt: Option<Time>) {
    d.status == Delivering && claimedAt.Some? && d.claimedAt == claimedAt
  }

  /** The status CompleteDelivery writes, once it has seen the config. */
  function FinalVersion(t: Tables, done: Delivery): Delivery {
    if done.status != Succeeded && !t.LiveConfig(done.config)
    then done.(status := Cancelled, nextAttemptAt := None) else done
  }

  datatype Completion = Completion(tables: Tables, status: Status)

  function CompleteDelivery(t: Tables, i: DeliveryId, done: Delivery, a: AttemptRow, now: Time): Result<Completion, StoreError> {
    var key := AttemptKey(i, done.generation, done.attemptCount);
    if done.config !in t.configs || key in t.attempts || i !in t.deliveries then Err(DatabaseError)
    else if !Holds(t.deliveries[i], done.claimedAt) then Err(DeliveryNotFound)
    else
      var final := FinalVersion(t, done);
      Ok(Completion(
           t.(attempts := t.attempts[key := a],
              deliveries := t.deliveries[i := CompleteRow(t.deliveries[i], final, now)]),
           final.status))
  }

  function CancelDelivery(t: Tables, i: DeliveryId, now: Time): Result<Tables, StoreError> {
    if i in t.deliveries && t.deliveries[i].status in {Pending, Delivering}
    then Ok(t.(deliveries := t.deliveries[i := CancelRow(t.deliveries[i], now)]))
    else Err(DeliveryNotFound)
  }

  function FailClaimedDelivery(t: Tables, i: DeliveryId, claimedAt: Time, now: Time): Result<Tables, StoreError> {
    if i in t.deliveries && Holds(t.deliveries[i], Some(claimedAt))
    then Ok(t.(deliveries := t.deliveries[i := FailRow(t.deliveries[i], now)]))
    else Err(DeliveryNotFound)
  }

  predicate Stale(t: Tables, d: Delivery, age: int, now: Time) {
    && d.status == Delivering && d.claimedAt.Some?
    && d.claimedAt.value < now - age && d.config in t.configs
  }

  function StaleAge(age: int): int {
    if age <= 0 then DEFAULT_STALE else age
  }

  function RecoverStaleDeliveries(t: Tables, age: int, now: Time): Tables {
    t.(deliveries := map i | i in t.deliveries ::
      var d := t.deliveries[i];
      if Stale(t, d, StaleAge(age), now) then RecoverRow(d, t.LiveConfig(d.config), now) else d)
  }

  // ---- Replay ----

  datatype CacheState = Miss | Hit(response: Response) | Conflict

  predicate Expired(r: ReplayRecord, now: Time) {
    r.createdAt < now - DAY
  }

  function ReplayCached(t: Tables, key: IdempotencyKey, request: Request, now: Time): CacheState {
    if key !in t.replays || Expired(t.replays[key], now) then Miss
    else if t.replays[key].request != request then Conflict
    else Hit(t.replays[key].response)
  }

  function StoreResponse(t: Tables, key: IdempotencyKey, request: Request, response: Response, now: Time): Tables {
    t.(replays := t.replays[key := ReplayRecord(request, response, now)])
  }

  datatype Answer = Applied(response: Response) | Cached(response: Response) | Rejected(error: StoreError)

  datatype Replay = Replay(tables: Tables, answer: Answer)

  function ReplayDelivery(t: Tables, i: DeliveryId, key: IdempotencyKey, now: Time): Replay {
    match ReplayCached(t, key, OneDelivery(i), now)
    case Hit(response) => Replay(t, Cached(response))
    case Conflict => Replay(t, Rejected(IdempotencyConflict))
    case Miss =>
      if i !in t.deliveries then Replay(t, Rejected(DeliveryNotFound))
      else
        var d := t.deliveries[i];
        if !t.LiveConfig(d.config) || d.status !in {Failed, Pending}
        then Replay(t, Rejected(DeliveryNotReplayable))
        else
          var d1 := if d.status == Failed then ReplayRow(d, now) else ExpediteRow(d, now);
          var response := Replayed(i, d1);
          Replay(StoreResponse(t.(deliveries := t.deliveries[i := d1]), key, OneDelivery(i), response, now),
                 Applied(response))
  }

  /** The store's own defaults. */
  function Normalize(r: BulkRequest, now: Time): BulkRequest {
    r.(to := if r.to.None? then Some(now) else r.to,
       statuses := if r.statuses == [] then [Failed, Pending] else r.statuses,
       pageSize := if r.pageSize <= 0 || r.pageSize > MAX_PAGE then MAX_PAGE else r.pageSize)
  }

  predicate InBulk(t: Tables, d: Delivery, r: BulkRequest)
    requires r.to.Some?
  {
    && r.from <= d.createdAt <= r.to.value
    && d.status in r.statuses
    && t.LiveConfig(d.config)
    && (r.configIds != [] ==> d.config in r.configIds)
  }

  function CandidateKeys(t: Tables, r: BulkRequest): set<Key>
    requires r.to.Some?
  {
    KeySet(map i | i in t.deliveries && InBulk(t, t.deliveries[i], r) :: t.deliveries[i].createdAt)
  }

  function BulkPage(t: Tables, r: BulkRequest): seq<Key>
    requires r.to.Some? && r.pageSize > 0
  {
    Page(Asc, CandidateKeys(t, r), r.cursor, r.pageSize)
  }

  predicate BulkHasMore(t: Tables, r: BulkRequest)
    requires r.to.Some? && r.pageSize > 0
  {
    HasMore(Asc, CandidateKeys(t, r), r.cursor, r.pageSize)
  }

  function WithStatus(t: Tables, ids: set<DeliveryId>, s: Status): set<DeliveryId> {
    set i | i in ids && i in t.deliveries && t.deliveries[i].status == s
  }

  function BulkRows(t: Tables, ids: set<DeliveryId>, now: Time): map<DeliveryId, Delivery> {
    map i | i in t.deliveries ::
      var d := t.deliveries[i];
      if i in ids && d.status == Failed then ReplayRow(d, now)
      else if i in ids && d.status == Pending then ExpediteRow(d, now)
      else d
  }

  function BulkAnswer(t: Tables, r: BulkRequest): BulkResult
    requires r.to.Some? && r.pageSize > 0
  {
    var page := BulkPage(t, r);
    var ids := Ids(page);
    var failed, pending := WithStatus(t, ids, Failed), WithStatus(t, ids, Pending);
    var cursor := if BulkHasMore(t, r) && page != [] then Some(page[|page| - 1]) else None;
    BulkResult(|failed|, |pending|, |ids - failed - pending|, BulkHasMore(t, r), cursor,
               if cursor.Some? then Some(ReplayCursor(cursor.value, r.from, r.to.value, r.statuses, r.configIds)) else None,
               r.to.value)
  }

  /** A bulk replay touches neither configs nor attempts. */
  function ReplayDeliveries(t: Tables, request: BulkRequest, key: IdempotencyKey, now: Time): (replay: Replay)
    ensures replay.tables.configs == t.configs && replay.tables.attempts == t.attempts
  {
    var hashed := Bulk(request.(cursor := None));
    match ReplayCached(t, key, hashed, now)
    case Hit(response) => Replay(t, Cached(response))
    case Conflict => Replay(t, Rejected(IdempotencyConflict))
    case Miss => ReplayPage(t, Normalize(request, now), hashed, key, now)
  }

  function ReplayPage(t: Tables, r: BulkRequest, hashed: Request, key: IdempotencyKey, now: Time): (replay: Replay)
    requires r.to.Some? && r.pageSize > 0
    ensures replay.tables.configs == t.configs && replay.tables.attempts == t.attempts
  {
    var response := BulkDone(BulkAnswer(t, r));
    Replay(StoreResponse(t.(deliveries := BulkRows(t, Ids(BulkPage(t, r)), now)), key, hashed, response, now),
           Applied(response))
  }

  // ---- Listing ----

  datatype Filter = Filter(
    config: Option<ConfigId>,
    status: Option<Status>,
    createdAfter: Option<Time>,
    createdBefore: Option<Time>,
    after: Option<Key>,
    pageSize: int)

  datatype ListPage = ListPage(data: seq<Key>, hasMore: bool, nextCursor: Option<Key>)

  predicate Listed(d: Delivery, f: Filter) {
    && (f.config.Some? ==> d.config == f.config.value)
    && (f.status.Some? ==> d.status == f.status.value)
    && (f.createdAfter.Some? ==> f.createdAfter.value <= d.createdAt)
    && (f.createdBefore.Some? ==> d.createdAt <= f.createdBefore.value)
  }

  function ListKeys(t: Tables, f: Filter): set<Key> {
    KeySet(map i | i in t.deliveries && Listed(t.deliveries[i], f) :: t.deliveries[i].createdAt)
  }

  function ListSize(n: int): nat {
    if n <= 0 then 100 else if n > MAX_PAGE then MAX_PAGE else n
  }

  /** LIMIT pageSize + 1: the extra row only announces that there is more. */
  function FindDeliveries(t: Tables, f: Filter): ListPage {
    var n := ListSize(f.pageSize);
    var data := Page(Desc, ListKeys(t, f), f.after, n);
    if HasMore(Desc, ListKeys(t, f), f.after, n) && data != []
    then ListPage(data, true, Some(data[|data| - 1]))
    else ListPage(data, false, None)
  }

  // ---- Purge ----

  predicate Purgeable(d: Delivery, statuses: set<Status>, age: int, now: Time) {
    d.status in statuses && d.updatedAt < now - age
  }

  function PurgeKeys(t: Tables, statuses: set<Status>, age: int, batch: nat, now: Time): seq<Key> {
    Take(Sorted(Asc, KeySet(map i | i in t.deliveries && Purgeable(t.deliveries[i], statuses, age, now) ::
                              t.deliveries[i].updatedAt)), batch)
  }

  /** DELETE FROM deliveries, cascading to delivery_attempts. */
  function DeleteDeliveries(t: Tables, ids: set<DeliveryId>): Tables {
    t.(deliveries := map i | i in t.deliveries && i !in ids :: t.deliveries[i],
       attempts := map k | k in t.attempts && k.delivery !in ids :: t.attempts[k])
  }

  function PurgeClass(t: Tables, statuses: set<Status>, age: int, batch: nat, now: Time): Tables {
    if age <= 0 then t else DeleteDeliveries(t, Ids(PurgeKeys(t, statuses, age, batch, now)))
  }

  function PurgeReplays(t: Tables, now: Time): Tables {
    t.(replays := map k | k in t.replays && !Expired(t.replays[k], now) :: t.replays[k])
  }

  predicate Referenced(t: Tables, c: ConfigId) {
    exists i :: i in t.deliveries && t.deliveries[i].config == c
  }

  function PurgeConfigs(t: Tables, batch: nat): Tables {
    var keys := Take(Sorted(Asc, KeySet(map c | c in t.configs && t.configs[c].deletedAt.Some? && !Referenced(t, c) ::
                                          t.configs[c].deletedAt.value)), batch);
    t.(configs := map c | c in t.configs && c !in Ids(keys) :: t.configs[c])
  }

  function BatchSize(n: int): nat {
    if n <= 0 then 1000 else n
  }

  /** The statements of a purge, each committed on its own. */
  datatype Deletion = OldRows(succeeded: bool, age: int) | OldRecords | DeletedConfigs

  function ClassStatuses(succeeded: bool): set<Status> {
    if succeeded then {Succeeded} else {Failed, Cancelled}
  }

  function Delete(t: Tables, d: Deletion, batch: nat, now: Time): Tables {
    match d
    case OldRows(succeeded, age) => PurgeClass(t, ClassStatuses(succeeded), age, batch, now)
    case OldRecords => PurgeReplays(t, now)
    case DeletedConfigs => PurgeConfigs(t, batch)
  }

  function Deletions(successAge: int, failedAge: int): seq<Deletion> {
    [OldRows(true, successAge), OldRows(false, failedAge), OldRecords, DeletedConfigs]
  }

  /** The tables after the first n statements, each at its own time. */
  function PurgedBy(t: Tables, deletions: seq<Deletion>, n: nat, batch: nat, clock: nat -> Time): Tables
    requires n <= |deletions|
  {
    if n == 0 then t
    else Delete(PurgedBy(t, deletions, n - 1, batch, clock), deletions[n - 1], batch, clock(n - 1))
  }
}
