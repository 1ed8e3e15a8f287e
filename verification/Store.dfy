/** The PostgreSQL store (pkg/storage/postgres): its methods change the tables in
    place, one transaction each, and compute exactly the functions of module
    Transactions. A transaction that fails leaves the tables as they were. */
module PostgresStore {
  import opened Clock
  import opened Results
  import opened Keyset
  import opened Tables
  import T = Transactions
  import E = Effects
  import opened Invariants
  import B = Backfill

  lemma PlanIsFresh(t: Tables, ty: EventType, plan: map<DeliveryId, ConfigId>, uuids: seq<DeliveryId>, issued: set<DeliveryId>)
    requires forall i :: i in uuids ==> i !in issued
    requires forall i :: i in plan ==> i in uuids && plan[i] in T.Matching(t, ty)
    requires forall c :: c in T.Matching(t, ty) ==> exists i :: i in plan && plan[i] == c
    requires forall i, j :: i in plan && j in plan && plan[i] == plan[j] ==> i == j
    ensures T.FreshPlan(t, ty, plan, issued)
  {
  }

  lemma PlannedCons(e: EventId, createdAt: Time, plan: map<DeliveryId, ConfigId>, i: DeliveryId, c: ConfigId)
    ensures T.PlannedRows(e, createdAt, plan)[i := NewDelivery(e, c, createdAt)] == T.PlannedRows(e, createdAt, plan[i := c])
  {
  }

  lemma StatusOfSnoc(t: Tables, ids: set<DeliveryId>, i: DeliveryId, s: Status)
    requires i in t.deliveries && i !in ids
    ensures T.WithStatus(t, ids + {i}, s)
         == if t.deliveries[i].status == s then T.WithStatus(t, ids, s) + {i} else T.WithStatus(t, ids, s)
    ensures |T.WithStatus(t, ids + {i}, s)| == |T.WithStatus(t, ids, s)| + if t.deliveries[i].status == s then 1 else 0
  {
    assert T.WithStatus(t, ids + {i}, s)
        == if t.deliveries[i].status == s then T.WithStatus(t, ids, s) + {i} else T.WithStatus(t, ids, s);
    assert i !in T.WithStatus(t, ids, s);
  }

  /** The rows seen so far, sorted by status. */
  ghost predicate Split(t: Tables, seen: set<DeliveryId>, failedIDs: seq<DeliveryId>, pendingIDs: seq<DeliveryId>, skipped: nat) {
    && (forall i :: i in failedIDs <==> i in T.WithStatus(t, seen, Failed))
    && (forall i :: i in pendingIDs <==> i in T.WithStatus(t, seen, Pending))
    && |failedIDs| == |T.WithStatus(t, seen, Failed)|
    && |pendingIDs| == |T.WithStatus(t, seen, Pending)|
    && skipped == |seen| - |failedIDs| - |pendingIDs|
  }

  lemma SplitOneMore(t: Tables, seen: set<DeliveryId>, i: DeliveryId, failedIDs: seq<DeliveryId>,
                     pendingIDs: seq<DeliveryId>, skipped: nat)
    requires i in t.deliveries && i !in seen && Split(t, seen, failedIDs, pendingIDs, skipped)
    ensures match t.deliveries[i].status
            case Failed => Split(t, seen + {i}, failedIDs + [i], pendingIDs, skipped)
            case Pending => Split(t, seen + {i}, failedIDs, pendingIDs + [i], skipped)
            case _ => Split(t, seen + {i}, failedIDs, pendingIDs, skipped + 1)
  {
    StatusOfSnoc(t, seen, i, Failed);
    StatusOfSnoc(t, seen, i, Pending);
  }

  lemma Overwrite(replays: map<IdempotencyKey, ReplayRecord>, key: IdempotencyKey, record: ReplayRecord)
    ensures (replays - {key})[key := record] == replays[key := record]
  {
  }

  /** A page does not depend on the idempotency records. */
  lemma CandidatesSame(t: Tables, t1: Tables, r: BulkRequest)
    requires r.to.Some? && t1.deliveries == t.deliveries && t1.configs == t.configs
    ensures T.CandidateKeys(t1, r) == T.CandidateKeys(t, r)
  {
    assert forall d :: T.InBulk(t1, d, r) <==> T.InBulk(t, d, r);
    assert (map i | i in t1.deliveries && T.InBulk(t1, t1.deliveries[i], r) :: t1.deliveries[i].createdAt)
        == (map i | i in t.deliveries && T.InBulk(t, t.deliveries[i], r) :: t.deliveries[i].createdAt);
  }

  lemma StatusesSame(t: Tables, t1: Tables, ids: set<DeliveryId>, s: Status)
    requires t1.deliveries == t.deliveries
    ensures T.WithStatus(t1, ids, s) == T.WithStatus(t, ids, s)
  {
  }

  lemma RowsSame(t: Tables, t1: Tables, ids: set<DeliveryId>, now: Time)
    requires t1.deliveries == t.deliveries
    ensures T.BulkRows(t1, ids, now) == T.BulkRows(t, ids, now)
  {
  }

  lemma PageSame(t: Tables, t1: Tables, r: BulkRequest, now: Time)
    requires r.to.Some? && r.pageSize > 0 && t1.deliveries == t.deliveries && t1.configs == t.configs
    ensures T.BulkAnswer(t1, r) == T.BulkAnswer(t, r)
    ensures T.BulkRows(t1, Ids(T.BulkPage(t1, r)), now) == T.BulkRows(t, Ids(T.BulkPage(t, r)), now)
  {
    CandidatesSame(t, t1, r);
    var ids := Ids(T.BulkPage(t, r));
    StatusesSame(t, t1, ids, Failed);
    StatusesSame(t, t1, ids, Pending);
    RowsSame(t, t1, ids, now);
  }

  lemma BulkAnswerIs(t: Tables, r: BulkRequest, result: BulkResult)
    requires r.to.Some? && r.pageSize > 0
    requires var page := T.BulkPage(t, r);
             && result.replayed == |T.WithStatus(t, Ids(page), Failed)|
             && result.expedited == |T.WithStatus(t, Ids(page), Pending)|
             && result.skipped == |Ids(page)| - result.replayed - result.expedited
             && result.hasMore == T.BulkHasMore(t, r) && result.to == r.to.value
             && result.nextCursor == (if T.BulkHasMore(t, r) && page != [] then Some(page[|page| - 1]) else None)
             && result.token == (if result.nextCursor.Some?
                                 then Some(ReplayCursor(result.nextCursor.value, r.from, r.to.value, r.statuses, r.configIds))
                                 else None)
    ensures result == T.BulkAnswer(t, r)
  {
    SkippedCount(t, Ids(T.BulkPage(t, r)));
  }

  lemma SkippedCount(t: Tables, ids: set<DeliveryId>)
    ensures var failed, pending := T.WithStatus(t, ids, Failed), T.WithStatus(t, ids, Pending);
            |ids - failed - pending| == |ids| - |failed| - |pending|
  {
    var failed, pending := T.WithStatus(t, ids, Failed), T.WithStatus(t, ids, Pending);
    assert failed + pending <= ids && failed !! pending;
    assert |ids - failed - pending| == |ids| - |failed| - |pending|;
  }

  lemma NextId(keys: seq<Key>, j: nat)
    requires j < |keys| && forall i, k :: 0 <= i < k < |keys| ==> keys[i].id != keys[k].id
    ensures Ids(keys[..j + 1]) == Ids(keys[..j]) + {keys[j].id} && keys[j].id !in Ids(keys[..j])
  {
    assert keys[..j + 1] == keys[..j] + [keys[j]];
    IdsOfSnoc(keys[..j], keys[j]);
  }

  /** The two UPDATEs of a bulk replay, one after the other. */
  lemma ReopenedRows(t: Tables, ids: set<DeliveryId>, rows: map<DeliveryId, Delivery>, rows1: map<DeliveryId, Delivery>,
                     now: Time)
    requires rows.Keys == t.deliveries.Keys && rows1.Keys == t.deliveries.Keys
    requires forall i :: i in t.deliveries ==>
               rows[i] == (if i in T.WithStatus(t, ids, Failed) then ReplayRow(t.deliveries[i], now) else t.deliveries[i])
    requires forall i :: i in t.deliveries ==>
               rows1[i] == if i in T.WithStatus(t, ids, Pending) then ExpediteRow(rows[i], now) else rows[i]
    ensures rows1 == T.BulkRows(t, ids, now)
  {
  }

  lemma RecoveredIs(t: Tables, age: int, stale: set<DeliveryId>, rows: map<DeliveryId, Delivery>, now: Time)
    requires stale == set i | i in t.deliveries && T.Stale(t, t.deliveries[i], T.StaleAge(age), now)
    requires rows.Keys == t.deliveries.Keys
    requires forall i :: i in rows ==>
               rows[i] == if i in stale then RecoverRow(t.deliveries[i], t.LiveConfig(t.deliveries[i].config), now)
                          else t.deliveries[i]
    ensures t.(deliveries := rows) == T.RecoverStaleDeliveries(t, age, now)
    ensures stale == E.Abandoned(t, age, now)
  {
    E.StaleAreAbandoned(t, age, now);
  }

  /** Only what a cancellation sets has changed. */
  predicate CancelledInPlace(d: Delivery, d1: Delivery, now: Time) {
    && d1.status == Cancelled && d1.nextAttemptAt.None? && d1.updatedAt == now
    && d == d1.(status := d.status, nextAttemptAt := d.nextAttemptAt, updatedAt := d.updatedAt)
  }

  predicate NoPendingLeft(deliveries: map<DeliveryId, Delivery>, c: ConfigId) {
    forall i :: i in deliveries ==> deliveries[i].config != c || deliveries[i].status != Pending
  }

  predicate OthersKept(before: map<DeliveryId, Delivery>, after: map<DeliveryId, Delivery>, c: ConfigId) {
    before.Keys == after.Keys
    && forall i :: i in before && (before[i].config != c || before[i].status != Pending) ==> after[i] == before[i]
  }

  class Store {
    var configs: map<ConfigId, Config>
    var deliveries: map<DeliveryId, Delivery>
    var attempts: map<AttemptKey, AttemptRow>
    var replays: map<IdempotencyKey, ReplayRecord>

    function Contents(): Tables
      reads this
    {
      Tables(configs, deliveries, attempts, replays)
    }

    constructor ()
      ensures Contents() == Tables(map[], map[], map[], map[])
    {
      configs, deliveries, attempts, replays := map[], map[], map[], map[];
    }

    // ---- Configs ----

    /** The pending rows of the config are cancelled; nothing else in them, and no other
        row, changes. */
    method CancelPendingDeliveries(c: ConfigId, now: Time)
      modifies this`deliveries
      ensures Contents() == T.CancelPending(old(Contents()), c, now)
      ensures deliveries.Keys == old(deliveries).Keys
      ensures forall i :: i in deliveries && (old(deliveries)[i].config != c || old(deliveries)[i].status != Pending) ==>
                deliveries[i] == old(deliveries)[i]
      ensures forall i :: i in deliveries && old(deliveries)[i].config == c && old(deliveries)[i].status == Pending ==>
                CancelledInPlace(old(deliveries)[i], deliveries[i], now)
    {
      deliveries := map i | i in deliveries ::
        if deliveries[i].config == c && deliveries[i].status == Pending
        then CancelPendingRow(deliveries[i], now) else deliveries[i];
    }

    /** A config that exists and is not deleted is switched off and marked, no pending
        row of it is left, and other configs and their rows stay. */
    method DeleteOneConfig(c: ConfigId, now: Time) returns (err: Option<StoreError>)
      modifies this`configs, this`deliveries
      ensures match T.DeleteOneConfig(old(Contents()), c, now)
              case Ok(t) => err == None && Contents() == t
              case Err(e) => err == Some(e) && Contents() == old(Contents())
      ensures err.None? <==> c in old(configs) && old(configs)[c].deletedAt.None?
      ensures err.None? ==>
                && configs.Keys == old(configs).Keys && !configs[c].Live() && configs[c].deletedAt == Some(now)
                && (forall x :: x in configs && x != c ==> configs[x] == old(configs)[x])
                && NoPendingLeft(deliveries, c) && OthersKept(old(deliveries), deliveries, c)
    {
      if c !in configs || configs[c].deletedAt.Some? {
        return Some(ConfigNotFound);
      }
      configs := configs[c := configs[c].(active := false, deletedAt := Some(now), updatedAt := now)];
      CancelPendingDeliveries(c, now);
      err := None;
    }

    /** Switches the config and returns it; switched off, it leaves no pending row. */
    method UpdateOneConfigActivation(c: ConfigId, active: bool, now: Time) returns (r: Result<Config, StoreError>)
      modifies this`configs, this`deliveries
      ensures match T.UpdateOneConfigActivation(old(Contents()), c, active, now)
              case Ok(t) => r.Ok? && Contents() == t
              case Err(e) => r == Err(e) && Contents() == old(Contents())
      ensures r.Ok? <==> c in old(configs) && old(configs)[c].deletedAt.None? && old(configs)[c].active != active
      ensures r.Ok? ==>
                && configs == old(configs)[c := r.value]
                && r.value.active == active && r.value.updatedAt == now && r.value.deletedAt.None?
                && r.value.eventTypes == old(configs)[c].eventTypes
                && OthersKept(old(deliveries), deliveries, c)
                && (if active then deliveries == old(deliveries) else NoPendingLeft(deliveries, c))
    {
      if c !in configs || configs[c].deletedAt.Some? {
        return Err(ConfigNotFound);
      }
      var cfg := configs[c];
      if cfg.active == active {
        return Err(ConfigNotModified);
      }
      cfg := cfg.(active := active, updatedAt := now);
      configs := configs[c := cfg];
      if !active {
        CancelPendingDeliveries(c, now);
      }
      r := Ok(cfg);
    }

    // ---- Queue ----

    /** One new row per selected config, each under the next UUID. */
    method NewDeliveries(selected: set<ConfigId>, e: EventId, createdAt: Time, uuids: seq<DeliveryId>)
      returns (rows: map<DeliveryId, Delivery>, ghost plan: map<DeliveryId, ConfigId>)
      requires |selected| <= |uuids|
      requires forall i, j :: 0 <= i < j < |uuids| ==> uuids[i] != uuids[j]
      ensures forall i :: i in plan ==> i in uuids && plan[i] in selected
      ensures forall c :: c in selected ==> exists i :: i in plan && plan[i] == c
      ensures forall i, j :: i in plan && j in plan && plan[i] == plan[j] ==> i == j
      ensures rows == T.PlannedRows(e, createdAt, plan)
    {
      var rest := selected;
      var n := 0;
      rows, plan := map[], map[];
      ghost var idOf: map<ConfigId, DeliveryId> := map[];
      while rest != {}
        invariant rest <= selected && n + |rest| == |selected|
        invariant forall i :: i in plan ==> i in uuids[..n] && plan[i] in idOf && idOf[plan[i]] == i
        invariant idOf.Keys == selected - rest
        invariant forall c :: c in idOf ==> idOf[c] in plan && plan[idOf[c]] == c
        invariant rows == T.PlannedRows(e, createdAt, plan)
        decreases rest
      {
        var c :| c in rest;
        var id := uuids[n];
        assert id !in plan;
        PlannedCons(e, createdAt, plan, id, c);
        plan := plan[id := c];
        idOf := idOf[c := id];
        rows := rows[id := NewDelivery(e, c, createdAt)];
        rest := rest - {c};
        assert uuids[..n + 1] == uuids[..n] + [id];
        n := n + 1;
      }
      forall c | c in selected ensures exists i :: i in plan && plan[i] == c {
        assert idOf[c] in plan;
      }
    }

    /** The rows of the matching live configs are inserted, except for the pairs of
        event and config that exist: afterwards exactly the active, undeleted configs
        subscribed to the type, and those that had one before, have a row for it. */
    method EnqueueEvent(e: EventId, ty: EventType, createdAt: Time, uuids: seq<DeliveryId>, ghost issued: set<DeliveryId>)
      returns (ghost plan: map<DeliveryId, ConfigId>)
      requires |T.Matching(Contents(), ty)| <= |uuids|
      requires forall i, j :: 0 <= i < j < |uuids| ==> uuids[i] != uuids[j]
      requires forall i :: i in uuids ==> i !in issued
      modifies this`deliveries
      ensures T.FreshPlan(old(Contents()), ty, plan, issued)
      ensures Contents() == T.EnqueueEvent(old(Contents()), e, createdAt, plan)
      ensures old(deliveries).Keys <= issued ==>
                forall c :: Contents().HasRow(e, c) <==>
                  || old(Contents()).HasRow(e, c)
                  || (&& c in configs && ty in configs[c].eventTypes && configs[c].active && configs[c].deletedAt.None?)
    {
      var selected := T.Matching(Contents(), ty);
      var rows;
      rows, plan := NewDeliveries(selected, e, createdAt, uuids);
      var t := Contents();
      PlanIsFresh(t, ty, plan, uuids, issued);
      deliveries := deliveries + T.Unconflicted(t, rows);
      if t.deliveries.Keys <= issued {
        forall c ensures Contents().HasRow(e, c) <==> t.HasRow(e, c) || E.Receives(t, c, ty) {
          E.EnqueueEffect(t, e, ty, createdAt, plan, issued, c);
        }
      }
    }

    /** RETURNING d.*, in the order of the keys. */
    method Returning(keys: seq<Key>) returns (res: seq<(DeliveryId, Delivery)>)
      requires forall k :: k in keys ==> k.id in deliveries
      ensures |res| == |keys|
      ensures forall j :: 0 <= j < |res| ==> res[j] == (keys[j].id, deliveries[keys[j].id])
    {
      res := [];
      for j := 0 to |keys|
        invariant |res| == j
        invariant forall x :: 0 <= x < j ==> res[x] == (keys[x].id, deliveries[keys[x].id])
      {
        assert keys[j] in keys;
        res := res + [(keys[j].id, deliveries[keys[j].id])];
      }
    }

    method ClaimDeliveries(limit: int, now: Time) returns (res: seq<(DeliveryId, Delivery)>)
      modifies this`deliveries
      ensures Contents() == T.ClaimDeliveries(old(Contents()), limit, now)
      ensures var keys := T.ClaimKeys(old(Contents()), limit, now);
              |res| == |keys| && forall j :: 0 <= j < |res| ==>
                keys[j].id in deliveries && res[j] == (keys[j].id, deliveries[keys[j].id])
    {
      var n := limit;
      if n <= 0 {
        n := 50;
      }
      var candidates := Take(Sorted(Asc, T.DueKeys(Contents(), now)), n);
      ClaimedAreDue(Contents(), limit, now);
      var ids := Ids(candidates);
      assert forall k :: k in candidates ==> k.id in ids;
      var rows := map i | i in deliveries :: if i in ids then ClaimRow(deliveries[i], now) else deliveries[i];
      assert rows == T.ClaimRows(Contents(), ids, now);
      deliveries := rows;
      res := Returning(candidates);
    }

    method CompleteDelivery(i: DeliveryId, done: Delivery, a: AttemptRow, now: Time) returns (r: Result<Status, StoreError>)
      modifies this`deliveries, this`attempts
      ensures match T.CompleteDelivery(old(Contents()), i, done, a, now)
              case Ok(c) => r == Ok(c.status) && Contents() == c.tables
              case Err(e) => r == Err(e) && Contents() == old(Contents())
    {
      if done.config !in configs {
        return Err(DatabaseError);
      }
      var final := done;
      if final.status != Succeeded && !(configs[done.config].active && configs[done.config].deletedAt.None?) {
        final := final.(status := Cancelled, nextAttemptAt := None);
      }
      var key := AttemptKey(i, final.generation, final.attemptCount);
      if key in attempts || i !in deliveries {
        return Err(DatabaseError);
      }
      var rollback := attempts;
      attempts := attempts[key := a];
      if !T.Holds(deliveries[i], final.claimedAt) {
        attempts := rollback;
        return Err(DeliveryNotFound);
      }
      deliveries := deliveries[i := CompleteRow(deliveries[i], final, now)];
      r := Ok(final.status);
    }

    /** Whoever asks, and whoever holds the row: there is no claim to show. */
    method CancelDelivery(i: DeliveryId, now: Time) returns (err: Option<StoreError>)
      modifies this`deliveries
      ensures match T.CancelDelivery(old(Contents()), i, now)
              case Ok(t) => err == None && Contents() == t
              case Err(e) => err == Some(e) && Contents() == old(Contents())
      ensures err.None? <==> i in old(deliveries) && !old(deliveries)[i].Terminal()
      ensures deliveries.Keys == old(deliveries).Keys
      ensures forall j :: j in deliveries && j != i ==> deliveries[j] == old(deliveries)[j]
      ensures err.None? ==> CancelledInPlace(old(deliveries)[i].(claimedAt := None), deliveries[i], now)
    {
      if i in deliveries && (deliveries[i].status == Pending || deliveries[i].status == Delivering) {
        deliveries := deliveries[i := CancelRow(deliveries[i], now)];
        return None;
      }
      err := Some(DeliveryNotFound);
    }

    method FailClaimedDelivery(i: DeliveryId, claimedAt: Time, now: Time) returns (err: Option<StoreError>)
      modifies this`deliveries
      ensures match T.FailClaimedDelivery(old(Contents()), i, claimedAt, now)
              case Ok(t) => err == None && Contents() == t
              case Err(e) => err == Some(e) && Contents() == old(Contents())
      ensures err.None? <==> && i in old(deliveries) && old(deliveries)[i].status == Delivering
                             && old(deliveries)[i].claimedAt == Some(claimedAt)
      ensures deliveries.Keys == old(deliveries).Keys
      ensures forall j :: j in deliveries && j != i ==> deliveries[j] == old(deliveries)[j]
      ensures err.None? ==>
                && deliveries[i].status == Failed && deliveries[i].nextAttemptAt.None? && deliveries[i].claimedAt.None?
                && deliveries[i].generation == old(deliveries)[i].generation
                && deliveries[i].attemptCount == old(deliveries)[i].attemptCount
    {
      if i in deliveries && T.Holds(deliveries[i], Some(claimedAt)) {
        deliveries := deliveries[i := FailRow(deliveries[i], now)];
        return None;
      }
      err := Some(DeliveryNotFound);
    }

    /** The abandoned claims go back to the queue, due now, or are cancelled if their
        config is not live; no other row changes, and the count is that of those that
        do. */
    method RecoverStaleDeliveries(staleDuration: int, now: Time) returns (count: nat)
      modifies this`deliveries
      ensures Contents() == T.RecoverStaleDeliveries(old(Contents()), staleDuration, now)
      ensures E.Recovered(old(Contents()), Contents(), staleDuration, now)
      ensures count == |set i | i in old(deliveries) && Contents().Row(i) != old(Contents()).Row(i)|
    {
      var age := staleDuration;
      if age <= 0 {
        age := T.DEFAULT_STALE;
      }
      var t := Contents();
      var stale := set i | i in deliveries && T.Stale(t, deliveries[i], age, now);
      var rows := map i | i in deliveries ::
        if i in stale then RecoverRow(deliveries[i], t.LiveConfig(deliveries[i].config), now) else deliveries[i];
      count := |stale|;
      RecoveredIs(t, staleDuration, stale, rows, now);
      E.RecoveredRows(t, t.(deliveries := rows), staleDuration, now);
      deliveries := rows;
    }

    // ---- Listing ----

    /** Reads one row more than the page and cuts it off. */
    method FindDeliveries(f: T.Filter) returns (page: T.ListPage)
      ensures page == T.FindDeliveries(Contents(), f)
    {
      var pageSize := f.pageSize;
      if pageSize <= 0 {
        pageSize := 100;
      }
      if pageSize > T.MAX_PAGE {
        pageSize := T.MAX_PAGE;
      }
      var ordered := Sorted(Desc, After(Desc, T.ListKeys(Contents(), f), f.after));
      var res := Take(ordered, pageSize + 1);
      ExtraRow(ordered, pageSize);
      page := T.ListPage(res, false, None);
      if |res| > pageSize {
        var data := res[..pageSize];
        page := T.ListPage(data, true, Some(data[|data| - 1]));
      }
    }

    // ---- Replay ----

    /** Looks the key up, dropping an expired record. */
    method ReplayCached(key: IdempotencyKey, request: Request, now: Time) returns (state: T.CacheState)
      modifies this`replays
      ensures state == T.ReplayCached(old(Contents()), key, request, now)
      ensures replays == if state == T.Miss then old(replays) - {key} else old(replays)
    {
      if key !in replays {
        assert replays - {key} == replays;
        return T.Miss;
      }
      var record := replays[key];
      if record.createdAt < now - T.DAY {
        replays := replays - {key};
        return T.Miss;
      }
      if record.request != request {
        return T.Conflict;
      }
      state := T.Hit(record.response);
    }

    method ReplayDelivery(i: DeliveryId, key: IdempotencyKey, now: Time) returns (answer: T.Answer)
      modifies this`deliveries, this`replays
      ensures T.Replay(Contents(), answer) == T.ReplayDelivery(old(Contents()), i, key, now)
    {
      var rollback := replays;
      var cached := ReplayCached(key, OneDelivery(i), now);
      match cached {
        case Hit(response) => return T.Cached(response);
        case Conflict => return T.Rejected(IdempotencyConflict);
        case Miss =>
      }
      if i !in deliveries {
        replays := rollback;
        return T.Rejected(DeliveryNotFound);
      }
      var d := deliveries[i];
      if !Contents().LiveConfig(d.config) {
        replays := rollback;
        return T.Rejected(DeliveryNotReplayable);
      }
      if d.status == Failed {
        d := d.(status := Pending, generation := d.generation + 1, attemptCount := 0, cycleStartedAt := None,
                nextAttemptAt := Some(now), claimedAt := None);
      } else if d.status == Pending {
        d := d.(nextAttemptAt := Some(now));
      } else {
        replays := rollback;
        return T.Rejected(DeliveryNotReplayable);
      }
      d := d.(updatedAt := now);
      deliveries := deliveries[i := d];
      Overwrite(rollback, key, ReplayRecord(OneDelivery(i), Replayed(i, d), now));
      replays := replays[key := ReplayRecord(OneDelivery(i), Replayed(i, d), now)];
      answer := T.Applied(Replayed(i, d));
    }

    /** The candidates, one more than the page, and the page cut from them. */
    method SelectPage(r: BulkRequest) returns (page: seq<Key>, hasMore: bool)
      requires r.to.Some? && r.pageSize > 0
      ensures page == T.BulkPage(Contents(), r) && hasMore == T.BulkHasMore(Contents(), r)
      ensures forall k :: k in page ==> k.id in deliveries
      ensures forall i, j :: 0 <= i < j < |page| ==> page[i].id != page[j].id
    {
      var ordered := Sorted(Asc, After(Asc, T.CandidateKeys(Contents(), r), r.cursor));
      page := Take(ordered, r.pageSize + 1);
      hasMore := false;
      ExtraRow(ordered, r.pageSize);
      if |page| > r.pageSize {
        hasMore := true;
        page := page[..r.pageSize];
      }
      BulkPageLive(Contents(), r);
      PageIds(Contents(), r);
    }

    /** The two updates of a page, each on the rows that still have the status. */
    method Reopen(failedIDs: seq<DeliveryId>, pendingIDs: seq<DeliveryId>, ghost ids: set<DeliveryId>, now: Time)
      returns (replayed: nat, expedited: nat)
      requires forall i :: i in failedIDs <==> i in T.WithStatus(Contents(), ids, Failed)
      requires forall i :: i in pendingIDs <==> i in T.WithStatus(Contents(), ids, Pending)
      modifies this`deliveries
      ensures deliveries == T.BulkRows(old(Contents()), ids, now)
      ensures replayed == |T.WithStatus(old(Contents()), ids, Failed)|
      ensures expedited == |T.WithStatus(old(Contents()), ids, Pending)|
    {
      ghost var t := Contents();
      replayed, expedited := 0, 0;
      var failed := set i | i in failedIDs && i in deliveries && deliveries[i].status == Failed;
      assert failed == T.WithStatus(t, ids, Failed);
      var pending := set i | i in pendingIDs && i in deliveries && deliveries[i].status == Pending;
      assert pending == T.WithStatus(t, ids, Pending);
      if |failedIDs| > 0 {
        deliveries := map i | i in deliveries :: if i in failed then ReplayRow(deliveries[i], now) else deliveries[i];
        replayed := |failed|;
      } else {
        assert failed == {};
      }
      ghost var replayedRows := deliveries;
      if |pendingIDs| > 0 {
        deliveries := map i | i in deliveries :: if i in pending then ExpediteRow(deliveries[i], now) else deliveries[i];
        expedited := |pending|;
      } else {
        assert pending == {};
      }
      ReopenedRows(t, ids, replayedRows, deliveries, now);
    }

    /** Sorts the page's rows by status. */
    method Partition(candidates: seq<Key>)
      returns (failedIDs: seq<DeliveryId>, pendingIDs: seq<DeliveryId>, skipped: nat)
      requires forall k :: k in candidates ==> k.id in deliveries
      requires forall i, j :: 0 <= i < j < |candidates| ==> candidates[i].id != candidates[j].id
      ensures var failed := T.WithStatus(Contents(), Ids(candidates), Failed);
              (forall i :: i in failedIDs <==> i in failed) && |failedIDs| == |failed|
      ensures var pending := T.WithStatus(Contents(), Ids(candidates), Pending);
              (forall i :: i in pendingIDs <==> i in pending) && |pendingIDs| == |pending|
      ensures skipped == |Ids(candidates)| - |failedIDs| - |pendingIDs|
    {
      failedIDs, pendingIDs, skipped := [], [], 0;
      var t := Contents();
      ghost var seen: set<DeliveryId> := {};
      for j := 0 to |candidates|
        invariant seen == Ids(candidates[..j]) && seen <= t.deliveries.Keys
        invariant Split(t, seen, failedIDs, pendingIDs, skipped)
      {
        var id := candidates[j].id;
        NextId(candidates, j);
        assert candidates[j] in candidates;
        SplitOneMore(t, seen, id, failedIDs, pendingIDs, skipped);
        seen := seen + {id};
        match deliveries[id].status {
          case Failed => failedIDs := failedIDs + [id];
          case Pending => pendingIDs := pendingIDs + [id];
          case _ => skipped := skipped + 1;
        }
      }
      assert candidates[..|candidates|] == candidates;
    }

    method ReplayDeliveries(request: BulkRequest, key: IdempotencyKey, now: Time) returns (answer: T.Answer)
      modifies this`deliveries, this`replays
      ensures T.Replay(Contents(), answer) == T.ReplayDeliveries(old(Contents()), request, key, now)
    {
      var hashed := Bulk(request.(cursor := None));
      var cached := ReplayCached(key, hashed, now);
      match cached {
        case Hit(response) => return T.Cached(response);
        case Conflict => return T.Rejected(IdempotencyConflict);
        case Miss =>
      }
      var r := request;
      if r.to.None? {
        r := r.(to := Some(now));
      }
      if r.statuses == [] {
        r := r.(statuses := [Failed, Pending]);
      }
      if r.pageSize <= 0 || r.pageSize > T.MAX_PAGE {
        r := r.(pageSize := T.MAX_PAGE);
      }
      assert r == T.Normalize(request, now);
      PageSame(old(Contents()), Contents(), r, now);
      var result := ReplayPage(r, now);
      Overwrite(old(replays), key, ReplayRecord(hashed, BulkDone(result), now));
      replays := replays[key := ReplayRecord(hashed, BulkDone(result), now)];
      answer := T.Applied(BulkDone(result));
    }

    method ReplayPage(r: BulkRequest, now: Time) returns (result: BulkResult)
      requires r.to.Some? && r.pageSize > 0
      modifies this`deliveries
      ensures result == T.BulkAnswer(old(Contents()), r)
      ensures deliveries == T.BulkRows(old(Contents()), Ids(T.BulkPage(old(Contents()), r)), now)
    {
      var page, hasMore := SelectPage(r);
      var failedIDs, pendingIDs, skipped := Partition(page);
      var replayed, expedited := Reopen(failedIDs, pendingIDs, Ids(page), now);
      skipped := skipped + (|failedIDs| - replayed) + (|pendingIDs| - expedited);
      result := BulkResult(replayed, expedited, skipped, hasMore, None, None, r.to.value);
      if hasMore && |page| > 0 {
        var last := page[|page| - 1];
        result := result.(nextCursor := Some(last),
                          token := Some(ReplayCursor(last, r.from, r.to.value, r.statuses, r.configIds)));
      }
      BulkAnswerIs(old(Contents()), r, result);
    }

    // ---- Retention ----

    method DeleteClass(statuses: set<Status>, age: int, batch: nat, now: Time) returns (affected: nat)
      requires age > 0
      modifies this`deliveries, this`attempts
      ensures Contents() == T.PurgeClass(old(Contents()), statuses, age, batch, now)
      ensures affected == |old(deliveries)| - |deliveries|
    {
      var keys := T.PurgeKeys(Contents(), statuses, age, batch, now);
      var doomed := Ids(keys);
      var kept: map<DeliveryId, Delivery> := map i | i in deliveries && i !in doomed :: deliveries[i];
      SubsetSize(kept.Keys, deliveries.Keys);
      affected := |deliveries| - |kept|;
      deliveries := kept;
      attempts := map k | k in attempts && k.delivery !in doomed :: attempts[k];
    }

    method DeleteRecords(now: Time)
      modifies this`replays
      ensures Contents() == T.PurgeReplays(old(Contents()), now)
    {
      replays := map k | k in replays && !T.Expired(replays[k], now) :: replays[k];
    }

    method DeleteConfigs(batch: nat)
      modifies this`configs
      ensures Contents() == T.PurgeConfigs(old(Contents()), batch)
    {
      var t := Contents();
      var at := map c | c in configs && configs[c].deletedAt.Some? && !T.Referenced(t, c) :: configs[c].deletedAt.value;
      var gone := Ids(Take(Sorted(Asc, KeySet(at)), batch));
      configs := map c | c in configs && c !in gone :: configs[c];
    }

    /** Four statements, each committed on its own at its own time. If the database
        refuses one, those before it stay. */
    method PurgeFinishedDeliveries(successOlderThan: int, failedOlderThan: int, batchSize: int, clock: nat -> Time,
                                   refused: Option<nat>)
      returns (total: nat, done: nat)
      modifies this
      ensures var deletions := T.Deletions(successOlderThan, failedOlderThan);
              && done <= |deletions|
              && Contents() == T.PurgedBy(old(Contents()), deletions, done, T.BatchSize(batchSize), clock)
              && (done < |deletions| ==> refused == Some(done))
              && (refused.None? ==> done == |deletions|)
      ensures total == |old(deliveries)| - |deliveries|
    {
      var batch := batchSize;
      if batch <= 0 {
        batch := 1000;
      }
      ghost var deletions := T.Deletions(successOlderThan, failedOlderThan);
      var targets := [({Succeeded}, successOlderThan), ({Failed, Cancelled}, failedOlderThan)];
      total := 0;
      for n := 0 to |targets|
        invariant Contents() == T.PurgedBy(old(Contents()), deletions, n, batch, clock)
        invariant total == |old(deliveries)| - |deliveries|
      {
        var (statuses, age) := targets[n];
        assert deletions[n] == T.OldRows(n == 0, age) && statuses == T.ClassStatuses(n == 0);
        if age <= 0 {
          continue;
        }
        if refused == Some(n) {
          return total, n;
        }
        var affected := DeleteClass(statuses, age, batch, clock(n));
        total := total + affected;
      }
      if refused == Some(2) {
        return total, 2;
      }
      DeleteRecords(clock(2));
      assert Contents() == T.PurgedBy(old(Contents()), deletions, 3, batch, clock);
      if refused == Some(3) {
        return total, 3;
      }
      DeleteConfigs(batch);
      done := 4;
    }

    // ---- Import of the old attempts table ----

    /** The row INSERT ... ON CONFLICT (event_id, config_id) DO UPDATE leaves, or a
        violated primary key. */
    method Upserted(i: DeliveryId, row: Delivery) returns (r: Result<Delivery, B.BackfillError>)
      ensures r == if i !in deliveries then Ok(row)
                   else if deliveries[i].event == row.event && deliveries[i].config == row.config
                   then Ok(B.Overwritten(deliveries[i], row))
                   else Err(B.Database)
    {
      if i !in deliveries {
        return Ok(row);
      }
      var d := deliveries[i];
      if d.event != row.event || d.config != row.config {
        return Err(B.Database);
      }
      r := Ok(d.(status := row.status, attemptCount := row.attemptCount, cycleStartedAt := row.cycleStartedAt,
                 nextAttemptAt := row.nextAttemptAt, claimedAt := None, lastAttemptAt := row.lastAttemptAt,
                 lastStatusCode := row.lastStatusCode, updatedAt := row.updatedAt));
    }

    method LegacyStatusOf(h: seq<B.LegacyAttempt>, live: bool) returns (status: Status)
      requires h != []
      ensures status == B.ImportedStatus(h, live)
    {
      status := Failed;
      for j := 0 to |h|
        invariant status == if exists x :: 0 <= x < j && B.Outstanding(h[x]) then Pending else Failed
      {
        if h[j].status == B.ToRetry || h[j].status == B.Retrying {
          status := Pending;
        }
      }
      if status != Pending && h[|h| - 1].status == B.Success {
        status := Succeeded;
      }
      if status == Pending && !live {
        status := Cancelled;
      }
    }

    method ImportAttempts(w: DeliveryId, h: seq<B.LegacyAttempt>)
      modifies this`attempts
      ensures attempts == B.ImportedAttempts(w, h) + old(attempts)
    {
      for j := 0 to |h|
        invariant attempts == B.ImportedAttempts(w, h[..j]) + old(attempts)
      {
        B.ImportedSnoc(w, h, j, old(attempts));
        var key := AttemptKey(w, 0, j + 1);
        if key !in attempts {
          attempts := attempts[key := B.ImportedAttempt(h[j])];
        }
      }
      assert h[..|h|] == h;
    }

    method LegacyRow(w: DeliveryId, h: seq<B.LegacyAttempt>, c: ConfigId, live: bool) returns (row: Delivery)
      requires h != []
      ensures row == B.ImportedRow(w, h, c, live)
    {
      var last := h[|h| - 1];
      var status := LegacyStatusOf(h, live);
      row := Delivery(EventId.Legacy(w), c, status, |h|, 0, Some(h[0].createdAt), None, None,
                      Some(last.createdAt), Some(last.code), h[0].createdAt, last.updatedAt);
      if status == Pending {
        row := row.(nextAttemptAt := Some(last.nextRetryAfter));
      }
    }

    method BackfillWebhook(l: B.Legacy, w: DeliveryId, now: Time) returns (err: Option<B.BackfillError>)
      modifies this`configs, this`deliveries, this`attempts
      ensures match B.BackfillWebhook(old(Contents()), l, w, now)
              case Ok(t) => err == None && Contents() == t
              case Err(e) => err == Some(e) && Contents() == old(Contents())
    {
      var h := B.History(l, w);
      if h == [] {
        return None;
      }
      var last := h[|h| - 1];
      if last.configId.None? {
        return Some(B.MissingConfigId);
      }
      var c := last.configId.value;
      var live, tombstone := false, c !in configs;
      if !tombstone {
        live := configs[c].active && configs[c].deletedAt.None?;
      }
      var row := LegacyRow(w, h, c, live);
      var written := Upserted(w, row);
      if written.Err? {
        return Some(written.error);
      }
      if tombstone {
        configs := configs[c := last.config.(active := false, deletedAt := Some(now))];
      }
      deliveries := deliveries[w := written.value];
      ImportAttempts(w, h);
      err := None;
    }

    /** One pass: the selected webhooks in order, each in its own transaction, up to
        the first that fails. */
    method BackfillDeliveries(l: B.Legacy, successSince: int, failedSince: int, batchSize: int, now: Time)
      returns (migrated: nat, err: Option<B.BackfillError>)
      modifies this`configs, this`deliveries, this`attempts
      ensures var keys := B.Batch(old(Contents()), l, B.OptionsOf(successSince, failedSince, batchSize), now);
              && migrated <= |keys|
              && B.BackfillAll(old(Contents()), l, keys[..migrated], now) == Ok(Contents())
              && (err.None? ==> migrated == |keys|)
              && (err.Some? ==> migrated < |keys|
                                && B.BackfillWebhook(Contents(), l, keys[migrated].id, now) == Err(err.value))
    {
      var n := batchSize;
      if n <= 0 {
        n := 1000;
      }
      var keys := B.Batch(Contents(), l, B.Options(successSince, failedSince, n), now);
      migrated := 0;
      while migrated < |keys|
        invariant migrated <= |keys|
        invariant B.BackfillAll(old(Contents()), l, keys[..migrated], now) == Ok(Contents())
      {
        B.BackfillSnoc(old(Contents()), l, keys, migrated, now);
        err := BackfillWebhook(l, keys[migrated].id, now);
        if err.Some? {
          return migrated, err;
        }
        migrated := migrated + 1;
      }
      err := None;
    }
  }
}
