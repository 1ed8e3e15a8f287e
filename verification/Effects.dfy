/** What each transaction does to the tables, stated in their columns: which rows it
    takes, in which order, up to which limit, and what it writes into them. None of
    these statements uses the selections, the row functions or the defaults of
    module Transactions; limits and ages are written out. */
module Effects {
  import opened Clock
  import opened Results
  import opened Keyset
  import opened Tables
  import opened Transactions

  // ---- ORDER BY ... LIMIT n ----

  /** The rows before the i-th in a result set that is ordered by time and ID. */
  function Earlier(dir: Direction, at: map<nat, Time>, i: nat): set<nat>
    requires i in at
  {
    set j | j in at && Before(dir, Key(at[j], j), Key(at[i], i))
  }

  /** The position of a row is the number of rows before it. */
  lemma RankOfId(dir: Direction, at: map<nat, Time>, i: nat)
    requires i in at
    ensures |Prefix(dir, KeySet(at), Key(at[i], i))| == |Earlier(dir, at, i)|
  {
    var before := map j | j in Earlier(dir, at, i) :: at[j];
    assert Prefix(dir, KeySet(at), Key(at[i], i)) == KeySet(before);
    assert before.Keys == Earlier(dir, at, i);
  }

  lemma TakenIff(dir: Direction, at: map<nat, Time>, n: nat, i: nat)
    ensures i in Ids(Take(Sorted(dir, KeySet(at)), n)) <==> i in at && |Earlier(dir, at, i)| < n
  {
    var taken := Take(Sorted(dir, KeySet(at)), n);
    TakeSubset(dir, KeySet(at), n);
    forall k | k in taken ensures k.id in at && at[k.id] == k.at {
      assert k in ToSet(taken);
    }
    if i in at {
      TakeIsLowRank(dir, KeySet(at), n, Key(at[i], i));
      RankOfId(dir, at, i);
    }
  }

  /** The rows after a cursor. */
  function Beyond(dir: Direction, at: map<nat, Time>, cursor: Option<Key>): map<nat, Time> {
    map j | j in at && (cursor.Some? ==> Before(dir, cursor.value, Key(at[j], j))) :: at[j]
  }

  lemma BeyondIsAfter(dir: Direction, at: map<nat, Time>, cursor: Option<Key>)
    ensures After(dir, KeySet(at), cursor) == KeySet(Beyond(dir, at, cursor))
  {
  }

  lemma OnPageIff(dir: Direction, at: map<nat, Time>, cursor: Option<Key>, n: nat, i: nat)
    ensures var rest := Beyond(dir, at, cursor);
            && (i in Ids(Page(dir, KeySet(at), cursor, n)) <==> i in rest && |Earlier(dir, rest, i)| < n)
            && (HasMore(dir, KeySet(at), cursor, n) <==> |rest.Keys| > n)
  {
    BeyondIsAfter(dir, at, cursor);
    TakenIff(dir, Beyond(dir, at, cursor), n, i);
  }

  // ---- Configs ----

  lemma ConfigEffects(t: Tables, c: ConfigId, types: set<EventType>, active: bool, now: Time)
    ensures c !in t.configs ==>
              InsertConfig(t, c, types, now) == t.(configs := t.configs[c := Config(types, true, now, None)])
    ensures var t1 := UpdateConfig(t, c, types);
            && t1 == t.(configs := t1.configs) && t1.configs.Keys == t.configs.Keys
            && (forall x :: x in t.configs ==>
                  t1.configs[x] == if x == c && t.configs[x].deletedAt.None?
                                   then t.configs[x].(eventTypes := types) else t.configs[x])
    ensures DeleteOneConfig(t, c, now).Ok? ==>
              c in t.configs && DeleteOneConfig(t, c, now).value.configs
                == t.configs[c := Config(t.configs[c].eventTypes, false, now, Some(now))]
  {
  }

  // ---- Enqueue ----

  /** The configs that an event of this type goes to. */
  predicate Receives(t: Tables, c: ConfigId, ty: EventType) {
    c in t.configs && ty in t.configs[c].eventTypes && t.configs[c].active && t.configs[c].deletedAt.None?
  }

  /** A row as an enqueue writes it. */
  predicate JustQueued(d: Delivery, e: EventId, createdAt: Time) {
    && d.event == e && d.status == Pending && d.nextAttemptAt == Some(createdAt)
    && d.createdAt == createdAt && d.updatedAt == createdAt
    && d.attemptCount == 0 && d.generation == 0
    && d.cycleStartedAt.None? && d.claimedAt.None? && d.lastAttemptAt.None? && d.lastStatusCode.None?
  }

  /** An event goes to exactly the active, undeleted configs subscribed to its type:
      afterwards each has a row for it, and no other config has that had none. */
  lemma EnqueueEffect(t: Tables, e: EventId, ty: EventType, createdAt: Time, plan: map<DeliveryId, ConfigId>,
                      issued: set<DeliveryId>, c: ConfigId)
    requires FreshPlan(t, ty, plan, issued) && t.deliveries.Keys <= issued
    ensures EnqueueEvent(t, e, createdAt, plan).HasRow(e, c) <==> t.HasRow(e, c) || Receives(t, c, ty)
  {
    MatchingReceive(t, ty);
    var t1 := EnqueueEvent(t, e, createdAt, plan);
    if t.HasRow(e, c) {
      var i :| i in t.deliveries && t.deliveries[i].event == e && t.deliveries[i].config == c;
      assert t1.deliveries[i] == t.deliveries[i];
    } else if Receives(t, c, ty) {
      var i :| i in plan && plan[i] == c;
      assert t1.deliveries[i] == NewDelivery(e, c, createdAt);
    } else {
      forall i | i in t1.deliveries && t1.deliveries[i].event == e ensures t1.deliveries[i].config != c {
        EnqueueRows(t, e, ty, createdAt, plan, issued, i);
      }
    }
  }

  lemma MatchingReceive(t: Tables, ty: EventType)
    ensures forall c :: c in Matching(t, ty) <==> Receives(t, c, ty)
  {
  }

  /** Its rows are new ones, as an enqueue writes them; nothing else changes. */
  lemma EnqueueRows(t: Tables, e: EventId, ty: EventType, createdAt: Time, plan: map<DeliveryId, ConfigId>,
                    issued: set<DeliveryId>, i: DeliveryId)
    requires FreshPlan(t, ty, plan, issued) && t.deliveries.Keys <= issued
    ensures var t1 := EnqueueEvent(t, e, createdAt, plan);
            && t1 == t.(deliveries := t1.deliveries)
            && (i in t.deliveries ==> t1.Row(i) == t.Row(i))
            && (i in t1.deliveries && i !in t.deliveries ==>
                  && JustQueued(t1.deliveries[i], e, createdAt)
                  && !t.HasRow(e, t1.deliveries[i].config) && Receives(t, t1.deliveries[i].config, ty))
  {
  }

  // ---- Claim ----

  /** The rows that are due, on a live config. */
  function Claimable(t: Tables, now: Time): set<DeliveryId> {
    set j | j in t.deliveries
            && t.deliveries[j].status == Pending
            && t.deliveries[j].nextAttemptAt.Some? && t.deliveries[j].nextAttemptAt.value <= now
            && t.deliveries[j].config in t.configs
            && t.configs[t.deliveries[j].config].active && t.configs[t.deliveries[j].config].deletedAt.None?
  }

  function DueBefore(t: Tables, now: Time, i: DeliveryId): set<DeliveryId>
    requires i in Claimable(t, now)
  {
    var at := t.deliveries[i].nextAttemptAt.value;
    set j | j in Claimable(t, now)
            && var x := t.deliveries[j].nextAttemptAt.value; x < at || (x == at && j < i)
  }

  /** A claim takes the due rows with fewer than limit (or 50) due rows before them in
      (next_attempt_at, id) order, and changes no other row. */
  lemma ClaimEffect(t: Tables, limit: int, now: Time, i: DeliveryId)
    requires i in t.deliveries
    ensures var t1 := ClaimDeliveries(t, limit, now);
            var n := if limit <= 0 then 50 else limit;
            var d := t.deliveries[i];
            && t1 == t.(deliveries := t1.deliveries) && t1.deliveries.Keys == t.deliveries.Keys
            && t1.deliveries[i] ==
                 if i in Claimable(t, now) && |DueBefore(t, now, i)| < n
                 then d.(status := Delivering, claimedAt := Some(now), updatedAt := now,
                         cycleStartedAt := if d.cycleStartedAt.Some? then d.cycleStartedAt else Some(now))
                 else d
  {
    DueInOrder(t, now);
    TakenIff(Asc, DueTimes(t, now), if limit <= 0 then 50 else limit, i);
  }

  function DueTimes(t: Tables, now: Time): (at: map<DeliveryId, Time>)
    ensures KeySet(at) == DueKeys(t, now)
  {
    map j | j in t.deliveries && Due(t, t.deliveries[j], now) :: t.deliveries[j].nextAttemptAt.value
  }

  lemma DueInOrder(t: Tables, now: Time)
    ensures DueTimes(t, now).Keys == Claimable(t, now)
    ensures forall i :: i in Claimable(t, now) ==> Earlier(Asc, DueTimes(t, now), i) == DueBefore(t, now, i)
  {
    assert DueTimes(t, now).Keys == Claimable(t, now);
  }

  // ---- Complete and fail ----

  /** A completion is recorded exactly under the claim's own timestamp, with a new
      attempt number; without success a config that is not live cancels it. */
  lemma CompleteEffect(t: Tables, i: DeliveryId, done: Delivery, a: AttemptRow, now: Time)
    ensures var r := CompleteDelivery(t, i, done, a, now);
            var key := AttemptKey(i, done.generation, done.attemptCount);
            var possible := done.config in t.configs && i in t.deliveries && key !in t.attempts;
            && (r.Ok? <==> possible && t.deliveries[i].status == Delivering
                           && done.claimedAt.Some? && t.deliveries[i].claimedAt == done.claimedAt)
            && (r == Err(DatabaseError) <==> !possible)
            && (r.Err? && possible ==> r.error == DeliveryNotFound)
            && (r.Ok? ==>
                  var cfg := t.configs[done.config];
                  var dropped := done.status != Succeeded && !(cfg.active && cfg.deletedAt.None?);
                  var d := t.deliveries[i];
                  && r.value.status == (if dropped then Cancelled else done.status)
                  && r.value.tables == t.(
                       attempts := t.attempts[key := a],
                       deliveries := t.deliveries[i := Delivery(
                         d.event, d.config, if dropped then Cancelled else done.status, done.attemptCount,
                         d.generation, done.cycleStartedAt, if dropped then None else done.nextAttemptAt, None,
                         done.lastAttemptAt, done.lastStatusCode, d.createdAt, now)]))
  {
  }

  /** The other two ways to settle a row write its status and drop its times. */
  lemma SettleEffect(t: Tables, i: DeliveryId, claimedAt: Time, now: Time)
    ensures FailClaimedDelivery(t, i, claimedAt, now).Ok? ==>
              i in t.deliveries && FailClaimedDelivery(t, i, claimedAt, now).value == t.(deliveries := t.deliveries[
                i := t.deliveries[i].(status := Failed, claimedAt := None, nextAttemptAt := None, updatedAt := now)])
    ensures CancelDelivery(t, i, now).Ok? ==>
              i in t.deliveries && CancelDelivery(t, i, now).value == t.(deliveries := t.deliveries[
                i := t.deliveries[i].(status := Cancelled, claimedAt := None, nextAttemptAt := None, updatedAt := now)])
  {
  }

  // ---- Recover ----

  /** The claims older than age, or five minutes, whose config exists. */
  function Abandoned(t: Tables, age: int, now: Time): set<DeliveryId> {
    set j | j in t.deliveries && t.deliveries[j].status == Delivering
            && t.deliveries[j].claimedAt.Some?
            && t.deliveries[j].claimedAt.value < now - (if age <= 0 then 300_000_000_000 else age)
            && t.deliveries[j].config in t.configs
  }

  /** A recovery takes exactly those. On an active, undeleted config they wait again, due
      now; on any other they are cancelled. No other row changes. */
  lemma RecoverEffect(t: Tables, age: int, now: Time, i: DeliveryId)
    requires i in t.deliveries
    ensures var t1 := RecoverStaleDeliveries(t, age, now);
            var d := t.deliveries[i];
            && t1 == t.(deliveries := t1.deliveries) && t1.deliveries.Keys == t.deliveries.Keys
            && t1.deliveries[i] ==
                 if i !in Abandoned(t, age, now) then d
                 else if t.configs[d.config].active && t.configs[d.config].deletedAt.None?
                 then d.(status := Pending, claimedAt := None, nextAttemptAt := Some(now), updatedAt := now)
                 else d.(status := Cancelled, claimedAt := None, nextAttemptAt := None, updatedAt := now)
  {
  }

  /** The same, for all rows. */
  ghost predicate Recovered(t: Tables, t1: Tables, age: int, now: Time) {
    t1.deliveries.Keys == t.deliveries.Keys
    && forall i :: i in t.deliveries ==>
         var d := t.deliveries[i];
         t1.deliveries[i] ==
           if i !in Abandoned(t, age, now) then d
           else if t.configs[d.config].active && t.configs[d.config].deletedAt.None?
           then d.(status := Pending, claimedAt := None, nextAttemptAt := Some(now), updatedAt := now)
           else d.(status := Cancelled, claimedAt := None, nextAttemptAt := None, updatedAt := now)
  }

  lemma RecoveredRows(t: Tables, t1: Tables, age: int, now: Time)
    requires t1 == RecoverStaleDeliveries(t, age, now)
    ensures Recovered(t, t1, age, now)
    ensures (set i | i in t.deliveries && t1.Row(i) != t.Row(i)) == Abandoned(t, age, now)
  {
    forall i | i in t.deliveries ensures t1.Row(i) != t.Row(i) <==> i in Abandoned(t, age, now) {
      RecoverEffect(t, age, now, i);
    }
  }

  lemma StaleAreAbandoned(t: Tables, age: int, now: Time)
    ensures (set i | i in t.deliveries && Stale(t, t.deliveries[i], StaleAge(age), now)) == Abandoned(t, age, now)
  {
  }

  // ---- Idempotency records ----

  /** A key is free if it has no record, or one older than 24 hours. */
  predicate KeyFree(t: Tables, key: IdempotencyKey, now: Time) {
    key in t.replays ==> t.replays[key].createdAt < now - 86_400_000_000_000
  }

  /** The same request is answered from the record, any other refused, until the key is
      free again. */
  lemma CacheEffect(t: Tables, key: IdempotencyKey, request: Request, now: Time)
    ensures ReplayCached(t, key, request, now) == Miss <==> KeyFree(t, key, now)
    ensures !KeyFree(t, key, now) ==>
              ReplayCached(t, key, request, now)
                == if t.replays[key].request == request then Hit(t.replays[key].response) else Conflict
  {
  }

  // ---- Replay of one delivery ----

  /** With a free key, a failed or pending row of a live config is put into the queue,
      due now, a failed one in the next generation with nothing used up; any other
      request changes nothing. */
  lemma ReplayOneEffect(t: Tables, i: DeliveryId, key: IdempotencyKey, now: Time)
    ensures var r := ReplayDelivery(t, i, key, now);
            var accepted := && KeyFree(t, key, now) && i in t.deliveries
                            && (t.deliveries[i].status == Failed || t.deliveries[i].status == Pending)
                            && t.deliveries[i].config in t.configs && t.configs[t.deliveries[i].config].active
                            && t.configs[t.deliveries[i].config].deletedAt.None?;
            && (r.answer.Applied? <==> accepted)
            && (!accepted ==> r.tables == t)
            && (KeyFree(t, key, now) && !accepted ==>
                  r.answer == Rejected(if i in t.deliveries then DeliveryNotReplayable else DeliveryNotFound))
            && (accepted ==>
                  var d := t.deliveries[i];
                  var d1 := if d.status == Failed
                            then d.(status := Pending, generation := d.generation + 1, attemptCount := 0,
                                    cycleStartedAt := None, nextAttemptAt := Some(now), claimedAt := None, updatedAt := now)
                            else d.(nextAttemptAt := Some(now), updatedAt := now);
                  && r.answer == Applied(Replayed(i, d1))
                  && r.tables == t.(deliveries := t.deliveries[i := d1],
                                    replays := t.replays[key := ReplayRecord(OneDelivery(i), Replayed(i, d1), now)]))
  {
    CacheEffect(t, key, OneDelivery(i), now);
  }

  // ---- Bulk replay ----

  /** The rows that meet a request's filters, beyond its cursor. A request without
      statuses asks for failed and pending rows, one without an upper bound for those
      up to now. */
  function Wanted(t: Tables, request: BulkRequest, now: Time): set<DeliveryId> {
    set j | j in t.deliveries
            && request.from <= t.deliveries[j].createdAt
            && t.deliveries[j].createdAt <= (if request.to.Some? then request.to.value else now)
            && (if request.statuses == [] then t.deliveries[j].status == Failed || t.deliveries[j].status == Pending
                else t.deliveries[j].status in request.statuses)
            && (request.configIds == [] || t.deliveries[j].config in request.configIds)
            && t.deliveries[j].config in t.configs
            && t.configs[t.deliveries[j].config].active && t.configs[t.deliveries[j].config].deletedAt.None?
            && (request.cursor.Some? ==>
                  || request.cursor.value.at < t.deliveries[j].createdAt
                  || (request.cursor.value.at == t.deliveries[j].createdAt && request.cursor.value.id < j))
  }

  function WantedBefore(t: Tables, request: BulkRequest, now: Time, i: DeliveryId): set<DeliveryId>
    requires i in t.deliveries
  {
    set j | j in Wanted(t, request, now)
            && (|| t.deliveries[j].createdAt < t.deliveries[i].createdAt
                || (t.deliveries[j].createdAt == t.deliveries[i].createdAt && j < i))
  }

  /** The rows of the page: at most the page size, a thousand if none fits. */
  function OnPage(t: Tables, request: BulkRequest, now: Time): set<DeliveryId> {
    var n := if 0 < request.pageSize <= 1000 then request.pageSize else 1000;
    set j | j in Wanted(t, request, now) && |WantedBefore(t, request, now, j)| < n
  }

  lemma PageIsWanted(t: Tables, request: BulkRequest, now: Time)
    ensures var r := Normalize(request, now);
            && Ids(BulkPage(t, r)) == OnPage(t, request, now)
            && (BulkHasMore(t, r)
                <==> |Wanted(t, request, now)| > if 0 < request.pageSize <= 1000 then request.pageSize else 1000)
  {
    var r := Normalize(request, now);
    var at := CandidateTimes(t, r);
    CandidatesAreWanted(t, request, now);
    forall i ensures i in Ids(BulkPage(t, r)) <==> i in OnPage(t, request, now) {
      OnPageIff(Asc, at, r.cursor, r.pageSize, i);
      if i in Wanted(t, request, now) {
        WantedInOrder(t, request, now, i);
      }
    }
    OnPageIff(Asc, at, r.cursor, r.pageSize, 0);
  }

  function CandidateTimes(t: Tables, r: BulkRequest): (at: map<DeliveryId, Time>)
    requires r.to.Some?
    ensures KeySet(at) == CandidateKeys(t, r)
  {
    map j | j in t.deliveries && InBulk(t, t.deliveries[j], r) :: t.deliveries[j].createdAt
  }

  lemma CandidatesAreWanted(t: Tables, request: BulkRequest, now: Time)
    ensures var r := Normalize(request, now);
            Beyond(Asc, CandidateTimes(t, r), r.cursor).Keys == Wanted(t, request, now)
  {
    var r := Normalize(request, now);
    forall j ensures j in Beyond(Asc, CandidateTimes(t, r), r.cursor) <==> j in Wanted(t, request, now) {
      if j in t.deliveries {
        WantedIff(t, request, now, j);
      }
    }
  }

  lemma WantedIff(t: Tables, request: BulkRequest, now: Time, j: DeliveryId)
    requires j in t.deliveries
    ensures var r := Normalize(request, now);
            j in Wanted(t, request, now)
            <==> && InBulk(t, t.deliveries[j], r)
                 && (r.cursor.Some? ==> Before(Asc, r.cursor.value, Key(t.deliveries[j].createdAt, j)))
  {
  }

  lemma WantedInOrder(t: Tables, request: BulkRequest, now: Time, i: DeliveryId)
    requires i in Wanted(t, request, now)
    ensures var r := Normalize(request, now);
            var rest := Beyond(Asc, CandidateTimes(t, r), r.cursor);
            i in rest && Earlier(Asc, rest, i) == WantedBefore(t, request, now, i)
  {
    CandidatesAreWanted(t, request, now);
  }

  /** With a free key, the failed rows of the page go to the next generation and its
      pending rows are due now; no row that is not on the page changes, and none that
      misses a filter is on it. */
  lemma BulkEffect(t: Tables, request: BulkRequest, key: IdempotencyKey, now: Time, i: DeliveryId)
    requires KeyFree(t, key, now) && i in t.deliveries
    ensures var t1 := ReplayDeliveries(t, request, key, now).tables;
            var d := t.deliveries[i];
            && t1.deliveries.Keys == t.deliveries.Keys
            && t1.deliveries[i] ==
                 if i in OnPage(t, request, now) && d.status == Failed
                 then d.(status := Pending, generation := d.generation + 1, attemptCount := 0,
                         cycleStartedAt := None, nextAttemptAt := Some(now), claimedAt := None, updatedAt := now)
                 else if i in OnPage(t, request, now) && d.status == Pending
                 then d.(nextAttemptAt := Some(now), updatedAt := now)
                 else d
  {
    CacheEffect(t, key, Bulk(request.(cursor := None)), now);
    PageIsWanted(t, request, now);
  }

  /** Its answer counts them, and offers a cursor if and only if more rows meet the
      filters than fit the page. */
  lemma BulkAnswerEffect(t: Tables, request: BulkRequest, key: IdempotencyKey, now: Time)
    requires KeyFree(t, key, now)
    ensures var replay := ReplayDeliveries(t, request, key, now);
            var page := OnPage(t, request, now);
            var n := if 0 < request.pageSize <= 1000 then request.pageSize else 1000;
            && replay.answer.Applied? && replay.answer.response.BulkDone?
            && var result := replay.answer.response.result;
            && result.replayed == |set j | j in page && j in t.deliveries && t.deliveries[j].status == Failed|
            && result.expedited == |set j | j in page && j in t.deliveries && t.deliveries[j].status == Pending|
            && result.replayed + result.expedited + result.skipped == |page|
            && (result.hasMore <==> |Wanted(t, request, now)| > n)
            && result.to == (if request.to.Some? then request.to.value else now)
            && replay.tables.replays
               == t.replays[key := ReplayRecord(Bulk(request.(cursor := None)), BulkDone(result), now)]
  {
    CacheEffect(t, key, Bulk(request.(cursor := None)), now);
    PageIsWanted(t, request, now);
    CountsAdd(t, OnPage(t, request, now));
  }

  lemma CountsAdd(t: Tables, page: set<DeliveryId>)
    ensures var failed, pending := WithStatus(t, page, Failed), WithStatus(t, page, Pending);
            && failed == (set j | j in page && j in t.deliveries && t.deliveries[j].status == Failed)
            && pending == (set j | j in page && j in t.deliveries && t.deliveries[j].status == Pending)
            && |failed| + |pending| + |page - failed - pending| == |page|
  {
    var failed, pending := WithStatus(t, page, Failed), WithStatus(t, page, Pending);
    assert failed + pending <= page && failed !! pending;
    assert |page - failed - pending| == |page| - |failed| - |pending|;
  }

  // ---- Listing ----

  /** The rows that match a filter, beyond its cursor, newest first. */
  function Listable(t: Tables, f: Filter): set<DeliveryId> {
    set j | j in t.deliveries
            && (f.config == None || Some(t.deliveries[j].config) == f.config)
            && (f.status == None || Some(t.deliveries[j].status) == f.status)
            && (f.createdAfter.Some? ==> t.deliveries[j].createdAt >= f.createdAfter.value)
            && (f.createdBefore.Some? ==> t.deliveries[j].createdAt <= f.createdBefore.value)
            && (f.after.Some? ==>
                  || t.deliveries[j].createdAt < f.after.value.at
                  || (t.deliveries[j].createdAt == f.after.value.at && j < f.after.value.id))
  }

  function NewerListable(t: Tables, f: Filter, i: DeliveryId): set<DeliveryId>
    requires i in t.deliveries
  {
    set j | j in Listable(t, f)
            && (|| t.deliveries[j].createdAt > t.deliveries[i].createdAt
                || (t.deliveries[j].createdAt == t.deliveries[i].createdAt && j > i))
  }

  function PageLimit(pageSize: int): nat {
    if pageSize <= 0 then 100 else if pageSize > 1000 then 1000 else pageSize
  }

  /** A listing's page holds the rows with fewer than a page of newer ones, and says
      whether there are more. */
  lemma ListEffect(t: Tables, f: Filter, i: DeliveryId)
    ensures var page := FindDeliveries(t, f);
            && (i in Ids(page.data)
                <==> i in Listable(t, f) && |NewerListable(t, f, i)| < PageLimit(f.pageSize))
            && (page.hasMore <==> |Listable(t, f)| > PageLimit(f.pageSize))
  {
    var n := PageLimit(f.pageSize);
    var at := ListTimes(t, f);
    OnPageIff(Desc, at, f.after, n, i);
    PageBounds(Desc, KeySet(at), f.after, n);
    ListableBeyond(t, f);
    if i in Listable(t, f) {
      NewerInOrder(t, f, i);
    }
  }

  function ListTimes(t: Tables, f: Filter): (at: map<DeliveryId, Time>)
    ensures KeySet(at) == ListKeys(t, f)
  {
    map j | j in t.deliveries && Listed(t.deliveries[j], f) :: t.deliveries[j].createdAt
  }

  lemma ListableBeyond(t: Tables, f: Filter)
    ensures Beyond(Desc, ListTimes(t, f), f.after).Keys == Listable(t, f)
  {
  }

  lemma NewerInOrder(t: Tables, f: Filter, i: DeliveryId)
    requires i in Listable(t, f)
    ensures var rest := Beyond(Desc, ListTimes(t, f), f.after);
            i in rest && Earlier(Desc, rest, i) == NewerListable(t, f, i)
  {
    ListableBeyond(t, f);
  }

  /** Its rows come in (created_at, id) order, the newest first. */
  lemma ListOrder(t: Tables, f: Filter, x: nat, y: nat)
    requires x < y < |FindDeliveries(t, f).data|
    ensures var data := FindDeliveries(t, f).data;
            && (data[x].at > data[y].at || (data[x].at == data[y].at && data[x].id > data[y].id))
  {
    PageBounds(Desc, ListKeys(t, f), f.after, PageLimit(f.pageSize));
    assert Before(Desc, FindDeliveries(t, f).data[x], FindDeliveries(t, f).data[y]);
  }

  /** They carry their rows' creation times, and the cursor is the last of them. */
  lemma ListKeysAndCursor(t: Tables, f: Filter)
    ensures var page := FindDeliveries(t, f);
            && (forall k :: k in page.data ==> k.id in t.deliveries && t.deliveries[k.id].createdAt == k.at)
            && (page.hasMore ==> page.data != [] && page.nextCursor == Some(page.data[|page.data| - 1]))
            && (!page.hasMore ==> page.nextCursor == None)
  {
    PageBounds(Desc, ListKeys(t, f), f.after, PageLimit(f.pageSize));
  }

  // ---- Purge ----

  /** The rows of a class that are older than its age. */
  function Outdated(t: Tables, succeeded: bool, age: int, now: Time): set<DeliveryId> {
    set j | j in t.deliveries
            && (if succeeded then t.deliveries[j].status == Succeeded
                else t.deliveries[j].status == Failed || t.deliveries[j].status == Cancelled)
            && t.deliveries[j].updatedAt < now - age
  }

  function OutdatedBefore(t: Tables, succeeded: bool, age: int, now: Time, i: DeliveryId): set<DeliveryId>
    requires i in t.deliveries
  {
    set j | j in Outdated(t, succeeded, age, now)
            && (|| t.deliveries[j].updatedAt < t.deliveries[i].updatedAt
                || (t.deliveries[j].updatedAt == t.deliveries[i].updatedAt && j < i))
  }

  /** A class with an age loses exactly its oldest outdated rows, a batch of them, with
      their attempts; one without loses none. */
  lemma PurgeRowsEffect(t: Tables, succeeded: bool, age: int, batch: nat, now: Time, i: DeliveryId)
    requires i in t.deliveries
    ensures var t1 := Delete(t, OldRows(succeeded, age), batch, now);
            && t1.Row(i) == (if && age > 0 && i in Outdated(t, succeeded, age, now)
                                && |OutdatedBefore(t, succeeded, age, now, i)| < batch
                             then None else t.Row(i))
            && (forall k :: k in t.attempts && k.delivery == i ==>
                  if i in t1.deliveries then k in t1.attempts && t1.attempts[k] == t.attempts[k] else k !in t1.attempts)
  {
    PurgedIff(t, succeeded, age, batch, now, i);
  }

  lemma PurgedIff(t: Tables, succeeded: bool, age: int, batch: nat, now: Time, i: DeliveryId)
    requires i in t.deliveries
    ensures i in Ids(PurgeKeys(t, ClassStatuses(succeeded), age, batch, now))
            <==> i in Outdated(t, succeeded, age, now) && |OutdatedBefore(t, succeeded, age, now, i)| < batch
  {
    OutdatedInOrder(t, succeeded, age, now);
    TakenIff(Asc, OutdatedTimes(t, succeeded, age, now), batch, i);
  }

  function OutdatedTimes(t: Tables, succeeded: bool, age: int, now: Time): map<DeliveryId, Time> {
    map j | j in t.deliveries && Purgeable(t.deliveries[j], ClassStatuses(succeeded), age, now) :: t.deliveries[j].updatedAt
  }

  lemma OutdatedInOrder(t: Tables, succeeded: bool, age: int, now: Time)
    ensures OutdatedTimes(t, succeeded, age, now).Keys == Outdated(t, succeeded, age, now)
    ensures forall i :: i in Outdated(t, succeeded, age, now) ==>
              Earlier(Asc, OutdatedTimes(t, succeeded, age, now), i) == OutdatedBefore(t, succeeded, age, now, i)
  {
    assert OutdatedTimes(t, succeeded, age, now).Keys == Outdated(t, succeeded, age, now);
  }

  /** Records go exactly when they are older than 24 hours. */
  lemma PurgeRecordsEffect(t: Tables, batch: nat, now: Time, key: IdempotencyKey)
    requires key in t.replays
    ensures var t1 := Delete(t, OldRecords, batch, now);
            && t1 == t.(replays := t1.replays)
            && (key in t1.replays <==> t.replays[key].createdAt >= now - 86_400_000_000_000)
            && (key in t1.replays ==> t1.replays[key] == t.replays[key])
  {
  }

  /** The deleted configs that no delivery refers to. */
  function Unused(t: Tables): set<ConfigId> {
    set c | c in t.configs && t.configs[c].deletedAt.Some?
            && forall i :: i in t.deliveries ==> t.deliveries[i].config != c
  }

  function UnusedBefore(t: Tables, c: ConfigId): set<ConfigId>
    requires c in Unused(t)
  {
    set x | x in Unused(t)
            && (|| t.configs[x].deletedAt.value < t.configs[c].deletedAt.value
                || (t.configs[x].deletedAt.value == t.configs[c].deletedAt.value && x < c))
  }

  /** Of those the ones deleted first go, a batch of them. */
  lemma PurgeConfigsEffect(t: Tables, batch: nat, now: Time, c: ConfigId)
    requires c in t.configs
    ensures var t1 := Delete(t, DeletedConfigs, batch, now);
            && t1 == t.(configs := t1.configs)
            && (c !in t1.configs <==> c in Unused(t) && |UnusedBefore(t, c)| < batch)
            && (c in t1.configs ==> t1.configs[c] == t.configs[c])
  {
    UnusedInOrder(t);
    TakenIff(Asc, UnusedTimes(t), batch, c);
  }

  function UnusedTimes(t: Tables): map<ConfigId, Time> {
    map x | x in t.configs && t.configs[x].deletedAt.Some? && !Referenced(t, x) :: t.configs[x].deletedAt.value
  }

  lemma UnusedInOrder(t: Tables)
    ensures UnusedTimes(t).Keys == Unused(t)
    ensures forall c :: c in Unused(t) ==> Earlier(Asc, UnusedTimes(t), c) == UnusedBefore(t, c)
  {
    assert UnusedTimes(t).Keys == Unused(t);
  }

  /** The four statements of a purge, in their order: the succeeded rows, the failed and
      cancelled ones, the records, the configs; a thousand rows at most by default. */
  lemma PurgeOrder(successAge: int, failedAge: int, batchSize: int)
    ensures Deletions(successAge, failedAge)
         == [OldRows(true, successAge), OldRows(false, failedAge), OldRecords, DeletedConfigs]
    ensures BatchSize(batchSize) == if batchSize <= 0 then 1000 else batchSize
  {
  }
}
