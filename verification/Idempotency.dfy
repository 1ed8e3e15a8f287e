/** Replay idempotency keys, over whole runs. */
module Idempotency {
  import opened Clock
  import opened Results
  import opened Tables
  import opened Transactions
  import opened Backoff
  import opened Protocol
  import opened Fencing

  /** The application is recent enough for its record to count. */
  predicate InForce(a: Application, now: Time) {
    now - DAY <= a.at
  }

  ghost predicate LogInv(w: World) {
    && (forall i :: 0 <= i < |w.applied| ==> w.applied[i].at <= w.now)
    && (forall i, j :: 0 <= i < j < |w.applied| && w.applied[i].key == w.applied[j].key ==>
          w.applied[i].at + DAY < w.applied[j].at)
    && (forall i :: 0 <= i < |w.applied| && InForce(w.applied[i], w.now) ==>
          var a := w.applied[i];
          a.key in w.t.replays && w.t.replays[a.key] == ReplayRecord(a.request, a.response, a.at))
  }

  /** A replay transaction: applied only on a miss, and then recorded. */
  predicate RecordsReplay(t: Tables, r: Replay, key: IdempotencyKey, request: Request, now: Time) {
    match r.answer
    case Applied(response) =>
      ReplayCached(t, key, request, now) == Miss
      && r.tables.replays == t.replays[key := ReplayRecord(request, response, now)]
    case _ => r.tables.replays == t.replays
  }

  lemma LogKeeps(w: World, r: Replay, key: IdempotencyKey, request: Request)
    requires LogInv(w) && RecordsReplay(w.t, r, key, request, w.now)
    ensures LogInv(LogReplay(w, key, request, r))
  {
    if r.answer.Applied? {
      forall i | 0 <= i < |w.applied| && w.applied[i].key == key ensures w.applied[i].at + DAY < w.now {
        assert InForce(w.applied[i], w.now) ==> ReplayCached(w.t, key, request, w.now) != Miss;
      }
    }
  }

  /** Only expired records may go. */
  lemma RecordsKept(w: World, w1: World)
    requires LogInv(w) && w1.applied == w.applied && w.now <= w1.now
    requires forall key :: key in w.t.replays && !Expired(w.t.replays[key], w.now) ==>
               key in w1.t.replays && w1.t.replays[key] == w.t.replays[key]
    ensures LogInv(w1)
  {
  }

  lemma ReplaysUntouched(p: Policy, w: World, s: Step)
    requires !s.ReplayOne? && !s.ReplayBulk? && !s.Purge?
    ensures var w1 := Apply(p, w, s);
            w1.t.replays == w.t.replays && w1.applied == w.applied && w.now <= w1.now
  {
    if OfWorker(s) {
      assert Work(p, w, s).t.replays == w.t.replays && Work(p, w, s).applied == w.applied;
    } else {
      ServingKeepsReplays(w, s);
    }
  }

  lemma ServingKeepsReplays(w: World, s: Step)
    requires !s.ReplayOne? && !s.ReplayBulk? && !s.Purge?
    ensures var w1 := Serve(w, s);
            w1.t.replays == w.t.replays && w1.applied == w.applied && w.now <= w1.now
  {
  }

  lemma PurgeKeepsRecords(t: Tables, d: Deletion, batch: nat, now: Time)
    ensures var t1 := Delete(t, d, batch, now);
            forall key :: key in t.replays && !Expired(t.replays[key], now) ==>
              key in t1.replays && t1.replays[key] == t.replays[key]
  {
  }

  lemma CommandKeepsLog(w: World, s: Step)
    requires LogInv(w) && (s.ReplayOne? || s.ReplayBulk? || s.Purge?)
    ensures LogInv(Serve(w, s))
  {
    match s
    case ReplayOne(id, key) =>
      LogKeeps(w, ReplayDelivery(w.t, id, key, w.now), key, OneDelivery(id));
    case ReplayBulk(request, key) =>
      BulkRecords(w.t, request, key, w.now);
      LogKeeps(w, ReplayDeliveries(w.t, request, key, w.now), key, Bulk(request.(cursor := None)));
    case Purge(deletion, batch) =>
      PurgeKeepsRecords(w.t, deletion, BatchSize(batch), w.now);
      RecordsKept(w, Serve(w, s));
  }

  lemma BulkRecords(t: Tables, request: BulkRequest, key: IdempotencyKey, now: Time)
    ensures RecordsReplay(t, ReplayDeliveries(t, request, key, now), key, Bulk(request.(cursor := None)), now)
  {
    if ReplayCached(t, key, Bulk(request.(cursor := None)), now) == Miss {
      PageRecords(t, Normalize(request, now), Bulk(request.(cursor := None)), key, now);
    }
  }

  lemma StepKeepsLog(p: Policy, w: World, s: Step)
    requires LogInv(w)
    ensures LogInv(Apply(p, w, s))
  {
    if s.ReplayOne? || s.ReplayBulk? || s.Purge? {
      CommandKeepsLog(w, s);
    } else {
      ReplaysUntouched(p, w, s);
      RecordsKept(w, Apply(p, w, s));
    }
  }

  lemma {:induction false} RunKeepsLog(p: Policy, w: World, steps: seq<Step>)
    requires LogInv(w)
    ensures LogInv(Run(p, w, steps))
    decreases |steps|
  {
    if steps != [] {
      StepKeepsLog(p, w, steps[0]);
      RunKeepsLog(p, Apply(p, w, steps[0]), steps[1..]);
    }
  }

  /** Over any run, two applications under one key are more than 24 hours apart. */
  lemma AppliedOncePerDay(p: Policy, w0: World, steps: seq<Step>, i: nat, j: nat)
    requires Start(w0)
    requires i < j < |Run(p, w0, steps).applied|
    requires Run(p, w0, steps).applied[i].key == Run(p, w0, steps).applied[j].key
    ensures Run(p, w0, steps).applied[i].at + DAY < Run(p, w0, steps).applied[j].at
  {
    RunKeepsLog(p, w0, steps);
  }

  /** Within 24 hours of an application, after any run, the same request gets the
      stored response and any other request under that key a conflict; neither
      changes a table. */
  lemma RepeatedReplayIsCached(p: Policy, w0: World, steps: seq<Step>, i: nat)
    requires Start(w0) && i < |Run(p, w0, steps).applied|
    requires InForce(Run(p, w0, steps).applied[i], Run(p, w0, steps).now)
    ensures var w := Run(p, w0, steps);
            var a := w.applied[i];
            && (forall id :: ReplayDelivery(w.t, id, a.key, w.now) ==
                  Replay(w.t, if a.request == OneDelivery(id) then Cached(a.response) else Rejected(IdempotencyConflict)))
            && (forall request :: ReplayDeliveries(w.t, request, a.key, w.now) ==
                  Replay(w.t, if a.request == Bulk(request.(cursor := None)) then Cached(a.response)
                              else Rejected(IdempotencyConflict)))
  {
    RunKeepsLog(p, w0, steps);
    var w := Run(p, w0, steps);
    var a := w.applied[i];
    assert !Expired(w.t.replays[a.key], w.now);
  }

  // ---- Replays that are not applied ----

  lemma ApplicationRecords(t: Tables, t1: Tables, key: IdempotencyKey, request: Request, response: Response, now: Time)
    requires ReplayCached(t, key, request, now) == Miss
    requires t1.replays == t.replays[key := ReplayRecord(request, response, now)]
    ensures t1 != t
  {
    if key in t.replays {
      assert t.replays[key].createdAt < now - DAY;
    }
    assert t1.replays[key].createdAt == now;
  }

  /** A replay changes the tables if and only if it is applied. */
  lemma OnlyApplicationsChangeTables(t: Tables, id: DeliveryId, request: BulkRequest, key: IdempotencyKey, now: Time)
    ensures var r := ReplayDelivery(t, id, key, now);
            r.answer.Applied? <==> r.tables != t
    ensures var r := ReplayDeliveries(t, request, key, now);
            r.answer.Applied? <==> r.tables != t
  {
    OneReplayRecords(t, id, key, now);
    BulkReplayRecords(t, request, key, now);
  }

  lemma OneReplayRecords(t: Tables, id: DeliveryId, key: IdempotencyKey, now: Time)
    ensures ReplayDelivery(t, id, key, now).answer.Applied? <==> ReplayDelivery(t, id, key, now).tables != t
  {
    var r := ReplayDelivery(t, id, key, now);
    if r.answer.Applied? {
      ApplicationRecords(t, r.tables, key, OneDelivery(id), r.answer.response, now);
    }
  }

  lemma BulkReplayRecords(t: Tables, request: BulkRequest, key: IdempotencyKey, now: Time)
    ensures ReplayDeliveries(t, request, key, now).answer.Applied? <==> ReplayDeliveries(t, request, key, now).tables != t
  {
    var r := ReplayDeliveries(t, request, key, now);
    var hashed := Bulk(request.(cursor := None));
    if r.answer.Applied? {
      PageRecords(t, Normalize(request, now), hashed, key, now);
      ApplicationRecords(t, r.tables, key, hashed, r.answer.response, now);
    }
  }

  lemma PageRecords(t: Tables, r: BulkRequest, hashed: Request, key: IdempotencyKey, now: Time)
    requires r.to.Some? && r.pageSize > 0
    ensures var replay := ReplayPage(t, r, hashed, key, now);
            replay.answer.Applied?
            && replay.tables.replays == t.replays[key := ReplayRecord(hashed, replay.answer.response, now)]
  {
  }

  /** A replay command that is rejected or answered from its record. */
  predicate Futile(w: World, s: Step) {
    match s
    case ReplayOne(id, key) => !ReplayDelivery(w.t, id, key, w.now).answer.Applied?
    case ReplayBulk(request, key) => !ReplayDeliveries(w.t, request, key, w.now).answer.Applied?
    case _ => false
  }

  /** The run without them. */
  ghost function Effective(p: Policy, w: World, steps: seq<Step>): seq<Step>
    decreases |steps|
  {
    if steps == [] then []
    else (if Futile(w, steps[0]) then [] else [steps[0]]) + Effective(p, Apply(p, w, steps[0]), steps[1..])
  }

  lemma FutileChangesNothing(p: Policy, w: World, s: Step)
    requires Futile(w, s)
    ensures Apply(p, w, s) == w
  {
    match s
    case ReplayOne(id, key) =>
    case ReplayBulk(request, key) =>
  }

  /** Leaving them out of a run changes nothing: not a row, not a record, and so not
      one later answer under their keys. */
  lemma {:induction false} FutileReplaysCanBeDropped(p: Policy, w: World, steps: seq<Step>)
    ensures Run(p, w, Effective(p, w, steps)) == Run(p, w, steps)
    decreases |steps|
  {
    if steps != [] {
      var rest := Effective(p, Apply(p, w, steps[0]), steps[1..]);
      FutileReplaysCanBeDropped(p, Apply(p, w, steps[0]), steps[1..]);
      if Futile(w, steps[0]) {
        FutileChangesNothing(p, w, steps[0]);
        assert Effective(p, w, steps) == rest;
      } else {
        assert Effective(p, w, steps) == [steps[0]] + rest;
        FirstStep(p, w, steps[0], rest);
      }
    }
  }
}
