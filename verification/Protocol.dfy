/** The delivery engine as a state machine: the tables, one monotone clock, and
    every claim ever handed to a worker. Each store transaction, each stage of
    dispatchOne and each crash is one atomic step; workers interleave freely. */
module Protocol {
  import opened Clock
  import opened Results
  import opened Backoff
  import A = Attempt
  import opened Keyset
  import opened Tables
  import opened Transactions

  /** Where a worker is in dispatchOne (pkg/worker/delivery_worker.go). */
  datatype Stage =
    | Fresh                                          // returned by ClaimDeliveries
    | Resolved                                       // found the config live
    | Doomed                                         // found no live config: will cancel
    | Refused                                        // preflight refused: will fail the claim
    | Calling                                        // HTTP request in flight
    | Responded(done: Delivery, attempt: AttemptRow) // will complete
    | Over                                           // finished, crashed or gave up

  /** A claim: the copy of the row the worker holds, and the history of its one
      HTTP call. Leases are never forgotten; a lease's ticket is its index. */
  datatype Lease = Lease(id: DeliveryId, copy: Delivery, stage: Stage, calledAt: Option<Time>, recorded: bool)

  /** One application of a replay command. */
  datatype Application = Application(key: IdempotencyKey, request: Request, response: Response, at: Time)

  datatype World = World(
    t: Tables,
    now: Time,
    leases: seq<Lease>,
    issued: set<DeliveryId>,
    applied: seq<Application>)

  datatype Step =
    | Tick(to: Time)
    | AddConfig(c: ConfigId, types: set<EventType>)
    | EditConfig(c: ConfigId, types: set<EventType>)
    | SetActive(c: ConfigId, active: bool)
    | DropConfig(c: ConfigId)
    | Enqueue(message: nat, ty: EventType, createdAt: Time, plan: map<DeliveryId, ConfigId>)
    | Claim(limit: int)
    | Lookup(k: nat)
    | CancelLease(k: nat)
    | Preflight(k: nat)
    | FailLease(k: nat)
    | Respond(k: nat, http: A.HttpResult)
    | Finish(k: nat)
    | Crash(k: nat)
    | Recover
    | ReplayOne(id: DeliveryId, key: IdempotencyKey)
    | ReplayBulk(request: BulkRequest, key: IdempotencyKey)
    | Purge(deletion: Deletion, batch: int)

  /** staleDeliveryClaimAge. */
  const STALE := 5 * MINUTE

  // ---- dispatchOne's decisions ----

  /** The checks before the HTTP call: the attempt cap once there has been an
      attempt, and the real time since the first claim of the cycle. */
  predicate PreflightPasses(p: Policy, d: Delivery, now: Time) {
    && (d.attemptCount > 0 ==> p.CanRetryAttempt(d.attemptCount))
    && (d.cycleStartedAt.Some? ==> A.WindowAllows(p, d.cycleStartedAt, now))
  }

  /** The delivery and the attempt row dispatchOne hands to CompleteDelivery. */
  function Answered(p: Policy, d: Delivery, calledAt: Option<Time>, http: A.HttpResult, now: Time): Stage {
    var cycle := if d.cycleStartedAt.Some? then d.cycleStartedAt else calledAt;
    var a := A.ClassifyResponse(p, d.attemptCount, now, cycle, http);
    var d1 := d.(cycleStartedAt := cycle, attemptCount := d.attemptCount + 1, lastAttemptAt := Some(now),
                 lastStatusCode := if a.code == 0 then None else Some(a.code));
    match a.status
    case Success =>
      Responded(d1.(status := Succeeded, nextAttemptAt := None), AttemptRow(DeliverySucceeded, a.code, now))
    case ToRetry =>
      Responded(d1.(status := Pending, nextAttemptAt := a.nextRetryAfter), AttemptRow(RetryableFailure, a.code, now))
    case Failed =>
      Responded(d1.(status := Status.Failed, nextAttemptAt := None), AttemptRow(PermanentFailure, a.code, now))
  }

  function NewLeases(t: Tables, keys: seq<Key>): seq<Lease>
    requires forall k :: k in keys ==> k.id in t.deliveries
  {
    seq(|keys|, j requires 0 <= j < |keys| =>
      Lease(keys[j].id, t.deliveries[keys[j].id], Fresh, None, false))
  }

  function WithStage(w: World, k: nat, s: Stage): World
    requires k < |w.leases|
  {
    w.(leases := w.leases[k := w.leases[k].(stage := s)])
  }

  predicate At(w: World, k: nat, s: Stage) {
    k < |w.leases| && w.leases[k].stage == s
  }

  lemma ClaimedAreRows(t: Tables, limit: int, now: Time)
    ensures forall k :: k in ClaimKeys(t, limit, now) ==> k in DueKeys(t, now) && k.id in t.deliveries
  {
    TakeSubset(Asc, DueKeys(t, now), ClaimLimit(limit));
    forall k | k in ClaimKeys(t, limit, now) ensures k in DueKeys(t, now) {
      assert k in ToSet(ClaimKeys(t, limit, now));
    }
  }

  function LogReplay(w: World, key: IdempotencyKey, request: Request, r: Replay): World {
    if r.answer.Applied?
    then w.(t := r.tables, applied := w.applied + [Application(key, request, r.answer.response, w.now)])
    else w.(t := r.tables)
  }

  /** A claim hands out a lease for each row it takes. */
  function ClaimDue(w: World, limit: int): World {
    ClaimedAreRows(w.t, limit, w.now);
    var t := ClaimDeliveries(w.t, limit, w.now);
    w.(t := t, leases := w.leases + NewLeases(t, ClaimKeys(w.t, limit, w.now)))
  }

  predicate OfWorker(s: Step) {
    s.Lookup? || s.CancelLease? || s.Preflight? || s.FailLease? || s.Respond? || s.Finish? || s.Crash?
  }

  /** A step of the worker that has claim s.k. */
  function Work(p: Policy, w: World, s: Step): World {
    match s
    case Lookup(k) =>
      if !At(w, k, Fresh) then w
      else WithStage(w, k, if w.t.LiveConfig(w.leases[k].copy.config) then Resolved else Doomed)
    case CancelLease(k) =>
      if !At(w, k, Doomed) then w
      else
        (match CancelDelivery(w.t, w.leases[k].id, w.now)
         case Ok(t) => WithStage(w, k, Over).(t := t)
         case Err(_) => WithStage(w, k, Over))
    case Preflight(k) =>
      if !At(w, k, Resolved) then w
      else if PreflightPasses(p, w.leases[k].copy, w.now)
      then w.(leases := w.leases[k := w.leases[k].(stage := Calling, calledAt := Some(w.now))])
      else WithStage(w, k, Refused)
    case FailLease(k) =>
      if !At(w, k, Refused) then w
      else if w.leases[k].copy.claimedAt.None? then WithStage(w, k, Over)
      else
        (match FailClaimedDelivery(w.t, w.leases[k].id, w.leases[k].copy.claimedAt.value, w.now)
         case Ok(t) => WithStage(w, k, Over).(t := t)
         case Err(_) => WithStage(w, k, Over))
    case Respond(k, http) =>
      if !At(w, k, Calling) then w
      else WithStage(w, k, Answered(p, w.leases[k].copy, w.leases[k].calledAt, http, w.now))
    case Finish(k) =>
      if !(k < |w.leases| && w.leases[k].stage.Responded?) then w
      else
        (match CompleteDelivery(w.t, w.leases[k].id, w.leases[k].stage.done, w.leases[k].stage.attempt, w.now)
         case Ok(c) => w.(t := c.tables, leases := w.leases[k := w.leases[k].(stage := Over, recorded := true)])
         case Err(_) => WithStage(w, k, Over))
    case Crash(k) => if k < |w.leases| then WithStage(w, k, Over) else w
    case _ => w
  }

  /** A step of the clock, the API, the broker or the background jobs. */
  ghost function Serve(w: World, s: Step): World {
    match s
    case Tick(to) => if w.now <= to then w.(now := to) else w
    case AddConfig(c, types) =>
      if c in w.t.configs then w else w.(t := InsertConfig(w.t, c, types, w.now))
    case EditConfig(c, types) => w.(t := UpdateConfig(w.t, c, types))
    case SetActive(c, active) =>
      (match UpdateOneConfigActivation(w.t, c, active, w.now) case Ok(t) => w.(t := t) case Err(_) => w)
    case DropConfig(c) =>
      (match DeleteOneConfig(w.t, c, w.now) case Ok(t) => w.(t := t) case Err(_) => w)
    case Enqueue(message, ty, createdAt, plan) =>
      if createdAt <= w.now && FreshPlan(w.t, ty, plan, w.issued)
      then w.(t := EnqueueEvent(w.t, Broker(message), createdAt, plan), issued := w.issued + plan.Keys)
      else w
    case Claim(limit) => ClaimDue(w, limit)
    case Recover => w.(t := RecoverStaleDeliveries(w.t, STALE, w.now))
    case ReplayOne(id, key) => LogReplay(w, key, OneDelivery(id), ReplayDelivery(w.t, id, key, w.now))
    case ReplayBulk(request, key) =>
      LogReplay(w, key, Bulk(request.(cursor := None)), ReplayDeliveries(w.t, request, key, w.now))
    case Purge(deletion, batch) => w.(t := Delete(w.t, deletion, BatchSize(batch), w.now))
    case _ => w
  }

  lemma PurgedTables(w: World, s: Step)
    requires s.Purge?
    ensures Serve(w, s).t == Delete(w.t, s.deletion, BatchSize(s.batch), w.now)
  {
  }

  lemma BulkTables(w: World, s: Step)
    requires s.ReplayBulk?
    ensures Serve(w, s).t == ReplayDeliveries(w.t, s.request, s.key, w.now).tables
  {
    LoggedTables(w, s.key, Bulk(s.request.(cursor := None)), ReplayDeliveries(w.t, s.request, s.key, w.now));
  }

  lemma LoggedTables(w: World, key: IdempotencyKey, request: Request, r: Replay)
    ensures LogReplay(w, key, request, r).t == r.tables
  {
  }

  /** One atomic step. A step whose transaction fails, or whose worker is not at
      that stage, changes nothing but the worker's stage. */
  ghost function Apply(p: Policy, w: World, s: Step): World {
    if OfWorker(s) then Work(p, w, s) else Serve(w, s)
  }

  /** A run: any sequence of steps. */
  ghost function Run(p: Policy, w: World, steps: seq<Step>): World
    decreases |steps|
  {
    if steps == [] then w else Run(p, Apply(p, w, steps[0]), steps[1..])
  }

  lemma FirstStep(p: Policy, w: World, s: Step, rest: seq<Step>)
    ensures Run(p, w, [s] + rest) == Run(p, Apply(p, w, s), rest)
  {
    assert ([s] + rest)[1..] == rest;
  }

  lemma {:induction false} RunAppend(p: Policy, w: World, a: seq<Step>, b: seq<Step>)
    ensures Run(p, w, a + b) == Run(p, Run(p, w, a), b)
    decreases |a|
  {
    if a == [] {
      assert a + b == b;
    } else {
      assert (a + b)[1..] == a[1..] + b;
      RunAppend(p, Apply(p, w, a[0]), a[1..], b);
    }
  }

  lemma TwoSteps(p: Policy, w: World, s: Step, s1: Step, rest: seq<Step>)
    ensures Run(p, w, [s, s1] + rest) == Run(p, Apply(p, Apply(p, w, s), s1), rest)
  {
    FirstStep(p, w, s, [s1] + rest);
    FirstStep(p, Apply(p, w, s), s1, rest);
    assert [s] + ([s1] + rest) == [s, s1] + rest;
  }

  /** A run goes through the worlds that its steps lead to one after the other. */
  lemma RunThrough(p: Policy, w: World, s: Step, w1: World, s1: Step, w2: World)
    requires Apply(p, w, s) == w1 && Apply(p, w1, s1) == w2
    ensures Run(p, w, [s, s1]) == w2
  {
    TwoSteps(p, w, s, s1, []);
    assert [s, s1] + [] == [s, s1];
  }

  lemma RunOfOne(p: Policy, w: World, s: Step)
    ensures Run(p, w, [s]) == Apply(p, w, s)
  {
    FirstStep(p, w, s, []);
    assert [s] + [] == [s];
  }
}
