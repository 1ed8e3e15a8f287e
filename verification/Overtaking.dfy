/** Bounded overtaking in the claim order (next_attempt_at, id): how long a due
    delivery can wait behind others. */
module Overtaking {
  import opened Clock
  import opened Results
  import opened Keyset
  import opened Backoff
  import opened Tables
  import opened Transactions
  import opened Invariants
  import opened Protocol
  import opened Lifecycle
  import opened Fencing
  import opened Reachable
  import opened FencingResults

  /** Delivery key.id waits, due since before now. */
  predicate Waiting(w: World, key: Key) {
    && key.id in w.t.deliveries
    && w.t.deliveries[key.id].status == Pending
    && w.t.deliveries[key.id].nextAttemptAt == Some(key.at)
    && key.at < w.now
  }

  /** The due rows a claim would take before it. */
  function Ahead(w: World, key: Key): set<Key> {
    Prefix(Asc, DueKeys(w.t, w.now), key)
  }

  /** The completion of claim k puts its delivery back into the queue. */
  predicate CompletesToPending(w: World, k: nat) {
    && k < |w.leases| && w.leases[k].stage.Responded? && w.leases[k].stage.done.status == Pending
    && w.leases[k].stage.done.nextAttemptAt.Some?
    && Current(w.t.Row(w.leases[k].id), w.leases[k]) && w.t.LiveConfig(w.leases[k].copy.config)
  }

  function Stamp(w: World, k: nat): Key
    requires CompletesToPending(w, k)
  {
    Key(w.leases[k].stage.done.nextAttemptAt.value, w.leases[k].id)
  }

  /** Rows that enter stamped in the past, before the waiting one: of an accepted event
      whose pair is new, or of a completion that commits after its retry time. */
  ghost function LateKeys(w: World, s: Step, key: Key): set<Key> {
    match s
    case Enqueue(message, ty, createdAt, plan) =>
      if createdAt <= w.now && FreshPlan(w.t, ty, plan, w.issued)
      then set i | i in plan && !w.t.HasRow(Broker(message), plan[i]) && Less(Key(createdAt, i), key) :: Key(createdAt, i)
      else {}
    case Finish(k) =>
      if CompletesToPending(w, k) && Less(Stamp(w, k), key) then {Stamp(w, k)} else {}
    case _ => {}
  }

  function Taken(s: Step): nat {
    if s.Claim? then ClaimLimit(s.limit) else 0
  }

  /** Every other way into the queue stamps the row with the present. */
  lemma StampedBefore(r: Option<Delivery>, r1: Option<Delivery>, at: Time, now: Time)
    requires Unclaimed(r, r1, now) || Claimed(r, r1, now) || FailedEarly(r, r1, now)
    requires r1.Some? && r1.value.status == Pending && r1.value.nextAttemptAt == Some(at) && at < now
    ensures r == r1 || Inserted(r, r1, now)
  {
  }

  lemma FinishStamps(p: Policy, w: World, k: nat, i: DeliveryId)
    requires Inv(p, w) && i in Work(p, w, Finish(k)).t.deliveries
    requires Work(p, w, Finish(k)).t.deliveries[i].status == Pending
    ensures || w.t.Row(i) == Some(Work(p, w, Finish(k)).t.deliveries[i])
            || (&& k < |w.leases| && w.leases[k].id == i && w.leases[k].stage.Responded?
                && w.leases[k].stage.done.nextAttemptAt == Work(p, w, Finish(k)).t.deliveries[i].nextAttemptAt)
  {
  }

  lemma AheadRow(w: World, key: Key, k: Key)
    requires k in Ahead(w, key)
    ensures k.id in w.t.deliveries && w.t.deliveries[k.id].status == Pending
    ensures w.t.deliveries[k.id].nextAttemptAt == Some(k.at) && Less(k, key)
  {
    assert k in DueKeys(w.t, w.now);
  }

  lemma FinishEnters(p: Policy, w: World, s: Step, key: Key, k: Key)
    requires Inv(p, w) && s.Finish? && Less(k, key)
    requires var t1 := Work(p, w, s).t;
             && t1.Row(k.id) != w.t.Row(k.id) && k.id in t1.deliveries
             && t1.deliveries[k.id].status == Pending && t1.deliveries[k.id].nextAttemptAt == Some(k.at)
    ensures k in LateKeys(w, s, key)
  {
    FinishStamps(p, w, s.k, k.id);
  }

  lemma EnqueueEnters(p: Policy, w: World, s: Step, key: Key, k: Key)
    requires Inv(p, w) && s.Enqueue? && Less(k, key)
    requires var t1 := Serve(w, s).t;
             k.id !in w.t.deliveries && k.id in t1.deliveries && t1.deliveries[k.id].nextAttemptAt == Some(k.at)
    ensures k in LateKeys(w, s, key)
  {
    if s.createdAt <= w.now && FreshPlan(w.t, s.ty, s.plan, w.issued) {
      EnqueuedRow(w.t, Broker(s.message), s.createdAt, s.plan, w.issued, k.id);
    }
  }

  lemma EntersLate(p: Policy, w: World, s: Step, key: Key, k: Key)
    requires Inv(p, w) && Less(k, key) && k.at < w.now
    requires var t1 := Apply(p, w, s).t;
             && t1.Row(k.id) != w.t.Row(k.id) && k.id in t1.deliveries
             && t1.deliveries[k.id].status == Pending && t1.deliveries[k.id].nextAttemptAt == Some(k.at)
    ensures k in LateKeys(w, s, key)
  {
    if s.Finish? {
      FinishEnters(p, w, s, key, k);
    } else {
      TransitionGraph(p, w, s, k.id);
      StampedBefore(w.t.Row(k.id), Apply(p, w, s).t.Row(k.id), k.at, w.now);
      InsertedByEnqueue(p, w, s, k.id);
      EnqueueEnters(p, w, s, key, k);
    }
  }

  lemma AheadBefore(p: Policy, w: World, s: Step, key: Key, k: Key)
    requires Inv(p, w) && Waiting(w, key) && k in Ahead(Apply(p, w, s), key)
    ensures k in Ahead(w, key) || k in LateKeys(w, s, key)
  {
    AheadRow(Apply(p, w, s), key, k);
    if Apply(p, w, s).t.Row(k.id) == w.t.Row(k.id) {
      StillAhead(w, key, k);
    } else {
      EntersLate(p, w, s, key, k);
    }
  }

  lemma StillAhead(w: World, key: Key, k: Key)
    requires PendingIsLive(w.t) && k.id in w.t.deliveries && Less(k, key) && k.at <= w.now
    requires w.t.deliveries[k.id].status == Pending && w.t.deliveries[k.id].nextAttemptAt == Some(k.at)
    ensures k in Ahead(w, key)
  {
    assert Due(w.t, w.t.deliveries[k.id], w.now);
    assert k in DueKeys(w.t, w.now);
  }

  /** A claim that passes the waiting row by takes a full batch of those ahead. */
  lemma ClaimTakesAhead(w: World, limit: int, key: Key)
    requires Waiting(w, key) && w.t.LiveConfig(w.t.deliveries[key.id].config)
    requires key.id !in Ids(ClaimKeys(w.t, limit, w.now))
    ensures ToSet(ClaimKeys(w.t, limit, w.now)) <= Ahead(w, key)
    ensures |ToSet(ClaimKeys(w.t, limit, w.now))| == ClaimLimit(limit)
  {
    assert key in DueKeys(w.t, w.now);
    TakenAreBefore(Asc, DueKeys(w.t, w.now), ClaimLimit(limit), key);
  }

  lemma TakenLeave(w: World, limit: int, key: Key, t1: Tables, k: Key)
    requires t1 == ClaimDeliveries(w.t, limit, w.now) && k in ClaimKeys(w.t, limit, w.now)
    ensures k !in Prefix(Asc, DueKeys(t1, w.now), key)
  {
    assert k.id in Ids(ClaimKeys(w.t, limit, w.now));
    ClaimMoves(w.t, limit, w.now, k.id);
  }

  lemma RemainingWereDue(w: World, limit: int, key: Key, t1: Tables, k: Key)
    requires t1 == ClaimDeliveries(w.t, limit, w.now) && k in Prefix(Asc, DueKeys(t1, w.now), key)
    ensures k in Ahead(w, key)
  {
    ClaimMoves(w.t, limit, w.now, k.id);
    assert t1.deliveries[k.id].status == Pending;
    assert t1.Row(k.id) == w.t.Row(k.id);
    assert Due(w.t, w.t.deliveries[k.id], w.now);
  }

  lemma ClaimOvertakes(w: World, w1: World, limit: int, key: Key)
    requires Waiting(w, key) && Waiting(w1, key) && PendingIsLive(w.t)
    requires w1.t == ClaimDeliveries(w.t, limit, w.now) && w1.now == w.now
    ensures |Ahead(w1, key)| + ClaimLimit(limit) <= |Ahead(w, key)|
  {
    ClaimMoves(w.t, limit, w.now, key.id);
    ClaimTakesAhead(w, limit, key);
    var taken := ToSet(ClaimKeys(w.t, limit, w.now));
    forall k | k in Ahead(w1, key) ensures k in Ahead(w, key) {
      RemainingWereDue(w, limit, key, w1.t, k);
    }
    forall k | k in taken ensures k !in Ahead(w1, key) {
      TakenLeave(w, limit, key, w1.t, k);
    }
    SizeWithout(Ahead(w1, key), Ahead(w, key), taken);
  }

  lemma SizeWithout<T>(a: set<T>, b: set<T>, taken: set<T>)
    requires a <= b && taken <= b && a !! taken
    ensures |a| + |taken| <= |b|
  {
    SubsetSize(a + taken, b);
  }

  /** One step of waiting: the number of rows ahead, plus what a claim takes, never
      exceeds what was ahead plus the late arrivals. */
  lemma OvertakeStep(p: Policy, w: World, s: Step, key: Key)
    requires Inv(p, w) && Waiting(w, key) && Waiting(Apply(p, w, s), key)
    ensures |Ahead(Apply(p, w, s), key)| + Taken(s) <= |Ahead(w, key)| + |LateKeys(w, s, key)|
  {
    if s.Claim? {
      ClaimCase(p, w, s, key);
    } else {
      OtherOvertakes(p, w, s, key);
    }
  }

  lemma ClaimCase(p: Policy, w: World, s: Step, key: Key)
    requires Inv(p, w) && Waiting(w, key) && s.Claim? && Waiting(Apply(p, w, s), key)
    ensures |Ahead(Apply(p, w, s), key)| + ClaimLimit(s.limit) <= |Ahead(w, key)|
  {
    ClaimWorld(p, w, s);
    ClaimOvertakes(w, Apply(p, w, s), s.limit, key);
  }

  lemma ClaimWorld(p: Policy, w: World, s: Step)
    requires s.Claim?
    ensures Apply(p, w, s).t == ClaimDeliveries(w.t, s.limit, w.now) && Apply(p, w, s).now == w.now
  {
    ClaimedAreRows(w.t, s.limit, w.now);
  }

  lemma OtherOvertakes(p: Policy, w: World, s: Step, key: Key)
    requires Inv(p, w) && Waiting(w, key)
    ensures |Ahead(Apply(p, w, s), key)| <= |Ahead(w, key)| + |LateKeys(w, s, key)|
  {
    var ahead := Ahead(Apply(p, w, s), key);
    forall k | k in ahead ensures k in Ahead(w, key) + LateKeys(w, s, key) {
      AheadBefore(p, w, s, key, k);
    }
    SubsetSize(ahead, Ahead(w, key) + LateKeys(w, s, key));
  }

  // ---- Whole runs ----

  /** Steps aimed at the delivery or its config that take it out of the queue or
      restamp it. */
  ghost predicate Disturbs(w: World, s: Step, i: DeliveryId) {
    match s
    case SetActive(c, active) => !active && i in w.t.deliveries && w.t.deliveries[i].config == c
    case DropConfig(c) => i in w.t.deliveries && w.t.deliveries[i].config == c
    case CancelLease(k) => k < |w.leases| && w.leases[k].id == i
    case ReplayOne(id, _) => id == i
    case ReplayBulk(request, _) => i in Ids(BulkPage(w.t, Normalize(request, w.now)))
    case _ => false
  }

  ghost predicate Undisturbed(p: Policy, w: World, steps: seq<Step>, i: DeliveryId)
    decreases |steps|
  {
    steps != [] ==> !Disturbs(w, steps[0], i) && Undisturbed(p, Apply(p, w, steps[0]), steps[1..], i)
  }

  ghost predicate Takes(w: World, s: Step, i: DeliveryId) {
    s.Claim? && i in Ids(ClaimKeys(w.t, s.limit, w.now))
  }

  /** Some claim of the run takes delivery i. */
  ghost predicate ClaimedWithin(p: Policy, w: World, steps: seq<Step>, i: DeliveryId)
    decreases |steps|
  {
    steps != [] && (Takes(w, steps[0], i) || ClaimedWithin(p, Apply(p, w, steps[0]), steps[1..], i))
  }

  function TotalTaken(steps: seq<Step>): nat {
    if steps == [] then 0 else Taken(steps[0]) + TotalTaken(steps[1..])
  }

  ghost function TotalLate(p: Policy, w: World, steps: seq<Step>, key: Key): nat
    decreases |steps|
  {
    if steps == [] then 0
    else |LateKeys(w, steps[0], key)| + TotalLate(p, Apply(p, w, steps[0]), steps[1..], key)
  }

  ghost predicate PendingAt(t: Tables, i: DeliveryId) {
    i in t.deliveries && t.deliveries[i].status == Pending
  }

  /** Steps that settle no claim leave an undisturbed pending row alone. */
  lemma OtherStepLeavesRow(p: Policy, w: World, s: Step, i: DeliveryId)
    requires Inv(p, w) && PendingAt(w.t, i) && !Disturbs(w, s, i) && !NeedsClaim(s)
    ensures Apply(p, w, s).t.Row(i) == w.t.Row(i)
  {
    if OfWorker(s) {
      assert Work(p, w, s).t.Row(i) == w.t.Row(i);
    } else {
      ServingLeavesRow(p, w, s, i);
    }
  }

  lemma ServingLeavesRow(p: Policy, w: World, s: Step, i: DeliveryId)
    requires Inv(p, w) && PendingAt(w.t, i) && !Disturbs(w, s, i) && !OfWorker(s) && !s.Claim?
    ensures Serve(w, s).t.Row(i) == w.t.Row(i)
  {
    match s
    case Purge(deletion, batch) => DeleteMoves(w.t, deletion, BatchSize(batch), w.now, i);
    case ReplayBulk(request, _) => BulkLeavesRow(p, w, s, i);
    case _ =>
  }

  lemma BulkLeavesRow(p: Policy, w: World, s: Step, i: DeliveryId)
    requires PendingAt(w.t, i) && !Disturbs(w, s, i) && s.ReplayBulk?
    ensures Serve(w, s).t.Row(i) == w.t.Row(i)
  {
  }

  /** So do those that make or settle one, unless a claim takes the row. */
  lemma WorkerLeavesRow(p: Policy, w: World, s: Step, i: DeliveryId)
    requires Inv(p, w) && PendingAt(w.t, i) && !Disturbs(w, s, i) && NeedsClaim(s) && !Takes(w, s, i)
    ensures Apply(p, w, s).t.Row(i) == w.t.Row(i)
  {
    if s.Claim? {
      ClaimMoves(w.t, s.limit, w.now, i);
    } else {
      SettleLeavesRow(p, w, s, i);
    }
  }

  lemma SettleLeavesRow(p: Policy, w: World, s: Step, i: DeliveryId)
    requires Inv(p, w) && PendingAt(w.t, i) && (s.Finish? || s.FailLease?)
    ensures Work(p, w, s).t.Row(i) == w.t.Row(i)
  {
  }

  lemma ClockKept(p: Policy, w: World, s: Step)
    ensures w.now <= Apply(p, w, s).now
  {
    if s.Claim? {
      ClaimedAreRows(w.t, s.limit, w.now);
    }
  }

  /** Undisturbed, a waiting delivery waits on until a claim takes it. */
  lemma WaitsOrTaken(p: Policy, w: World, s: Step, key: Key)
    requires Inv(p, w) && Waiting(w, key) && !Disturbs(w, s, key.id)
    ensures Takes(w, s, key.id) || Waiting(Apply(p, w, s), key)
  {
    if NeedsClaim(s) {
      if !Takes(w, s, key.id) {
        WorkerLeavesRow(p, w, s, key.id);
      }
    } else {
      OtherStepLeavesRow(p, w, s, key.id);
    }
    ClockKept(p, w, s);
    assert !Takes(w, s, key.id) ==> Apply(p, w, s).t.Row(key.id) == w.t.Row(key.id);
  }

  /** A due delivery that nobody disturbs is claimed once the claims of the run
      could take more rows than were ahead of it and arrived late. */
  lemma {:induction false} BoundedOvertaking(p: Policy, w: World, steps: seq<Step>, key: Key)
    requires Inv(p, w) && Waiting(w, key) && Undisturbed(p, w, steps, key.id)
    requires TotalTaken(steps) > |Ahead(w, key)| + TotalLate(p, w, steps, key)
    ensures ClaimedWithin(p, w, steps, key.id)
    decreases |steps|
  {
    var s := steps[0];
    if !Takes(w, s, key.id) {
      WaitsOrTaken(p, w, s, key);
      OvertakeStep(p, w, s, key);
      StepKeepsInv(p, w, s);
      BoundedOvertaking(p, Apply(p, w, s), steps[1..], key);
    }
  }

  function Claims(steps: seq<Step>): nat {
    if steps == [] then 0 else (if steps[0].Claim? then 1 else 0) + Claims(steps[1..])
  }

  lemma {:induction false} UniformClaims(steps: seq<Step>, limit: nat)
    requires forall j :: 0 <= j < |steps| && steps[j].Claim? ==> ClaimLimit(steps[j].limit) == limit
    ensures TotalTaken(steps) == Claims(steps) * limit
  {
    if steps != [] {
      UniformClaims(steps[1..], limit);
      if steps[0].Claim? {
        MulSucc(Claims(steps), limit);
      }
    } else {
      MulZero(limit);
    }
  }

  /** With batches of one size and no late arrival, floor(rank / L) + 1 claims are
      enough. */
  lemma ClaimedWithinRankOverL(p: Policy, w: World, steps: seq<Step>, key: Key, limit: nat)
    requires Inv(p, w) && Waiting(w, key) && Undisturbed(p, w, steps, key.id) && limit > 0
    requires TotalLate(p, w, steps, key) == 0
    requires forall j :: 0 <= j < |steps| && steps[j].Claim? ==> ClaimLimit(steps[j].limit) == limit
    requires Claims(steps) >= |Ahead(w, key)| / limit + 1
    ensures ClaimedWithin(p, w, steps, key.id)
  {
    UniformClaims(steps, limit);
    QuotientIff(Claims(steps), limit, |Ahead(w, key)|);
    BoundedOvertaking(p, w, steps, key);
  }

  lemma StampEnters(p: Policy, w: World, k: nat)
    requires Inv(p, w) && CompletesToPending(w, k)
    ensures var t1 := Work(p, w, Finish(k)).t;
            var stamp := Stamp(w, k);
            && stamp.id in t1.deliveries && t1.deliveries[stamp.id].status == Pending
            && t1.deliveries[stamp.id].nextAttemptAt == Some(stamp.at)
            && w.t.deliveries[stamp.id].status == Delivering
            && (forall i :: i != stamp.id ==> t1.Row(i) == w.t.Row(i))
  {
    assert LeaseOk(p, w.t.Row(w.leases[k].id), w.leases[k], w.issued, w.now);
    HolderRecords(p, w, k);
  }

  /** An accepted event whose transaction commits late puts a row ahead of the
      waiting one if and only if its message has no row for that config yet and the
      time it was read comes first in the claim order. */
  lemma LateEnqueueOvertakes(p: Policy, w: World, s: Step, key: Key, k: Key)
    requires Inv(p, w) && Waiting(w, key)
    requires s.Enqueue? && s.createdAt <= w.now && FreshPlan(w.t, s.ty, s.plan, w.issued)
    ensures k in Ahead(Apply(p, w, s), key) && k !in Ahead(w, key)
            <==> && k.id in s.plan && k.at == s.createdAt && Less(k, key)
                 && !w.t.HasRow(Broker(s.message), s.plan[k.id])
    ensures k in Ahead(w, key) ==> k in Ahead(Apply(p, w, s), key)
  {
    EnqueueKeeps(w.t, s.ty, Broker(s.message), s.createdAt, s.plan, w.issued, w.now);
    EnqueuedAhead(w, Apply(p, w, s), Broker(s.message), s.createdAt, s.plan, key, k);
  }

  lemma EnqueuedAhead(w: World, w1: World, e: EventId, createdAt: Time, plan: map<DeliveryId, ConfigId>, key: Key, k: Key)
    requires e.Broker? && createdAt <= w.now && w.t.deliveries.Keys <= w.issued && plan.Keys !! w.issued
    requires w1.t == EnqueueEvent(w.t, e, createdAt, plan) && w1.now == w.now
    requires Waiting(w, key) && PendingIsLive(w.t) && PendingIsLive(w1.t)
    ensures k in Ahead(w1, key) && k !in Ahead(w, key)
            <==> k.id in plan && k.at == createdAt && Less(k, key) && !w.t.HasRow(e, plan[k.id])
    ensures k in Ahead(w, key) ==> k in Ahead(w1, key)
  {
    EnqueueMoves(w.t, e, createdAt, plan, w.issued, w.now, k.id);
    EnqueueMoves(w.t, e, createdAt, plan, w.issued, w.now, key.id);
    EnqueuedRow(w.t, e, createdAt, plan, w.issued, k.id);
    if k.id in w.t.deliveries {
      AheadIff(w, key, k);
      AheadIff(w1, key, k);
    } else if k.id in w1.t.deliveries {
      AheadIff(w1, key, k);
    }
  }

  lemma EnqueuedRow(t: Tables, e: EventId, createdAt: Time, plan: map<DeliveryId, ConfigId>, issued: set<DeliveryId>,
                    i: DeliveryId)
    requires t.deliveries.Keys <= issued && plan.Keys !! issued
    ensures var t1 := EnqueueEvent(t, e, createdAt, plan);
            i !in t.deliveries ==>
              (i in t1.deliveries <==> i in plan && !t.HasRow(e, plan[i]))
              && (i in t1.deliveries ==> t1.deliveries[i] == NewDelivery(e, plan[i], createdAt))
  {
  }

  lemma AheadIff(w: World, key: Key, k: Key)
    requires PendingIsLive(w.t) && k.id in w.t.deliveries && Waiting(w, key)
    ensures k in Ahead(w, key) <==> Less(k, key) && w.t.deliveries[k.id].status == Pending
                                    && w.t.deliveries[k.id].nextAttemptAt == Some(k.at)
  {
    if Less(k, key) && w.t.deliveries[k.id].status == Pending && w.t.deliveries[k.id].nextAttemptAt == Some(k.at) {
      StillAhead(w, key, k);
    }
    if k in Ahead(w, key) {
      assert k in DueKeys(w.t, w.now);
    }
  }

  /** The queue is not strictly first come, first served: the retry of a slow
      worker, stamped when its call was answered, overtakes the waiting row when
      it commits if and only if that stamp comes first in the claim order. */
  lemma SlowCompletionOvertakes(p: Policy, w: World, k: nat, key: Key)
    requires Inv(p, w) && Waiting(w, key) && CompletesToPending(w, k)
    ensures Stamp(w, k) in Ahead(Apply(p, w, Finish(k)), key) <==> Less(Stamp(w, k), key)
    ensures Stamp(w, k) !in Ahead(w, key)
    ensures forall x :: x != Stamp(w, k) ==> (x in Ahead(Apply(p, w, Finish(k)), key) <==> x in Ahead(w, key))
  {
    var w1 := Apply(p, w, Finish(k));
    var stamp := Stamp(w, k);
    StampEnters(p, w, k);
    StepKeepsInv(p, w, Finish(k));
    if Less(stamp, key) {
      StillAhead(w1, key, stamp);
    }
    forall x | x != stamp ensures x in Ahead(w1, key) <==> x in Ahead(w, key) {
      if x in Ahead(w1, key) {
        AheadBefore(p, w, Finish(k), key, x);
      } else if x in Ahead(w, key) {
        assert x in DueKeys(w.t, w.now);
        assert w1.t.Row(x.id) == w.t.Row(x.id);
        StillAhead(w1, key, x);
      }
    }
  }

  lemma ExpeditedRows(t: Tables, id: DeliveryId, key: IdempotencyKey, now: Time, j: DeliveryId)
    requires PendingAt(t, id) && ReplayDelivery(t, id, key, now).answer.Applied? && j != id
    ensures var t1 := ReplayDelivery(t, id, key, now).tables;
            && t1.configs == t.configs && t1.Row(j) == t.Row(j)
            && t1.Row(id) == Some(ExpediteRow(t.deliveries[id], now)) && t.LiveConfig(t.deliveries[id].config)
  {
  }

  lemma DueInBoth(t: Tables, t1: Tables, now: Time, k: Key)
    requires t1.configs == t.configs && t1.Row(k.id) == t.Row(k.id)
    ensures k in DueKeys(t1, now) <==> k in DueKeys(t, now)
  {
    assert k.id in t.deliveries ==> (Due(t1, t.deliveries[k.id], now) <==> Due(t, t.deliveries[k.id], now));
  }

  /** The claim order of a delivery that a replay expedites: every other due row goes
      first that is due earlier than the present. */
  lemma ExpeditedPlace(t: Tables, id: DeliveryId, key: IdempotencyKey, now: Time, k: Key)
    requires PendingAt(t, id) && ReplayDelivery(t, id, key, now).answer.Applied? && k.id != id
    ensures var due1 := DueKeys(ReplayDelivery(t, id, key, now).tables, now);
            && Key(now, id) in due1
            && (k in Prefix(Asc, due1, Key(now, id)) <==> k in DueKeys(t, now) && Less(k, Key(now, id)))
  {
    var t1 := ReplayDelivery(t, id, key, now).tables;
    ExpeditedRows(t, id, key, now, k.id);
    DueInBoth(t, t1, now, k);
    ExpeditedIsDue(t, t1, id, now);
  }

  lemma ExpeditedIsDue(t: Tables, t1: Tables, id: DeliveryId, now: Time)
    requires PendingAt(t, id) && t1.configs == t.configs && t.LiveConfig(t.deliveries[id].config)
    requires t1.Row(id) == Some(ExpediteRow(t.deliveries[id], now))
    ensures Key(now, id) in DueKeys(t1, now)
  {
    assert Due(t1, t1.deliveries[id], now);
  }

  lemma ReplayOneTables(p: Policy, w: World, id: DeliveryId, key: IdempotencyKey)
    ensures var w1 := Apply(p, w, ReplayOne(id, key));
            w1.t == ReplayDelivery(w.t, id, key, w.now).tables && w1.now == w.now
  {
  }

  /** So an overdue delivery loses its place to its replay: the rows behind it that are
      due before the present are ahead of it afterwards, and those ahead stay. */
  lemma ExpediteLosesPlace(p: Policy, w: World, place: Key, key: IdempotencyKey, k: Key)
    requires Inv(p, w) && Waiting(w, place) && ReplayDelivery(w.t, place.id, key, w.now).answer.Applied?
    requires k.id != place.id && k in DueKeys(w.t, w.now) && k.at < w.now
    ensures k in Ahead(Apply(p, w, ReplayOne(place.id, key)), Key(w.now, place.id))
    ensures k in Ahead(w, place) <==> Less(k, place)
  {
    ReplayOneTables(p, w, place.id, key);
    ExpeditedPlace(w.t, place.id, key, w.now, k);
  }
}
