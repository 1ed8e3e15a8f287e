/** The invariant holds in every reachable world: one lemma per kind of step. */
module Reachable {
  import opened Clock
  import opened Results
  import opened Backoff
  import opened Keyset
  import opened Tables
  import opened Transactions
  import opened Invariants
  import A = Attempt
  import opened Protocol
  import opened Lifecycle
  import opened Fencing

  lemma TimePasses(p: Policy, w: World, to: Time)
    requires Inv(p, w) && w.now <= to
    ensures Inv(p, w.(now := to))
  {
    var w1 := w.(now := to);
    forall k | 0 <= k < |w.leases|
      ensures LeaseOk(p, w1.t.Row(w.leases[k].id), w.leases[k], w1.issued, w1.now)
    {
      var l := w.leases[k];
      assert LeaseOk(p, w.t.Row(l.id), l, w.issued, w.now);
      LaterKeepsTracked(w.t.Row(l.id), l, w.now, to);
    }
  }

  /** Every answer of the endpoint continues the claimed row by one attempt. */
  lemma AnswerContinues(p: Policy, d: Delivery, calledAt: Option<Time>, http: A.HttpResult, now: Time)
    requires d.cycleStartedAt.Some?
    ensures Answered(p, d, calledAt, http, now).Responded?
    ensures Continues(d, Answered(p, d, calledAt, http, now).done)
  {
    var a := A.ClassifyResponse(p, d.attemptCount, now, d.cycleStartedAt, http);
    assert a.status == A.ToRetry ==> a.nextRetryAfter.Some?;
  }

  /** Steps that neither claim nor settle a row. */
  predicate IsQuiet(s: Step) {
    !NeedsClaim(s) && !s.Tick?
  }

  lemma TablesKept(p: Policy, w: World, s: Step)
    requires Inv(p, w) && IsQuiet(s)
    ensures TableInv(Apply(p, w, s).t, w.now)
  {
    if OfWorker(s) {
      WorkerTablesKept(p, w, s);
    } else if s.AddConfig? || s.EditConfig? || s.SetActive? || s.DropConfig? {
      ConfigTablesKept(w, s);
    } else {
      ApiTablesKept(w, s);
    }
  }

  lemma ConfigTablesKept(w: World, s: Step)
    requires TableInv(w.t, w.now) && (s.AddConfig? || s.EditConfig? || s.SetActive? || s.DropConfig?)
    ensures TableInv(Serve(w, s).t, w.now)
  {
    match s
    case AddConfig(c, types) => if c !in w.t.configs { InsertConfigKeeps(w.t, c, types, w.now); }
    case EditConfig(c, types) => UpdateConfigKeeps(w.t, c, types, w.now);
    case SetActive(c, active) =>
      if UpdateOneConfigActivation(w.t, c, active, w.now).Ok? { ActivationKeeps(w.t, c, active, w.now); }
    case DropConfig(c) => if DeleteOneConfig(w.t, c, w.now).Ok? { DeleteConfigKeeps(w.t, c, w.now); }
  }

  lemma ApiTablesKept(w: World, s: Step)
    requires TableInv(w.t, w.now) && w.t.deliveries.Keys <= w.issued
    requires s.Recover? || s.ReplayOne? || s.ReplayBulk? || s.Purge? || s.Enqueue?
    ensures TableInv(Serve(w, s).t, w.now)
  {
    if s.ReplayBulk? {
      BulkTables(w, s);
      ReplayDeliveriesKeeps(w.t, s.request, s.key, w.now);
    } else if s.Purge? {
      PurgedTables(w, s);
      DeleteKeeps(w.t, s.deletion, BatchSize(s.batch), w.now);
    } else {
      RowTablesKept(w, s);
    }
  }

  lemma RowTablesKept(w: World, s: Step)
    requires TableInv(w.t, w.now) && w.t.deliveries.Keys <= w.issued
    requires s.Recover? || s.ReplayOne? || s.Enqueue?
    ensures TableInv(Serve(w, s).t, w.now)
  {
    match s
    case Enqueue(message, ty, createdAt, plan) =>
      if createdAt <= w.now && FreshPlan(w.t, ty, plan, w.issued) {
        EnqueueKeeps(w.t, ty, Broker(message), createdAt, plan, w.issued, w.now);
      }
    case Recover => RecoverKeeps(w.t, STALE, w.now);
    case ReplayOne(id, key) => ReplayDeliveryKeeps(w.t, id, key, w.now);
  }

  lemma WorkerTablesKept(p: Policy, w: World, s: Step)
    requires TableInv(w.t, w.now) && IsQuiet(s) && OfWorker(s)
    ensures TableInv(Work(p, w, s).t, w.now)
  {
    match s
    case CancelLease(k) =>
      if At(w, k, Doomed) && CancelDelivery(w.t, w.leases[k].id, w.now).Ok? {
        CancelKeeps(w.t, w.leases[k].id, w.now);
      }
    case _ =>
  }

  lemma WorkersEvolve(p: Policy, w: World, s: Step, k: nat)
    requires Inv(p, w) && IsQuiet(s) && k < |w.leases|
    ensures var w1 := Apply(p, w, s);
            && |w1.leases| == |w.leases| && Evolves(w.leases[k], w1.leases[k])
            && WellFormed(w1.leases[k], w1.issued, w1.now) && CallAllowed(p, w1.leases[k], w1.now)
  {
    if s.Respond? {
      RespondEvolves(p, w, s, k);
    } else if OfWorker(s) {
      WorkEvolves(p, w, s, k);
    } else {
      ServingLeavesWorkers(p, w, s, k);
    }
  }

  lemma WorkEvolves(p: Policy, w: World, s: Step, k: nat)
    requires Inv(p, w) && IsQuiet(s) && OfWorker(s) && !s.Respond? && k < |w.leases|
    ensures var w1 := Work(p, w, s);
            && |w1.leases| == |w.leases| && Evolves(w.leases[k], w1.leases[k])
            && WellFormed(w1.leases[k], w1.issued, w1.now) && CallAllowed(p, w1.leases[k], w1.now)
  {
    assert LeaseOk(p, w.t.Row(w.leases[k].id), w.leases[k], w.issued, w.now);
    LeaseAfterWork(p, w, s, k);
  }

  /** What the steps but the answer do to a claim. */
  lemma LeaseAfterWork(p: Policy, w: World, s: Step, k: nat)
    requires OfWorker(s) && IsQuiet(s) && !s.Respond? && k < |w.leases|
    requires var l := w.leases[k];
             && l.copy.claimedAt.Some? && ClaimedAt(l) <= w.now && CallAllowed(p, l, w.now)
             && (l.copy.cycleStartedAt.Some?)
    ensures var w1 := Work(p, w, s);
            && |w1.leases| == |w.leases| && Evolves(w.leases[k], w1.leases[k])
            && w1.issued == w.issued && w1.now == w.now
            && CallAllowed(p, w1.leases[k], w.now) && !(w1.leases[k].stage.Responded? && w1.leases[k] != w.leases[k])
  {
  }

  lemma ServingLeavesWorkers(p: Policy, w: World, s: Step, k: nat)
    requires Inv(p, w) && IsQuiet(s) && !OfWorker(s) && k < |w.leases|
    ensures var w1 := Serve(w, s);
            && w1.leases == w.leases
            && WellFormed(w1.leases[k], w1.issued, w1.now) && CallAllowed(p, w1.leases[k], w1.now)
  {
    assert LeaseOk(p, w.t.Row(w.leases[k].id), w.leases[k], w.issued, w.now);
  }

  lemma RespondEvolves(p: Policy, w: World, s: Step, k: nat)
    requires Inv(p, w) && s.Respond? && k < |w.leases|
    ensures var w1 := Work(p, w, s);
            && |w1.leases| == |w.leases| && Evolves(w.leases[k], w1.leases[k])
            && WellFormed(w1.leases[k], w1.issued, w1.now) && CallAllowed(p, w1.leases[k], w1.now)
  {
    assert LeaseOk(p, w.t.Row(w.leases[k].id), w.leases[k], w.issued, w.now);
    if s.k == k && At(w, k, Calling) {
      AnswerContinues(p, w.leases[k].copy, w.leases[k].calledAt, s.http, w.now);
    }
  }

  /** IDs are issued before they are used, and never reused. */
  lemma IssuedKept(p: Policy, w: World, s: Step, i: DeliveryId)
    requires Inv(p, w) && IsQuiet(s)
    ensures var w1 := Apply(p, w, s);
            && w.issued <= w1.issued && w1.now == w.now
            && (i in w1.t.deliveries ==> i in w1.issued && (i in w.issued ==> i in w.t.deliveries))
  {
    if i !in w.t.deliveries {
      if s.Purge? {
        DeleteMoves(w.t, s.deletion, BatchSize(s.batch), w.now, i);
      } else if !s.Enqueue? {
        NothingInserted(p, w, s, i);
      }
    }
  }

  lemma QuietStepKeeps(p: Policy, w: World, s: Step)
    requires Inv(p, w) && IsQuiet(s)
    ensures Inv(p, Apply(p, w, s))
  {
    var w1 := Apply(p, w, s);
    TablesKept(p, w, s);
    forall k | 0 <= k < |w.leases|
      ensures |w1.leases| == |w.leases| && Evolves(w.leases[k], w1.leases[k])
      ensures WellFormed(w1.leases[k], w1.issued, w1.now) && CallAllowed(p, w1.leases[k], w1.now)
    {
      WorkersEvolve(p, w, s, k);
    }
    forall i
      ensures Unclaimed(w.t.Row(i), w1.t.Row(i), w.now)
      ensures i in w1.t.deliveries ==> i in w1.issued && (i in w.issued ==> i in w.t.deliveries)
      ensures w.issued <= w1.issued && w1.now == w.now
    {
      UnclaimedSteps(p, w, s, i);
      IssuedKept(p, w, s, i);
    }
    assert |w1.leases| == |w.leases|;
    QuietStep(p, w, w1);
  }

  // ---- Claiming ----

  lemma FreshLeaseOk(p: Policy, r: Option<Delivery>, r1: Option<Delivery>, id: DeliveryId, issued: set<DeliveryId>, now: Time)
    requires Claimed(r, r1, now) && Shape(r.value, now) && id in issued
    ensures LeaseOk(p, r1, Lease(id, r1.value, Fresh, None, false), issued, now)
  {
  }

  /** The j-th claimed row and the lease made of it. */
  lemma NewLeaseOk(p: Policy, w: World, limit: int, j: nat)
    requires Shapes(w.t, w.now) && w.t.deliveries.Keys <= w.issued && j < |ClaimKeys(w.t, limit, w.now)|
    ensures var id := ClaimKeys(w.t, limit, w.now)[j].id;
            var t1 := ClaimDeliveries(w.t, limit, w.now);
            && Claimed(w.t.Row(id), t1.Row(id), w.now) && id in t1.deliveries
            && LeaseOk(p, t1.Row(id), Lease(id, t1.deliveries[id], Fresh, None, false), w.issued, w.now)
  {
    var keys := ClaimKeys(w.t, limit, w.now);
    var id := keys[j].id;
    assert keys[j] in keys && id in Ids(keys);
    ClaimMoves(w.t, limit, w.now, id);
    FreshLeaseOk(p, w.t.Row(id), ClaimDeliveries(w.t, limit, w.now).Row(id), id, w.issued, w.now);
  }

  /** The claim that takes a pending row comes after every older claim of it. */
  lemma ClaimComesAfter(l: Lease, r: Option<Delivery>, r1: Option<Delivery>, now: Time)
    requires l.copy.claimedAt.Some? && l.copy.cycleStartedAt.Some?
    requires Tracked(r, l, now) && Claimed(r, r1, now) && ClaimedAt(l) <= now
    ensures Ordered(l, Lease(l.id, r1.value, Fresh, None, false))
  {
  }

  lemma ClaimedIdsDiffer(t: Tables, limit: int, now: Time, i: nat, j: nat)
    requires i < j < |ClaimKeys(t, limit, now)|
    ensures ClaimKeys(t, limit, now)[i].id != ClaimKeys(t, limit, now)[j].id
  {
    var keys := ClaimKeys(t, limit, now);
    ClaimedAreRows(t, limit, now);
    assert keys[i] in keys && keys[j] in keys;
    Sorts(Asc, DueKeys(t, now));
    assert Before(Asc, Sorted(Asc, DueKeys(t, now))[i], Sorted(Asc, DueKeys(t, now))[j]);
  }

  lemma OldLeaseOk(p: Policy, w: World, limit: int, k: nat)
    requires Inv(p, w) && k < |w.leases|
    ensures var l := w.leases[k];
            LeaseOk(p, ClaimDeliveries(w.t, limit, w.now).Row(l.id), l, w.issued, w.now)
  {
    var l := w.leases[k];
    var t1 := ClaimDeliveries(w.t, limit, w.now);
    assert LeaseOk(p, w.t.Row(l.id), l, w.issued, w.now);
    ClaimMoves(w.t, limit, w.now, l.id);
    if t1.Row(l.id) != w.t.Row(l.id) {
      ClaimKeepsTracked(w.t.Row(l.id), t1.Row(l.id), l, w.now);
    }
  }

  /** The leases after a claim: the old ones, then one per claimed row. */
  lemma LeasesAfterClaim(w: World, limit: int, k: nat)
    requires k < |ClaimDue(w, limit).leases|
    ensures var w1 := ClaimDue(w, limit);
            var keys := ClaimKeys(w.t, limit, w.now);
            && w1.t == ClaimDeliveries(w.t, limit, w.now) && w1.issued == w.issued && w1.now == w.now
            && |w1.leases| == |w.leases| + |keys|
            && (k < |w.leases| ==> w1.leases[k] == w.leases[k])
            && (k >= |w.leases| ==>
                  var id := keys[k - |w.leases|].id;
                  id in w1.t.deliveries && w1.leases[k] == Lease(id, w1.t.deliveries[id], Fresh, None, false))
  {
    ClaimedAreRows(w.t, limit, w.now);
    var keys := ClaimKeys(w.t, limit, w.now);
    if k >= |w.leases| {
      assert keys[k - |w.leases|] in keys;
    }
  }

  lemma OldBeforeNew(p: Policy, w: World, limit: int, j: nat, m: nat)
    requires Inv(p, w) && j < |w.leases| && m < |ClaimKeys(w.t, limit, w.now)|
    ensures var id := ClaimKeys(w.t, limit, w.now)[m].id;
            var t1 := ClaimDeliveries(w.t, limit, w.now);
            id in t1.deliveries && Ordered(w.leases[j], Lease(id, t1.deliveries[id], Fresh, None, false))
  {
    NewLeaseOk(p, w, limit, m);
    var id := ClaimKeys(w.t, limit, w.now)[m].id;
    var l := w.leases[j];
    assert LeaseOk(p, w.t.Row(l.id), l, w.issued, w.now);
    if l.id == id {
      ClaimComesAfter(l, w.t.Row(id), ClaimDeliveries(w.t, limit, w.now).Row(id), w.now);
    }
  }

  lemma OrderedAppend(older: seq<Lease>, newer: seq<Lease>)
    requires AllOrdered(older)
    requires forall j, m :: 0 <= j < |older| && 0 <= m < |newer| ==> Ordered(older[j], newer[m])
    requires forall i, j :: 0 <= i < j < |newer| ==> newer[i].id != newer[j].id
    ensures AllOrdered(older + newer)
  {
  }

  lemma ClaimOrders(p: Policy, w: World, limit: int)
    requires Inv(p, w)
    ensures AllOrdered(ClaimDue(w, limit).leases)
  {
    ClaimedAreRows(w.t, limit, w.now);
    var keys := ClaimKeys(w.t, limit, w.now);
    var taken := NewLeases(ClaimDeliveries(w.t, limit, w.now), keys);
    forall j, m | 0 <= j < |w.leases| && 0 <= m < |taken| ensures Ordered(w.leases[j], taken[m]) {
      OldBeforeNew(p, w, limit, j, m);
    }
    forall i, j | 0 <= i < j < |taken| ensures taken[i].id != taken[j].id {
      ClaimedIdsDiffer(w.t, limit, w.now, i, j);
    }
    OrderedAppend(w.leases, taken);
  }

  lemma NewClaims(w: World, limit: int)
    ensures |ClaimDue(w, limit).leases| == |w.leases| + |ClaimKeys(w.t, limit, w.now)|
  {
    ClaimedAreRows(w.t, limit, w.now);
  }

  lemma NewClaimIs(w: World, limit: int, j: nat)
    requires j < |ClaimKeys(w.t, limit, w.now)|
    ensures var w1 := ClaimDue(w, limit);
            var id := ClaimKeys(w.t, limit, w.now)[j].id;
            && |w.leases| + j < |w1.leases| && id in w1.t.deliveries
            && w1.leases[|w.leases| + j] == Lease(id, w1.t.deliveries[id], Fresh, None, false)
            && w1.t == ClaimDeliveries(w.t, limit, w.now) && w1.issued == w.issued && w1.now == w.now
  {
    NewClaims(w, limit);
    LeasesAfterClaim(w, limit, |w.leases| + j);
  }

  lemma NewClaimOk(p: Policy, w: World, limit: int, k: nat)
    requires Shapes(w.t, w.now) && w.t.deliveries.Keys <= w.issued
    requires |w.leases| <= k < |ClaimDue(w, limit).leases|
    ensures var w1 := ClaimDue(w, limit);
            LeaseOk(p, w1.t.Row(w1.leases[k].id), w1.leases[k], w1.issued, w1.now)
  {
    NewClaims(w, limit);
    NewClaimIs(w, limit, k - |w.leases|);
    NewLeaseOk(p, w, limit, k - |w.leases|);
  }

  lemma OldClaimOk(p: Policy, w: World, limit: int, k: nat)
    requires Inv(p, w) && k < |w.leases| && k < |ClaimDue(w, limit).leases|
    ensures var w1 := ClaimDue(w, limit);
            LeaseOk(p, w1.t.Row(w1.leases[k].id), w1.leases[k], w1.issued, w1.now)
  {
    LeasesAfterClaim(w, limit, k);
    OldLeaseOk(p, w, limit, k);
  }

  lemma ClaimedLeaseOk(p: Policy, w: World, limit: int, k: nat)
    requires Inv(p, w) && k < |ClaimDue(w, limit).leases|
    ensures var w1 := ClaimDue(w, limit);
            LeaseOk(p, w1.t.Row(w1.leases[k].id), w1.leases[k], w1.issued, w1.now)
  {
    if k < |w.leases| {
      OldClaimOk(p, w, limit, k);
    } else {
      NewClaimOk(p, w, limit, k);
    }
  }

  lemma ClaimedTables(w: World, limit: int)
    requires TableInv(w.t, w.now) && w.t.deliveries.Keys <= w.issued
    ensures var w1 := ClaimDue(w, limit);
            TableInv(w1.t, w1.now) && w1.t.deliveries.Keys <= w1.issued
  {
    ClaimedAreRows(w.t, limit, w.now);
    ClaimKeeps(w.t, limit, w.now);
  }

  lemma ClaimKeepsInv(p: Policy, w: World, limit: int)
    requires Inv(p, w)
    ensures Inv(p, ClaimDue(w, limit))
  {
    var w1 := ClaimDue(w, limit);
    ClaimedTables(w, limit);
    forall k | 0 <= k < |w1.leases|
      ensures LeaseOk(p, w1.t.Row(w1.leases[k].id), w1.leases[k], w1.issued, w1.now)
    {
      ClaimedLeaseOk(p, w, limit, k);
    }
    ClaimOrders(p, w, limit);
  }

  // ---- Settling ----

  lemma GiveUp(p: Policy, w: World, k: nat)
    requires Inv(p, w) && k < |w.leases|
    ensures Inv(p, WithStage(w, k, Over))
  {
    CrashIsGivingUp(p, w, k);
    QuietStepKeeps(p, w, Crash(k));
  }

  lemma CrashIsGivingUp(p: Policy, w: World, k: nat)
    requires k < |w.leases|
    ensures Apply(p, w, Crash(k)) == WithStage(w, k, Over)
  {
  }

  lemma FailLeaseKeepsInv(p: Policy, w: World, k: nat)
    requires Inv(p, w)
    ensures Inv(p, Work(p, w, FailLease(k)))
  {
    if At(w, k, Refused) {
      var l := w.leases[k];
      assert LeaseOk(p, w.t.Row(l.id), l, w.issued, w.now);
      if FailClaimedDelivery(w.t, l.id, ClaimedAt(l), w.now).Ok? {
        FailKeeps(w.t, l.id, ClaimedAt(l), w.now);
        SettleStep(p, w, Work(p, w, FailLease(k)), k);
      } else {
        GiveUp(p, w, k);
      }
    }
  }

  /** The completion of a claim that holds its row. */
  lemma Settled(p: Policy, w: World, k: nat)
    requires Inv(p, w) && k < |w.leases| && w.leases[k].stage.Responded?
    requires CompleteDelivery(w.t, w.leases[k].id, w.leases[k].stage.done, w.leases[k].stage.attempt, w.now).Ok?
    ensures var l := w.leases[k];
            var t1 := CompleteDelivery(w.t, l.id, l.stage.done, l.stage.attempt, w.now).value.tables;
            && TableInv(t1, w.now) && Current(w.t.Row(l.id), l) && Completed(w.t.Row(l.id), t1.Row(l.id), w.now)
            && (forall i :: i != l.id ==> t1.Row(i) == w.t.Row(i))
  {
    var l := w.leases[k];
    assert LeaseOk(p, w.t.Row(l.id), l, w.issued, w.now);
    assert w.t.deliveries[l.id] == l.copy;
    CompleteKeeps(w.t, l.id, l.stage.done, l.stage.attempt, w.now);
    CompletionMoves(w.t, l.id, l.stage.done, l.stage.attempt, w.now);
  }

  lemma FinishKeepsInv(p: Policy, w: World, k: nat)
    requires Inv(p, w)
    ensures Inv(p, Work(p, w, Finish(k)))
  {
    if k < |w.leases| && w.leases[k].stage.Responded? {
      var l := w.leases[k];
      if CompleteDelivery(w.t, l.id, l.stage.done, l.stage.attempt, w.now).Ok? {
        Settled(p, w, k);
        SettleStep(p, w, Work(p, w, Finish(k)), k);
      } else {
        GiveUp(p, w, k);
      }
    }
  }

  lemma StepKeepsInv(p: Policy, w: World, s: Step)
    requires Inv(p, w)
    ensures Inv(p, Apply(p, w, s))
  {
    match s
    case Tick(to) => if w.now <= to { TimePasses(p, w, to); }
    case Claim(limit) => ClaimKeepsInv(p, w, limit);
    case FailLease(k) => FailLeaseKeepsInv(p, w, k);
    case Finish(k) => FinishKeepsInv(p, w, k);
    case _ => QuietStepKeeps(p, w, s);
  }

  /** The invariant holds after every run from a start world. */
  lemma {:induction false} RunKeepsInv(p: Policy, w: World, steps: seq<Step>)
    requires Inv(p, w)
    ensures Inv(p, Run(p, w, steps))
    decreases |steps|
  {
    if steps != [] {
      StepKeepsInv(p, w, steps[0]);
      RunKeepsInv(p, Apply(p, w, steps[0]), steps[1..]);
    }
  }
}
