/** The inductive invariant over workers: at most one claim of a delivery still
    holds its row, a superseded claim stays dead, and claims of one generation
    that left no record are far apart in time. */
module Fencing {
  import opened Clock
  import opened Results
  import opened Backoff
  import opened Tables
  import opened Transactions
  import opened Invariants
  import A = Attempt
  import opened Protocol
  import opened Lifecycle

  // ---- One claim against its row ----

  function ClaimedAt(l: Lease): Time
    requires l.copy.claimedAt.Some?
  {
    l.copy.claimedAt.value
  }

  predicate WellFormed(l: Lease, issued: set<DeliveryId>, now: Time) {
    && l.id in issued
    && Shape(l.copy, now) && l.copy.status == Delivering
    && (l.stage.Responded? ==> Continues(l.copy, l.stage.done))
  }

  /** The row is still the one this claim took. */
  predicate Current(r: Option<Delivery>, l: Lease) {
    r.Some? && Holds(r.value, l.copy.claimedAt)
  }

  /** The claim can never hold the row again: the row ended, or was recovered after
      the recovery age. */
  predicate Superseded(r: Option<Delivery>, l: Lease, now: Time)
    requires l.copy.claimedAt.Some?
  {
    || r.None?
    || r.value.status in {Succeeded, Cancelled}
    || (ClaimedAt(l) + STALE < now
        && (r.value.status == Delivering ==> r.value.claimedAt.Some? && ClaimedAt(l) < r.value.claimedAt.value))
  }

  /** A claim that left no attempt record delays the next one of its generation
      by more than the recovery age. */
  predicate Quiet(r: Delivery, l: Lease, now: Time)
    requires l.copy.claimedAt.Some?
  {
    || l.copy.generation < r.generation
    || r.status in {Succeeded, Failed, Cancelled}
    || Holds(r, l.copy.claimedAt)
    || ClaimedAt(l) + STALE < now
  }

  predicate Tracked(r: Option<Delivery>, l: Lease, now: Time)
    requires l.copy.claimedAt.Some?
  {
    && (l.stage != Over ==> Current(r, l) || Superseded(r, l, now))
    && (r.Some? ==>
          && r.value.event == l.copy.event && r.value.config == l.copy.config && r.value.createdAt == l.copy.createdAt
          && l.copy.generation <= r.value.generation
          && (l.copy.generation == r.value.generation ==> r.value.cycleStartedAt == l.copy.cycleStartedAt)
          && (r.value.status == Delivering ==> r.value.claimedAt.Some? && ClaimedAt(l) <= r.value.claimedAt.value)
          && (l.stage != Over && Current(r, l) ==> r.value == l.copy)
          && (l.recorded && l.copy.generation == r.value.generation ==> l.copy.attemptCount < r.value.attemptCount)
          && (!l.recorded ==> Quiet(r.value, l, now)))
  }

  /** The preflight let the call through. */
  predicate CallAllowed(p: Policy, l: Lease, now: Time)
    requires l.copy.claimedAt.Some?
  {
    && (l.calledAt.Some? ==>
          && ClaimedAt(l) <= l.calledAt.value <= now
          && A.WindowAllows(p, l.copy.cycleStartedAt, l.calledAt.value)
          && (l.copy.attemptCount > 0 ==> p.CanRetryAttempt(l.copy.attemptCount)))
    && (l.stage == Calling || l.stage.Responded? || l.recorded ==> l.calledAt.Some?)
    && (l.calledAt.Some? ==> l.stage == Calling || l.stage.Responded? || l.stage == Over)
    && (l.recorded ==> l.stage == Over)
  }

  predicate LeaseOk(p: Policy, r: Option<Delivery>, l: Lease, issued: set<DeliveryId>, now: Time) {
    WellFormed(l, issued, now) && Tracked(r, l, now) && CallAllowed(p, l, now)
  }

  // ---- Two claims of one delivery, in the order they were made ----

  predicate Ordered(a: Lease, b: Lease) {
    a.copy.claimedAt.Some? && b.copy.claimedAt.Some? && a.id == b.id ==>
      && (a.stage != Over ==> ClaimedAt(a) + STALE < ClaimedAt(b))
      && a.copy.generation <= b.copy.generation
      && (a.copy.generation == b.copy.generation ==>
            && a.copy.cycleStartedAt == b.copy.cycleStartedAt
            && (!a.recorded ==> ClaimedAt(a) + STALE < ClaimedAt(b))
            && (a.recorded ==> a.copy.attemptCount < b.copy.attemptCount))
  }

  ghost predicate AllOrdered(ls: seq<Lease>) {
    forall j, k :: 0 <= j < k < |ls| ==> Ordered(ls[j], ls[k])
  }

  ghost predicate Inv(p: Policy, w: World) {
    && TableInv(w.t, w.now)
    && w.t.deliveries.Keys <= w.issued
    && (forall k :: 0 <= k < |w.leases| ==> LeaseOk(p, w.t.Row(w.leases[k].id), w.leases[k], w.issued, w.now))
    && AllOrdered(w.leases)
  }

  /** A world to start from: tables that satisfy their invariants and no workers. */
  ghost predicate Start(w: World) {
    TableInv(w.t, w.now) && w.t.deliveries.Keys <= w.issued && w.leases == [] && w.applied == []
  }

  // ---- The row moves under a claim ----

  lemma UnclaimedKeepsTracked(r: Option<Delivery>, r1: Option<Delivery>, l: Lease, now: Time)
    requires l.copy.claimedAt.Some? && Tracked(r, l, now) && ClaimedAt(l) <= now
    requires Unclaimed(r, r1, now) && (r.None? ==> r1.None?)
    ensures Tracked(r1, l, now)
  {
  }

  lemma ClaimKeepsTracked(r: Option<Delivery>, r1: Option<Delivery>, l: Lease, now: Time)
    requires l.copy.claimedAt.Some? && Tracked(r, l, now) && ClaimedAt(l) <= now
    requires Claimed(r, r1, now)
    requires l.copy.cycleStartedAt.Some?
    ensures Tracked(r1, l, now)
  {
  }

  /** Another claim settles the row: this one held it no longer. */
  lemma SettleKeepsTracked(r: Option<Delivery>, r1: Option<Delivery>, l: Lease, now: Time)
    requires l.copy.claimedAt.Some? && Tracked(r, l, now)
    requires Completed(r, r1, now) || FailedEarly(r, r1, now)
    requires l.stage == Over || !Current(r, l)
    requires !l.recorded && Current(r, l) ==> l.copy.generation < r.value.generation
    ensures Tracked(r1, l, now)
  {
  }

  lemma LaterKeepsTracked(r: Option<Delivery>, l: Lease, now: Time, later: Time)
    requires l.copy.claimedAt.Some? && Tracked(r, l, now) && now <= later
    ensures Tracked(r, l, later)
  {
  }

  // ---- Steps ----

  /** A worker moves on, without settling its row. */
  predicate Evolves(l: Lease, l1: Lease) {
    l1.id == l.id && l1.copy == l.copy && l1.recorded == l.recorded && (l1.stage != Over ==> l.stage != Over)
  }

  lemma EvolvedKeepsTracked(r: Option<Delivery>, l: Lease, l1: Lease, now: Time)
    requires l.copy.claimedAt.Some? && Tracked(r, l, now) && Evolves(l, l1)
    ensures Tracked(r, l1, now)
  {
  }

  lemma QuietStep(p: Policy, w: World, w1: World)
    requires Inv(p, w) && TableInv(w1.t, w1.now) && w1.now == w.now && w.issued <= w1.issued
    requires w1.t.deliveries.Keys <= w1.issued && |w1.leases| == |w.leases|
    requires forall k :: 0 <= k < |w.leases| ==>
               && Evolves(w.leases[k], w1.leases[k])
               && WellFormed(w1.leases[k], w1.issued, w1.now) && CallAllowed(p, w1.leases[k], w1.now)
    requires forall i :: Unclaimed(w.t.Row(i), w1.t.Row(i), w.now)
    requires forall i :: i in w.issued && i !in w.t.deliveries ==> i !in w1.t.deliveries
    ensures Inv(p, w1)
  {
    forall k | 0 <= k < |w1.leases|
      ensures LeaseOk(p, w1.t.Row(w1.leases[k].id), w1.leases[k], w1.issued, w1.now)
    {
      var l, l1 := w.leases[k], w1.leases[k];
      assert LeaseOk(p, w.t.Row(l.id), l, w.issued, w.now);
      UnclaimedKeepsTracked(w.t.Row(l.id), w1.t.Row(l.id), l, w.now);
      EvolvedKeepsTracked(w1.t.Row(l.id), l, l1, w.now);
    }
    forall j, k | 0 <= j < k < |w1.leases| ensures Ordered(w1.leases[j], w1.leases[k]) {
      assert Ordered(w.leases[j], w.leases[k]);
    }
  }

  /** Two claims of one delivery never both hold the row. */
  lemma OneHolder(p: Policy, w: World, j: nat, k: nat)
    requires Inv(p, w) && j < |w.leases| && k < |w.leases| && j != k
    requires w.leases[j].id == w.leases[k].id && w.leases[k].stage != Over
    requires Current(w.t.Row(w.leases[k].id), w.leases[k]) && Current(w.t.Row(w.leases[k].id), w.leases[j])
    ensures w.leases[j].stage == Over
    ensures w.leases[j].recorded || w.leases[j].copy.generation < w.t.Row(w.leases[k].id).value.generation
    ensures j < k
  {
    assert LeaseOk(p, w.t.Row(w.leases[k].id), w.leases[k], w.issued, w.now);
    assert LeaseOk(p, w.t.Row(w.leases[j].id), w.leases[j], w.issued, w.now);
    assert k < j ==> Ordered(w.leases[k], w.leases[j]);
    assert j < k ==> Ordered(w.leases[j], w.leases[k]);
  }

  /** The step ends claim k, and with it the row it holds. */
  ghost predicate Settles(w: World, w1: World, k: nat) {
    && k < |w.leases| && w.leases[k].stage != Over && Current(w.t.Row(w.leases[k].id), w.leases[k])
    && w1.now == w.now && w1.issued == w.issued
    && var l := w.leases[k];
       var r, r1 := w.t.Row(l.id), w1.t.Row(l.id);
       || (FailedEarly(r, r1, w.now) && w1.leases == w.leases[k := l.(stage := Over)])
       || (Completed(r, r1, w.now) && l.stage.Responded?
           && w1.leases == w.leases[k := l.(stage := Over, recorded := true)])
  }

  lemma SettledLease(p: Policy, w: World, w1: World, k: nat, j: nat)
    requires Inv(p, w) && Settles(w, w1, k) && j < |w.leases|
    requires forall i :: i != w.leases[k].id ==> w1.t.Row(i) == w.t.Row(i)
    ensures |w1.leases| == |w.leases| && LeaseOk(p, w1.t.Row(w1.leases[j].id), w1.leases[j], w1.issued, w1.now)
  {
    var id, l := w.leases[k].id, w.leases[j];
    assert LeaseOk(p, w.t.Row(id), w.leases[k], w.issued, w.now);
    assert LeaseOk(p, w.t.Row(l.id), l, w.issued, w.now);
    if l.id == id && j != k {
      if Current(w.t.Row(id), l) {
        OneHolder(p, w, j, k);
      }
      SettleKeepsTracked(w.t.Row(id), w1.t.Row(id), l, w.now);
    }
  }

  /** A worker settles the row its claim holds. */
  lemma SettleStep(p: Policy, w: World, w1: World, k: nat)
    requires Inv(p, w) && TableInv(w1.t, w1.now) && Settles(w, w1, k)
    requires forall i :: i != w.leases[k].id ==> w1.t.Row(i) == w.t.Row(i)
    ensures Inv(p, w1)
  {
    forall j | 0 <= j < |w1.leases|
      ensures LeaseOk(p, w1.t.Row(w1.leases[j].id), w1.leases[j], w1.issued, w1.now)
    {
      SettledLease(p, w, w1, k, j);
    }
    forall i, j | 0 <= i < j < |w1.leases| ensures Ordered(w1.leases[i], w1.leases[j]) {
      assert Ordered(w.leases[i], w.leases[j]);
      assert LeaseOk(p, w.t.Row(w.leases[j].id), w.leases[j], w.issued, w.now);
    }
    forall i | i in w1.t.deliveries ensures i in w1.issued {
      assert w1.t.Row(i).Some? && (i != w.leases[k].id ==> w.t.Row(i).Some?);
    }
  }
}
