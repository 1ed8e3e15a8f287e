/** What the invariant means for workers and for the attempt history, over every
    run. */
module FencingResults {
  import opened Clock
  import opened Results
  import opened Backoff
  import opened Tables
  import opened Transactions
  import opened Invariants
  import opened Protocol
  import opened Lifecycle
  import opened Fencing
  import opened Reachable

  lemma StartSatisfies(p: Policy, w: World)
    requires Start(w)
    ensures Inv(p, w)
  {
  }

  /** After any run, two unfinished claims of one delivery never both hold it. */
  lemma AtMostOneHolder(p: Policy, w0: World, steps: seq<Step>, j: nat, k: nat)
    requires Start(w0)
    requires var w := Run(p, w0, steps);
             && j < |w.leases| && k < |w.leases| && j != k && w.leases[j].id == w.leases[k].id
             && w.leases[j].stage != Over && w.leases[k].stage != Over
    ensures var w := Run(p, w0, steps);
            !(Current(w.t.Row(w.leases[k].id), w.leases[j]) && Current(w.t.Row(w.leases[k].id), w.leases[k]))
  {
    var w := Run(p, w0, steps);
    StartSatisfies(p, w0);
    RunKeepsInv(p, w0, steps);
    if Current(w.t.Row(w.leases[k].id), w.leases[j]) && Current(w.t.Row(w.leases[k].id), w.leases[k]) {
      OneHolder(p, w, j, k);
    }
  }

  /** An unfinished claim holds its row, unchanged since the claim, or is dead. */
  lemma HoldsOrDead(p: Policy, w: World, k: nat)
    requires Inv(p, w) && k < |w.leases| && w.leases[k].stage != Over
    ensures var l := w.leases[k];
            && l.copy.claimedAt.Some?
            && (Superseded(w.t.Row(l.id), l, w.now) <==> !Current(w.t.Row(l.id), l))
            && (Current(w.t.Row(l.id), l) ==> w.t.Row(l.id) == Some(l.copy))
  {
    assert LeaseOk(p, w.t.Row(w.leases[k].id), w.leases[k], w.issued, w.now);
  }

  // ---- A dead claim stays dead and does nothing ----

  lemma SupersededMove(r: Option<Delivery>, r1: Option<Delivery>, l: Lease, now: Time)
    requires l.copy.claimedAt.Some? && Superseded(r, l, now) && ClaimedAt(l) <= now
    requires RowStep(r, r1, now) && (r.None? ==> r1.None?)
    ensures Superseded(r1, l, now)
  {
  }

  lemma FinishMoves(p: Policy, w: World, k: nat, i: DeliveryId)
    requires Inv(p, w)
    ensures RowStep(w.t.Row(i), Work(p, w, Finish(k)).t.Row(i), w.now)
    ensures i !in w.t.deliveries ==> i !in Work(p, w, Finish(k)).t.deliveries
  {
    if k < |w.leases| && w.leases[k].stage.Responded? {
      var l := w.leases[k];
      assert LeaseOk(p, w.t.Row(l.id), l, w.issued, w.now);
      if CompleteDelivery(w.t, l.id, l.stage.done, l.stage.attempt, w.now).Ok? {
        CompletionMoves(w.t, l.id, l.stage.done, l.stage.attempt, w.now);
      }
    }
  }

  lemma FailMoves(p: Policy, w: World, k: nat, i: DeliveryId)
    ensures var r, r1 := w.t.Row(i), Work(p, w, FailLease(k)).t.Row(i);
            r1 == r || FailedEarly(r, r1, w.now)
  {
  }

  lemma ClaimStepMoves(w: World, limit: int, i: DeliveryId)
    ensures var r, r1 := w.t.Row(i), Serve(w, Claim(limit)).t.Row(i);
            r1 == r || Claimed(r, r1, w.now)
  {
    ClaimedAreRows(w.t, limit, w.now);
    ClaimMoves(w.t, limit, w.now, i);
  }

  /** Every step moves every row along an edge of the transition graph, and never
      brings a row back. */
  lemma TransitionGraph(p: Policy, w: World, s: Step, i: DeliveryId)
    requires Inv(p, w)
    ensures RowStep(w.t.Row(i), Apply(p, w, s).t.Row(i), w.now)
    ensures !s.Finish? ==> var r, r1 := w.t.Row(i), Apply(p, w, s).t.Row(i);
                           Unclaimed(r, r1, w.now) || Claimed(r, r1, w.now) || FailedEarly(r, r1, w.now)
    ensures i in w.issued && i !in w.t.deliveries ==> i !in Apply(p, w, s).t.deliveries
  {
    match s
    case Claim(limit) => ClaimStepMoves(w, limit, i);
    case FailLease(k) => FailMoves(p, w, k, i);
    case Finish(k) => FinishMoves(p, w, k, i);
    case Tick(to) =>
    case _ =>
      UnclaimedSteps(p, w, s, i);
      IssuedKept(p, w, s, i);
  }

  /** Only an enqueue inserts rows, under the IDs of its plan. */
  lemma InsertedByEnqueue(p: Policy, w: World, s: Step, i: DeliveryId)
    requires Inv(p, w) && i !in w.t.deliveries && i in Apply(p, w, s).t.deliveries
    ensures s.Enqueue? && i in s.plan
    ensures Apply(p, w, s).t.deliveries[i].nextAttemptAt == Some(s.createdAt)
    ensures Apply(p, w, s).t.deliveries[i].createdAt == s.createdAt
  {
    if s.Enqueue? {
      if s.createdAt <= w.now && FreshPlan(w.t, s.ty, s.plan, w.issued) {
        EnqueueMoves(w.t, Broker(s.message), s.createdAt, s.plan, w.issued, w.now, i);
      }
    } else if s.Purge? {
      DeleteMoves(w.t, s.deletion, BatchSize(s.batch), w.now, i);
    } else {
      NothingInserted(p, w, s, i);
    }
  }

  /** Claims are never forgotten; tables and clock move on. */
  lemma LeaseKept(p: Policy, w: World, s: Step, k: nat)
    requires k < |w.leases|
    ensures var w1 := Apply(p, w, s);
            && k < |w1.leases| && w1.leases[k].id == w.leases[k].id && w1.leases[k].copy == w.leases[k].copy
            && w.now <= w1.now
  {
    if s.Claim? {
      ClaimedAreRows(w.t, s.limit, w.now);
    }
  }

  lemma SupersededStep(p: Policy, w: World, s: Step, k: nat)
    requires Inv(p, w) && k < |w.leases| && w.leases[k].copy.claimedAt.Some?
    requires Superseded(w.t.Row(w.leases[k].id), w.leases[k], w.now)
    ensures var w1 := Apply(p, w, s);
            && k < |w1.leases| && w1.leases[k].id == w.leases[k].id && w1.leases[k].copy == w.leases[k].copy
            && Superseded(w1.t.Row(w.leases[k].id), w1.leases[k], w1.now)
  {
    var w1 := Apply(p, w, s);
    var l := w.leases[k];
    assert LeaseOk(p, w.t.Row(l.id), l, w.issued, w.now);
    LeaseKept(p, w, s, k);
    TransitionGraph(p, w, s, l.id);
    SupersededMove(w.t.Row(l.id), w1.t.Row(l.id), l, w.now);
  }

  /** A superseded claim changes no table: neither its completion nor its failure
      is applied. */
  lemma SupersededIsFenced(p: Policy, w: World, k: nat)
    requires k < |w.leases| && w.leases[k].copy.claimedAt.Some?
    requires Inv(p, w) && Superseded(w.t.Row(w.leases[k].id), w.leases[k], w.now)
    ensures Work(p, w, Finish(k)).t == w.t && Work(p, w, FailLease(k)).t == w.t
  {
    var l := w.leases[k];
    assert LeaseOk(p, w.t.Row(l.id), l, w.issued, w.now);
    assert !Current(w.t.Row(l.id), l);
  }

  /** Fencing over whole runs: once superseded, a claim is superseded, and fenced
      off from every table, after any further steps. */
  lemma {:induction false} SupersededForever(p: Policy, w: World, steps: seq<Step>, k: nat)
    requires Inv(p, w) && k < |w.leases| && w.leases[k].copy.claimedAt.Some?
    requires Superseded(w.t.Row(w.leases[k].id), w.leases[k], w.now)
    ensures var w1 := Run(p, w, steps);
            && Inv(p, w1) && k < |w1.leases| && w1.leases[k].copy == w.leases[k].copy
            && Superseded(w1.t.Row(w1.leases[k].id), w1.leases[k], w1.now)
            && Apply(p, w1, Finish(k)).t == w1.t && Apply(p, w1, FailLease(k)).t == w1.t
    decreases |steps|
  {
    if steps == [] {
      SupersededIsFenced(p, w, k);
    } else {
      StepKeepsInv(p, w, steps[0]);
      SupersededStep(p, w, steps[0], k);
      SupersededForever(p, Apply(p, w, steps[0]), steps[1..], k);
    }
  }

  // ---- Cancelling is not fenced ----

  /** The step cancels delivery i, and leaves its config live. */
  ghost predicate CancelledOnLive(t: Tables, t1: Tables, i: DeliveryId) {
    && i in t1.deliveries && t1.deliveries[i].status == Cancelled
    && !(i in t.deliveries && t.deliveries[i].status == Cancelled)
    && t1.LiveConfig(t1.deliveries[i].config)
  }

  /** A worker that once found no live config for delivery i now cancels it. */
  ghost predicate CancelsLate(w: World, s: Step, i: DeliveryId) {
    && s.CancelLease? && At(w, s.k, Doomed) && w.leases[s.k].id == i
    && i in w.t.deliveries && w.t.deliveries[i].status in {Pending, Delivering}
    && w.t.LiveConfig(w.t.deliveries[i].config)
  }

  lemma ConfigStepCancels(p: Policy, w: World, s: Step, i: DeliveryId)
    requires s.SetActive? || s.DropConfig?
    ensures !CancelledOnLive(w.t, Serve(w, s).t, i)
  {
  }

  lemma FinishCancelsNone(p: Policy, w: World, k: nat, i: DeliveryId)
    requires Inv(p, w)
    ensures !CancelledOnLive(w.t, Work(p, w, Finish(k)).t, i)
  {
    if k < |w.leases| {
      assert LeaseOk(p, w.t.Row(w.leases[k].id), w.leases[k], w.issued, w.now);
    }
  }

  lemma FailCancelsNone(p: Policy, w: World, k: nat, i: DeliveryId)
    ensures !CancelledOnLive(w.t, Work(p, w, FailLease(k)).t, i)
  {
    FailMoves(p, w, k, i);
  }

  lemma WorkerStepCancels(p: Policy, w: World, s: Step, i: DeliveryId)
    requires Inv(p, w) && (s.CancelLease? || s.FailLease? || s.Finish?)
    ensures CancelledOnLive(w.t, Work(p, w, s).t, i) <==> CancelsLate(w, s, i)
  {
    match s
    case Finish(k) => FinishCancelsNone(p, w, k, i);
    case FailLease(k) => FailCancelsNone(p, w, k, i);
    case CancelLease(k) =>
  }

  lemma OtherStepCancels(p: Policy, w: World, s: Step, i: DeliveryId)
    requires Inv(p, w)
    requires !s.SetActive? && !s.DropConfig? && !s.CancelLease? && !s.FailLease? && !s.Finish? && !s.Recover?
    ensures !CancelledOnLive(w.t, Apply(p, w, s).t, i)
  {
    if OfWorker(s) {
      assert Work(p, w, s).t == w.t;
    } else {
      ServingCancelsNone(p, w, s, i);
    }
  }

  lemma ServingCancelsNone(p: Policy, w: World, s: Step, i: DeliveryId)
    requires Inv(p, w) && !OfWorker(s) && !s.SetActive? && !s.DropConfig? && !s.Recover?
    ensures !CancelledOnLive(w.t, Serve(w, s).t, i)
  {
    match s
    case Claim(limit) => ClaimMoves(w.t, limit, w.now, i);
    case Enqueue(message, ty, createdAt, plan) =>
      if createdAt <= w.now && FreshPlan(w.t, ty, plan, w.issued) {
        EnqueueMoves(w.t, Broker(message), createdAt, plan, w.issued, w.now, i);
      }
    case ReplayBulk(request, key) => BulkCancelsNone(p, w, s, i);
    case Purge(deletion, batch) => DeleteMoves(w.t, deletion, BatchSize(batch), w.now, i);
    case _ =>
  }

  lemma BulkCancelsNone(p: Policy, w: World, s: Step, i: DeliveryId)
    requires s.ReplayBulk?
    ensures !CancelledOnLive(w.t, Serve(w, s).t, i)
  {
  }

  /** CancelDelivery has no fence. A step cancels a delivery and leaves its config
      live if and only if it is the late cancellation of a worker that had found the
      config dead, whether that worker still holds its claim, another does, or the
      row waits. */
  lemma CancelIsNotFenced(p: Policy, w: World, s: Step, i: DeliveryId)
    requires Inv(p, w)
    ensures CancelledOnLive(w.t, Apply(p, w, s).t, i) <==> CancelsLate(w, s, i)
  {
    if s.SetActive? || s.DropConfig? {
      ConfigStepCancels(p, w, s, i);
    } else if s.CancelLease? || s.FailLease? || s.Finish? {
      WorkerStepCancels(p, w, s, i);
    } else if !s.Recover? {
      OtherStepCancels(p, w, s, i);
    }
  }

  // ---- Claims of one delivery in time ----

  /** After any run, an unfinished claim is more than the recovery age older than
      the next claim of its delivery, of whatever generation. */
  lemma UnfinishedClaimsAreApart(p: Policy, w0: World, steps: seq<Step>, j: nat, k: nat)
    requires Start(w0)
    requires var w := Run(p, w0, steps);
             j < k < |w.leases| && w.leases[j].id == w.leases[k].id && w.leases[j].stage != Over
    ensures var w := Run(p, w0, steps);
            && w.leases[j].copy.claimedAt.Some? && w.leases[k].copy.claimedAt.Some?
            && ClaimedAt(w.leases[j]) + STALE < ClaimedAt(w.leases[k]) <= w.now
  {
    StartSatisfies(p, w0);
    RunKeepsInv(p, w0, steps);
    Apart(p, Run(p, w0, steps), j, k);
  }

  lemma Apart(p: Policy, w: World, j: nat, k: nat)
    requires Inv(p, w) && j < k < |w.leases| && w.leases[j].id == w.leases[k].id && w.leases[j].stage != Over
    ensures w.leases[j].copy.claimedAt.Some? && w.leases[k].copy.claimedAt.Some?
    ensures ClaimedAt(w.leases[j]) + STALE < ClaimedAt(w.leases[k]) <= w.now
  {
    assert Ordered(w.leases[j], w.leases[k]);
    assert LeaseOk(p, w.t.Row(w.leases[j].id), w.leases[j], w.issued, w.now);
    assert LeaseOk(p, w.t.Row(w.leases[k].id), w.leases[k], w.issued, w.now);
  }

  /** No worker is busy with delivery i for longer than the recovery age. */
  ghost predicate WorkersInTime(w: World, i: DeliveryId) {
    forall k :: 0 <= k < |w.leases| && w.leases[k].id == i && w.leases[k].stage != Over ==>
      w.leases[k].copy.claimedAt.Some? && w.now <= ClaimedAt(w.leases[k]) + STALE
  }

  /** So in normal operation active requests are not reclaimed: the workers of a
      delivery that all settle in time are never two at once. */
  lemma OneWorkerAtATime(p: Policy, w0: World, steps: seq<Step>, i: DeliveryId, j: nat, k: nat)
    requires Start(w0) && WorkersInTime(Run(p, w0, steps), i)
    requires var w := Run(p, w0, steps);
             && j < |w.leases| && k < |w.leases| && w.leases[j].id == i && w.leases[k].id == i
             && w.leases[j].stage != Over && w.leases[k].stage != Over
    ensures j == k
  {
    if j < k {
      UnfinishedClaimsAreApart(p, w0, steps, j, k);
    } else if k < j {
      UnfinishedClaimsAreApart(p, w0, steps, k, j);
    }
  }

  // ---- The attempt history ----

  /** A worker that answers in time always gets its attempt recorded, under the
      next number of the current generation. */
  lemma HolderRecords(p: Policy, w: World, k: nat)
    requires Inv(p, w) && k < |w.leases| && w.leases[k].stage.Responded?
    requires Current(w.t.Row(w.leases[k].id), w.leases[k])
    ensures var w1 := Work(p, w, Finish(k));
            var l := w.leases[k];
            var d := w.t.deliveries[l.id];
            var key := AttemptKey(l.id, d.generation, d.attemptCount + 1);
            && key !in w.t.attempts
            && w1.t.attempts == w.t.attempts[key := l.stage.attempt]
            && Completed(w.t.Row(l.id), w1.t.Row(l.id), w.now)
            && w1.leases[k].recorded
  {
    var l := w.leases[k];
    assert LeaseOk(p, w.t.Row(l.id), l, w.issued, w.now);
    CompleteKeeps(w.t, l.id, l.stage.done, l.stage.attempt, w.now);
    CompletionMoves(w.t, l.id, l.stage.done, l.stage.attempt, w.now);
  }

  /** No step rewrites an attempt; attempts leave only with their delivery, and a
      new one carries the next number of its delivery's current generation. */
  lemma AttemptsAppendOnly(p: Policy, w: World, s: Step, key: AttemptKey)
    requires Inv(p, w)
    ensures var t, t1 := w.t, Apply(p, w, s).t;
            && (key in t.attempts && key.delivery in t1.deliveries ==> key in t1.attempts && t1.attempts[key] == t.attempts[key])
            && (key in t1.attempts && key !in t.attempts ==>
                  && s.Finish? && key.delivery in t.deliveries
                  && key.generation == t.deliveries[key.delivery].generation
                  && key.number == t.deliveries[key.delivery].attemptCount + 1)
  {
    if s.Finish? {
      FinishAppends(p, w, s.k, key);
    } else if s.Purge? {
      PurgedTables(w, s);
      PurgedAttempts(w.t, s.deletion, BatchSize(s.batch), w.now, key);
    } else if OfWorker(s) {
      WorkAttempts(p, w, s);
    } else {
      OtherAttempts(w, s);
    }
  }

  lemma WorkAttempts(p: Policy, w: World, s: Step)
    requires !s.Finish?
    ensures Work(p, w, s).t.attempts == w.t.attempts
  {
  }

  lemma OtherAttempts(w: World, s: Step)
    requires !OfWorker(s) && !s.Purge?
    ensures Serve(w, s).t.attempts == w.t.attempts
  {
  }

  lemma FinishAppends(p: Policy, w: World, k: nat, key: AttemptKey)
    requires Inv(p, w)
    ensures var t, t1 := w.t, Work(p, w, Finish(k)).t;
            && (key in t.attempts ==> key in t1.attempts && t1.attempts[key] == t.attempts[key])
            && (key in t1.attempts && key !in t.attempts ==>
                  && key.delivery in t.deliveries
                  && key.generation == t.deliveries[key.delivery].generation
                  && key.number == t.deliveries[key.delivery].attemptCount + 1)
  {
    if k < |w.leases| && w.leases[k].stage.Responded? {
      assert LeaseOk(p, w.t.Row(w.leases[k].id), w.leases[k], w.issued, w.now);
      if Current(w.t.Row(w.leases[k].id), w.leases[k]) {
        HolderRecords(p, w, k);
      }
    }
  }

  lemma PurgedAttempts(t: Tables, d: Deletion, batch: nat, now: Time, key: AttemptKey)
    requires TableInv(t, now)
    ensures var t1 := Delete(t, d, batch, now);
            && (key in t.attempts && key.delivery in t1.deliveries ==> key in t1.attempts && t1.attempts[key] == t.attempts[key])
            && (key in t1.attempts ==> key in t.attempts)
  {
    if d.OldRows? {
      PurgeClassRows(t, ClassStatuses(d.succeeded), d.age, batch, now);
    }
  }

  /** In every reachable world each generation's attempts are numbered 1 .. n
      without a gap, n being the attempt count for the current one. */
  lemma HistoryIsGapless(p: Policy, w0: World, steps: seq<Step>, i: DeliveryId, g: nat)
    requires Start(w0)
    ensures var t := Run(p, w0, steps).t;
            && Gapless(t, i, g)
            && (i in t.deliveries ==> Numbered(t, i, t.deliveries[i].generation, t.deliveries[i].attemptCount))
  {
    StartSatisfies(p, w0);
    RunKeepsInv(p, w0, steps);
    var t := Run(p, w0, steps).t;
    var n := GenerationLength(t, i, g, 0, {});
    assert Numbered(t, i, g, n);
  }

  ghost predicate Gapless(t: Tables, i: DeliveryId, g: nat) {
    exists n: nat :: Numbered(t, i, g, n)
  }

  ghost predicate Numbered(t: Tables, i: DeliveryId, g: nat, n: nat) {
    forall m: nat :: AttemptKey(i, g, m) in t.attempts <==> 1 <= m <= n
  }

  lemma {:induction false} GenerationLength(t: Tables, i: DeliveryId, g: nat, n: nat, found: set<AttemptKey>)
    returns (len: nat)
    requires PastNumbering(t) && found <= t.attempts.Keys
    requires forall m: nat :: 1 <= m <= n ==> AttemptKey(i, g, m) in t.attempts
    requires forall k :: k in found ==> k.number <= n
    ensures Numbered(t, i, g, len)
    decreases t.attempts.Keys - found
  {
    var next := AttemptKey(i, g, n + 1);
    if next in t.attempts {
      len := GenerationLength(t, i, g, n + 1, found + {next});
    } else {
      len := n;
      forall m: nat ensures n < m ==> AttemptKey(i, g, m) !in t.attempts {
        var k := AttemptKey(i, g, m);
        assert next == AttemptKey(k.delivery, k.generation, n + 1);
      }
    }
  }
}
