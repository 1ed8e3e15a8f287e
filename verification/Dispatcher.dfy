/** The dispatcher (pkg/worker/delivery_worker.go): dispatchOne as the worker runs
    it, proved to be the sequence of protocol steps the state machine interleaves. */
module Dispatching {
  import opened Clock
  import opened Results
  import opened Backoff
  import opened Tables
  import A = Attempt
  import T = Transactions
  import opened Protocol
  import opened PostgresStore

  /** The worker looks the config up at once and checks the limits at t1. Steps it
      does not get to leave the world alone. */
  ghost function Checked(p: Policy, w: World, k: nat, t1: Time): World {
    var looked := Apply(p, Apply(p, w, Lookup(k)), CancelLease(k));
    Apply(p, Apply(p, Apply(p, looked, Tick(t1)), Preflight(k)), FailLease(k))
  }

  /** The endpoint answers at t2 and the completion commits at t3. */
  ghost function Settled(p: Policy, w: World, k: nat, http: A.HttpResult, t2: Time, t3: Time): World {
    var answered := Apply(p, Apply(p, w, Tick(t2)), Respond(k, http));
    Apply(p, Apply(p, answered, Tick(t3)), Finish(k))
  }

  /** dispatchOne, uninterrupted. */
  ghost function Dispatched(p: Policy, w: World, k: nat, http: A.HttpResult, t1: Time, t2: Time, t3: Time): World {
    Settled(p, Checked(p, w, k, t1), k, http, t2, t3)
  }

  function CheckSteps(k: nat, t1: Time): seq<Step> {
    [Lookup(k), CancelLease(k)] + ([Tick(t1), Preflight(k)] + [FailLease(k)])
  }

  function SettleSteps(k: nat, http: A.HttpResult, t2: Time, t3: Time): seq<Step> {
    [Tick(t2), Respond(k, http)] + [Tick(t3), Finish(k)]
  }

  /** It is one of the runs. */
  lemma DispatchedIsRun(p: Policy, w: World, k: nat, http: A.HttpResult, t1: Time, t2: Time, t3: Time)
    ensures Dispatched(p, w, k, http, t1, t2, t3) == Run(p, w, CheckSteps(k, t1) + SettleSteps(k, http, t2, t3))
  {
    CheckedIsRun(p, w, k, t1);
    SettledIsRun(p, Checked(p, w, k, t1), k, http, t2, t3);
    RunAppend(p, w, CheckSteps(k, t1), SettleSteps(k, http, t2, t3));
  }

  lemma CheckedIsRun(p: Policy, w: World, k: nat, t1: Time)
    ensures Checked(p, w, k, t1) == Run(p, w, CheckSteps(k, t1))
  {
    var looked := Apply(p, Apply(p, w, Lookup(k)), CancelLease(k));
    var passed := Apply(p, Apply(p, looked, Tick(t1)), Preflight(k));
    TwoSteps(p, w, Lookup(k), CancelLease(k), [Tick(t1), Preflight(k)] + [FailLease(k)]);
    TwoSteps(p, looked, Tick(t1), Preflight(k), [FailLease(k)]);
    RunOfOne(p, passed, FailLease(k));
  }

  lemma SettledIsRun(p: Policy, w: World, k: nat, http: A.HttpResult, t2: Time, t3: Time)
    ensures Settled(p, w, k, http, t2, t3) == Run(p, w, SettleSteps(k, http, t2, t3))
  {
    var answered := Apply(p, Apply(p, w, Tick(t2)), Respond(k, http));
    TwoSteps(p, w, Tick(t2), Respond(k, http), [Tick(t3), Finish(k)]);
    RunThrough(p, answered, Tick(t3), Apply(p, answered, Tick(t3)), Finish(k), Settled(p, w, k, http, t2, t3));
  }

  // ---- The three ways through dispatchOne ----

  function OrSame(r: Result<Tables, StoreError>, t: Tables): Tables {
    if r.Ok? then r.value else t
  }

  /** A worker that is done does nothing more. */
  predicate Idle(w: World, k: nat) {
    At(w, k, Over)
  }

  lemma IdleStaysIdle(p: Policy, w: World, k: nat, http: A.HttpResult, t2: Time, t3: Time)
    requires Idle(w, k)
    ensures Settled(p, w, k, http, t2, t3).t == w.t
  {
    var a := Apply(p, Apply(p, w, Tick(t2)), Respond(k, http));
    assert a.t == w.t && Idle(a, k);
    var b := Apply(p, a, Tick(t3));
    assert b.t == w.t && Idle(b, k);
  }

  lemma DeadConfig(p: Policy, w: World, k: nat, http: A.HttpResult, t1: Time, t2: Time, t3: Time)
    requires At(w, k, Fresh) && !w.t.LiveConfig(w.leases[k].copy.config)
    ensures Dispatched(p, w, k, http, t1, t2, t3).t == OrSame(T.CancelDelivery(w.t, w.leases[k].id, w.now), w.t)
  {
    DeadConfigSeen(p, w, k, t1);
    IdleStaysIdle(p, Checked(p, w, k, t1), k, http, t2, t3);
  }

  lemma DeadConfigSeen(p: Policy, w: World, k: nat, t1: Time)
    requires At(w, k, Fresh) && !w.t.LiveConfig(w.leases[k].copy.config)
    ensures var c := Checked(p, w, k, t1);
            Idle(c, k) && c.t == OrSame(T.CancelDelivery(w.t, w.leases[k].id, w.now), w.t)
  {
    var seen := Apply(p, w, Lookup(k));
    assert seen.t == w.t && At(seen, k, Doomed) && seen.now == w.now && seen.leases[k].id == w.leases[k].id;
    var looked := Apply(p, seen, CancelLease(k));
    assert Idle(looked, k);
    var c := Apply(p, looked, Tick(t1));
    var d := Apply(p, c, Preflight(k));
    assert d.t == looked.t && Idle(d, k);
  }

  /** The world in which the preflight runs. */
  lemma LiveConfigSeen(p: Policy, w: World, k: nat, t1: Time)
    requires At(w, k, Fresh) && w.t.LiveConfig(w.leases[k].copy.config) && w.now <= t1
    ensures var c := Apply(p, Apply(p, Apply(p, w, Lookup(k)), CancelLease(k)), Tick(t1));
            && c.t == w.t && c.now == t1 && At(c, k, Resolved)
            && c.leases[k].id == w.leases[k].id && c.leases[k].copy == w.leases[k].copy
  {
    var seen := Apply(p, w, Lookup(k));
    assert At(seen, k, Resolved);
    var looked := Apply(p, seen, CancelLease(k));
    assert looked == seen;
  }

  lemma PreflightFails(p: Policy, w: World, k: nat, http: A.HttpResult, t1: Time, t2: Time, t3: Time)
    requires At(w, k, Fresh) && w.t.LiveConfig(w.leases[k].copy.config) && w.now <= t1
    requires !PreflightPasses(p, w.leases[k].copy, t1)
    ensures var l := w.leases[k];
            Dispatched(p, w, k, http, t1, t2, t3).t ==
              if l.copy.claimedAt.None? then w.t
              else OrSame(T.FailClaimedDelivery(w.t, l.id, l.copy.claimedAt.value, t1), w.t)
  {
    ClaimFails(p, w, k, t1);
    IdleStaysIdle(p, Checked(p, w, k, t1), k, http, t2, t3);
  }

  lemma ClaimFails(p: Policy, w: World, k: nat, t1: Time)
    requires At(w, k, Fresh) && w.t.LiveConfig(w.leases[k].copy.config) && w.now <= t1
    requires !PreflightPasses(p, w.leases[k].copy, t1)
    ensures var l, e := w.leases[k], Checked(p, w, k, t1);
            && Idle(e, k)
            && e.t == if l.copy.claimedAt.None? then w.t
                      else OrSame(T.FailClaimedDelivery(w.t, l.id, l.copy.claimedAt.value, t1), w.t)
  {
    LiveConfigSeen(p, w, k, t1);
    var c := Apply(p, Apply(p, Apply(p, w, Lookup(k)), CancelLease(k)), Tick(t1));
    var d := Apply(p, c, Preflight(k));
    assert d.t == w.t && d.now == t1 && At(d, k, Refused)
           && d.leases[k].id == w.leases[k].id && d.leases[k].copy == w.leases[k].copy;
  }

  lemma CallStarts(p: Policy, c: World, k: nat)
    requires At(c, k, Resolved) && PreflightPasses(p, c.leases[k].copy, c.now)
    ensures var e := Apply(p, Apply(p, c, Preflight(k)), FailLease(k));
            && e.t == c.t && e.now == c.now && At(e, k, Calling) && e.leases[k].calledAt == Some(c.now)
            && e.leases[k].id == c.leases[k].id && e.leases[k].copy == c.leases[k].copy
  {
    var d := Apply(p, c, Preflight(k));
    assert At(d, k, Calling);
    assert Apply(p, d, FailLease(k)) == d;
  }

  lemma CallAnswered(p: Policy, e: World, k: nat, http: A.HttpResult, t2: Time, t3: Time)
    requires At(e, k, Calling) && e.now <= t2 <= t3
    ensures var l := e.leases[k];
            var h := Apply(p, Apply(p, Apply(p, e, Tick(t2)), Respond(k, http)), Tick(t3));
            && h.t == e.t && h.now == t3 && k < |h.leases| && h.leases[k].id == l.id
            && h.leases[k].stage == Answered(p, l.copy, l.calledAt, http, t2)
  {
    var f := Apply(p, e, Tick(t2));
    assert f == e.(now := t2);
    var g := Apply(p, f, Respond(k, http));
    assert g.t == e.t && g.now == t2;
  }

  lemma CallSettled(p: Policy, e: World, k: nat, http: A.HttpResult, t2: Time, t3: Time)
    requires At(e, k, Calling) && e.now <= t2 <= t3
    ensures var l := e.leases[k];
            var a := Answered(p, l.copy, l.calledAt, http, t2);
            && a.Responded?
            && Settled(p, e, k, http, t2, t3).t ==
                 match T.CompleteDelivery(e.t, l.id, a.done, a.attempt, t3)
                 case Ok(c) => c.tables
                 case Err(_) => e.t
  {
    CallAnswered(p, e, k, http, t2, t3);
  }

  lemma CallMade(p: Policy, w: World, k: nat, http: A.HttpResult, t1: Time, t2: Time, t3: Time)
    requires At(w, k, Fresh) && w.t.LiveConfig(w.leases[k].copy.config) && w.now <= t1 <= t2 <= t3
    requires PreflightPasses(p, w.leases[k].copy, t1)
    ensures var l := w.leases[k];
            var a := Answered(p, l.copy, Some(t1), http, t2);
            && a.Responded?
            && Dispatched(p, w, k, http, t1, t2, t3).t ==
                 match T.CompleteDelivery(w.t, l.id, a.done, a.attempt, t3)
                 case Ok(c) => c.tables
                 case Err(_) => w.t
  {
    LiveConfigSeen(p, w, k, t1);
    CallStarts(p, Apply(p, Apply(p, Apply(p, w, Lookup(k)), CancelLease(k)), Tick(t1)), k);
    CallSettled(p, Checked(p, w, k, t1), k, http, t2, t3);
  }

  class Dispatcher {
    const store: Store
    const policy: Policy

    constructor (store: Store, policy: Policy)
      ensures this.store == store && this.policy == policy
    {
      this.store := store;
      this.policy := policy;
    }

    /** limitRetryWindowBeforeAttempt. */
    predicate WindowOpen(firstAttemptAt: Time, now: Time) {
      A.WindowAllows(policy, Some(firstAttemptAt), now)
    }

    /** The limits checked before the call. */
    method Check(delivery: Delivery, now: Time) returns (pass: bool)
      ensures pass == PreflightPasses(policy, delivery, now)
    {
      pass := true;
      if delivery.attemptCount > 0 {
        pass := policy.CanRetryAttempt(delivery.attemptCount);
      }
      if pass && delivery.cycleStartedAt.Some? {
        pass := WindowOpen(delivery.cycleStartedAt.value, now);
      }
    }

    /** The call and what it makes of the delivery. */
    method Call(claimed: Delivery, http: A.HttpResult, t1: Time, t2: Time) returns (delivery: Delivery, attempt: AttemptRow)
      ensures Answered(policy, claimed, Some(t1), http, t2) == Responded(delivery, attempt)
    {
      delivery := claimed;
      if delivery.cycleStartedAt.None? {
        delivery := delivery.(cycleStartedAt := Some(t1));
      }
      var result := A.ClassifyResponse(policy, delivery.attemptCount, t2, delivery.cycleStartedAt, http);
      delivery := delivery.(attemptCount := delivery.attemptCount + 1, lastAttemptAt := Some(t2));
      if result.code == 0 {
        delivery := delivery.(lastStatusCode := None);
      } else {
        delivery := delivery.(lastStatusCode := Some(result.code));
      }
      delivery := delivery.(nextAttemptAt := None);
      var outcome := PermanentFailure;
      match result.status {
        case Success =>
          delivery := delivery.(status := Succeeded);
          outcome := DeliverySucceeded;
        case ToRetry =>
          delivery := delivery.(status := Pending, nextAttemptAt := result.nextRetryAfter);
          outcome := RetryableFailure;
        case Failed =>
          delivery := delivery.(status := Status.Failed);
      }
      attempt := AttemptRow(outcome, result.code, t2);
    }

    /** The worker's run of one claim is the protocol's: lookup at now, preflight at
        t1, answer at t2, completion at t3. */
    method DispatchOne(id: DeliveryId, claimed: Delivery, http: A.HttpResult, now: Time, t1: Time, t2: Time, t3: Time,
                       ghost w: World, ghost k: nat)
      requires now <= t1 <= t2 <= t3
      requires w.t == store.Contents() && w.now == now
      requires At(w, k, Fresh) && w.leases[k].id == id && w.leases[k].copy == claimed
      modifies store
      ensures store.Contents() == Dispatched(policy, w, k, http, t1, t2, t3).t
    {
      if !store.Contents().LiveConfig(claimed.config) {
        DeadConfig(policy, w, k, http, t1, t2, t3);
        var _ := store.CancelDelivery(id, now);
        return;
      }
      var pass := Check(claimed, t1);
      if !pass {
        PreflightFails(policy, w, k, http, t1, t2, t3);
        if claimed.claimedAt.Some? {
          var _ := store.FailClaimedDelivery(id, claimed.claimedAt.value, t1);
        }
        return;
      }
      var delivery, attempt := Call(claimed, http, t1, t2);
      CallMade(policy, w, k, http, t1, t2, t3);
      var _ := store.CompleteDelivery(id, delivery, attempt, t3);
    }
  }
}
