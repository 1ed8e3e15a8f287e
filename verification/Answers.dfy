/** What the endpoint's answer does to the delivery, from the worker's claim to the
    tables its completion leaves. */
module Answers {
  import opened Clock
  import opened Int64
  import opened Results
  import opened Backoff
  import opened Tables
  import opened Transactions
  import A = Attempt
  import opened Effects
  import opened Invariants
  import opened Protocol
  import opened Fencing
  import opened FencingResults
  import opened Dispatching

  /** The limits before a call: once there has been an attempt, its number is under the
      cap; and the cycle began at most abort ago. */
  lemma PreflightIff(p: Policy, d: Delivery, now: Time)
    requires p.abort < MAX
    ensures PreflightPasses(p, d, now)
            <==> && (d.attemptCount == 0 || p.maxAttempts <= 0 || d.attemptCount < p.maxAttempts)
                 && (d.cycleStartedAt.None? || now - d.cycleStartedAt.value <= p.abort)
  {
  }

  /** The answer is a success. */
  predicate Delivered(http: A.HttpResult) {
    http.Response? && 200 <= http.code < 300
  }

  /** The answer may change, and one more attempt fits the cap, the nominal budget and
      the real window. */
  predicate WorthRetrying(p: Policy, d: Delivery, http: A.HttpResult, now: Time) {
    var wait := A.RequestedWait(p, d.attemptCount, now, http);
    && A.Retryable(http) && A.BudgetAllows(p, d.attemptCount, wait)
    && (d.cycleStartedAt.Some? ==> now + wait - d.cycleStartedAt.value <= p.abort)
  }

  /** What the worker hands over: one attempt more than claimed, and the answer's time
      and code. */
  predicate OneMoreAttempt(d: Delivery, done: Delivery, a: AttemptRow, http: A.HttpResult, now: Time) {
    && done == d.(status := done.status, nextAttemptAt := done.nextAttemptAt, attemptCount := d.attemptCount + 1,
                  lastAttemptAt := Some(now),
                  lastStatusCode := if http.Response? && http.code != 0 then Some(http.code) else None)
    && a == AttemptRow(a.outcome, if http.Response? then http.code else 0, now)
  }

  /** A success is recorded as one, an answer worth retrying waits exactly as long as the
      policy and the endpoint ask, and any other is a permanent failure. */
  lemma AnswerColumns(p: Policy, d: Delivery, calledAt: Time, http: A.HttpResult, now: Time)
    requires p.Sane() && p.Room(d.attemptCount) && d.cycleStartedAt.Some?
    ensures Answered(p, d, Some(calledAt), http, now).Responded?
    ensures var done, a := Answered(p, d, Some(calledAt), http, now).done, Answered(p, d, Some(calledAt), http, now).attempt;
            && OneMoreAttempt(d, done, a, http, now)
            && (if Delivered(http) then
                  done.status == Succeeded && a.outcome == DeliverySucceeded && done.nextAttemptAt == None
                else if WorthRetrying(p, d, http, now) then
                  && done.status == Pending && a.outcome == RetryableFailure
                  && done.nextAttemptAt == Some(now + A.RequestedWait(p, d.attemptCount, now, http))
                else
                  done.status == Status.Failed && a.outcome == PermanentFailure && done.nextAttemptAt == None)
  {
    A.RetryEnvelope(p, d.attemptCount, now, d.cycleStartedAt, http);
  }

  /** The claim a worker starts from: it holds its row, and the config is live. */
  ghost predicate Ready(p: Policy, w: World, k: nat, t1: Time) {
    && Inv(p, w) && At(w, k, Fresh) && Current(w.t.Row(w.leases[k].id), w.leases[k])
    && w.now <= t1 && PreflightPasses(p, w.leases[k].copy, t1)
    && var c := w.leases[k].copy.config;
       c in w.t.configs && w.t.configs[c].active && w.t.configs[c].deletedAt.None?
  }

  lemma ReadyCanComplete(p: Policy, w: World, k: nat, http: A.HttpResult, t1: Time, t2: Time, t3: Time)
    requires Ready(p, w, k, t1) && t1 <= t2 <= t3 && p.Sane() && p.Room(w.leases[k].copy.attemptCount)
    ensures var l := w.leases[k];
            var a := Answered(p, l.copy, Some(t1), http, t2);
            && l.id in w.t.deliveries && w.t.deliveries[l.id] == l.copy && l.copy.cycleStartedAt.Some?
            && a.Responded? && CompleteDelivery(w.t, l.id, a.done, a.attempt, t3).Ok?
            && Dispatched(p, w, k, http, t1, t2, t3).t == CompleteDelivery(w.t, l.id, a.done, a.attempt, t3).value.tables
  {
    var l := w.leases[k];
    HoldsOrDead(p, w, k);
    assert LeaseOk(p, w.t.Row(l.id), l, w.issued, w.now);
    AnswerColumns(p, l.copy, t1, http, t2);
    CallMade(p, w, k, http, t1, t2, t3);
    assert AttemptKey(l.id, l.copy.generation, l.copy.attemptCount + 1) !in w.t.attempts;
  }

  /** The tables once an answer is on record. The delivery has succeeded exactly on an
      answer from 200 to 299, waits exactly on one worth retrying, and has failed on
      every other; its new attempt says the same, and nothing else has changed. */
  ghost predicate OnRecord(p: Policy, t: Tables, t1: Tables, id: DeliveryId, d: Delivery, http: A.HttpResult,
                           answered: Time, now: Time) {
    var key := AttemptKey(id, d.generation, d.attemptCount + 1);
    && id in t.deliveries && key !in t.attempts && id in t1.deliveries && key in t1.attempts
    && var d1, a := t1.deliveries[id], t1.attempts[key];
    && t1 == t.(deliveries := t.deliveries[id := d1], attempts := t.attempts[key := a])
    && (d1.status == Succeeded <==> Delivered(http))
    && (d1.status == Pending <==> WorthRetrying(p, d, http, answered))
    && (d1.status == Status.Failed <==> !Delivered(http) && !WorthRetrying(p, d, http, answered))
    && (a.outcome == DeliverySucceeded <==> Delivered(http))
    && (a.outcome == RetryableFailure <==> WorthRetrying(p, d, http, answered))
    && (a.outcome == PermanentFailure <==> !Delivered(http) && !WorthRetrying(p, d, http, answered))
    && d1.nextAttemptAt == (if WorthRetrying(p, d, http, answered)
                            then Some(answered + A.RequestedWait(p, d.attemptCount, answered, http)) else None)
    && d1.lastAttemptAt == Some(answered) && a.createdAt == answered
    && d1.lastStatusCode == (if http.Response? && http.code != 0 then Some(http.code) else None)
    && a.code == (if http.Response? then http.code else 0)
    && d1.attemptCount == d.attemptCount + 1 && d1.claimedAt == None && d1.updatedAt == now
    && d1.event == d.event && d1.config == d.config && d1.generation == d.generation
    && d1.cycleStartedAt == d.cycleStartedAt && d1.createdAt == d.createdAt
  }

  lemma CompletionRecords(p: Policy, t: Tables, id: DeliveryId, d: Delivery, done: Delivery, a: AttemptRow,
                          calledAt: Time, http: A.HttpResult, answered: Time, now: Time)
    requires p.Sane() && p.Room(d.attemptCount) && d.cycleStartedAt.Some?
    requires Answered(p, d, Some(calledAt), http, answered) == Responded(done, a)
    requires id in t.deliveries && t.deliveries[id] == d && CompleteDelivery(t, id, done, a, now).Ok?
    requires d.config in t.configs && t.configs[d.config].active && t.configs[d.config].deletedAt.None?
    ensures OnRecord(p, t, CompleteDelivery(t, id, done, a, now).value.tables, id, d, http, answered, now)
  {
    AnswerColumns(p, d, calledAt, http, answered);
    CompleteEffect(t, id, done, a, now);
  }

  /** From claim to tables: so it is after every uninterrupted dispatch of a claim that
      holds, with a live config and open limits. */
  lemma AnswerEffect(p: Policy, w: World, k: nat, http: A.HttpResult, t1: Time, t2: Time, t3: Time)
    requires Ready(p, w, k, t1) && t1 <= t2 <= t3 && p.Sane() && p.Room(w.leases[k].copy.attemptCount)
    ensures OnRecord(p, w.t, Dispatched(p, w, k, http, t1, t2, t3).t, w.leases[k].id, w.leases[k].copy, http, t2, t3)
  {
    var l := w.leases[k];
    ReadyCanComplete(p, w, k, http, t1, t2, t3);
    var a := Answered(p, l.copy, Some(t1), http, t2);
    CompletionRecords(p, w.t, l.id, l.copy, a.done, a.attempt, t1, http, t2, t3);
  }
}
