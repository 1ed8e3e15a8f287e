/** What the import writes, in the columns of both queues: none of these statements
    uses the row functions, the status function or the selection of module Backfill. */
module ImportEffects {
  import opened Clock
  import opened Results
  import opened Keyset
  import opened Tables
  import opened Backfill
  import opened Effects

  /** The IDs of a webhook's attempts, in the order of its history. */
  function AttemptIds(l: Legacy, w: DeliveryId): (ids: seq<nat>) {
    seq(|AttemptKeys(l, w)|, j requires 0 <= j < |AttemptKeys(l, w)| => AttemptKeys(l, w)[j].id)
  }

  /** A history holds exactly the webhook's attempts. */
  lemma HistoryIsComplete(l: Legacy, w: DeliveryId)
    ensures |AttemptIds(l, w)| == |History(l, w)|
    ensures forall j :: 0 <= j < |History(l, w)| ==>
              var i := AttemptIds(l, w)[j];
              i in l && l[i].webhook == w && History(l, w)[j] == l[i]
    ensures forall i :: i in l && l[i].webhook == w ==> i in AttemptIds(l, w)
  {
    var keys := AttemptKeys(l, w);
    AttemptKeysOf(l, w);
    forall j | 0 <= j < |keys| ensures keys[j].id in l && l[keys[j].id].webhook == w {
      assert keys[j] in keys;
    }
    forall i | i in l && l[i].webhook == w ensures i in AttemptIds(l, w) {
      assert Key(l[i].createdAt, i) in keys;
      var j :| 0 <= j < |keys| && keys[j] == Key(l[i].createdAt, i);
      assert AttemptIds(l, w)[j] == i;
    }
  }

  /** It is ordered by (created_at, id). */
  lemma HistoryInOrder(l: Legacy, w: DeliveryId, x: nat, y: nat)
    requires x < y < |AttemptIds(l, w)|
    ensures var i, j := AttemptIds(l, w)[x], AttemptIds(l, w)[y];
            i in l && j in l && (l[i].createdAt < l[j].createdAt || (l[i].createdAt == l[j].createdAt && i < j))
  {
    KeysAscend(l, w);
  }

  lemma KeysAscend(l: Legacy, w: DeliveryId)
    ensures var keys := AttemptKeys(l, w);
            forall x, y :: 0 <= x < y < |keys| ==>
              && keys[x].id in l && keys[y].id in l
              && keys[x].at == l[keys[x].id].createdAt && keys[y].at == l[keys[y].id].createdAt
              && (keys[x].at < keys[y].at || (keys[x].at == keys[y].at && keys[x].id < keys[y].id))
  {
    var keys := AttemptKeys(l, w);
    AttemptKeysOf(l, w);
    Sorts(Asc, KeySet(map i | i in l && l[i].webhook == w :: l[i].createdAt));
    forall x, y | 0 <= x < y < |keys|
      ensures keys[x].id in l && keys[y].id in l
      ensures keys[x].at == l[keys[x].id].createdAt && keys[y].at == l[keys[y].id].createdAt
      ensures keys[x].at < keys[y].at || (keys[x].at == keys[y].at && keys[x].id < keys[y].id)
    {
      assert keys[x] in keys && keys[y] in keys && Before(Asc, keys[x], keys[y]);
    }
  }

  /** Some attempt may still be retried. */
  predicate Unfinished(h: seq<LegacyAttempt>) {
    exists j :: 0 <= j < |h| && (h[j].status == ToRetry || h[j].status == Retrying)
  }

  /** An import fails exactly when the last attempt names no config, or another delivery
      has the webhook's ID; without attempts it does nothing. */
  lemma ImportErrors(t: Tables, l: Legacy, w: DeliveryId, now: Time)
    ensures var r, h := BackfillWebhook(t, l, w, now), History(l, w);
            && (h == [] ==> r == Ok(t))
            && (r == Err(MissingConfigId) <==> h != [] && h[|h| - 1].configId.None?)
            && (r == Err(Database)
                <==> && h != [] && h[|h| - 1].configId.Some? && w in t.deliveries
                     && !(t.deliveries[w].event == EventId.Legacy(w)
                          && t.deliveries[w].config == h[|h| - 1].configId.value))
  {
  }

  /** The status follows the attempts: unfinished ones wait if the config is active and
      not deleted, and are cancelled otherwise; finished ones have succeeded if and only
      if the last attempt did. */
  lemma ImportStatus(t: Tables, l: Legacy, w: DeliveryId, now: Time)
    requires History(l, w) != [] && BackfillWebhook(t, l, w, now).Ok?
    ensures var h, t1 := History(l, w), BackfillWebhook(t, l, w, now).value;
            var last := h[|h| - 1];
            && last.configId.Some? && w in t1.deliveries
            && var c := last.configId.value;
               var live := c in t.configs && t.configs[c].active && t.configs[c].deletedAt.None?;
               var d := t1.deliveries[w];
            && (d.status == Pending <==> Unfinished(h) && live)
            && (d.status == Cancelled <==> Unfinished(h) && !live)
            && (d.status == Succeeded <==> !Unfinished(h) && last.status == LegacyStatus.Success)
            && (d.status == Failed <==> !Unfinished(h) && last.status == GaveUp)
            && d.nextAttemptAt == if Unfinished(h) && live then Some(last.nextRetryAfter) else None
  {
    var h := History(l, w);
    assert Unfinished(h) <==> exists j :: 0 <= j < |h| && Outstanding(h[j]);
  }

  /** The other columns come from the first and the last attempt. A row that exists keeps
      its generation and its creation time; other rows stay. */
  lemma ImportColumns(t: Tables, l: Legacy, w: DeliveryId, now: Time, i: DeliveryId)
    requires History(l, w) != [] && BackfillWebhook(t, l, w, now).Ok?
    ensures var h, t1 := History(l, w), BackfillWebhook(t, l, w, now).value;
            var first, last := h[0], h[|h| - 1];
            && last.configId.Some? && w in t1.deliveries
            && var d := t1.deliveries[w];
            && d.event == EventId.Legacy(w) && d.config == last.configId.value && d.attemptCount == |h|
            && d.cycleStartedAt == Some(first.createdAt) && d.claimedAt == None
            && d.lastAttemptAt == Some(last.createdAt) && d.lastStatusCode == Some(last.code)
            && d.updatedAt == last.updatedAt
            && d.generation == (if w in t.deliveries then t.deliveries[w].generation else 0)
            && d.createdAt == (if w in t.deliveries then t.deliveries[w].createdAt else first.createdAt)
            && (i != w ==> t1.Row(i) == t.Row(i))
  {
  }

  /** Attempt n of the history becomes attempt n of generation 0, unless there is one. */
  lemma ImportAttempts(t: Tables, l: Legacy, w: DeliveryId, now: Time, key: AttemptKey)
    requires History(l, w) != [] && BackfillWebhook(t, l, w, now).Ok?
    ensures var h, t1 := History(l, w), BackfillWebhook(t, l, w, now).value;
            && (key in t.attempts ==> key in t1.attempts && t1.attempts[key] == t.attempts[key])
            && (key !in t.attempts ==>
                  (key in t1.attempts <==> key.delivery == w && key.generation == 0 && 1 <= key.number <= |h|))
            && (key in t1.attempts && key !in t.attempts ==>
                  var a := h[key.number - 1];
                  t1.attempts[key] == AttemptRow(
                    if a.status == LegacyStatus.Success then DeliverySucceeded
                    else if a.status == GaveUp then PermanentFailure
                    else RetryableFailure,
                    a.code, a.createdAt))
  {
    AttemptsWritten(w, History(l, w), t.attempts, key);
  }

  lemma AttemptsWritten(w: DeliveryId, h: seq<LegacyAttempt>, attempts: map<AttemptKey, AttemptRow>, key: AttemptKey)
    ensures var after := ImportedAttempts(w, h) + attempts;
            && (key in attempts ==> key in after && after[key] == attempts[key])
            && (key !in attempts ==>
                  (key in after <==> key.delivery == w && key.generation == 0 && 1 <= key.number <= |h|))
            && (key in after && key !in attempts ==>
                  var a := h[key.number - 1];
                  after[key] == AttemptRow(
                    if a.status == LegacyStatus.Success then DeliverySucceeded
                    else if a.status == GaveUp then PermanentFailure
                    else RetryableFailure,
                    a.code, a.createdAt))
  {
  }

  /** A config that is gone is put back, inactive and deleted; nothing else changes. */
  lemma ImportConfig(t: Tables, l: Legacy, w: DeliveryId, now: Time)
    requires History(l, w) != [] && BackfillWebhook(t, l, w, now).Ok?
    ensures var h, t1 := History(l, w), BackfillWebhook(t, l, w, now).value;
            var last := h[|h| - 1];
            && last.configId.Some? && t1.replays == t.replays
            && t1.configs == if last.configId.value in t.configs then t.configs
                             else t.configs[last.configId.value :=
                                    Config(last.config.eventTypes, false, last.config.updatedAt, Some(now))]
  {
  }

  // ---- The selection of a pass ----

  /** An attempt that the retention keeps. */
  predicate Kept(a: LegacyAttempt, successSince: int, failedSince: int, now: Time) {
    match a.status
    case Success => a.updatedAt >= now - successSince
    case GaveUp => a.updatedAt >= now - failedSince
    case ToRetry => true
    case Retrying => true
  }

  /** The update time of the webhook's delivery, or the epoch. */
  function LastStored(t: Tables, w: DeliveryId): Time {
    if w in t.deliveries && t.deliveries[w].event == EventId.Legacy(w) then t.deliveries[w].updatedAt else 0
  }

  /** A pass may select the webhooks with a kept attempt, and one, kept or not, that is
      newer than their delivery, ordered by their oldest kept attempt. */
  lemma SelectionEffect(t: Tables, l: Legacy, successSince: int, failedSince: int, batchSize: int, now: Time, w: DeliveryId)
    ensures var at := SelectedAt(t, l, OptionsOf(successSince, failedSince, batchSize), now);
            && (w in at
                <==> && (exists i :: i in l && l[i].webhook == w && Kept(l[i], successSince, failedSince, now))
                     && (exists i :: i in l && l[i].webhook == w && LastStored(t, w) < l[i].updatedAt))
            && (w in at ==>
                  && (exists i :: i in l && l[i].webhook == w && Kept(l[i], successSince, failedSince, now)
                                  && l[i].createdAt == at[w])
                  && (forall i :: i in l && l[i].webhook == w && Kept(l[i], successSince, failedSince, now) ==>
                        at[w] <= l[i].createdAt))
  {
    var o := OptionsOf(successSince, failedSince, batchSize);
    assert forall a :: Retained(a, o, now) <==> Kept(a, successSince, failedSince, now);
    assert Selected(t, l, w, o, now)
           <==> && (exists i :: i in l && l[i].webhook == w && Kept(l[i], successSince, failedSince, now))
                && (exists i :: i in l && l[i].webhook == w && LastStored(t, w) < l[i].updatedAt);
    if Selected(t, l, w, o, now) {
      SelectedIsCandidate(t, l, o, now, w);
      OldestKept(l, w, o, now);
    }
  }

  lemma OldestKept(l: Legacy, w: DeliveryId, o: Options, now: Time)
    requires RetainedKeys(l, w, o, now) != []
    ensures var oldest := RetainedKeys(l, w, o, now)[0];
            && oldest.id in l && l[oldest.id].webhook == w && Retained(l[oldest.id], o, now)
            && l[oldest.id].createdAt == oldest.at
            && (forall i :: i in l && l[i].webhook == w && Retained(l[i], o, now) ==> oldest.at <= l[i].createdAt)
  {
    var at := RetainedTimes(l, w, o, now);
    FirstIsOldest(at);
    assert forall i :: i in l && l[i].webhook == w && Retained(l[i], o, now) ==> i in at && at[i] == l[i].createdAt;
  }

  lemma FirstIsOldest(at: map<nat, Time>)
    requires Sorted(Asc, KeySet(at)) != []
    ensures var oldest := Sorted(Asc, KeySet(at))[0];
            oldest.id in at && at[oldest.id] == oldest.at && forall i :: i in at ==> oldest.at <= at[i]
  {
    var keys := Sorted(Asc, KeySet(at));
    Sorts(Asc, KeySet(at));
    assert keys[0] in keys;
    forall i | i in at ensures keys[0].at <= at[i] {
      assert Key(at[i], i) in keys;
      var j :| 0 <= j < |keys| && keys[j] == Key(at[i], i);
      assert j > 0 ==> Before(Asc, keys[0], keys[j]);
    }
  }

  /** A pass takes the first of them, a thousand by default. */
  lemma BatchEffect(t: Tables, l: Legacy, successSince: int, failedSince: int, batchSize: int, now: Time, w: DeliveryId)
    ensures var o := OptionsOf(successSince, failedSince, batchSize);
            var at := SelectedAt(t, l, o, now);
            var n := if batchSize <= 0 then 1000 else batchSize;
            w in Ids(Batch(t, l, o, now))
            <==> w in at && |set x | x in at && (at[x] < at[w] || (at[x] == at[w] && x < w))| < n
  {
    var o := OptionsOf(successSince, failedSince, batchSize);
    FirstOfIff(SelectedAt(t, l, o, now), o.batch, w);
  }

  lemma FirstOfIff(at: map<nat, Time>, n: nat, w: nat)
    ensures w in Ids(FirstOf(at, n))
            <==> w in at && |set x | x in at && (at[x] < at[w] || (at[x] == at[w] && x < w))| < n
  {
    TakenIff(Asc, at, n, w);
    if w in at {
      assert Earlier(Asc, at, w) == set x | x in at && (at[x] < at[w] || (at[x] == at[w] && x < w));
    }
  }
}
