/** The one-shot import of the old attempts queue (BackfillDeliveries,
    backfillWebhook), run with no workers. */
module Backfill {
  import opened Clock
  import opened Results
  import opened Keyset
  import opened Tables
  import opened Invariants

  datatype LegacyStatus = Success | ToRetry | Retrying | GaveUp

  /** A row of the old attempts table; its config is a JSON copy whose ID may be
      empty. */
  datatype LegacyAttempt = LegacyAttempt(
    webhook: DeliveryId,
    createdAt: Time,
    updatedAt: Time,
    configId: Option<ConfigId>,
    config: Config,
    code: int,
    status: LegacyStatus,
    nextRetryAfter: Time)

  type Legacy = map<nat, LegacyAttempt>

  /** TIMESTAMPTZ 'epoch'. */
  const EPOCH: Time := 0

  /** The command's flags; batch is what BackfillDeliveries makes of batch-size. */
  datatype Options = Options(successSince: int, failedSince: int, batch: nat)

  function OptionsOf(successSince: int, failedSince: int, batchSize: int): (o: Options)
    ensures o.batch > 0
  {
    Options(successSince, failedSince, if batchSize <= 0 then 1000 else batchSize)
  }

  datatype BackfillError = MissingConfigId | Database

  // ---- One webhook ----

  function AttemptKeys(l: Legacy, w: DeliveryId): seq<Key> {
    Sorted(Asc, KeySet(map i | i in l && l[i].webhook == w :: l[i].createdAt))
  }

  lemma AttemptKeysOf(l: Legacy, w: DeliveryId)
    ensures forall k :: k in AttemptKeys(l, w) <==> k.id in l && l[k.id].webhook == w && k.at == l[k.id].createdAt
  {
    Sorts(Asc, KeySet(map i | i in l && l[i].webhook == w :: l[i].createdAt));
  }

  lemma AttemptKeysAre(l: Legacy, w: DeliveryId, keys: seq<Key>)
    requires Ascending(Asc, keys)
    requires forall k :: k in keys <==> k.id in l && l[k.id].webhook == w && k.at == l[k.id].createdAt
    ensures AttemptKeys(l, w) == keys
  {
    var at := map i | i in l && l[i].webhook == w :: l[i].createdAt;
    Sorts(Asc, KeySet(at));
    assert ToSet(keys) == ToSet(AttemptKeys(l, w)) by {
      forall k ensures k in keys <==> k in AttemptKeys(l, w) {
      }
    }
    SortedUnique(Asc, AttemptKeys(l, w), keys);
  }

  /** The attempts of a webhook in (created_at, id) order. */
  function History(l: Legacy, w: DeliveryId): seq<LegacyAttempt> {
    var keys := AttemptKeys(l, w);
    AttemptKeysOf(l, w);
    seq(|keys|, j requires 0 <= j < |keys| => assert keys[j] in keys; l[keys[j].id])
  }

  predicate Outstanding(a: LegacyAttempt) {
    a.status == ToRetry || a.status == Retrying
  }

  function ImportedStatus(h: seq<LegacyAttempt>, live: bool): Status
    requires h != []
  {
    if exists j :: 0 <= j < |h| && Outstanding(h[j]) then (if live then Pending else Cancelled)
    else if h[|h| - 1].status == Success then Succeeded
    else Failed
  }

  function ImportedRow(w: DeliveryId, h: seq<LegacyAttempt>, c: ConfigId, live: bool): Delivery
    requires h != []
  {
    var first, last := h[0], h[|h| - 1];
    var status := ImportedStatus(h, live);
    Delivery(EventId.Legacy(w), c, status, |h|, 0, Some(first.createdAt),
             if status == Pending then Some(last.nextRetryAfter) else None,
             None, Some(last.createdAt), Some(last.code), first.createdAt, last.updatedAt)
  }

  /** The columns the upsert overwrites on a row that exists. */
  function Overwritten(d: Delivery, n: Delivery): Delivery {
    d.(status := n.status, attemptCount := n.attemptCount, cycleStartedAt := n.cycleStartedAt,
       nextAttemptAt := n.nextAttemptAt, claimedAt := None, lastAttemptAt := n.lastAttemptAt,
       lastStatusCode := n.lastStatusCode, updatedAt := n.updatedAt)
  }

  function ImportedAttempt(a: LegacyAttempt): AttemptRow {
    AttemptRow(match a.status
               case Success => DeliverySucceeded
               case GaveUp => PermanentFailure
               case _ => RetryableFailure,
               a.code, a.createdAt)
  }

  /** INSERT ... ON CONFLICT DO NOTHING for attempts 1 .. |h|. */
  function ImportedAttempts(w: DeliveryId, h: seq<LegacyAttempt>): (m: map<AttemptKey, AttemptRow>)
    ensures forall k :: k in m <==> k.delivery == w && k.generation == 0 && 1 <= k.number <= |h|
  {
    map n | 1 <= n <= |h| :: AttemptKey(w, 0, n) := ImportedAttempt(h[n - 1])
  }

  /** ON CONFLICT DO NOTHING, one attempt at a time. */
  lemma ImportedSnoc(w: DeliveryId, h: seq<LegacyAttempt>, j: nat, attempts: map<AttemptKey, AttemptRow>)
    requires j < |h|
    ensures var before := ImportedAttempts(w, h[..j]) + attempts;
            var key := AttemptKey(w, 0, j + 1);
            ImportedAttempts(w, h[..j + 1]) + attempts
              == if key in before then before else before[key := ImportedAttempt(h[j])]
  {
    ImportedOneMore(w, h, j);
  }

  lemma ImportedOneMore(w: DeliveryId, h: seq<LegacyAttempt>, j: nat)
    requires j < |h|
    ensures ImportedAttempts(w, h[..j + 1]) == ImportedAttempts(w, h[..j])[AttemptKey(w, 0, j + 1) := ImportedAttempt(h[j])]
  {
  }

  function Tombstone(a: LegacyAttempt, now: Time): Config {
    a.config.(active := false, deletedAt := Some(now))
  }

  function BackfillWebhook(t: Tables, l: Legacy, w: DeliveryId, now: Time): Result<Tables, BackfillError> {
    var h := History(l, w);
    if h == [] then Ok(t)
    else
      var last := h[|h| - 1];
      if last.configId.None? then Err(MissingConfigId)
      else
        var c := last.configId.value;
        var t1 := if c in t.configs then t else t.(configs := t.configs[c := Tombstone(last, now)]);
        var row := ImportedRow(w, h, c, t1.LiveConfig(c));
        if w in t1.deliveries && !(t1.deliveries[w].event == row.event && t1.deliveries[w].config == c)
        then Err(Database)
        else
          var d := if w in t1.deliveries then Overwritten(t1.deliveries[w], row) else row;
          Ok(t1.(deliveries := t1.deliveries[w := d], attempts := ImportedAttempts(w, h) + t1.attempts))
  }

  /** Only the backfill writes "legacy:" events, under the webhook's own ID. */
  ghost predicate LegacyKeyed(t: Tables) {
    forall i :: i in t.deliveries && t.deliveries[i].event.Legacy? ==> t.deliveries[i].event.webhook == i
  }

  /** The import stored the webhook: its row is determined by its attempts and its
      config's liveness, and its attempts are there. */
  ghost predicate Imported(t: Tables, l: Legacy, w: DeliveryId) {
    var h := History(l, w);
    && h != [] && h[|h| - 1].configId.Some?
    && var c := h[|h| - 1].configId.value;
    && c in t.configs && w in t.deliveries
    && t.deliveries[w] == Overwritten(t.deliveries[w], ImportedRow(w, h, c, t.LiveConfig(c)))
    && t.deliveries[w].event == EventId.Legacy(w) && t.deliveries[w].config == c
    && ImportedAttempts(w, h).Keys <= t.attempts.Keys
  }

  /** The imported row is a function of the attempts and the config's liveness. */
  lemma BackfillImports(t: Tables, l: Legacy, w: DeliveryId, now: Time)
    requires History(l, w) != [] && BackfillWebhook(t, l, w, now).Ok?
    ensures Imported(BackfillWebhook(t, l, w, now).value, l, w)
    ensures LegacyKeyed(t) ==> LegacyKeyed(BackfillWebhook(t, l, w, now).value)
    ensures forall i :: i != w ==> BackfillWebhook(t, l, w, now).value.Row(i) == t.Row(i)
  {
    var h := History(l, w);
    var t1 := BackfillWebhook(t, l, w, now).value;
    assert t1.LiveConfig(h[|h| - 1].configId.value) <==>
           (h[|h| - 1].configId.value in t.configs && t.configs[h[|h| - 1].configId.value].Live());
  }

  /** Importing again what is imported changes nothing. */
  lemma ImportedIsFixpoint(t: Tables, l: Legacy, w: DeliveryId, now: Time)
    requires Imported(t, l, w)
    ensures BackfillWebhook(t, l, w, now) == Ok(t)
  {
    var h := History(l, w);
    assert ImportedAttempts(w, h) + t.attempts == t.attempts;
    assert t.deliveries[w := t.deliveries[w]] == t.deliveries;
  }

  /** So the backfill of a webhook is idempotent, at whatever later time. */
  lemma BackfillIdempotent(t: Tables, l: Legacy, w: DeliveryId, now: Time, later: Time)
    requires BackfillWebhook(t, l, w, now).Ok?
    ensures BackfillWebhook(BackfillWebhook(t, l, w, now).value, l, w, later) == BackfillWebhook(t, l, w, now)
  {
    if History(l, w) != [] {
      BackfillImports(t, l, w, now);
      ImportedIsFixpoint(BackfillWebhook(t, l, w, now).value, l, w, later);
    }
  }

  // ---- The selection of a pass ----

  function StoredUpdate(t: Tables, w: DeliveryId): Time {
    if w in t.deliveries && t.deliveries[w].event == EventId.Legacy(w) then t.deliveries[w].updatedAt else EPOCH
  }

  /** Some attempt is newer than the stored delivery (the comparison with MAX). */
  predicate Lags(t: Tables, l: Legacy, w: DeliveryId) {
    exists i :: i in l && l[i].webhook == w && StoredUpdate(t, w) < l[i].updatedAt
  }

  predicate Retained(a: LegacyAttempt, o: Options, now: Time) {
    || Outstanding(a)
    || (a.status == Success && a.updatedAt >= now - o.successSince)
    || (a.status == GaveUp && a.updatedAt >= now - o.failedSince)
  }

  predicate HasRetained(l: Legacy, w: DeliveryId, o: Options, now: Time) {
    exists i :: i in l && l[i].webhook == w && Retained(l[i], o, now)
  }

  predicate Selected(t: Tables, l: Legacy, w: DeliveryId, o: Options, now: Time) {
    HasRetained(l, w, o, now) && Lags(t, l, w)
  }

  function Webhooks(l: Legacy): set<DeliveryId> {
    set i | i in l :: l[i].webhook
  }

  predicate HasHistory(l: Legacy, w: DeliveryId) {
    History(l, w) != []
  }

  lemma WebhookHasHistory(l: Legacy, i: nat)
    requires i in l
    ensures History(l, l[i].webhook) != []
  {
    var w := l[i].webhook;
    var at := map j | j in l && l[j].webhook == w :: l[j].createdAt;
    assert Key(l[i].createdAt, i) in KeySet(at);
  }

  /** The rows of a webhook that pass the selection's status filter, oldest first. */
  function RetainedKeys(l: Legacy, w: DeliveryId, o: Options, now: Time): seq<Key> {
    Sorted(Asc, KeySet(RetainedTimes(l, w, o, now)))
  }

  function RetainedTimes(l: Legacy, w: DeliveryId, o: Options, now: Time): map<nat, Time> {
    map i | i in l && l[i].webhook == w && Retained(l[i], o, now) :: l[i].createdAt
  }

  /** The selected webhooks with MIN(created_at) over their retained attempts. */
  function SelectedAt(t: Tables, l: Legacy, o: Options, now: Time): map<DeliveryId, Time> {
    map w | w in Webhooks(l) && RetainedKeys(l, w, o, now) != [] && Selected(t, l, w, o, now) ::
      RetainedKeys(l, w, o, now)[0].at
  }

  /** ORDER BY ... LIMIT n. */
  function FirstOf(at: map<nat, Time>, n: nat): seq<Key> {
    Take(Sorted(Asc, KeySet(at)), n)
  }

  function Batch(t: Tables, l: Legacy, o: Options, now: Time): seq<Key> {
    FirstOf(SelectedAt(t, l, o, now), o.batch)
  }

  lemma CandidateIsSelected(t: Tables, l: Legacy, o: Options, now: Time, w: DeliveryId)
    requires w in SelectedAt(t, l, o, now)
    ensures w in Webhooks(l) && HasHistory(l, w) && Selected(t, l, w, o, now)
  {
    var i :| i in l && l[i].webhook == w && Retained(l[i], o, now);
    WebhookHasHistory(l, i);
  }

  lemma BatchIsSelected(t: Tables, l: Legacy, o: Options, now: Time)
    ensures forall k :: k in Batch(t, l, o, now) ==>
              k.id in Webhooks(l) && HasHistory(l, k.id) && Selected(t, l, k.id, o, now)
  {
    var at := SelectedAt(t, l, o, now);
    TakeSubset(Asc, KeySet(at), o.batch);
    forall k | k in Batch(t, l, o, now)
      ensures k.id in Webhooks(l) && HasHistory(l, k.id) && Selected(t, l, k.id, o, now)
    {
      assert k in ToSet(Batch(t, l, o, now));
      CandidateIsSelected(t, l, o, now, k.id);
    }
  }

  lemma SelectedIsCandidate(t: Tables, l: Legacy, o: Options, now: Time, w: DeliveryId)
    requires Selected(t, l, w, o, now)
    ensures w in SelectedAt(t, l, o, now)
  {
    var i :| i in l && l[i].webhook == w && Retained(l[i], o, now);
    assert Key(l[i].createdAt, i) in KeySet(RetainedTimes(l, w, o, now));
    assert l[i].webhook in Webhooks(l);
  }

  lemma FirstOfSome(at: map<nat, Time>, n: nat, i: nat)
    requires n > 0 && i in at
    ensures FirstOf(at, n) != []
  {
    Sorts(Asc, KeySet(at));
    assert Key(at[i], i) in Sorted(Asc, KeySet(at));
  }

  /** A pass is empty only when nothing is left to select. */
  lemma SelectedFillsBatch(t: Tables, l: Legacy, o: Options, now: Time, w: DeliveryId)
    requires o.batch > 0 && Selected(t, l, w, o, now)
    ensures Batch(t, l, o, now) != []
  {
    SelectedIsCandidate(t, l, o, now, w);
    FirstOfSome(SelectedAt(t, l, o, now), o.batch, w);
  }

  // ---- Progress ----

  /** The last attempt by (created_at, id) carries the newest update. */
  predicate LastIsNewest(l: Legacy, w: DeliveryId) {
    var h := History(l, w);
    h != [] && forall i :: i in l && l[i].webhook == w ==> l[i].updatedAt <= h[|h| - 1].updatedAt
  }

  /** The upsert stores the last attempt's update, the selection compares with the
      newest: an imported webhook stops lagging exactly when they are the same. */
  lemma CaughtUpIff(t: Tables, l: Legacy, w: DeliveryId, now: Time)
    requires HasHistory(l, w) && BackfillWebhook(t, l, w, now).Ok?
    ensures !Lags(BackfillWebhook(t, l, w, now).value, l, w) <==> LastIsNewest(l, w)
  {
    BackfillImports(t, l, w, now);
    var h := History(l, w);
    assert StoredUpdate(BackfillWebhook(t, l, w, now).value, w) == h[|h| - 1].updatedAt;
  }

  /** Importing one webhook does not touch another's lag. */
  lemma OthersLagAsBefore(t: Tables, l: Legacy, w: DeliveryId, now: Time, x: DeliveryId)
    requires HasHistory(l, w) && BackfillWebhook(t, l, w, now).Ok? && x != w
    ensures Lags(BackfillWebhook(t, l, w, now).value, l, x) <==> Lags(t, l, x)
  {
    BackfillImports(t, l, w, now);
    var t1 := BackfillWebhook(t, l, w, now).value;
    assert t1.Row(x) == t.Row(x);
    assert StoredUpdate(t1, x) == StoredUpdate(t, x);
  }

  function Lagging(t: Tables, l: Legacy): set<DeliveryId> {
    set w | w in Webhooks(l) && Lags(t, l, w)
  }

  /** The imports of a batch, in order, until one fails. */
  function BackfillAll(t: Tables, l: Legacy, keys: seq<Key>, now: Time): Result<Tables, BackfillError>
    decreases |keys|
  {
    if keys == [] then Ok(t)
    else
      var r := BackfillWebhook(t, l, keys[0].id, now);
      if r.Err? then r else BackfillAll(r.value, l, keys[1..], now)
  }

  lemma OneCatchesUp(t: Tables, l: Legacy, w: DeliveryId, now: Time, x: DeliveryId)
    requires HasHistory(l, w) && BackfillWebhook(t, l, w, now).Ok?
    ensures Lags(BackfillWebhook(t, l, w, now).value, l, x) <==> (if x == w then !LastIsNewest(l, x) else Lags(t, l, x))
  {
    if x == w {
      CaughtUpIff(t, l, w, now);
    } else {
      OthersLagAsBefore(t, l, w, now, x);
    }
  }

  lemma IdsCons(keys: seq<Key>)
    requires keys != []
    ensures Ids(keys) == {keys[0].id} + Ids(keys[1..])
  {
    assert keys == [keys[0]] + keys[1..];
    assert keys[0] in keys;
    forall i | i in Ids(keys[1..]) ensures i in Ids(keys) {
      var k :| k in keys[1..] && k.id == i;
      assert k in keys;
    }
  }

  /** After a batch, exactly its webhooks with a newer attempt than the last one
      still lag, besides those that lagged and were not in it. */
  lemma {:induction false} BatchCatchesUp(t: Tables, l: Legacy, keys: seq<Key>, now: Time, x: DeliveryId)
    requires BackfillAll(t, l, keys, now).Ok? && (forall k :: k in keys ==> HasHistory(l, k.id))
    ensures Lags(BackfillAll(t, l, keys, now).value, l, x)
            <==> (if x in Ids(keys) then !LastIsNewest(l, x) else Lags(t, l, x))
    decreases |keys|
  {
    if keys != [] {
      var w := keys[0].id;
      assert keys[0] in keys;
      OneCatchesUp(t, l, w, now, x);
      BatchCatchesUp(BackfillWebhook(t, l, w, now).value, l, keys[1..], now, x);
      IdsCons(keys);
    }
  }

  lemma TakenAreDistinct(at: map<DeliveryId, Time>, n: nat)
    ensures forall i, j :: 0 <= i < j < |FirstOf(at, n)| ==> FirstOf(at, n)[i].id != FirstOf(at, n)[j].id
  {
    var keys := Take(Sorted(Asc, KeySet(at)), n);
    TakeSubset(Asc, KeySet(at), n);
    forall i, j | 0 <= i < j < |keys| ensures keys[i].id != keys[j].id {
      assert keys[i] in ToSet(keys) && keys[j] in ToSet(keys);
      assert Before(Asc, keys[i], keys[j]);
    }
  }

  lemma BatchIsDistinct(t: Tables, l: Legacy, o: Options, now: Time)
    ensures var keys := Batch(t, l, o, now);
            forall i, j :: 0 <= i < j < |keys| ==> keys[i].id != keys[j].id
  {
    TakenAreDistinct(SelectedAt(t, l, o, now), o.batch);
  }

  lemma BatchLags(t: Tables, l: Legacy, o: Options, now: Time)
    ensures forall k :: k in Batch(t, l, o, now) ==> HasHistory(l, k.id) && k.id in Lagging(t, l)
  {
    BatchIsSelected(t, l, o, now);
  }

  /** Importing different lagging webhooks takes exactly these out of the lagging
      set, if last attempts are newest. */
  lemma PassAccounts(t: Tables, l: Legacy, keys: seq<Key>, now: Time)
    requires BackfillAll(t, l, keys, now).Ok?
    requires forall k :: k in keys ==> HasHistory(l, k.id) && k.id in Lagging(t, l)
    requires forall i, j :: 0 <= i < j < |keys| ==> keys[i].id != keys[j].id
    requires forall k :: k in keys ==> LastIsNewest(l, k.id)
    ensures Lagging(BackfillAll(t, l, keys, now).value, l) == Lagging(t, l) - Ids(keys)
    ensures |Lagging(BackfillAll(t, l, keys, now).value, l)| == |Lagging(t, l)| - |keys|
  {
    var t1 := BackfillAll(t, l, keys, now).value;
    forall w | w in Webhooks(l) ensures w in Lagging(t1, l) <==> w in Lagging(t, l) && w !in Ids(keys) {
      BatchCatchesUp(t, l, keys, now, w);
    }
    DistinctIds(keys);
    assert Ids(keys) <= Lagging(t, l);
    assert |Lagging(t, l) - Ids(keys)| == |Lagging(t, l)| - |Ids(keys)|;
  }

  lemma {:induction false} BackfillSnoc(t: Tables, l: Legacy, keys: seq<Key>, n: nat, now: Time)
    requires n < |keys| && BackfillAll(t, l, keys[..n], now).Ok?
    ensures BackfillAll(t, l, keys[..n + 1], now)
         == BackfillWebhook(BackfillAll(t, l, keys[..n], now).value, l, keys[n].id, now)
    decreases n
  {
    if n > 0 {
      assert keys[..n][1..] == keys[1..][..n - 1] && keys[..n + 1][1..] == keys[1..][..n];
      BackfillSnoc(BackfillWebhook(t, l, keys[0].id, now).value, l, keys[1..], n - 1, now);
    }
  }

  // ---- What a run of the command leaves ----

  /** Every legacy row is the import of its webhook. */
  ghost predicate AllImported(t: Tables, l: Legacy) {
    forall w :: w in t.deliveries && t.deliveries[w].event == EventId.Legacy(w) ==> Imported(t, l, w)
  }

  /** Only the row of w changes, and nothing goes away. */
  ghost predicate AddsOnly(t: Tables, t1: Tables, w: DeliveryId) {
    && (forall i :: i != w ==> t1.Row(i) == t.Row(i))
    && (forall c :: c in t.configs ==> c in t1.configs && t1.configs[c] == t.configs[c])
    && t.attempts.Keys <= t1.attempts.Keys
  }

  lemma ImportAddsOnly(t: Tables, l: Legacy, w: DeliveryId, now: Time)
    requires BackfillWebhook(t, l, w, now).Ok?
    ensures AddsOnly(t, BackfillWebhook(t, l, w, now).value, w)
  {
  }

  lemma ImportedKept(t: Tables, t1: Tables, l: Legacy, w: DeliveryId, x: DeliveryId)
    requires AddsOnly(t, t1, w) && x != w && Imported(t, l, x)
    ensures Imported(t1, l, x)
  {
    var c := t.deliveries[x].config;
    assert t1.Row(x) == t.Row(x);
    assert t1.LiveConfig(c) == t.LiveConfig(c);
  }

  lemma AllImportedKept(t: Tables, t1: Tables, l: Legacy, w: DeliveryId)
    requires AllImported(t, l) && AddsOnly(t, t1, w) && Imported(t1, l, w)
    ensures AllImported(t1, l)
  {
    forall x | x in t1.deliveries && t1.deliveries[x].event == EventId.Legacy(x) ensures Imported(t1, l, x) {
      if x != w {
        assert t1.Row(x) == t.Row(x);
        ImportedKept(t, t1, l, w, x);
      }
    }
  }

  lemma ImportKeepsImported(t: Tables, l: Legacy, w: DeliveryId, now: Time)
    requires AllImported(t, l) && BackfillWebhook(t, l, w, now).Ok?
    ensures AllImported(BackfillWebhook(t, l, w, now).value, l)
  {
    if History(l, w) != [] {
      BackfillImports(t, l, w, now);
      ImportAddsOnly(t, l, w, now);
      AllImportedKept(t, BackfillWebhook(t, l, w, now).value, l, w);
    }
  }

  /** A webhook that a pass would not select although a retained attempt is later
      than the epoch has its import. */
  lemma UnselectedIsImported(t: Tables, l: Legacy, w: DeliveryId, o: Options, now: Time, i: nat)
    requires AllImported(t, l) && !Selected(t, l, w, o, now)
    requires i in l && l[i].webhook == w && Retained(l[i], o, now) && EPOCH < l[i].updatedAt
    ensures Imported(t, l, w)
  {
    assert StoredUpdate(t, w) >= l[i].updatedAt;
  }

  // ---- The tables the engine starts from ----

  /** The row an import overwrites has its attempts among those the import adds. */
  predicate HistoryFits(t: Tables, l: Legacy, w: DeliveryId) {
    w in t.deliveries ==>
      if t.deliveries[w].generation == 0 then t.deliveries[w].attemptCount <= |History(l, w)|
      else t.deliveries[w].attemptCount == |History(l, w)|
  }

  lemma HistoryMember(l: Legacy, w: DeliveryId, j: nat)
    requires j < |History(l, w)|
    ensures exists i :: i in l && l[i] == History(l, w)[j]
  {
    AttemptKeysOf(l, w);
    assert AttemptKeys(l, w)[j] in AttemptKeys(l, w);
  }

  lemma AttemptsAfter(t: Tables, l: Legacy, w: DeliveryId, now: Time)
    requires BackfillWebhook(t, l, w, now).Ok? && History(l, w) != []
    ensures forall k :: k in BackfillWebhook(t, l, w, now).value.attempts <==>
              k in t.attempts || (k.delivery == w && k.generation == 0 && 1 <= k.number <= |History(l, w)|)
  {
    var added := ImportedAttempts(w, History(l, w));
    assert forall k :: k in BackfillWebhook(t, l, w, now).value.attempts <==> k in t.attempts || k in added;
  }

  lemma NumberingOf(t: Tables, t1: Tables, w: DeliveryId, n: nat)
    requires CurrentNumbering(t) && PastNumbering(t) && AddsOnly(t, t1, w)
    requires w in t1.deliveries && t1.deliveries[w].attemptCount == n > 0
    requires t1.deliveries[w].generation == if w in t.deliveries then t.deliveries[w].generation else 0
    requires forall k :: k in t1.attempts <==> k in t.attempts || (k.delivery == w && k.generation == 0 && 1 <= k.number <= n)
    ensures PastNumbering(t1)
    ensures CurrentNumbering(t1) <==>
              (w in t.deliveries ==>
                 if t.deliveries[w].generation == 0 then t.deliveries[w].attemptCount <= n
                 else t.deliveries[w].attemptCount == n)
  {
    var g := t1.deliveries[w].generation;
    forall i | i in t1.deliveries && i != w ensures i in t.deliveries && t1.deliveries[i] == t.deliveries[i] {
      assert t1.Row(i) == t.Row(i);
    }
    forall i | i in t.deliveries && i != w ensures i in t1.deliveries && t1.deliveries[i] == t.deliveries[i] {
      assert t1.Row(i) == t.Row(i);
    }
    if w in t.deliveries {
      var c := t.deliveries[w].attemptCount;
      assert forall m: nat :: AttemptKey(w, g, m) in t.attempts <==> 1 <= m <= c;
      assert AttemptKey(w, g, if c > n then c else n) in t1.attempts <==> (c >= n || g == 0);
    }
  }

  /** The import keeps the attempt history gapless if and only if HistoryFits; on a
      delivery that was replayed after its import it can break it. */
  lemma NumberingIff(t: Tables, l: Legacy, w: DeliveryId, now: Time)
    requires CurrentNumbering(t) && PastNumbering(t) && BackfillWebhook(t, l, w, now).Ok? && History(l, w) != []
    ensures CurrentNumbering(BackfillWebhook(t, l, w, now).value) <==> HistoryFits(t, l, w)
    ensures PastNumbering(BackfillWebhook(t, l, w, now).value)
  {
    AttemptsAfter(t, l, w, now);
    ImportAddsOnly(t, l, w, now);
    NumberingOf(t, BackfillWebhook(t, l, w, now).value, w, |History(l, w)|);
  }

  /** The row the import writes has its shape, and waits only for a live config. */
  lemma ImportedShape(t: Tables, l: Legacy, w: DeliveryId, now: Time)
    requires Imported(t, l, w) && (w in t.deliveries ==> t.deliveries[w].claimedAt.None?)
    requires forall i :: i in l ==> l[i].createdAt <= now
    ensures Shape(t.deliveries[w], now)
    ensures t.deliveries[w].config in t.configs
    ensures t.deliveries[w].status == Pending ==> t.LiveConfig(t.deliveries[w].config)
  {
    HistoryMember(l, w, 0);
  }

  lemma AddedRowKeeps(t: Tables, t1: Tables, l: Legacy, w: DeliveryId, now: Time)
    requires TableInv(t, now) && LegacyKeyed(t) && AddsOnly(t, t1, w) && Imported(t1, l, w)
    requires CurrentNumbering(t1) && PastNumbering(t1) && t1.deliveries[w].claimedAt.None?
    requires forall i :: i in l ==> l[i].createdAt <= now
    ensures TableInv(t1, now)
  {
    ImportedShape(t1, l, w, now);
    forall i | i in t1.deliveries
      ensures Shape(t1.deliveries[i], now) && t1.deliveries[i].config in t1.configs
      ensures t1.deliveries[i].status == Pending ==> t1.LiveConfig(t1.deliveries[i].config)
    {
      assert i != w ==> t1.Row(i) == t.Row(i);
    }
    forall i, j | i in t1.deliveries && j in t1.deliveries && t1.deliveries[i].event == t1.deliveries[j].event
                  && t1.deliveries[i].config == t1.deliveries[j].config
      ensures i == j
    {
      assert i != w ==> t1.Row(i) == t.Row(i);
      assert j != w ==> t1.Row(j) == t.Row(j);
    }
  }

  /** So the tables keep their invariants: the engine may start from them. */
  lemma ImportKeepsTables(t: Tables, l: Legacy, w: DeliveryId, now: Time)
    requires TableInv(t, now) && LegacyKeyed(t) && BackfillWebhook(t, l, w, now).Ok? && HistoryFits(t, l, w)
    requires forall i :: i in l ==> l[i].createdAt <= now
    ensures TableInv(BackfillWebhook(t, l, w, now).value, now)
  {
    if History(l, w) != [] {
      NumberingIff(t, l, w, now);
      BackfillImports(t, l, w, now);
      ImportAddsOnly(t, l, w, now);
      AddedRowKeeps(t, BackfillWebhook(t, l, w, now).value, l, w, now);
    }
  }

  /** Tables as the command leaves them while no worker has run. */
  ghost predicate NewlyImported(t: Tables, l: Legacy, now: Time) {
    && TableInv(t, now) && LegacyKeyed(t) && AllImported(t, l)
    && (forall w :: w in t.deliveries && t.deliveries[w].event == EventId.Legacy(w) ==> t.deliveries[w].generation == 0)
  }

  lemma GenerationsKept(t: Tables, t1: Tables, l: Legacy, w: DeliveryId, now: Time)
    requires NewlyImported(t, l, now) && AddsOnly(t, t1, w) && w in t1.deliveries
    requires t1.deliveries[w].generation == (if w in t.deliveries then t.deliveries[w].generation else 0)
    requires w in t.deliveries ==> t.deliveries[w].event == EventId.Legacy(w)
    ensures forall x :: x in t1.deliveries && t1.deliveries[x].event == EventId.Legacy(x) ==> t1.deliveries[x].generation == 0
  {
    forall x | x in t1.deliveries && t1.deliveries[x].event == EventId.Legacy(x)
      ensures t1.deliveries[x].generation == 0
    {
      assert x != w ==> t1.Row(x) == t.Row(x);
    }
  }

  lemma ImportKeepsNewlyImported(t: Tables, l: Legacy, w: DeliveryId, now: Time)
    requires NewlyImported(t, l, now) && BackfillWebhook(t, l, w, now).Ok?
    requires forall i :: i in l ==> l[i].createdAt <= now
    ensures NewlyImported(BackfillWebhook(t, l, w, now).value, l, now)
  {
    if History(l, w) != [] {
      assert w in t.deliveries ==> t.deliveries[w].event == EventId.Legacy(w) && Imported(t, l, w);
      ImportKeepsTables(t, l, w, now);
      ImportKeepsImported(t, l, w, now);
      BackfillImports(t, l, w, now);
      ImportAddsOnly(t, l, w, now);
      var t1 := BackfillWebhook(t, l, w, now).value;
      assert t1.deliveries[w].generation == (if w in t.deliveries then t.deliveries[w].generation else 0);
      GenerationsKept(t, t1, l, w, now);
    }
  }

  /** Hence the engine may start from whatever the command has imported. */
  lemma {:induction false} PassKeepsNewlyImported(t: Tables, l: Legacy, keys: seq<Key>, now: Time)
    requires NewlyImported(t, l, now) && BackfillAll(t, l, keys, now).Ok?
    requires forall i :: i in l ==> l[i].createdAt <= now
    ensures NewlyImported(BackfillAll(t, l, keys, now).value, l, now)
    decreases |keys|
  {
    if keys != [] {
      ImportKeepsNewlyImported(t, l, keys[0].id, now);
      PassKeepsNewlyImported(BackfillWebhook(t, l, keys[0].id, now).value, l, keys[1..], now);
    }
  }

  // ---- The loop of the command ----

  /** From its i-th pass on, the loop stops with a pass that migrates nothing, within
      n passes; each pass reads the clock anew. */
  ghost predicate Halts(t: Tables, l: Legacy, o: Options, clock: nat -> Time, i: nat, n: nat)
    decreases n
  {
    n > 0 &&
    var keys := Batch(t, l, o, clock(i));
    keys == [] || (BackfillAll(t, l, keys, clock(i)).Ok?
                   && Halts(BackfillAll(t, l, keys, clock(i)).value, l, o, clock, i + 1, n - 1))
  }

  /** The tables after n passes of the command, each at its own time. */
  ghost function AfterPasses(t: Tables, l: Legacy, o: Options, clock: nat -> Time, n: nat): Tables {
    if n == 0 then t
    else
      var t1 := AfterPasses(t, l, o, clock, n - 1);
      var r := BackfillAll(t1, l, Batch(t1, l, o, clock(n - 1)), clock(n - 1));
      if r.Ok? then r.value else t1
  }

  /** The webhook's last attempt names its config, and no other delivery has the
      webhook's ID. */
  ghost predicate CanImport(t: Tables, l: Legacy, w: DeliveryId) {
    && HasHistory(l, w) && History(l, w)[|History(l, w)| - 1].configId.Some?
    && (w in t.deliveries ==>
          t.deliveries[w].event == EventId.Legacy(w)
          && t.deliveries[w].config == History(l, w)[|History(l, w)| - 1].configId.value)
  }

  /** No import fails. */
  ghost predicate Importable(t: Tables, l: Legacy) {
    forall w :: w in Webhooks(l) ==> CanImport(t, l, w)
  }

  lemma CanImportKept(t: Tables, t1: Tables, l: Legacy, w: DeliveryId)
    requires CanImport(t, l, w) && t1.Row(w) == t.Row(w)
    ensures CanImport(t1, l, w)
  {
  }

  lemma ImportedCanImport(t: Tables, l: Legacy, w: DeliveryId)
    requires Imported(t, l, w)
    ensures CanImport(t, l, w)
  {
  }

  lemma ImportableStep(t: Tables, t1: Tables, l: Legacy, w: DeliveryId)
    requires Importable(t, l) && AddsOnly(t, t1, w) && Imported(t1, l, w)
    ensures Importable(t1, l)
  {
    forall x | x in Webhooks(l) ensures CanImport(t1, l, x) {
      if x == w {
        ImportedCanImport(t1, l, w);
      } else {
        CanImportKept(t, t1, l, x);
      }
    }
  }

  lemma {:induction false} ImportableKept(t: Tables, l: Legacy, keys: seq<Key>, now: Time)
    requires Importable(t, l) && (forall k :: k in keys ==> k.id in Webhooks(l))
    ensures BackfillAll(t, l, keys, now).Ok? && Importable(BackfillAll(t, l, keys, now).value, l)
    decreases |keys|
  {
    if keys != [] {
      var w := keys[0].id;
      assert keys[0] in keys;
      assert CanImport(t, l, w);
      BackfillImports(t, l, w, now);
      ImportAddsOnly(t, l, w, now);
      var t1 := BackfillWebhook(t, l, w, now).value;
      ImportableStep(t, t1, l, w);
      ImportableKept(t1, l, keys[1..], now);
    }
  }

  /** At some pass none of the webhook's attempts is retained any more. */
  ghost predicate AgesOut(l: Legacy, w: DeliveryId, o: Options, clock: nat -> Time) {
    exists n: nat :: !HasRetained(l, w, o, clock(n))
  }

  lemma RetainedEarlier(l: Legacy, w: DeliveryId, o: Options, now: Time, later: Time)
    requires HasRetained(l, w, o, later) && now <= later
    ensures HasRetained(l, w, o, now)
  {
    var i :| i in l && l[i].webhook == w && Retained(l[i], o, later);
    assert Retained(l[i], o, now);
  }

  /** A lagging webhook whose last attempt is not its newest and that never ages out
      is selected for ever. */
  lemma {:induction false} StuckForever(t: Tables, l: Legacy, o: Options, clock: nat -> Time, i: nat,
                                        w: DeliveryId, n: nat)
    requires o.batch > 0 && Lags(t, l, w) && !LastIsNewest(l, w) && !AgesOut(l, w, o, clock)
    ensures !Halts(t, l, o, clock, i, n)
    decreases n
  {
    assert HasRetained(l, w, o, clock(i));
    var keys := Batch(t, l, o, clock(i));
    BatchIsSelected(t, l, o, clock(i));
    SelectedFillsBatch(t, l, o, clock(i), w);
    if n > 0 && BackfillAll(t, l, keys, clock(i)).Ok? {
      BatchCatchesUp(t, l, keys, clock(i), w);
      StuckForever(BackfillAll(t, l, keys, clock(i)).value, l, o, clock, i + 1, w, n - 1);
    }
  }

  function SelectedSet(t: Tables, l: Legacy, o: Options, now: Time): set<DeliveryId> {
    set w | w in Webhooks(l) && Selected(t, l, w, o, now)
  }

  /** What a pass selects was selected before it and not part of it, if the last
      attempts are newest. */
  lemma SelectedAfterPass(t: Tables, l: Legacy, o: Options, now: Time, w: DeliveryId)
    requires BackfillAll(t, l, Batch(t, l, o, now), now).Ok?
    requires forall x :: Selected(t, l, x, o, now) ==> LastIsNewest(l, x)
    requires Selected(BackfillAll(t, l, Batch(t, l, o, now), now).value, l, w, o, now)
    ensures Selected(t, l, w, o, now) && w !in Ids(Batch(t, l, o, now))
  {
    BatchIsSelected(t, l, o, now);
    BatchCatchesUp(t, l, Batch(t, l, o, now), now, w);
  }

  lemma SelectedShrinks(t: Tables, t1: Tables, l: Legacy, o: Options, now: Time, first: DeliveryId)
    requires Selected(t, l, first, o, now)
    requires forall w :: Selected(t1, l, w, o, now) ==> Selected(t, l, w, o, now) && w != first
    ensures |SelectedSet(t1, l, o, now)| < |SelectedSet(t, l, o, now)|
  {
    var i :| i in l && l[i].webhook == first && Retained(l[i], o, now);
    assert first in SelectedSet(t, l, o, now);
    SubsetSize(SelectedSet(t1, l, o, now), SelectedSet(t, l, o, now) - {first});
  }

  /** A pass leaves fewer webhooks to select, if their last attempts are newest. */
  lemma PassShrinks(t: Tables, l: Legacy, o: Options, now: Time)
    requires Batch(t, l, o, now) != [] && BackfillAll(t, l, Batch(t, l, o, now), now).Ok?
    requires forall w :: Selected(t, l, w, o, now) ==> LastIsNewest(l, w)
    ensures var t1 := BackfillAll(t, l, Batch(t, l, o, now), now).value;
            && (forall w :: Selected(t1, l, w, o, now) ==> Selected(t, l, w, o, now))
            && |SelectedSet(t1, l, o, now)| < |SelectedSet(t, l, o, now)|
  {
    var keys := Batch(t, l, o, now);
    var t1 := BackfillAll(t, l, keys, now).value;
    assert keys[0] in keys && keys[0].id in Ids(keys);
    BatchIsSelected(t, l, o, now);
    forall w | Selected(t1, l, w, o, now) ensures Selected(t, l, w, o, now) && w != keys[0].id {
      SelectedAfterPass(t, l, o, now, w);
    }
    SelectedShrinks(t, t1, l, o, now, keys[0].id);
  }

  /** The webhooks a pass selects although importing them does not catch them up. */
  function Stuck(t: Tables, l: Legacy, o: Options, now: Time): set<DeliveryId> {
    set w | w in Webhooks(l) && Selected(t, l, w, o, now) && !LastIsNewest(l, w)
  }

  lemma SelectedInSet(t: Tables, l: Legacy, o: Options, now: Time, w: DeliveryId)
    requires Selected(t, l, w, o, now)
    ensures w in SelectedSet(t, l, o, now)
  {
    var i :| i in l && l[i].webhook == w && Retained(l[i], o, now);
    assert l[i].webhook in Webhooks(l);
  }

  lemma StuckKnown(t: Tables, l: Legacy, o: Options, now: Time)
    ensures StuckAmong(t, l, o, now, Stuck(t, l, o, now))
  {
    forall w | Selected(t, l, w, o, now) && !LastIsNewest(l, w) ensures w in Stuck(t, l, o, now) {
      SelectedInSet(t, l, o, now, w);
    }
  }

  /** The only webhooks selected and not catching up are among stuck. */
  ghost predicate StuckAmong(t: Tables, l: Legacy, o: Options, now: Time, stuck: set<DeliveryId>) {
    forall w :: Selected(t, l, w, o, now) ==> LastIsNewest(l, w) || w in stuck
  }

  lemma PassKeepsStuck(t: Tables, l: Legacy, o: Options, now: Time, later: Time, stuck: set<DeliveryId>)
    requires BackfillAll(t, l, Batch(t, l, o, now), now).Ok? && now <= later && StuckAmong(t, l, o, now, stuck)
    ensures StuckAmong(BackfillAll(t, l, Batch(t, l, o, now), now).value, l, o, later, stuck)
  {
    var keys := Batch(t, l, o, now);
    var t1 := BackfillAll(t, l, keys, now).value;
    BatchIsSelected(t, l, o, now);
    forall w | Selected(t1, l, w, o, later) ensures LastIsNewest(l, w) || w in stuck {
      RetainedEarlier(l, w, o, now, later);
      BatchCatchesUp(t, l, keys, now, w);
      assert w !in Ids(keys) ==> Selected(t, l, w, o, now);
      if k :| k in keys && k.id == w {
        assert Selected(t, l, k.id, o, now);
      }
    }
  }

  /** After pass n, no stuck webhook is retained. */
  ghost predicate AgedBy(l: Legacy, o: Options, clock: nat -> Time, stuck: set<DeliveryId>, n: nat) {
    forall w :: w in stuck ==> !HasRetained(l, w, o, clock(n))
  }

  lemma StillAged(l: Legacy, o: Options, clock: nat -> Time, stuck: set<DeliveryId>, n: nat, i: nat)
    requires Monotone(clock) && AgedBy(l, o, clock, stuck, n) && n <= i
    ensures AgedBy(l, o, clock, stuck, i)
  {
    forall w | w in stuck ensures !HasRetained(l, w, o, clock(i)) {
      EarlierReading(clock, n, i);
      if HasRetained(l, w, o, clock(i)) {
        RetainedEarlier(l, w, o, clock(n), clock(i));
      }
    }
  }

  lemma {:induction false} AllAge(l: Legacy, o: Options, clock: nat -> Time, stuck: set<DeliveryId>) returns (n: nat)
    requires Monotone(clock) && (forall w :: w in stuck ==> AgesOut(l, w, o, clock))
    ensures AgedBy(l, o, clock, stuck, n)
  {
    if stuck == {} {
      n := 0;
    } else {
      var w :| w in stuck;
      var m := AllAge(l, o, clock, stuck - {w});
      var k: nat :| !HasRetained(l, w, o, clock(k));
      n := if m <= k then k else m;
      StillAged(l, o, clock, stuck - {w}, m, n);
      StillAged(l, o, clock, {w}, k, n);
    }
  }

  /** Once the stuck webhooks have aged out, every pass leaves fewer to select. */
  lemma AgedPassShrinks(t: Tables, l: Legacy, o: Options, now: Time, later: Time, stuck: set<DeliveryId>)
    requires Batch(t, l, o, now) != [] && BackfillAll(t, l, Batch(t, l, o, now), now).Ok? && now <= later
    requires StuckAmong(t, l, o, now, stuck) && (forall w :: w in stuck ==> !HasRetained(l, w, o, now))
    ensures |SelectedSet(BackfillAll(t, l, Batch(t, l, o, now), now).value, l, o, later)| < |SelectedSet(t, l, o, now)|
  {
    PassShrinks(t, l, o, now);
    var t1 := BackfillAll(t, l, Batch(t, l, o, now), now).value;
    forall w | w in SelectedSet(t1, l, o, later) ensures w in SelectedSet(t1, l, o, now) {
      RetainedEarlier(l, w, o, now, later);
    }
    SubsetSize(SelectedSet(t1, l, o, later), SelectedSet(t1, l, o, now));
  }

  lemma {:induction false} HaltsFrom(t: Tables, l: Legacy, o: Options, clock: nat -> Time, i: nat,
                                     stuck: set<DeliveryId>, aged: nat) returns (n: nat)
    requires o.batch > 0 && Importable(t, l) && Monotone(clock)
    requires StuckAmong(t, l, o, clock(i), stuck) && AgedBy(l, o, clock, stuck, aged)
    ensures Halts(t, l, o, clock, i, n)
    decreases if i < aged then aged - i else 0, |SelectedSet(t, l, o, clock(i))|
  {
    var keys := Batch(t, l, o, clock(i));
    if keys == [] {
      n := 1;
    } else {
      BatchIsSelected(t, l, o, clock(i));
      ImportableKept(t, l, keys, clock(i));
      EarlierReading(clock, i, i + 1);
      PassKeepsStuck(t, l, o, clock(i), clock(i + 1), stuck);
      if aged <= i {
        StillAged(l, o, clock, stuck, aged, i);
        AgedPassShrinks(t, l, o, clock(i), clock(i + 1), stuck);
      }
      var m := HaltsFrom(BackfillAll(t, l, keys, clock(i)).value, l, o, clock, i + 1, stuck, aged);
      n := m + 1;
    }
  }

  ghost predicate Terminates(t: Tables, l: Legacy, o: Options, clock: nat -> Time) {
    exists n: nat :: Halts(t, l, o, clock, 0, n)
  }

  /** Repeating the pass until it migrates nothing ends if and only if every webhook
      that the first pass could select, and whose last attempt is not its newest,
      ages out of the retention while the loop runs. */
  lemma LoopHaltsIff(t: Tables, l: Legacy, o: Options, clock: nat -> Time)
    requires o.batch > 0 && Importable(t, l) && Monotone(clock)
    ensures Terminates(t, l, o, clock)
            <==> (forall w :: w in Stuck(t, l, o, clock(0)) ==> AgesOut(l, w, o, clock))
  {
    if forall w :: w in Stuck(t, l, o, clock(0)) ==> AgesOut(l, w, o, clock) {
      var aged := AllAge(l, o, clock, Stuck(t, l, o, clock(0)));
      StuckKnown(t, l, o, clock(0));
      var n := HaltsFrom(t, l, o, clock, 0, Stuck(t, l, o, clock(0)), aged);
    } else {
      var w :| w in Stuck(t, l, o, clock(0)) && !AgesOut(l, w, o, clock);
      forall n: nat ensures !Halts(t, l, o, clock, 0, n) {
        StuckForever(t, l, o, clock, 0, w, n);
      }
    }
  }

  predicate HasOutstanding(l: Legacy, w: DeliveryId) {
    exists i :: i in l && l[i].webhook == w && Outstanding(l[i])
  }

  /** When the last of the attempts leaves the retention. */
  lemma {:induction false} RetainedUntil(l: Legacy, o: Options, ids: set<nat>) returns (at: Time)
    requires ids <= l.Keys
    ensures forall i :: i in ids ==> l[i].updatedAt + o.successSince <= at && l[i].updatedAt + o.failedSince <= at
  {
    if ids == {} {
      at := 0;
    } else {
      var i :| i in ids;
      at := RetainedUntil(l, o, ids - {i});
      if at < l[i].updatedAt + o.successSince {
        at := l[i].updatedAt + o.successSince;
      }
      if at < l[i].updatedAt + o.failedSince {
        at := l[i].updatedAt + o.failedSince;
      }
    }
  }

  lemma FinishedAgesOut(l: Legacy, w: DeliveryId, o: Options, clock: nat -> Time)
    requires Unbounded(clock) && !HasOutstanding(l, w)
    ensures AgesOut(l, w, o, clock)
  {
    var at := RetainedUntil(l, o, l.Keys);
    assert Exceeds(clock, at);
    var n: nat :| at < clock(n);
    forall i | i in l && l[i].webhook == w ensures !Retained(l[i], o, clock(n)) {
      assert i in l.Keys;
    }
    assert !HasRetained(l, w, o, clock(n));
  }

  /** Under a clock that exceeds every time, the loop ends if and only if no webhook
      that the first pass could select, and whose last attempt is not its newest, has
      an outstanding attempt. */
  lemma LoopHaltsUnlessOutstanding(t: Tables, l: Legacy, o: Options, clock: nat -> Time)
    requires o.batch > 0 && Importable(t, l) && Monotone(clock) && Unbounded(clock)
    ensures Terminates(t, l, o, clock)
            <==> (forall w :: w in Stuck(t, l, o, clock(0)) ==> !HasOutstanding(l, w))
  {
    LoopHaltsIff(t, l, o, clock);
    forall w | w in Stuck(t, l, o, clock(0)) ensures AgesOut(l, w, o, clock) <==> !HasOutstanding(l, w) {
      if HasOutstanding(l, w) {
        var i :| i in l && l[i].webhook == w && Outstanding(l[i]);
        OutstandingNeverAges(l, o, clock, i);
      } else {
        FinishedAgesOut(l, w, o, clock);
      }
    }
  }

  /** An outstanding attempt never ages: the loop then runs for ever, whatever the
      clock does. */
  lemma OutstandingNeverAges(l: Legacy, o: Options, clock: nat -> Time, i: nat)
    requires i in l && Outstanding(l[i])
    ensures !AgesOut(l, l[i].webhook, o, clock)
  {
    forall n: nat ensures HasRetained(l, l[i].webhook, o, clock(n)) {
      assert Retained(l[i], o, clock(n));
    }
  }
}
