/** The import and the engine, one after the other: the engine may start from what
    the import leaves, and the import may run again after the engine has. */
module Upgrade {
  import opened Clock
  import opened Results
  import opened Backoff
  import opened Keyset
  import opened Tables
  import opened Invariants
  import opened Protocol
  import opened Lifecycle
  import opened Fencing
  import opened Reachable
  import opened FencingResults
  import opened Outcomes
  import opened Backfill

  /** The engine may start from whatever the import has left. */
  lemma ImportIsStart(t: Tables, l: Legacy, keys: seq<Key>, now: Time)
    requires NewlyImported(t, l, now) && BackfillAll(t, l, keys, now).Ok?
    requires forall i :: i in l ==> l[i].createdAt <= now
    ensures var t1 := BackfillAll(t, l, keys, now).value;
            Start(World(t1, now, [], t1.deliveries.Keys, []))
  {
    PassKeepsNewlyImported(t, l, keys, now);
  }

  // ---- What a run does to the imported rows ----

  /** The row is as it was, or gone, or stamped since. */
  predicate KeptOrStamped(r0: Option<Delivery>, r: Option<Delivery>, since: Time) {
    r == r0 || r.None? || since <= r.value.updatedAt
  }

  lemma MoveStamps(r0: Option<Delivery>, r: Option<Delivery>, r1: Option<Delivery>, since: Time, now: Time)
    requires RowStep(r, r1, now) && KeptOrStamped(r0, r, since) && since <= now && (r.None? ==> r1.None?)
    ensures KeptOrStamped(r0, r1, since)
  {
  }

  lemma {:induction false} RunStamps(p: Policy, w: World, steps: seq<Step>, i: DeliveryId, r0: Option<Delivery>, since: Time)
    requires Inv(p, w) && i in w.issued && since <= w.now && KeptOrStamped(r0, w.t.Row(i), since)
    ensures KeptOrStamped(r0, Run(p, w, steps).t.Row(i), since)
    decreases |steps|
  {
    if steps != [] {
      var w1 := Apply(p, w, steps[0]);
      TransitionGraph(p, w, steps[0], i);
      MoveStamps(r0, w.t.Row(i), w1.t.Row(i), since, w.now);
      StepKeepsInv(p, w, steps[0]);
      WorldGrows(p, w, steps[0]);
      RunStamps(p, w1, steps[1..], i, r0, since);
    }
  }

  lemma WorldGrows(p: Policy, w: World, s: Step)
    ensures w.issued <= Apply(p, w, s).issued && w.now <= Apply(p, w, s).now
  {
  }

  /** The legacy rows of w are those that w0 had. */
  ghost predicate SameLegacy(t0: Tables, t: Tables) {
    forall i :: i in t.deliveries && t.deliveries[i].event.Legacy? ==>
      i in t0.deliveries && t0.deliveries[i].event == t.deliveries[i].event
  }

  lemma StepKeepsLegacy(p: Policy, w: World, s: Step)
    requires Inv(p, w)
    ensures SameLegacy(w.t, Apply(p, w, s).t)
  {
    var t1 := Apply(p, w, s).t;
    forall i | i in t1.deliveries && t1.deliveries[i].event.Legacy?
      ensures i in w.t.deliveries && w.t.deliveries[i].event == t1.deliveries[i].event
    {
      TransitionGraph(p, w, s, i);
      LegacyStays(w.t.Row(i), t1.Row(i), w.now);
    }
  }

  lemma LegacyStays(r: Option<Delivery>, r1: Option<Delivery>, now: Time)
    requires RowStep(r, r1, now) && r1.Some? && r1.value.event.Legacy?
    ensures r.Some? && r.value.event == r1.value.event
  {
  }

  lemma {:induction false} RunKeepsLegacy(p: Policy, w: World, steps: seq<Step>)
    requires Inv(p, w)
    ensures SameLegacy(w.t, Run(p, w, steps).t)
    decreases |steps|
  {
    if steps != [] {
      StepKeepsInv(p, w, steps[0]);
      StepKeepsLegacy(p, w, steps[0]);
      RunKeepsLegacy(p, Apply(p, w, steps[0]), steps[1..]);
    }
  }

  /** Rows under old IDs keep their event and config. */
  ghost predicate SameIdentity(w: World, w1: World) {
    && w.issued <= w1.issued
    && forall i :: i in w.issued && i in w1.t.deliveries ==>
         i in w.t.deliveries && w1.t.deliveries[i].event == w.t.deliveries[i].event
         && w1.t.deliveries[i].config == w.t.deliveries[i].config
  }

  lemma StepKeepsIdentity(p: Policy, w: World, s: Step)
    requires Inv(p, w)
    ensures SameIdentity(w, Apply(p, w, s))
  {
    var w1 := Apply(p, w, s);
    WorldGrows(p, w, s);
    forall i | i in w.issued && i in w1.t.deliveries
      ensures i in w.t.deliveries && w1.t.deliveries[i].event == w.t.deliveries[i].event
      ensures w1.t.deliveries[i].config == w.t.deliveries[i].config
    {
      TransitionGraph(p, w, s, i);
      IdentityKept(w.t.Row(i), w1.t.Row(i), w.now);
    }
  }

  lemma {:induction false} RunKeepsIdentity(p: Policy, w: World, steps: seq<Step>)
    requires Inv(p, w)
    ensures SameIdentity(w, Run(p, w, steps))
    decreases |steps|
  {
    if steps != [] {
      StepKeepsInv(p, w, steps[0]);
      StepKeepsIdentity(p, w, steps[0]);
      RunKeepsIdentity(p, Apply(p, w, steps[0]), steps[1..]);
    }
  }

  lemma EngineLeavesImportable(p: Policy, w0: World, steps: seq<Step>, l: Legacy)
    requires Inv(p, w0) && Importable(w0.t, l) && Webhooks(l) <= w0.issued
    ensures Importable(Run(p, w0, steps).t, l)
  {
    RunKeepsIdentity(p, w0, steps);
  }

  // ---- Running the import again ----

  /** Every attempt of the webhook is older than the row. */
  predicate StampedSince(t: Tables, l: Legacy, w: DeliveryId) {
    w in t.deliveries && forall i :: i in l && l[i].webhook == w ==> l[i].updatedAt <= t.deliveries[w].updatedAt
  }

  /** Each legacy row has the count of its import, or was stamped since. */
  ghost predicate Rerunnable(t: Tables, l: Legacy) {
    && LegacyKeyed(t)
    && forall w :: w in t.deliveries && t.deliveries[w].event == EventId.Legacy(w) ==>
         HistoryFits(t, l, w) || StampedSince(t, l, w)
  }

  /** After any run of the engine, if no old worker wrote an attempt since the import. */
  lemma EngineLeavesRerunnable(p: Policy, w0: World, steps: seq<Step>, l: Legacy)
    requires Start(w0) && NewlyImported(w0.t, l, w0.now) && (forall i :: i in l ==> l[i].updatedAt <= w0.now)
    ensures Rerunnable(Run(p, w0, steps).t, l)
  {
    var t := Run(p, w0, steps).t;
    StartSatisfies(p, w0);
    RunKeepsLegacy(p, w0, steps);
    forall w | w in t.deliveries && t.deliveries[w].event == EventId.Legacy(w)
      ensures HistoryFits(t, l, w) || StampedSince(t, l, w)
    {
      assert w in w0.t.deliveries && Imported(w0.t, l, w);
      RunStamps(p, w0, steps, w, w0.t.Row(w), w0.now);
    }
  }

  /** A row stamped after every attempt of its webhook is not selected. */
  lemma StampedIsNotSelected(t: Tables, l: Legacy, w: DeliveryId, o: Options, now: Time)
    requires StampedSince(t, l, w) && t.deliveries[w].event == EventId.Legacy(w)
    ensures !Selected(t, l, w, o, now)
  {
  }

  lemma ImportFits(t: Tables, l: Legacy, w: DeliveryId, now: Time)
    requires BackfillWebhook(t, l, w, now).Ok? && History(l, w) != [] && HistoryFits(t, l, w)
    ensures HistoryFits(BackfillWebhook(t, l, w, now).value, l, w)
  {
  }

  lemma ImportKeepsRerunnable(t: Tables, l: Legacy, w: DeliveryId, now: Time)
    requires Rerunnable(t, l) && BackfillWebhook(t, l, w, now).Ok? && History(l, w) != [] && HistoryFits(t, l, w)
    ensures Rerunnable(BackfillWebhook(t, l, w, now).value, l)
  {
    var t1 := BackfillWebhook(t, l, w, now).value;
    BackfillImports(t, l, w, now);
    ImportFits(t, l, w, now);
    OthersStay(t, t1, l, w);
  }

  lemma OthersStay(t: Tables, t1: Tables, l: Legacy, w: DeliveryId)
    requires Rerunnable(t, l) && LegacyKeyed(t1) && HistoryFits(t1, l, w)
    requires forall i :: i != w ==> t1.Row(i) == t.Row(i)
    ensures Rerunnable(t1, l)
  {
    forall x | x in t1.deliveries && t1.deliveries[x].event == EventId.Legacy(x) && x != w
      ensures HistoryFits(t1, l, x) || StampedSince(t1, l, x)
    {
      assert t1.Row(x) == t.Row(x);
    }
  }

  lemma FitsStill(t: Tables, l: Legacy, w: DeliveryId, now: Time, x: DeliveryId)
    requires BackfillWebhook(t, l, w, now).Ok? && History(l, w) != [] && HistoryFits(t, l, w) && HistoryFits(t, l, x)
    ensures HistoryFits(BackfillWebhook(t, l, w, now).value, l, x)
  {
    BackfillImports(t, l, w, now);
    if x == w {
      ImportFits(t, l, w, now);
    } else {
      assert BackfillWebhook(t, l, w, now).value.Row(x) == t.Row(x);
    }
  }

  /** Importing webhooks whose rows fit keeps every invariant, and touches no other
      row. */
  lemma {:induction false} BatchKeeps(t: Tables, l: Legacy, keys: seq<Key>, now: Time)
    requires TableInv(t, now) && Rerunnable(t, l) && BackfillAll(t, l, keys, now).Ok?
    requires forall k :: k in keys ==> HasHistory(l, k.id) && HistoryFits(t, l, k.id)
    requires forall i :: i in l ==> l[i].createdAt <= now
    ensures var t1 := BackfillAll(t, l, keys, now).value;
            && TableInv(t1, now) && Rerunnable(t1, l)
            && (forall i :: i !in Ids(keys) ==> t1.Row(i) == t.Row(i))
    decreases |keys|
  {
    if keys != [] {
      var w := keys[0].id;
      assert keys[0] in keys;
      var t1 := BackfillWebhook(t, l, w, now).value;
      ImportKeepsTables(t, l, w, now);
      ImportKeepsRerunnable(t, l, w, now);
      BackfillImports(t, l, w, now);
      forall k | k in keys[1..] ensures HasHistory(l, k.id) && HistoryFits(t1, l, k.id) {
        assert k in keys;
        FitsStill(t, l, w, now, k.id);
      }
      BatchKeeps(t1, l, keys[1..], now);
      IdsCons(keys);
    }
  }

  /** A pass of the command leaves every row alone that was stamped since its import,
      and the attempt history without a gap. */
  lemma PassIsSafe(t: Tables, l: Legacy, o: Options, now: Time)
    requires TableInv(t, now) && Rerunnable(t, l) && BackfillAll(t, l, Batch(t, l, o, now), now).Ok?
    requires forall i :: i in l ==> l[i].createdAt <= now
    requires Importable(t, l)
    ensures var t1 := BackfillAll(t, l, Batch(t, l, o, now), now).value;
            && TableInv(t1, now) && Rerunnable(t1, l) && Importable(t1, l)
            && (forall i :: StampedSince(t, l, i) ==> t1.Row(i) == t.Row(i))
            && (forall i :: i !in Webhooks(l) ==> t1.Row(i) == t.Row(i))
  {
    var keys := Batch(t, l, o, now);
    BatchIsSelected(t, l, o, now);
    forall k | k in keys ensures HasHistory(l, k.id) && HistoryFits(t, l, k.id) && !StampedSince(t, l, k.id) {
      SelectedFits(t, l, k.id, o, now);
    }
    BatchKeeps(t, l, keys, now);
    ImportableKept(t, l, keys, now);
    forall i | i in Ids(keys) ensures i in Webhooks(l) && !StampedSince(t, l, i) {
      var k :| k in keys && k.id == i;
    }
  }

  lemma SelectedFits(t: Tables, l: Legacy, w: DeliveryId, o: Options, now: Time)
    requires Rerunnable(t, l) && Selected(t, l, w, o, now) && Importable(t, l) && w in Webhooks(l)
    ensures HistoryFits(t, l, w) && !StampedSince(t, l, w)
  {
    if w in t.deliveries && StampedSince(t, l, w) {
      StampedIsNotSelected(t, l, w, o, now);
      assert false;
    }
  }

  lemma LaterTables(t: Tables, now: Time, later: Time)
    requires TableInv(t, now) && now <= later
    ensures TableInv(t, later)
  {
  }

  lemma {:induction false} PassesAreSafe(t: Tables, l: Legacy, o: Options, clock: nat -> Time, n: nat)
    requires TableInv(t, clock(0)) && Rerunnable(t, l) && Importable(t, l) && Monotone(clock)
    requires forall i :: i in l ==> l[i].createdAt <= clock(0)
    ensures var t1 := AfterPasses(t, l, o, clock, n);
            && TableInv(t1, clock(n)) && Rerunnable(t1, l) && Importable(t1, l)
            && (forall i :: StampedSince(t, l, i) || i !in Webhooks(l) ==> t1.Row(i) == t.Row(i))
  {
    if n > 0 {
      PassesAreSafe(t, l, o, clock, n - 1);
      var t1 := AfterPasses(t, l, o, clock, n - 1);
      EarlierReading(clock, 0, n - 1);
      EarlierReading(clock, n - 1, n);
      forall i | StampedSince(t, l, i) ensures StampedSince(t1, l, i) {
        assert t1.Row(i) == t.Row(i);
      }
      if BackfillAll(t1, l, Batch(t1, l, o, clock(n - 1)), clock(n - 1)).Ok? {
        PassIsSafe(t1, l, o, clock(n - 1));
        LaterTables(AfterPasses(t, l, o, clock, n), clock(n - 1), clock(n));
      } else {
        LaterTables(t1, clock(n - 1), clock(n));
      }
    }
  }

  /** Running the command again after the engine has run, with no old worker writing
      attempts meanwhile, leaves every row alone that the engine has stamped, and keeps
      every invariant, the attempt numbering among them, however many passes it takes. */
  lemma RerunIsSafe(p: Policy, w0: World, steps: seq<Step>, l: Legacy, o: Options, clock: nat -> Time, n: nat)
    requires Start(w0) && NewlyImported(w0.t, l, w0.now) && Monotone(clock)
    requires forall i :: i in l ==> l[i].updatedAt <= w0.now && l[i].createdAt <= w0.now
    requires Importable(w0.t, l) && Webhooks(l) <= w0.issued && Run(p, w0, steps).now <= clock(0)
    ensures var t := Run(p, w0, steps).t;
            var t1 := AfterPasses(t, l, o, clock, n);
            && TableInv(t1, clock(n))
            && (forall i :: i in w0.t.deliveries && i in t.deliveries && t.Row(i) != w0.t.Row(i) ==> t1.Row(i) == t.Row(i))
  {
    var w := Run(p, w0, steps);
    StartSatisfies(p, w0);
    RunKeepsInv(p, w0, steps);
    ClockOfRun(p, w0, steps);
    EngineLeavesRerunnable(p, w0, steps, l);
    EngineLeavesImportable(p, w0, steps, l);
    LaterTables(w.t, w.now, clock(0));
    PassesAreSafe(w.t, l, o, clock, n);
    forall i | i in w0.t.deliveries && i in w.t.deliveries && w.t.Row(i) != w0.t.Row(i)
      ensures StampedSince(w.t, l, i)
    {
      RunStamps(p, w0, steps, i, w0.t.Row(i), w0.now);
    }
  }

  lemma {:induction false} ClockOfRun(p: Policy, w: World, steps: seq<Step>)
    ensures w.now <= Run(p, w, steps).now
    decreases |steps|
  {
    if steps != [] {
      WorldGrows(p, w, steps[0]);
      ClockOfRun(p, Apply(p, w, steps[0]), steps[1..]);
    }
  }
}
