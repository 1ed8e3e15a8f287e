/** The backfill-deliveries command (cmd/backfill_deliveries.go): passes of the
    import until one migrates nothing. */
module BackfillCommand {
  import opened Clock
  import opened Results
  import opened Keyset
  import opened Tables
  import opened Backfill
  import opened PostgresStore

  lemma PrefixOf(t: Tables, l: Legacy, keys: seq<Key>, now: Time, n: nat)
    requires n <= |keys| && BackfillAll(t, l, keys[..n], now).Ok?
    requires forall k :: k in keys ==> HasHistory(l, k.id) && k.id in Lagging(t, l)
    requires forall i, j :: 0 <= i < j < |keys| ==> keys[i].id != keys[j].id
    requires forall k :: k in keys ==> LastIsNewest(l, k.id)
    ensures |Lagging(BackfillAll(t, l, keys[..n], now).value, l)| == |Lagging(t, l)| - n
  {
    forall k | k in keys[..n] ensures HasHistory(l, k.id) && k.id in Lagging(t, l) && LastIsNewest(l, k.id) {
      assert k in keys;
    }
    PassAccounts(t, l, keys[..n], now);
  }

  /** What a pass does to the tables, whatever prefix of its batch it imported. */
  lemma PrefixAccounts(t: Tables, l: Legacy, o: Options, now: Time, n: nat)
    requires n <= |Batch(t, l, o, now)| && BackfillAll(t, l, Batch(t, l, o, now)[..n], now).Ok?
    requires StuckAmong(t, l, o, now, {})
    ensures |Lagging(BackfillAll(t, l, Batch(t, l, o, now)[..n], now).value, l)| == |Lagging(t, l)| - n
  {
    BatchLags(t, l, o, now);
    BatchIsDistinct(t, l, o, now);
    BatchIsSelected(t, l, o, now);
    PrefixOf(t, l, Batch(t, l, o, now), now, n);
  }

  lemma {:induction false} PassKeepsImported(t: Tables, l: Legacy, keys: seq<Key>, now: Time)
    requires AllImported(t, l) && BackfillAll(t, l, keys, now).Ok?
    ensures AllImported(BackfillAll(t, l, keys, now).value, l)
    decreases |keys|
  {
    if keys != [] {
      ImportKeepsImported(t, l, keys[0].id, now);
      PassKeepsImported(BackfillWebhook(t, l, keys[0].id, now).value, l, keys[1..], now);
    }
  }

  /** Every webhook with a retained attempt after the epoch has its import. */
  ghost predicate Complete(t: Tables, l: Legacy, o: Options, now: Time) {
    forall i :: i in l && Retained(l[i], o, now) && EPOCH < l[i].updatedAt ==> Imported(t, l, l[i].webhook)
  }

  lemma EmptyBatchIsComplete(t: Tables, l: Legacy, o: Options, now: Time)
    requires o.batch > 0 && AllImported(t, l) && Batch(t, l, o, now) == []
    ensures Complete(t, l, o, now)
  {
    forall i | i in l && Retained(l[i], o, now) && EPOCH < l[i].updatedAt ensures Imported(t, l, l[i].webhook) {
      if Selected(t, l, l[i].webhook, o, now) {
        SelectedFillsBatch(t, l, o, now, l[i].webhook);
        assert false;
      }
      UnselectedIsImported(t, l, l[i].webhook, o, now, i);
    }
  }

  /** A pass that may have stopped at an error. */
  lemma PrefixPass(t: Tables, t1: Tables, l: Legacy, o: Options, now: Time, n: nat, stuck: set<DeliveryId>)
    requires n <= |Batch(t, l, o, now)| && BackfillAll(t, l, Batch(t, l, o, now)[..n], now) == Ok(t1)
    requires StuckAmong(t, l, o, now, stuck)
    ensures AllImported(t, l) ==> AllImported(t1, l)
    ensures stuck == {} ==> |Lagging(t1, l)| == |Lagging(t, l)| - n
  {
    if AllImported(t, l) {
      PassKeepsImported(t, l, Batch(t, l, o, now)[..n], now);
    }
    if stuck == {} {
      PrefixAccounts(t, l, o, now, n);
    }
  }

  /** Where every import is possible, no pass stops, and none makes one impossible. */
  lemma PrefixOfImportable(t: Tables, t1: Tables, l: Legacy, keys: seq<Key>, now: Time, n: nat)
    requires n <= |keys| && BackfillAll(t, l, keys[..n], now) == Ok(t1)
    requires Importable(t, l) && (forall k :: k in keys ==> k.id in Webhooks(l))
    ensures Importable(t1, l)
    ensures n < |keys| ==> BackfillWebhook(t1, l, keys[n].id, now).Ok?
  {
    forall k | k in keys[..n] ensures k.id in Webhooks(l) {
      assert k in keys;
    }
    ImportableKept(t, l, keys[..n], now);
    if n < |keys| {
      assert keys[n] in keys;
      ImportPossible(t1, l, keys[n].id, now);
    }
  }

  lemma ImportPossible(t: Tables, l: Legacy, w: DeliveryId, now: Time)
    requires Importable(t, l) && w in Webhooks(l)
    ensures BackfillWebhook(t, l, w, now).Ok?
  {
  }

  lemma PassOfImportable(t: Tables, t1: Tables, l: Legacy, o: Options, now: Time, n: nat)
    requires n <= |Batch(t, l, o, now)| && BackfillAll(t, l, Batch(t, l, o, now)[..n], now) == Ok(t1)
    requires Importable(t, l)
    ensures Importable(t1, l)
    ensures n < |Batch(t, l, o, now)| ==> BackfillWebhook(t1, l, Batch(t, l, o, now)[n].id, now).Ok?
  {
    BatchIsSelected(t, l, o, now);
    PrefixOfImportable(t, t1, l, Batch(t, l, o, now), now, n);
  }

  // ---- The loop's invariant ----

  /** The tables after i passes. Quantified, so that the passes are unfolded only where a
      proof asks for them. */
  ghost predicate ArePassed(t0: Tables, t: Tables, l: Legacy, o: Options, clock: nat -> Time, i: nat) {
    forall m: nat :: i <= m <= i ==> t == AfterPasses(t0, l, o, clock, m)
  }

  lemma OnePassMore(t0: Tables, t: Tables, t1: Tables, l: Legacy, o: Options, clock: nat -> Time, i: nat)
    requires ArePassed(t0, t, l, o, clock, i)
    requires BackfillAll(t, l, Batch(t, l, o, clock(i)), clock(i)) == Ok(t1)
    ensures ArePassed(t0, t1, l, o, clock, i + 1)
  {
    assert t == AfterPasses(t0, l, o, clock, i);
  }

  /** What holds before the i-th pass; the tables were t0 before the first. */
  ghost predicate Going(t0: Tables, t: Tables, l: Legacy, o: Options, clock: nat -> Time, i: nat,
                        stuck: set<DeliveryId>, total: nat) {
    && ArePassed(t0, t, l, o, clock, i)
    && Safe(t0, t, l)
    && StuckAmong(t, l, o, clock(i), stuck)
    && (stuck == {} ==> total == |Lagging(t0, l)| - |Lagging(t, l)|)
  }

  /** What no pass takes away. */
  ghost predicate Safe(t0: Tables, t: Tables, l: Legacy) {
    && (AllImported(t0, l) ==> AllImported(t, l))
    && (Importable(t0, l) ==> Importable(t, l))
  }

  /** How many webhooks are selected now. */
  ghost predicate LeftIs(t: Tables, l: Legacy, o: Options, now: Time, left: nat) {
    left == |SelectedSet(t, l, o, now)|
  }

  /** A pass, whether it stops early or not. */
  lemma AnyPass(t0: Tables, t: Tables, t1: Tables, l: Legacy, o: Options, clock: nat -> Time, i: nat,
                stuck: set<DeliveryId>, total: nat, n: nat)
    requires Going(t0, t, l, o, clock, i, stuck, total)
    requires n <= |Batch(t, l, o, clock(i))| && BackfillAll(t, l, Batch(t, l, o, clock(i))[..n], clock(i)) == Ok(t1)
    ensures Safe(t0, t1, l)
    ensures stuck == {} ==> total + n == |Lagging(t0, l)| - |Lagging(t1, l)|
    ensures Importable(t0, l) && n < |Batch(t, l, o, clock(i))| ==>
              BackfillWebhook(t1, l, Batch(t, l, o, clock(i))[n].id, clock(i)).Ok?
  {
    PrefixPass(t, t1, l, o, clock(i), n, stuck);
    if Importable(t0, l) {
      PassOfImportable(t, t1, l, o, clock(i), n);
    }
  }

  lemma Advances(t0: Tables, t: Tables, t1: Tables, l: Legacy, o: Options, clock: nat -> Time, i: nat,
                 stuck: set<DeliveryId>, aged: nat, total: nat, n: nat, left: nat)
    returns (left1: nat)
    requires Going(t0, t, l, o, clock, i, stuck, total) && Monotone(clock) && AgedBy(l, o, clock, stuck, aged)
    requires n == |Batch(t, l, o, clock(i))| > 0 && BackfillAll(t, l, Batch(t, l, o, clock(i))[..n], clock(i)) == Ok(t1)
    requires LeftIs(t, l, o, clock(i), left)
    ensures Going(t0, t1, l, o, clock, i + 1, stuck, total + n)
    ensures LeftIs(t1, l, o, clock(i + 1), left1) && (aged <= i ==> left1 < left)
  {
    left1 := |SelectedSet(t1, l, o, clock(i + 1))|;
    AnyPass(t0, t, t1, l, o, clock, i, stuck, total, n);
    FullPass(t, t1, l, o, clock, i, n, stuck, aged);
    OnePassMore(t0, t, t1, l, o, clock, i);
  }

  /** A pass that migrated nothing had nothing left to select. */
  lemma NothingSelected(t: Tables, l: Legacy, o: Options, now: Time)
    requires o.batch > 0 && Batch(t, l, o, now) == []
    ensures forall w :: !Selected(t, l, w, o, now)
    ensures AllImported(t, l) ==> Complete(t, l, o, now)
  {
    forall w ensures !Selected(t, l, w, o, now) {
      if Selected(t, l, w, o, now) {
        SelectedFillsBatch(t, l, o, now, w);
      }
    }
    if AllImported(t, l) {
      EmptyBatchIsComplete(t, l, o, now);
    }
  }

  /** After that many passes nothing is left to select. If every legacy row was the import
      of its webhook, the import is complete; if all last attempts are newest, every
      delivery is counted once. */
  ghost predicate CameToAnEnd(t0: Tables, t1: Tables, l: Legacy, o: Options, clock: nat -> Time, passes: nat, total: nat) {
    && t1 == AfterPasses(t0, l, o, clock, passes)
    && (forall w :: !Selected(t1, l, w, o, clock(passes)))
    && (AllImported(t0, l) ==> AllImported(t1, l) && Complete(t1, l, o, clock(passes)))
    && (Stuck(t0, l, o, clock(0)) == {} ==> total == |Lagging(t0, l)| - |Lagging(t1, l)|)
  }

  /** An import was impossible; whole imports were made before it. */
  ghost predicate StoppedShort(t0: Tables, t1: Tables, l: Legacy, o: Options, start: Time, total: nat) {
    && !Importable(t0, l)
    && (AllImported(t0, l) ==> AllImported(t1, l))
    && (Stuck(t0, l, o, start) == {} ==> total <= |Lagging(t0, l)| - |Lagging(t1, l)|)
  }

  /** The webhooks that importing does not catch up age out while the command runs. */
  ghost predicate StuckAgeOut(t: Tables, l: Legacy, o: Options, clock: nat -> Time) {
    forall w :: w in Stuck(t, l, o, clock(0)) ==> AgesOut(l, w, o, clock)
  }

  lemma Begins(t: Tables, l: Legacy, o: Options, clock: nat -> Time) returns (aged: nat)
    requires Monotone(clock) && StuckAgeOut(t, l, o, clock)
    ensures Going(t, t, l, o, clock, 0, Stuck(t, l, o, clock(0)), 0)
    ensures AgedBy(l, o, clock, Stuck(t, l, o, clock(0)), aged)
  {
    aged := AllAge(l, o, clock, Stuck(t, l, o, clock(0)));
    StuckKnown(t, l, o, clock(0));
  }

  /** A pass that stops early met an impossible import. */
  lemma Fails(t0: Tables, t: Tables, t1: Tables, l: Legacy, o: Options, clock: nat -> Time, i: nat,
              stuck: set<DeliveryId>, total: nat, n: nat)
    requires Going(t0, t, l, o, clock, i, stuck, total)
    requires n < |Batch(t, l, o, clock(i))| && BackfillAll(t, l, Batch(t, l, o, clock(i))[..n], clock(i)) == Ok(t1)
    requires BackfillWebhook(t1, l, Batch(t, l, o, clock(i))[n].id, clock(i)).Err?
    ensures stuck == Stuck(t0, l, o, clock(0)) ==> StoppedShort(t0, t1, l, o, clock(0), total)
  {
    AnyPass(t0, t, t1, l, o, clock, i, stuck, total, n);
  }

  /** The pass after which the loop stops leaves the tables alone. */
  lemma Stops(t0: Tables, t: Tables, t1: Tables, l: Legacy, o: Options, clock: nat -> Time, i: nat,
              stuck: set<DeliveryId>, total: nat)
    requires Going(t0, t, l, o, clock, i, stuck, total) && o.batch > 0
    requires Batch(t, l, o, clock(i)) == [] && BackfillAll(t, l, Batch(t, l, o, clock(i))[..0], clock(i)) == Ok(t1)
    ensures stuck == Stuck(t0, l, o, clock(0)) ==> CameToAnEnd(t0, t1, l, o, clock, i, total)
  {
    NothingSelected(t, l, o, clock(i));
  }

  /** A pass that migrated its whole batch comes nearer to the end. */
  lemma FullPass(t: Tables, t1: Tables, l: Legacy, o: Options, clock: nat -> Time, i: nat, n: nat,
                 stuck: set<DeliveryId>, aged: nat)
    requires n == |Batch(t, l, o, clock(i))| > 0 && BackfillAll(t, l, Batch(t, l, o, clock(i))[..n], clock(i)) == Ok(t1)
    requires Monotone(clock) && StuckAmong(t, l, o, clock(i), stuck) && AgedBy(l, o, clock, stuck, aged)
    ensures BackfillAll(t, l, Batch(t, l, o, clock(i)), clock(i)) == Ok(t1)
    ensures StuckAmong(t1, l, o, clock(i + 1), stuck)
    ensures aged <= i ==> |SelectedSet(t1, l, o, clock(i + 1))| < |SelectedSet(t, l, o, clock(i))|
  {
    assert Batch(t, l, o, clock(i))[..n] == Batch(t, l, o, clock(i));
    EarlierReading(clock, i, i + 1);
    PassKeepsStuck(t, l, o, clock(i), clock(i + 1), stuck);
    if aged <= i {
      StillAged(l, o, clock, stuck, aged, i);
      AgedPassShrinks(t, l, o, clock(i), clock(i + 1), stuck);
    }
  }

  /** Each pass reads the clock anew. The loop ends exactly under its precondition: the
      webhooks that importing does not catch up age out. It may start from tables
      that the engine has changed since an earlier import. Only an impossible import
      stops it before the end, so it may be repeated. */
  method BackfillAllDeliveries(store: Store, l: Legacy, successSince: int, failedSince: int, batchSize: int,
                               clock: nat -> Time)
    returns (total: nat, err: Option<BackfillError>, passes: nat)
    requires Monotone(clock)
    requires StuckAgeOut(store.Contents(), l, OptionsOf(successSince, failedSince, batchSize), clock)
    modifies store
    ensures var o := OptionsOf(successSince, failedSince, batchSize);
            if err.None? then CameToAnEnd(old(store.Contents()), store.Contents(), l, o, clock, passes, total)
            else StoppedShort(old(store.Contents()), store.Contents(), l, o, clock(0), total)
  {
    total, passes := 0, 0;
    ghost var t0, o := store.Contents(), OptionsOf(successSince, failedSince, batchSize);
    ghost var stuck := Stuck(t0, l, o, clock(0));
    ghost var aged: nat := Begins(t0, l, o, clock);
    ghost var left: nat := |SelectedSet(t0, l, o, clock(0))|;
    while true
      invariant Going(t0, store.Contents(), l, o, clock, passes, stuck, total)
      invariant LeftIs(store.Contents(), l, o, clock(passes), left)
      decreases if passes < aged then aged - passes else 0, left
    {
      ghost var t := store.Contents();
      var migrated;
      migrated, err := store.BackfillDeliveries(l, successSince, failedSince, batchSize, clock(passes));
      if err.Some? {
        Fails(t0, t, store.Contents(), l, o, clock, passes, stuck, total, migrated);
        return;
      }
      ghost var before := total;
      total := total + migrated;
      if migrated == 0 {
        Stops(t0, t, store.Contents(), l, o, clock, passes, stuck, before);
        return;
      }
      left := Advances(t0, t, store.Contents(), l, o, clock, passes, stuck, aged, before, migrated, left);
      passes := passes + 1;
    }
  }
}
