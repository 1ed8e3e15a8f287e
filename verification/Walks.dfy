/** Walks over the deliveries table while the engine keeps running: the bulk
    replay that follows its cursors, and the listing. */
module Walks {
  import opened Clock
  import opened Results
  import opened Backoff
  import opened Keyset
  import opened Tables
  import opened Transactions
  import opened Invariants
  import opened Protocol
  import opened Fencing
  import opened Reachable
  import opened FencingResults
  import opened Outcomes

  // ---- Sort keys never change ----

  /** w1 comes after w: rows of w that are still there have the key they had, and
      no ID of w is reused. */
  ghost predicate Follows(w: World, w1: World) {
    && w.issued <= w1.issued
    && (forall i :: i in w.issued && i in w1.t.deliveries ==>
          i in w.t.deliveries && w1.t.deliveries[i].createdAt == w.t.deliveries[i].createdAt
          && w1.t.deliveries[i].config == w.t.deliveries[i].config)
  }

  lemma StepFollows(p: Policy, w: World, s: Step)
    requires Inv(p, w)
    ensures Follows(w, Apply(p, w, s))
  {
    var w1 := Apply(p, w, s);
    forall i | i in w.issued && i in w1.t.deliveries
      ensures i in w.t.deliveries && w1.t.deliveries[i].createdAt == w.t.deliveries[i].createdAt
      ensures w1.t.deliveries[i].config == w.t.deliveries[i].config
    {
      TransitionGraph(p, w, s, i);
      IdentityKept(w.t.Row(i), w1.t.Row(i), w.now);
    }
    IssuedGrows(p, w, s);
  }

  lemma IssuedGrows(p: Policy, w: World, s: Step)
    ensures w.issued <= Apply(p, w, s).issued
  {
    if s.Claim? {
      ClaimedAreRows(w.t, s.limit, w.now);
    }
  }

  lemma {:induction false} RunFollows(p: Policy, w: World, steps: seq<Step>)
    requires Inv(p, w)
    ensures Inv(p, Run(p, w, steps)) && Follows(w, Run(p, w, steps))
    decreases |steps|
  {
    if steps != [] {
      StepKeepsInv(p, w, steps[0]);
      StepFollows(p, w, steps[0]);
      RunFollows(p, Apply(p, w, steps[0]), steps[1..]);
    }
  }

  // ---- Bulk replay ----

  /** Any steps, then a request, under an idempotency key. */
  datatype Leg = Leg(gap: seq<Step>, sent: BulkRequest, key: IdempotencyKey)

  /** The worlds that the requests of a run find. */
  ghost function Worlds(p: Policy, w: World, legs: seq<Leg>): seq<World>
    decreases |legs|
  {
    if legs == [] then []
    else
      var w1 := Run(p, w, legs[0].gap);
      [w1] + Worlds(p, Apply(p, w1, ReplayBulk(legs[0].sent, legs[0].key)), legs[1..])
  }

  ghost predicate Known(w: World) {
    w.t.deliveries.Keys <= w.issued
  }

  /** Worlds that come after one another. */
  ghost predicate Following(worlds: seq<World>) {
    && (forall j :: 0 <= j < |worlds| ==> Known(worlds[j]))
    && (forall i, j :: 0 <= i < j < |worlds| ==> Follows(worlds[i], worlds[j]))
  }

  lemma FollowsTransitive(w: World, w1: World, w2: World)
    requires Follows(w, w1) && Follows(w1, w2)
    ensures Follows(w, w2)
  {
  }

  lemma LegFollows(p: Policy, w: World, leg: Leg)
    requires Inv(p, w)
    ensures var w1 := Run(p, w, leg.gap);
            var w2 := Apply(p, w1, ReplayBulk(leg.sent, leg.key));
            && Inv(p, w1) && Follows(w, w1) && Inv(p, w2) && Follows(w1, w2) && Follows(w, w2)
  {
    RunFollows(p, w, leg.gap);
    var w1 := Run(p, w, leg.gap);
    StepKeepsInv(p, w1, ReplayBulk(leg.sent, leg.key));
    StepFollows(p, w1, ReplayBulk(leg.sent, leg.key));
    FollowsTransitive(w, w1, Apply(p, w1, ReplayBulk(leg.sent, leg.key)));
  }

  lemma FollowingCons(w: World, w1: World, w2: World, rest: seq<World>)
    requires Follows(w, w1) && Follows(w1, w2) && Follows(w, w2) && Known(w1) && Following(rest)
    requires forall j :: 0 <= j < |rest| ==> Follows(w2, rest[j])
    ensures Following([w1] + rest)
    ensures forall j :: 0 <= j < |[w1] + rest| ==> Follows(w, ([w1] + rest)[j])
  {
    forall j | 0 <= j < |rest| ensures Follows(w1, rest[j]) && Follows(w, rest[j]) {
      FollowsTransitive(w1, w2, rest[j]);
      FollowsTransitive(w, w2, rest[j]);
    }
  }

  /** The worlds a run goes through follow one another. */
  lemma {:induction false} WorldsFollow(p: Policy, w: World, legs: seq<Leg>)
    requires Inv(p, w)
    ensures Following(Worlds(p, w, legs))
    ensures forall j :: 0 <= j < |Worlds(p, w, legs)| ==> Follows(w, Worlds(p, w, legs)[j])
    decreases |legs|
  {
    if legs != [] {
      LegFollows(p, w, legs[0]);
      var w1 := Run(p, w, legs[0].gap);
      var w2 := Apply(p, w1, ReplayBulk(legs[0].sent, legs[0].key));
      WorldsFollow(p, w2, legs[1..]);
      FollowingCons(w, w1, w2, Worlds(p, w2, legs[1..]));
    }
  }

  /** The page a request touched in the world it found. */
  datatype Visit = Visit(before: World, request: BulkRequest, page: seq<Key>)

  /** A request as the store runs it: bounds frozen, defaults filled in. */
  predicate Frozen(r: BulkRequest) {
    r.to.Some? && r.statuses != [] && 0 < r.pageSize <= MAX_PAGE
  }

  /** The pages of r, each read in the next world, from the cursor of the last. */
  function BulkWalk(worlds: seq<World>, r: BulkRequest): seq<Visit>
    requires Frozen(r)
    decreases |worlds|
  {
    if worlds == [] then []
    else
      var page := BulkPage(worlds[0].t, r);
      [Visit(worlds[0], r, page)] +
      if BulkHasMore(worlds[0].t, r) && page != []
      then BulkWalk(worlds[1..], r.(cursor := Some(page[|page| - 1])))
      else []
  }

  /** The walk reached a page without a next cursor. */
  predicate Finished(worlds: seq<World>, r: BulkRequest)
    requires Frozen(r)
    decreases |worlds|
  {
    worlds != [] &&
    var page := BulkPage(worlds[0].t, r);
    BulkHasMore(worlds[0].t, r) && page != [] ==> Finished(worlds[1..], r.(cursor := Some(page[|page| - 1])))
  }

  function Contents(visits: seq<Visit>, r: BulkRequest): seq<set<Key>>
    requires r.to.Some?
  {
    seq(|visits|, j requires 0 <= j < |visits| => CandidateKeys(visits[j].before.t, r))
  }

  function PagesOf(visits: seq<Visit>): seq<seq<Key>> {
    seq(|visits|, j requires 0 <= j < |visits| => visits[j].page)
  }

  lemma CursorIrrelevant(t: Tables, r: BulkRequest, c: Option<Key>)
    requires r.to.Some?
    ensures CandidateKeys(t, r.(cursor := c)) == CandidateKeys(t, r)
  {
    assert forall d :: InBulk(t, d, r.(cursor := c)) <==> InBulk(t, d, r);
    assert (map i | i in t.deliveries && InBulk(t, t.deliveries[i], r.(cursor := c)) :: t.deliveries[i].createdAt)
        == (map i | i in t.deliveries && InBulk(t, t.deliveries[i], r) :: t.deliveries[i].createdAt);
  }

  /** One page in front of a keyset walk. */
  lemma WalkCons(tables: seq<set<Key>>, rest: seq<set<Key>>, cursor: Option<Key>, n: nat)
    requires n > 0 && tables != [] && tables[1..] == rest
    ensures var page := Page(Asc, tables[0], cursor, n);
            if HasMore(Asc, tables[0], cursor, n)
            then && |page| == n
                 && Walk(Asc, tables, cursor, n) == [page] + Walk(Asc, rest, Some(page[n - 1]), n)
                 && (Ends(Asc, tables, cursor, n) <==> Ends(Asc, rest, Some(page[n - 1]), n))
            else Walk(Asc, tables, cursor, n) == [page] && Ends(Asc, tables, cursor, n)
  {
  }

  lemma ContentsCons(v: Visit, rest: seq<Visit>, r: BulkRequest, c: Option<Key>)
    requires r.to.Some?
    ensures Contents([v] + rest, r)[1..] == Contents(rest, r.(cursor := c))
    ensures PagesOf([v] + rest) == [v.page] + PagesOf(rest)
  {
    ContentsOfAny(rest, r, c);
    ContentsTail(v, rest, r);
  }

  lemma ContentsOfAny(visits: seq<Visit>, r: BulkRequest, c: Option<Key>)
    requires r.to.Some?
    ensures Contents(visits, r) == Contents(visits, r.(cursor := c))
  {
    forall j | 0 <= j < |visits| ensures Contents(visits, r)[j] == Contents(visits, r.(cursor := c))[j] {
      CursorIrrelevant(visits[j].before.t, r, c);
    }
  }

  lemma ContentsTail(v: Visit, rest: seq<Visit>, r: BulkRequest)
    requires r.to.Some?
    ensures Contents([v] + rest, r)[1..] == Contents(rest, r)
    ensures PagesOf([v] + rest) == [v.page] + PagesOf(rest)
  {
  }

  /** The visits are the pages of a keyset walk over what they found. */
  ghost predicate KeysetWalk(visits: seq<Visit>, r: BulkRequest)
    requires Frozen(r)
  {
    Walk(Asc, Contents(visits, r), r.cursor, r.pageSize) == PagesOf(visits)
  }

  ghost predicate WalkEnds(visits: seq<Visit>, r: BulkRequest)
    requires Frozen(r)
  {
    Ends(Asc, Contents(visits, r), r.cursor, r.pageSize)
  }

  lemma MoreVisits(v: Visit, r: BulkRequest, rest: seq<Visit>)
    requires Frozen(r) && v.page == BulkPage(v.before.t, r) && BulkHasMore(v.before.t, r)
    ensures v.page != []
    ensures var r1 := r.(cursor := Some(v.page[|v.page| - 1]));
            && (KeysetWalk(rest, r1) ==> KeysetWalk([v] + rest, r))
            && (WalkEnds([v] + rest, r) <==> WalkEnds(rest, r1))
  {
    PageBounds(Asc, CandidateKeys(v.before.t, r), r.cursor, r.pageSize);
    var r1 := r.(cursor := Some(v.page[|v.page| - 1]));
    ContentsCons(v, rest, r, r1.cursor);
    WalkCons(Contents([v] + rest, r), Contents(rest, r1), r.cursor, r.pageSize);
    assert PagesOf([v] + rest) == [v.page] + PagesOf(rest);
  }

  lemma LastVisit(v: Visit, r: BulkRequest)
    requires Frozen(r) && v.page == BulkPage(v.before.t, r) && !BulkHasMore(v.before.t, r)
    ensures KeysetWalk([v], r) && WalkEnds([v], r)
  {
    WalkCons(Contents([v], r), [], r.cursor, r.pageSize);
    assert PagesOf([v]) == [v.page];
  }

  /** The bulk walk is a keyset walk over what the pages found. */
  lemma {:induction false} BulkWalkIsKeysetWalk(worlds: seq<World>, r: BulkRequest)
    requires Frozen(r)
    ensures var visits := BulkWalk(worlds, r);
            && KeysetWalk(visits, r)
            && (Finished(worlds, r) <==> WalkEnds(visits, r))
            && (!Finished(worlds, r) ==> |visits| == |worlds|)
    decreases |worlds|
  {
    if worlds != [] {
      var v := Visit(worlds[0], r, BulkPage(worlds[0].t, r));
      if BulkHasMore(worlds[0].t, r) {
        MoreVisits(v, r, []);
        var r1 := r.(cursor := Some(v.page[|v.page| - 1]));
        BulkWalkIsKeysetWalk(worlds[1..], r1);
        MoreVisits(v, r, BulkWalk(worlds[1..], r1));
      } else {
        LastVisit(v, r);
      }
    }
  }

  // ---- Each delivery at most once, and exactly once if it matches throughout ----

  predicate SameBut(r: BulkRequest, r1: BulkRequest) {
    r1 == r.(cursor := r1.cursor)
  }

  predicate VisitOf(w: World, r: BulkRequest, v: Visit) {
    v.before == w && Frozen(v.request) && SameBut(r, v.request) && v.page == BulkPage(w.t, v.request)
  }

  /** The pages of a walk are read in turn, and differ only in their cursor. */
  lemma {:induction false} VisitAt(worlds: seq<World>, r: BulkRequest, j: nat)
    requires Frozen(r) && j < |BulkWalk(worlds, r)|
    ensures j < |worlds| && VisitOf(worlds[j], r, BulkWalk(worlds, r)[j])
    decreases j
  {
    if j > 0 {
      var page := BulkPage(worlds[0].t, r);
      VisitAt(worlds[1..], r.(cursor := Some(page[|page| - 1])), j - 1);
    }
  }

  lemma {:induction false} FlattenOnce(dir: Direction, pages: seq<seq<Key>>, i: nat, j: nat, k: Key)
    requires Ascending(dir, Flatten(pages)) && i < j < |pages| && k in pages[i]
    ensures k !in pages[j]
  {
    var rest := pages[1..];
    AscendingSplit(dir, pages[0], Flatten(rest));
    assert rest[j - 1] == pages[j];
    if i == 0 {
      FlattenMember(rest, k);
    } else {
      assert rest[i - 1] == pages[i];
      FlattenOnce(dir, rest, i - 1, j - 1, k);
    }
  }

  /** A delivery has one sort key, the same on every page that shows it. */
  lemma OnPage(v: Visit, id: DeliveryId)
    requires Frozen(v.request) && v.page == BulkPage(v.before.t, v.request)
    ensures id in Ids(v.page) ==>
              && id in v.before.t.deliveries && InBulk(v.before.t, v.before.t.deliveries[id], v.request)
              && Key(v.before.t.deliveries[id].createdAt, id) in v.page
  {
    BulkPageLive(v.before.t, v.request);
    if id in Ids(v.page) {
      var k :| k in v.page && k.id == id;
      assert k in CandidateKeys(v.before.t, v.request);
    }
  }

  /** A walk touches each delivery at most once, whatever happens to it between the
      pages: it may fail again and meet the filters again, and is still left alone. */
  lemma TouchedAtMostOnce(worlds: seq<World>, r: BulkRequest, i: nat, j: nat, id: DeliveryId)
    requires Frozen(r) && Following(worlds) && i < j < |BulkWalk(worlds, r)|
    requires id in Ids(BulkWalk(worlds, r)[i].page)
    ensures id !in Ids(BulkWalk(worlds, r)[j].page)
  {
    var visits := BulkWalk(worlds, r);
    BulkWalkIsKeysetWalk(worlds, r);
    WalkAscends(Asc, Contents(visits, r), r.cursor, r.pageSize);
    VisitAt(worlds, r, i);
    VisitAt(worlds, r, j);
    assert Follows(worlds[i], worlds[j]);
    OnPage(visits[i], id);
    OnPage(visits[j], id);
    FlattenOnce(Asc, PagesOf(visits), i, j, Key(worlds[i].t.deliveries[id].createdAt, id));
  }

  /** No page before the j-th touches delivery id. */
  predicate Untouched(visits: seq<Visit>, j: nat, id: DeliveryId) {
    forall i :: 0 <= i < j && i < |visits| ==> id !in Ids(visits[i].page)
  }

  /** Until a page touches it, delivery id meets the filters whenever one is read;
      what happens to it afterwards, by that page or by a worker, is left open. */
  predicate MeetsUntilTouched(visits: seq<Visit>, r: BulkRequest, id: DeliveryId)
    requires r.to.Some?
  {
    forall j :: 0 <= j < |visits| && Untouched(visits, j, id) ==>
      var t := visits[j].before.t;
      id in t.deliveries &&
      var d := t.deliveries[id];
      && r.from <= d.createdAt <= r.to.value && d.status in r.statuses
      && (r.configIds == [] || d.config in r.configIds)
      && d.config in t.configs && t.configs[d.config].active && t.configs[d.config].deletedAt.None?
  }

  lemma UnreadIsUntouched(worlds: seq<World>, r: BulkRequest, j: nat, id: DeliveryId, k: Key)
    requires Frozen(r) && Following(worlds) && j < |BulkWalk(worlds, r)|
    requires worlds != [] && id in worlds[0].t.deliveries && k == Key(worlds[0].t.deliveries[id].createdAt, id)
    requires Unread(PagesOf(BulkWalk(worlds, r)), j, k)
    ensures Untouched(BulkWalk(worlds, r), j, id)
  {
    var visits := BulkWalk(worlds, r);
    forall i | 0 <= i < j ensures id !in Ids(visits[i].page) {
      VisitAt(worlds, r, i);
      OnPage(visits[i], id);
      assert i > 0 ==> Follows(worlds[0], worlds[i]);
      assert k !in PagesOf(visits)[i];
    }
  }

  lemma KeyUntilTouched(worlds: seq<World>, r: BulkRequest, id: DeliveryId, k: Key)
    requires Frozen(r) && Following(worlds) && worlds != []
    requires MeetsUntilTouched(BulkWalk(worlds, r), r, id)
    requires id in worlds[0].t.deliveries && k == Key(worlds[0].t.deliveries[id].createdAt, id)
    ensures var visits := BulkWalk(worlds, r);
            forall j :: 0 <= j < |visits| && Unread(PagesOf(visits), j, k) ==> k in Contents(visits, r)[j]
  {
    var visits := BulkWalk(worlds, r);
    forall j | 0 <= j < |visits| && Unread(PagesOf(visits), j, k) ensures k in Contents(visits, r)[j] {
      UnreadIsUntouched(worlds, r, j, id, k);
      VisitAt(worlds, r, j);
      assert j > 0 ==> Follows(worlds[0], worlds[j]);
      MeetsIsCandidate(visits, r, id, j);
    }
  }

  lemma MeetsIsCandidate(visits: seq<Visit>, r: BulkRequest, id: DeliveryId, j: nat)
    requires r.to.Some? && MeetsUntilTouched(visits, r, id) && j < |visits| && Untouched(visits, j, id)
    ensures id in visits[j].before.t.deliveries
    ensures Key(visits[j].before.t.deliveries[id].createdAt, id) in CandidateKeys(visits[j].before.t, r)
  {
  }

  /** The one page of a finished walk that touches such a delivery. */
  lemma TouchedExactlyOnce(worlds: seq<World>, r: BulkRequest, id: DeliveryId) returns (i: nat)
    requires Frozen(r) && Following(worlds) && Finished(worlds, r) && r.cursor.None?
    requires MeetsUntilTouched(BulkWalk(worlds, r), r, id)
    ensures var visits := BulkWalk(worlds, r);
            i < |visits| && forall j :: 0 <= j < |visits| ==> (id in Ids(visits[j].page) <==> j == i)
  {
    var visits := BulkWalk(worlds, r);
    BulkWalkIsKeysetWalk(worlds, r);
    assert visits != [] && Untouched(visits, 0, id);
    MeetsIsCandidate(visits, r, id, 0);
    VisitAt(worlds, r, 0);
    var k := Key(worlds[0].t.deliveries[id].createdAt, id);
    KeyUntilTouched(worlds, r, id, k);
    WalkCovers(Asc, Contents(visits, r), None, r.pageSize, k);
    FlattenMember(PagesOf(visits), k);
    i :| 0 <= i < |visits| && k in PagesOf(visits)[i];
    assert k in visits[i].page;
    forall j | 0 <= j < |visits| && j != i ensures id !in Ids(visits[j].page) {
      if i < j {
        TouchedAtMostOnce(worlds, r, i, j, id);
      } else if id in Ids(visits[j].page) {
        TouchedAtMostOnce(worlds, r, j, i, id);
      }
    }
  }

  /** A walk into whose window no row is added reaches its last page. */
  lemma BulkWalkTerminates(worlds: seq<World>, r: BulkRequest, window: set<Key>)
    requires Frozen(r) && worlds != []
    requires forall v :: v in BulkWalk(worlds, r) ==> CandidateKeys(v.before.t, r) <= window
    requires |After(Asc, window, r.cursor)| <= r.pageSize * |worlds|
    ensures Finished(worlds, r)
  {
    var visits := BulkWalk(worlds, r);
    BulkWalkIsKeysetWalk(worlds, r);
    if !Finished(worlds, r) {
      forall j | 0 <= j < |visits| ensures Contents(visits, r)[j] <= window {
        assert visits[j] in visits;
      }
      WalkTerminates(Asc, window, Contents(visits, r), r.cursor, r.pageSize);
    }
  }

  // ---- A run that adds nothing to the window ----

  predicate Within(d: Delivery, r: BulkRequest)
    requires r.to.Some?
  {
    r.from <= d.createdAt <= r.to.value
  }

  /** No event of the steps is stamped inside the window. */
  predicate EnqueuesOutside(steps: seq<Step>, r: BulkRequest)
    requires r.to.Some?
  {
    forall j :: 0 <= j < |steps| && steps[j].Enqueue? ==> !(r.from <= steps[j].createdAt <= r.to.value)
  }

  ghost predicate NoneAdded(w: World, w1: World, r: BulkRequest)
    requires r.to.Some?
  {
    forall i :: i in w1.t.deliveries && Within(w1.t.deliveries[i], r) ==>
      i in w.t.deliveries && w.t.deliveries[i].createdAt == w1.t.deliveries[i].createdAt
  }

  lemma StepAddsNone(p: Policy, w: World, s: Step, r: BulkRequest)
    requires Inv(p, w) && r.to.Some? && (s.Enqueue? ==> !(r.from <= s.createdAt <= r.to.value))
    ensures NoneAdded(w, Apply(p, w, s), r)
  {
    var w1 := Apply(p, w, s);
    StepFollows(p, w, s);
    forall i | i in w1.t.deliveries && Within(w1.t.deliveries[i], r)
      ensures i in w.t.deliveries && w.t.deliveries[i].createdAt == w1.t.deliveries[i].createdAt
    {
      if i !in w.t.deliveries {
        InsertedByEnqueue(p, w, s, i);
      }
    }
  }

  lemma {:induction false} RunAddsNone(p: Policy, w: World, steps: seq<Step>, r: BulkRequest)
    requires Inv(p, w) && r.to.Some? && EnqueuesOutside(steps, r)
    ensures NoneAdded(w, Run(p, w, steps), r)
    decreases |steps|
  {
    if steps != [] {
      StepKeepsInv(p, w, steps[0]);
      StepAddsNone(p, w, steps[0], r);
      RunAddsNone(p, Apply(p, w, steps[0]), steps[1..], r);
    }
  }

  lemma NoneAddedTransitive(w: World, w1: World, w2: World, r: BulkRequest)
    requires r.to.Some? && NoneAdded(w, w1, r) && NoneAdded(w1, w2, r)
    ensures NoneAdded(w, w2, r)
  {
  }

  lemma {:induction false} WorldsAddNone(p: Policy, w: World, legs: seq<Leg>, r: BulkRequest)
    requires Inv(p, w) && r.to.Some? && (forall j :: 0 <= j < |legs| ==> EnqueuesOutside(legs[j].gap, r))
    ensures |Worlds(p, w, legs)| == |legs|
    ensures NoneAddedBy(w, Worlds(p, w, legs), r)
    decreases |legs|
  {
    if legs != [] {
      LegFollows(p, w, legs[0]);
      var w1 := Run(p, w, legs[0].gap);
      var w2 := Apply(p, w1, ReplayBulk(legs[0].sent, legs[0].key));
      RunAddsNone(p, w, legs[0].gap, r);
      StepAddsNone(p, w1, ReplayBulk(legs[0].sent, legs[0].key), r);
      WorldsAddNone(p, w2, legs[1..], r);
      NoneAddedCons(w, w1, w2, Worlds(p, w2, legs[1..]), r);
    }
  }

  ghost predicate NoneAddedBy(w: World, worlds: seq<World>, r: BulkRequest)
    requires r.to.Some?
  {
    forall j :: 0 <= j < |worlds| ==> NoneAdded(w, worlds[j], r)
  }

  lemma NoneAddedCons(w: World, w1: World, w2: World, rest: seq<World>, r: BulkRequest)
    requires r.to.Some? && NoneAdded(w, w1, r) && NoneAdded(w1, w2, r) && NoneAddedBy(w2, rest, r)
    ensures NoneAddedBy(w, [w1] + rest, r)
  {
    NoneAddedTransitive(w, w1, w2, r);
    forall j | 0 <= j < |rest| ensures NoneAdded(w, rest[j], r) {
      NoneAddedTransitive(w, w2, rest[j], r);
    }
  }

  /** The rows of the window, whatever their status. */
  function WindowKeys(t: Tables, r: BulkRequest): set<Key>
    requires r.to.Some?
  {
    KeySet(map i | i in t.deliveries && Within(t.deliveries[i], r) :: t.deliveries[i].createdAt)
  }

  /** Over a run whose events are all stamped outside the window, a walk comes to
      its end within as many pages as the rows in it at first. */
  lemma BulkWalkEnds(p: Policy, w: World, r: BulkRequest, legs: seq<Leg>)
    requires Frozen(r) && Inv(p, w) && legs != []
    requires forall j :: 0 <= j < |legs| ==> EnqueuesOutside(legs[j].gap, r)
    requires |After(Asc, WindowKeys(w.t, r), r.cursor)| <= r.pageSize * |legs|
    ensures Finished(Worlds(p, w, legs), r)
  {
    var worlds := Worlds(p, w, legs);
    WorldsAddNone(p, w, legs, r);
    forall v | v in BulkWalk(worlds, r) ensures CandidateKeys(v.before.t, r) <= WindowKeys(w.t, r) {
      var j :| 0 <= j < |BulkWalk(worlds, r)| && BulkWalk(worlds, r)[j] == v;
      VisitAt(worlds, r, j);
      InWindow(w, worlds[j], r);
    }
    BulkWalkTerminates(worlds, r, WindowKeys(w.t, r));
  }

  lemma InWindow(w: World, w1: World, r: BulkRequest)
    requires r.to.Some? && NoneAdded(w, w1, r)
    ensures CandidateKeys(w1.t, r) <= WindowKeys(w.t, r)
  {
    forall k | k in CandidateKeys(w1.t, r) ensures k in WindowKeys(w.t, r) {
      assert InBulk(w1.t, w1.t.deliveries[k.id], r);
      assert Within(w1.t.deliveries[k.id], r);
    }
  }

  // ---- What a walk adds to a generation ----

  lemma TokenIrrelevant(t: Tables, r: BulkRequest)
    requires r.to.Some? && r.pageSize > 0
    ensures BulkPage(t, r.(token := None)) == BulkPage(t, r)
    ensures BulkHasMore(t, r.(token := None)) == BulkHasMore(t, r)
  {
    assert forall d :: InBulk(t, d, r.(token := None)) <==> InBulk(t, d, r);
    assert (map i | i in t.deliveries && InBulk(t, t.deliveries[i], r.(token := None)) :: t.deliveries[i].createdAt)
        == (map i | i in t.deliveries && InBulk(t, t.deliveries[i], r) :: t.deliveries[i].createdAt);
    assert CandidateKeys(t, r.(token := None)) == CandidateKeys(t, r);
  }

  function GenerationOf(t: Tables, id: DeliveryId): nat {
    if id in t.deliveries then t.deliveries[id].generation else 0
  }

  /** What one request adds to the generation of delivery id. */
  ghost function Gain(w: World, leg: Leg, id: DeliveryId): int {
    GenerationOf(ReplayDeliveries(w.t, leg.sent, leg.key, w.now).tables, id) - GenerationOf(w.t, id)
  }

  function Sum(s: seq<int>): int {
    if s == [] then 0 else Sum(s[..|s| - 1]) + s[|s| - 1]
  }

  /** What the first n requests add. */
  ghost function Gains(worlds: seq<World>, legs: seq<Leg>, n: nat, id: DeliveryId): seq<int>
    requires n <= |worlds| && n <= |legs|
  {
    seq(n, j requires 0 <= j < n => Gain(worlds[j], legs[j], id))
  }

  /** What is sent in a world asks for a page of the walk, the token aside. */
  predicate Asks(sent: BulkRequest, w: World, v: Visit) {
    Normalize(sent, w.now).(token := None) == v.request.(token := None)
  }

  lemma RowsGain(t: Tables, t1: Tables, ids: set<DeliveryId>, now: Time, id: DeliveryId)
    requires t1.deliveries == BulkRows(t, ids, now)
    ensures var gain := GenerationOf(t1, id) - GenerationOf(t, id);
            gain == 0 || (gain == 1 && id in ids)
  {
  }

  lemma GainOfRequest(w: World, leg: Leg, id: DeliveryId)
    ensures Gain(w, leg, id) == 0
            || (Gain(w, leg, id) == 1 && id in Ids(BulkPage(w.t, Normalize(leg.sent, w.now))))
  {
    var replay := ReplayDeliveries(w.t, leg.sent, leg.key, w.now);
    if ReplayCached(w.t, leg.key, Bulk(leg.sent.(cursor := None)), w.now) == Miss {
      RowsGain(w.t, replay.tables, Ids(BulkPage(w.t, Normalize(leg.sent, w.now))), w.now, id);
    }
  }

  lemma AskedPage(w: World, leg: Leg, v: Visit)
    requires Asks(leg.sent, w, v) && Frozen(v.request) && v.page == BulkPage(w.t, v.request)
    ensures BulkPage(w.t, Normalize(leg.sent, w.now)) == v.page
  {
    TokenIrrelevant(w.t, v.request);
    TokenIrrelevant(w.t, Normalize(leg.sent, w.now));
  }

  lemma TouchedFirstTime(worlds: seq<World>, r: BulkRequest, j: nat, id: DeliveryId)
    requires Frozen(r) && Following(worlds) && j < |BulkWalk(worlds, r)| && id in Ids(BulkWalk(worlds, r)[j].page)
    ensures Untouched(BulkWalk(worlds, r), j, id)
  {
    forall i | 0 <= i < j ensures id !in Ids(BulkWalk(worlds, r)[i].page) {
      if id in Ids(BulkWalk(worlds, r)[i].page) {
        TouchedAtMostOnce(worlds, r, i, j, id);
      }
    }
  }

  lemma {:induction false} SumOnce(gains: seq<int>, touched: seq<bool>)
    requires |gains| == |touched|
    requires forall j :: 0 <= j < |gains| ==> gains[j] == 0 || (gains[j] == 1 && touched[j])
    requires forall i, j :: 0 <= i < j < |touched| ==> !(touched[i] && touched[j])
    ensures Sum(gains) == 0 || (Sum(gains) == 1 && true in touched)
  {
    if gains != [] {
      var n := |gains| - 1;
      SumOnce(gains[..n], touched[..n]);
      assert gains[n] == 1 ==> touched[n] && true !in touched[..n];
    }
  }

  lemma GainAt(worlds: seq<World>, legs: seq<Leg>, r: BulkRequest, j: nat, id: DeliveryId)
    requires Frozen(r) && j < |BulkWalk(worlds, r)| && j < |legs| && j < |worlds|
    requires Asks(legs[j].sent, worlds[j], BulkWalk(worlds, r)[j])
    ensures Gain(worlds[j], legs[j], id) == 0
            || (Gain(worlds[j], legs[j], id) == 1 && id in Ids(BulkWalk(worlds, r)[j].page))
  {
    VisitAt(worlds, r, j);
    GainOfRequest(worlds[j], legs[j], id);
    AskedPage(worlds[j], legs[j], BulkWalk(worlds, r)[j]);
  }

  lemma GainsOnce(worlds: seq<World>, legs: seq<Leg>, r: BulkRequest, id: DeliveryId)
    requires Frozen(r) && Following(worlds) && |BulkWalk(worlds, r)| <= |worlds| && |BulkWalk(worlds, r)| <= |legs|
    requires forall j :: 0 <= j < |BulkWalk(worlds, r)| ==> Asks(legs[j].sent, worlds[j], BulkWalk(worlds, r)[j])
    ensures 0 <= Sum(Gains(worlds, legs, |BulkWalk(worlds, r)|, id)) <= 1
  {
    var visits := BulkWalk(worlds, r);
    var gains := Gains(worlds, legs, |visits|, id);
    var touched := seq(|visits|, j requires 0 <= j < |visits| => id in Ids(visits[j].page));
    forall j | 0 <= j < |visits| ensures gains[j] == 0 || (gains[j] == 1 && touched[j]) {
      GainAt(worlds, legs, r, j, id);
    }
    forall i, j | 0 <= i < j < |visits| ensures !(touched[i] && touched[j]) {
      if touched[j] {
        TouchedFirstTime(worlds, r, j, id);
      }
    }
    SumOnce(gains, touched);
  }

  lemma {:induction false} WorldsLength(p: Policy, w: World, legs: seq<Leg>)
    ensures |Worlds(p, w, legs)| == |legs|
    decreases |legs|
  {
    if legs != [] {
      var w1 := Run(p, w, legs[0].gap);
      WorldsLength(p, Apply(p, w1, ReplayBulk(legs[0].sent, legs[0].key)), legs[1..]);
    }
  }

  lemma WalkLength(worlds: seq<World>, r: BulkRequest)
    requires Frozen(r)
    ensures |BulkWalk(worlds, r)| <= |worlds|
  {
    if BulkWalk(worlds, r) != [] {
      VisitAt(worlds, r, |BulkWalk(worlds, r)| - 1);
    }
  }

  /** The requests of a run ask for the pages of the walk of r. */
  ghost predicate Follow(p: Policy, w: World, legs: seq<Leg>, r: BulkRequest)
    requires Frozen(r)
  {
    var worlds := Worlds(p, w, legs);
    forall j :: 0 <= j < |BulkWalk(worlds, r)| && j < |legs| && j < |worlds| ==>
      Asks(legs[j].sent, worlds[j], BulkWalk(worlds, r)[j])
  }

  /** Along a run, all the requests of a walk together add at most one to a
      delivery's generation, however often it fails again in between. */
  lemma WalkGainsAtMostOne(p: Policy, w: World, r: BulkRequest, legs: seq<Leg>, id: DeliveryId)
    requires Frozen(r) && Inv(p, w) && Follow(p, w, legs, r)
    ensures var n := |BulkWalk(Worlds(p, w, legs), r)|;
            n <= |Worlds(p, w, legs)| == |legs| && 0 <= Sum(Gains(Worlds(p, w, legs), legs, n, id)) <= 1
  {
    WorldsFollow(p, w, legs);
    WorldsLength(p, w, legs);
    WalkLength(Worlds(p, w, legs), r);
    GainsOnce(Worlds(p, w, legs), legs, r, id);
  }

  // ---- What one page does ----

  /** A page's rows are replayed or expedited and no other row changes. */
  ghost predicate PageApplied(t: Tables, t1: Tables, ids: set<DeliveryId>, now: Time) {
    && (forall i :: i in ids ==>
          i in t.deliveries && i in t1.deliveries
          && t1.deliveries[i].status == Pending && t1.deliveries[i].nextAttemptAt == Some(now)
          && t1.deliveries[i].generation == t.deliveries[i].generation + (if t.deliveries[i].status == Failed then 1 else 0))
    && (forall i :: i !in ids ==> t1.Row(i) == t.Row(i))
  }

  lemma RowsApplied(t: Tables, t1: Tables, ids: set<DeliveryId>, now: Time)
    requires forall i :: i in ids ==> i in t.deliveries && (t.deliveries[i].status == Failed || t.deliveries[i].status == Pending)
    requires t1.deliveries == BulkRows(t, ids, now)
    ensures PageApplied(t, t1, ids, now)
  {
  }

  lemma PageStatuses(t: Tables, r: BulkRequest)
    requires Frozen(r) && (forall s :: s in r.statuses ==> s in {Failed, Pending})
    ensures forall i :: i in Ids(BulkPage(t, r)) ==>
              i in t.deliveries && (t.deliveries[i].status == Failed || t.deliveries[i].status == Pending)
  {
    BulkPageLive(t, r);
    forall i | i in Ids(BulkPage(t, r)) ensures t.deliveries[i].status == Failed || t.deliveries[i].status == Pending {
      assert InBulk(t, t.deliveries[i], r);
      assert t.deliveries[i].status in r.statuses;
    }
  }

  /** Every row of the page, and no other, is replayed or expedited, none is skipped, and
      the counts say so; the cursor is the last key if and only if more rows follow. */
  ghost predicate PageDone(t: Tables, t1: Tables, r: BulkRequest, result: BulkResult, now: Time)
    requires Frozen(r)
  {
    var page := BulkPage(t, r);
    && result.replayed + result.expedited == |page| && result.skipped == 0
    && result.hasMore == BulkHasMore(t, r)
    && (BulkHasMore(t, r) ==> page != [])
    && (result.nextCursor == if BulkHasMore(t, r) then Some(page[|page| - 1]) else None)
    && PageApplied(t, t1, Ids(page), now)
  }

  /** One applied page, with the statuses the API accepts. */
  lemma PageEffect(p: Policy, w: World, sent: BulkRequest, key: IdempotencyKey)
    requires forall s :: s in sent.statuses ==> s in {Failed, Pending}
    requires ReplayCached(w.t, key, Bulk(sent.(cursor := None)), w.now) == Miss
    ensures var w1 := Apply(p, w, ReplayBulk(sent, key));
            var r := Normalize(sent, w.now);
            var result := BulkAnswer(w.t, r);
            && w1.applied == w.applied + [Application(key, Bulk(sent.(cursor := None)), BulkDone(result), w.now)]
            && PageDone(w.t, w1.t, r, result, w.now)
  {
    var r := Normalize(sent, w.now);
    BulkApplication(p, w, sent, key);
    PageAnswered(w.t, Apply(p, w, ReplayBulk(sent, key)).t, r, w.now);
  }

  lemma PageAnswered(t: Tables, t1: Tables, r: BulkRequest, now: Time)
    requires Frozen(r) && (forall s :: s in r.statuses ==> s in {Failed, Pending})
    requires t1.deliveries == BulkRows(t, Ids(BulkPage(t, r)), now)
    ensures PageDone(t, t1, r, BulkAnswer(t, r), now)
  {
    PageCounts(t, r);
    AnswerCursor(t, r);
    PageStatuses(t, r);
    RowsApplied(t, t1, Ids(BulkPage(t, r)), now);
  }

  lemma BulkApplication(p: Policy, w: World, sent: BulkRequest, key: IdempotencyKey)
    requires ReplayCached(w.t, key, Bulk(sent.(cursor := None)), w.now) == Miss
    ensures var w1 := Apply(p, w, ReplayBulk(sent, key));
            var r := Normalize(sent, w.now);
            && w1.t.deliveries == BulkRows(w.t, Ids(BulkPage(w.t, r)), w.now)
            && w1.applied == w.applied + [Application(key, Bulk(sent.(cursor := None)), BulkDone(BulkAnswer(w.t, r)), w.now)]
  {
  }

  lemma AnswerCursor(t: Tables, r: BulkRequest)
    requires Frozen(r)
    ensures var result, page := BulkAnswer(t, r), BulkPage(t, r);
            && result.hasMore == BulkHasMore(t, r)
            && (BulkHasMore(t, r) ==> page != [])
            && result.nextCursor == if BulkHasMore(t, r) then Some(page[|page| - 1]) else None
  {
    PageBounds(Asc, CandidateKeys(t, r), r.cursor, r.pageSize);
  }

  lemma PageCounts(t: Tables, r: BulkRequest)
    requires Frozen(r) && (forall s :: s in r.statuses ==> s in {Failed, Pending})
    ensures var result := BulkAnswer(t, r);
            result.replayed + result.expedited == |BulkPage(t, r)| && result.skipped == 0
  {
    var ids := Ids(BulkPage(t, r));
    BulkPageLive(t, r);
    PageIds(t, r);
    var failed, pending := WithStatus(t, ids, Failed), WithStatus(t, ids, Pending);
    assert failed + pending == ids && failed !! pending;
    assert ids - failed - pending == {};
  }

  // ---- Listing ----

  /** The pages of a listing, the i-th read from tables[i]. */
  function ListPages(tables: seq<Tables>, f: Filter): seq<ListPage> {
    if tables == [] then []
    else
      var page := FindDeliveries(tables[0], f);
      [page] + if page.hasMore then ListPages(tables[1..], f.(after := page.nextCursor)) else []
  }

  function Data(pages: seq<ListPage>): seq<Key> {
    if pages == [] then [] else pages[0].data + Data(pages[1..])
  }

  function Listings(tables: seq<Tables>, f: Filter): seq<set<Key>> {
    seq(|tables|, j requires 0 <= j < |tables| => ListKeys(tables[j], f))
  }

  lemma AfterIrrelevant(t: Tables, f: Filter, c: Option<Key>)
    ensures ListKeys(t, f.(after := c)) == ListKeys(t, f)
  {
    assert forall d :: Listed(d, f.(after := c)) <==> Listed(d, f);
    assert (map i | i in t.deliveries && Listed(t.deliveries[i], f.(after := c)) :: t.deliveries[i].createdAt)
        == (map i | i in t.deliveries && Listed(t.deliveries[i], f) :: t.deliveries[i].createdAt);
  }

  predicate Done(pages: seq<ListPage>) {
    pages != [] && !pages[|pages| - 1].hasMore
  }

  ghost predicate ListingDone(tables: seq<Tables>, f: Filter) {
    Done(ListPages(tables, f))
  }

  lemma PagesCons(page: ListPage, rest: seq<ListPage>)
    requires page.hasMore || rest == []
    ensures Data([page] + rest) == page.data + Data(rest)
    ensures Done([page] + rest) <==> (page.hasMore ==> Done(rest))
  {
    assert ([page] + rest)[1..] == rest;
    assert rest != [] ==> ([page] + rest)[|rest|] == rest[|rest| - 1];
  }

  lemma ListPageIsPage(t: Tables, f: Filter)
    ensures var n := ListSize(f.pageSize);
            var page := FindDeliveries(t, f);
            && page.data == Page(Desc, ListKeys(t, f), f.after, n)
            && page.hasMore == HasMore(Desc, ListKeys(t, f), f.after, n)
            && (page.hasMore ==> |page.data| == n && page.nextCursor == Some(page.data[n - 1]))
  {
    PageBounds(Desc, ListKeys(t, f), f.after, ListSize(f.pageSize));
  }

  lemma ListingsFrom(tables: seq<Tables>, f: Filter)
    requires tables != []
    ensures Listings(tables, f)[1..] == Listings(tables[1..], f)
  {
  }

  lemma ListingsCons(tables: seq<Tables>, f: Filter, c: Option<Key>)
    requires tables != []
    ensures Listings(tables[1..], f.(after := c)) == Listings(tables, f)[1..]
  {
    ListingsFrom(tables, f);
    var rest := tables[1..];
    forall j | 0 <= j < |rest| ensures Listings(rest, f.(after := c))[j] == Listings(rest, f)[j] {
      AfterIrrelevant(rest[j], f, c);
    }
  }

  lemma ListPagesCons(tables: seq<Tables>, f: Filter)
    requires tables != []
    ensures var page := FindDeliveries(tables[0], f);
            var f1 := f.(after := page.nextCursor);
            && Data(ListPages(tables, f)) == page.data + (if page.hasMore then Data(ListPages(tables[1..], f1)) else [])
            && (ListingDone(tables, f) <==> (page.hasMore ==> ListingDone(tables[1..], f1)))
  {
    var page := FindDeliveries(tables[0], f);
    PagesCons(page, if page.hasMore then ListPages(tables[1..], f.(after := page.nextCursor)) else []);
  }

  /** The listing is a keyset walk in descending order, and it is done when the
      walk has ended. */
  lemma {:induction false} ListingIsKeysetWalk(tables: seq<Tables>, f: Filter)
    ensures var n := ListSize(f.pageSize);
            && Data(ListPages(tables, f)) == Flatten(Walk(Desc, Listings(tables, f), f.after, n))
            && (Ends(Desc, Listings(tables, f), f.after, n) <==> ListingDone(tables, f))
  {
    if tables != [] {
      var n := ListSize(f.pageSize);
      var page := FindDeliveries(tables[0], f);
      ListPageIsPage(tables[0], f);
      ListPagesCons(tables, f);
      WalkUnfold(Desc, Listings(tables, f), f.after, n);
      if page.hasMore {
        ListingIsKeysetWalk(tables[1..], f.(after := page.nextCursor));
        ListingsCons(tables, f, page.nextCursor);
      } else {
        assert page.data + [] == page.data;
      }
    }
  }

  /** Over a table that does not change, the pages of a finished listing are the
      filtered rows, newest first, without gap or duplicate. */
  lemma ListingOfFixedTable(t: Tables, tables: seq<Tables>, f: Filter)
    requires forall j :: 0 <= j < |tables| ==> tables[j] == t
    requires f.after.None?
    requires ListingDone(tables, f)
    ensures Data(ListPages(tables, f)) == Sorted(Desc, ListKeys(t, f))
  {
    ListingIsKeysetWalk(tables, f);
    WalkOfFixedTable(Desc, ListKeys(t, f), Listings(tables, f), ListSize(f.pageSize));
  }

  /** No page before the j-th lists k. */
  predicate Unlisted(pages: seq<ListPage>, j: nat, k: Key) {
    forall i :: 0 <= i < j && i < |pages| ==> k !in pages[i].data
  }

  function Rows(pages: seq<ListPage>): seq<seq<Key>> {
    seq(|pages|, j requires 0 <= j < |pages| => pages[j].data)
  }

  lemma RowsCons(page: ListPage, rest: seq<ListPage>)
    ensures Rows([page] + rest) == [page.data] + Rows(rest)
  {
  }

  /** The pages of a listing are those of the keyset walk. */
  lemma {:induction false} ListRowsAreWalk(tables: seq<Tables>, f: Filter)
    ensures Rows(ListPages(tables, f)) == Walk(Desc, Listings(tables, f), f.after, ListSize(f.pageSize))
    ensures |ListPages(tables, f)| <= |tables|
  {
    if tables != [] {
      var n := ListSize(f.pageSize);
      var page := FindDeliveries(tables[0], f);
      ListPageIsPage(tables[0], f);
      ListingsFrom(tables, f);
      if page.hasMore {
        var f1 := f.(after := page.nextCursor);
        ListRowsAreWalk(tables[1..], f1);
        ListingsCons(tables, f, page.nextCursor);
        RowsCons(page, ListPages(tables[1..], f1));
      } else {
        RowsCons(page, []);
      }
    }
  }

  /** Over a table that changes between the pages, nothing is listed twice, and a
      row that is in the table whenever a page is read, until one lists it, is
      listed. */
  lemma ListingUnderChange(tables: seq<Tables>, f: Filter, k: Key)
    requires f.after.None?
    ensures Ascending(Desc, Data(ListPages(tables, f)))
    ensures (forall j :: 0 <= j < |ListPages(tables, f)| && j < |tables| && Unlisted(ListPages(tables, f), j, k) ==>
                k in ListKeys(tables[j], f))
            && ListingDone(tables, f)
            ==> k in Data(ListPages(tables, f))
  {
    ListingIsKeysetWalk(tables, f);
    ListRowsAreWalk(tables, f);
    var n := ListSize(f.pageSize);
    var pages := ListPages(tables, f);
    WalkAscends(Desc, Listings(tables, f), None, n);
    if (forall j :: 0 <= j < |pages| && j < |tables| && Unlisted(pages, j, k) ==> k in ListKeys(tables[j], f))
       && ListingDone(tables, f)
    {
      forall i | 0 <= i < |pages| && i < |tables| && Unread(Rows(pages), i, k) ensures k in Listings(tables, f)[i] {
        assert Unlisted(pages, i, k) by {
          forall j | 0 <= j < i ensures k !in pages[j].data {
            assert k !in Rows(pages)[j];
          }
        }
      }
      WalkCovers(Desc, Listings(tables, f), None, n, k);
    }
  }

  /** What is listed was there when its page was read. */
  lemma ListedWasThere(tables: seq<Tables>, f: Filter, k: Key) returns (i: nat)
    requires k in Data(ListPages(tables, f))
    ensures i < |tables| && k in ListKeys(tables[i], f)
  {
    ListingIsKeysetWalk(tables, f);
    var n := ListSize(f.pageSize);
    var pages := Walk(Desc, Listings(tables, f), f.after, n);
    FlattenMember(pages, k);
    i :| 0 <= i < |pages| && k in pages[i];
    WalkSound(Desc, Listings(tables, f), f.after, n, i, k);
  }

  /** Until a page lists it, delivery id matches the filter whenever one is read. */
  predicate MatchesUntilListed(tables: seq<Tables>, f: Filter, id: DeliveryId) {
    var pages := ListPages(tables, f);
    forall j :: 0 <= j < |pages| && j < |tables|
                && (forall i :: 0 <= i < j && i < |pages| ==> id !in Ids(pages[i].data)) ==>
      id in tables[j].deliveries &&
      var d := tables[j].deliveries[id];
      && (f.config.None? || d.config == f.config.value)
      && (f.status.None? || d.status == f.status.value)
      && (f.createdAfter.None? || f.createdAfter.value <= d.createdAt)
      && (f.createdBefore.None? || d.createdAt <= f.createdBefore.value)
  }

  lemma ListedKey(worlds: seq<World>, tables: seq<Tables>, f: Filter, id: DeliveryId, k: Key, i: nat, x: Key)
    requires Following(worlds) && worlds != [] && |tables| == |worlds|
    requires forall j :: 0 <= j < |worlds| ==> tables[j] == worlds[j].t
    requires id in tables[0].deliveries && k == Key(tables[0].deliveries[id].createdAt, id)
    requires i < |ListPages(tables, f)| && x in ListPages(tables, f)[i].data && x.id == id
    ensures x == k
  {
    ListRowsAreWalk(tables, f);
    assert x in Rows(ListPages(tables, f))[i];
    WalkSound(Desc, Listings(tables, f), f.after, ListSize(f.pageSize), i, x);
    assert i > 0 ==> Follows(worlds[0], worlds[i]);
  }

  lemma KeyUntilListed(worlds: seq<World>, tables: seq<Tables>, f: Filter, id: DeliveryId, k: Key, j: nat)
    requires Following(worlds) && worlds != [] && |tables| == |worlds|
    requires forall i :: 0 <= i < |worlds| ==> tables[i] == worlds[i].t
    requires id in tables[0].deliveries && k == Key(tables[0].deliveries[id].createdAt, id)
    requires MatchesUntilListed(tables, f, id)
    requires j < |ListPages(tables, f)| && j < |tables| && Unlisted(ListPages(tables, f), j, k)
    ensures k in ListKeys(tables[j], f)
  {
    var pages := ListPages(tables, f);
    forall i | 0 <= i < j ensures id !in Ids(pages[i].data) {
      if id in Ids(pages[i].data) {
        var x :| x in pages[i].data && x.id == id;
        ListedKey(worlds, tables, f, id, k, i, x);
      }
    }
    MatchesIsListed(tables, f, id, j);
    assert j > 0 ==> Follows(worlds[0], worlds[j]);
  }

  lemma MatchesIsListed(tables: seq<Tables>, f: Filter, id: DeliveryId, j: nat)
    requires MatchesUntilListed(tables, f, id) && j < |ListPages(tables, f)| && j < |tables|
    requires forall i :: 0 <= i < j ==> id !in Ids(ListPages(tables, f)[i].data)
    ensures id in tables[j].deliveries && Listed(tables[j].deliveries[id], f)
  {
  }

  /** Over the tables that a run goes through, such a delivery is listed exactly
      once: its key never changes. */
  lemma ListedExactlyOnce(worlds: seq<World>, tables: seq<Tables>, f: Filter, id: DeliveryId)
    requires Following(worlds) && worlds != [] && |tables| == |worlds|
    requires forall j :: 0 <= j < |worlds| ==> tables[j] == worlds[j].t
    requires MatchesUntilListed(tables, f, id)
    requires f.after.None? && ListingDone(tables, f)
    ensures var data := Data(ListPages(tables, f));
            exists i :: 0 <= i < |data| && data[i].id == id
                        && forall j :: 0 <= j < |data| && data[j].id == id ==> j == i
  {
    var data := Data(ListPages(tables, f));
    assert id in tables[0].deliveries;
    var k := Key(tables[0].deliveries[id].createdAt, id);
    forall j | 0 <= j < |ListPages(tables, f)| && j < |tables| && Unlisted(ListPages(tables, f), j, k)
      ensures k in ListKeys(tables[j], f)
    {
      KeyUntilListed(worlds, tables, f, id, k, j);
    }
    ListingUnderChange(tables, f, k);
    var i :| 0 <= i < |data| && data[i] == k;
    forall j | 0 <= j < |data| && data[j].id == id ensures j == i {
      var m := ListedWasThere(tables, f, data[j]);
      assert m > 0 ==> Follows(worlds[0], worlds[m]);
      assert data[j] == k;
      AscendingOnce(Desc, data, i, j);
    }
  }
}
