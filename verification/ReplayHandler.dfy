/** POST /deliveries/replay (pkg/server/deliveries.go): how the handler completes and
    checks a request, and how its cursor token keeps the window and the filters of
    the first page on the pages that follow. */
module ReplayHandler {
  import opened Clock
  import opened Results
  import opened Keyset
  import opened Tables
  import opened Transactions
  import opened Protocol
  import opened Walks
  import opened PostgresStore

  const MAX_WINDOW := 90 * DAY

  datatype Token = NoToken | Malformed | Token(cursor: ReplayCursor)

  /** The decoded body; zero times are None. */
  datatype Body = Body(
    from: Option<Time>,
    to: Option<Time>,
    statuses: seq<Status>,
    configIds: seq<ConfigId>,
    token: Token,
    pageSize: int)

  datatype Problem = NoKey | LongKey | FromRequired | BadPageSize | BadStatus | BadCursor | CursorMismatch | BadWindow

  datatype Reply = Invalid(why: Problem) | Failure(error: StoreError) | Done(result: BulkResult)

  // ---- sort.Strings ----

  /** The order of the status names. */
  function Rank(s: Status): int {
    match s
    case Cancelled => 0
    case Delivering => 1
    case Failed => 2
    case Pending => 3
    case Succeeded => 4
  }

  ghost predicate InOrder<T(!new)>(s: seq<T>, rank: T -> int) {
    forall i, j :: 0 <= i < j < |s| ==> rank(s[i]) <= rank(s[j])
  }

  function Insert<T>(x: T, s: seq<T>, rank: T -> int): seq<T> {
    if s == [] || rank(x) <= rank(s[0]) then [x] + s else [s[0]] + Insert(x, s[1..], rank)
  }

  lemma {:induction false} InsertAdds<T>(x: T, s: seq<T>, rank: T -> int)
    ensures multiset(Insert(x, s, rank)) == multiset(s) + multiset{x}
  {
    if s != [] && rank(s[0]) < rank(x) {
      InsertAdds(x, s[1..], rank);
      assert s == [s[0]] + s[1..];
    }
  }

  lemma {:induction false} InsertInOrder<T(!new)>(x: T, s: seq<T>, rank: T -> int)
    requires InOrder(s, rank)
    ensures InOrder(Insert(x, s, rank), rank)
  {
    if s != [] && rank(s[0]) < rank(x) {
      InsertInOrder(x, s[1..], rank);
      InsertAdds(x, s[1..], rank);
      var rest := Insert(x, s[1..], rank);
      forall j | 0 <= j < |rest| ensures rank(s[0]) <= rank(rest[j]) {
        assert rest[j] in multiset(s[1..]) + multiset{x};
      }
    }
  }

  function Sort<T>(s: seq<T>, rank: T -> int): seq<T> {
    if s == [] then [] else Insert(s[0], Sort(s[1..], rank), rank)
  }

  lemma {:induction false} SortSorts<T(!new)>(s: seq<T>, rank: T -> int)
    ensures multiset(Sort(s, rank)) == multiset(s)
    ensures InOrder(Sort(s, rank), rank)
  {
    if s != [] {
      SortSorts(s[1..], rank);
      InsertAdds(s[0], Sort(s[1..], rank), rank);
      InsertInOrder(s[0], Sort(s[1..], rank), rank);
      assert s == [s[0]] + s[1..];
    }
  }

  lemma SmallestFirst<T(!new)>(a: seq<T>, b: seq<T>, rank: T -> int)
    requires a != [] && InOrder(a, rank) && multiset(a) == multiset(b)
    ensures b != [] && rank(a[0]) <= rank(b[0])
  {
    assert a[0] in multiset(b);
    assert b[0] in multiset(a);
    var j :| 0 <= j < |a| && a[j] == b[0];
  }

  lemma TailMultiset<T>(a: seq<T>)
    requires a != []
    ensures multiset(a[1..]) == multiset(a) - multiset{a[0]}
  {
    assert a == [a[0]] + a[1..];
  }

  /** A sorted sequence is determined by its elements. */
  lemma {:induction false} SortedIsCanonical<T(!new)>(a: seq<T>, b: seq<T>, rank: T -> int)
    requires InOrder(a, rank) && InOrder(b, rank) && multiset(a) == multiset(b)
    requires forall x, y :: rank(x) == rank(y) ==> x == y
    ensures a == b
  {
    if a == [] {
      assert |b| == |multiset(a)|;
    } else {
      SmallestFirst(a, b, rank);
      SmallestFirst(b, a, rank);
      TailMultiset(a);
      TailMultiset(b);
      SortedIsCanonical(a[1..], b[1..], rank);
    }
  }

  function SortedStatuses(s: seq<Status>): seq<Status> {
    Sort(s, Rank)
  }

  function SortedIds(s: seq<ConfigId>): seq<ConfigId> {
    Sort(s, (c: ConfigId) => c)
  }

  /** Two lists sort alike if and only if they are permutations of each other. */
  lemma StatusesAlike(a: seq<Status>, b: seq<Status>)
    ensures SortedStatuses(a) == SortedStatuses(b) <==> multiset(a) == multiset(b)
  {
    SortSorts(a, Rank);
    SortSorts(b, Rank);
    if multiset(a) == multiset(b) {
      assert forall x, y :: Rank(x) == Rank(y) ==> x == y;
      SortedIsCanonical(SortedStatuses(a), SortedStatuses(b), Rank);
    }
  }

  lemma IdsAlike(a: seq<ConfigId>, b: seq<ConfigId>)
    ensures SortedIds(a) == SortedIds(b) <==> multiset(a) == multiset(b)
  {
    var rank := (c: ConfigId) => c;
    SortSorts(a, rank);
    SortSorts(b, rank);
    if multiset(a) == multiset(b) {
      SortedIsCanonical(SortedIds(a), SortedIds(b), rank);
    }
  }

  // ---- Completing and checking a request ----

  function PageSizeOf(b: Body): int {
    if b.pageSize == 0 then MAX_PAGE else b.pageSize
  }

  function StatusesOf(b: Body): seq<Status> {
    if b.statuses == [] then [Failed, Pending] else b.statuses
  }

  predicate Replayable(s: seq<Status>) {
    forall x :: x in s ==> x == Failed || x == Pending
  }

  predicate WindowOk(from: Time, to: Time) {
    from <= to && to - from <= MAX_WINDOW
  }

  /** A request with its filters sorted, and what its token adds. */
  function FilledIn(b: Body, statuses: seq<Status>, configIds: seq<ConfigId>): BulkRequest
    requires b.from.Some?
  {
    if b.token.Token?
    then BulkRequest(b.from.value, if b.to.None? then Some(b.token.cursor.to) else b.to, statuses, configIds,
                     Some(b.token.cursor.position), Some(b.token.cursor), PageSizeOf(b))
    else BulkRequest(b.from.value, b.to, statuses, configIds, None, None, PageSizeOf(b))
  }

  predicate Matches(r: BulkRequest, c: ReplayCursor) {
    r.from == c.from && r.to == Some(c.to) && r.statuses == c.statuses && r.configIds == c.configIds
  }

  function Check(b: Body, r: BulkRequest, now: Time): Result<BulkRequest, Problem> {
    if b.token.Token? && !Matches(r, b.token.cursor) then Err(CursorMismatch)
    else if !WindowOk(r.from, if r.to.Some? then r.to.value else now) then Err(BadWindow)
    else Ok(r)
  }

  function Prepare(b: Body, now: Time): Result<BulkRequest, Problem> {
    if b.from.None? then Err(FromRequired)
    else if !(1 <= PageSizeOf(b) <= MAX_PAGE) then Err(BadPageSize)
    else if !Replayable(StatusesOf(b)) then Err(BadStatus)
    else if b.token.Malformed? then Err(BadCursor)
    else Check(b, FilledIn(b, SortedStatuses(StatusesOf(b)), SortedIds(b.configIds)), now)
  }

  /** A request that differs only in the order of its filters is the same request,
      so the same idempotency key answers it. */
  lemma FilterOrderIsIrrelevant(a: Body, b: Body, now: Time)
    requires b == a.(statuses := b.statuses, configIds := b.configIds)
    requires multiset(StatusesOf(a)) == multiset(StatusesOf(b)) && multiset(a.configIds) == multiset(b.configIds)
    ensures Prepare(a, now) == Prepare(b, now)
  {
    StatusesAlike(StatusesOf(a), StatusesOf(b));
    IdsAlike(a.configIds, b.configIds);
    SameReplayable(StatusesOf(a), StatusesOf(b));
  }

  lemma SameReplayable(a: seq<Status>, b: seq<Status>)
    requires multiset(a) == multiset(b)
    ensures Replayable(a) <==> Replayable(b)
  {
    forall s ensures s in a <==> s in b {
      assert s in a <==> s in multiset(a);
      assert s in b <==> s in multiset(b);
    }
  }

  lemma SortedKeep(s: seq<Status>)
    ensures Replayable(SortedStatuses(s)) <==> Replayable(s)
    ensures SortedStatuses(s) == [] <==> s == []
  {
    SortSorts(s, Rank);
    SameReplayable(SortedStatuses(s), s);
    assert |SortedStatuses(s)| == |multiset(s)|;
  }

  /** The store finds nothing to fill in but an open end of the window, and replays
      only failed and pending rows. */
  lemma PreparedIsNormal(b: Body, asked: Time, now: Time)
    requires Prepare(b, asked).Ok?
    ensures var r := Prepare(b, asked).value;
            && Normalize(r, now) == r.(to := if r.to.None? then Some(now) else r.to)
            && Frozen(Normalize(r, now))
            && Replayable(r.statuses)
  {
    SortedKeep(StatusesOf(b));
  }

  /** The first requests accepted: a lower bound, a page size from 1 to 1000 or none, no
      status but failed and pending, and a window of at most 90 days that is not empty;
      the first of these that is missed is the problem reported. */
  lemma FirstRequestIff(b: Body, now: Time)
    requires b.token.NoToken?
    ensures var to := if b.to.Some? then b.to.value else now;
            var sized := 0 <= b.pageSize <= 1000;
            var replayable := forall s :: s in b.statuses ==> s == Failed || s == Pending;
            Prepare(b, now).Err? ==>
              Prepare(b, now).error == if b.from.None? then FromRequired
                                       else if !sized then BadPageSize
                                       else if !replayable then BadStatus
                                       else BadWindow
    ensures Prepare(b, now).Ok?
            <==> && b.from.Some? && 0 <= b.pageSize <= 1000
                 && (forall s :: s in b.statuses ==> s == Failed || s == Pending)
                 && 0 <= (if b.to.Some? then b.to.value else now) - b.from.value <= 7_776_000_000_000_000
  {
    SortedKeep(StatusesOf(b));
  }

  /** An accepted one asks for what the body says, and for failed and pending rows and a
      thousand of them unless it says otherwise. */
  lemma FirstRequestAsks(b: Body, now: Time)
    requires b.token.NoToken? && Prepare(b, now).Ok?
    ensures var r := Prepare(b, now).value;
            && b.from == Some(r.from) && r.to == b.to && r.cursor == None && r.token == None
            && multiset(r.statuses) == multiset(if b.statuses == [] then [Failed, Pending] else b.statuses)
            && multiset(r.configIds) == multiset(b.configIds)
            && r.pageSize == if b.pageSize == 0 then 1000 else b.pageSize
  {
    StatusesKept(StatusesOf(b));
    IdsKept(b.configIds);
  }

  lemma StatusesKept(s: seq<Status>)
    ensures multiset(SortedStatuses(s)) == multiset(s)
  {
    SortSorts(s, Rank);
  }

  lemma IdsKept(s: seq<ConfigId>)
    ensures multiset(SortedIds(s)) == multiset(s)
  {
    SortSorts(s, (c: ConfigId) => c);
  }

  // ---- The next page ----

  /** The token of an answered page. */
  function TokenOf(r: BulkRequest, position: Key): ReplayCursor
    requires r.to.Some?
  {
    ReplayCursor(position, r.from, r.to.value, r.statuses, r.configIds)
  }

  /** The bodies accepted with the token of a page that was asked for with a and served at
      served: the same lower bound, permutations of the same filters, no upper bound
      or the frozen one, any page size; and the frozen window must be at most 90
      days. They ask for the frozen request from the cursor on. */
  lemma FollowUpIff(a: Body, asked: Time, served: Time, r: BulkRequest, position: Key, b: Body, later: Time)
    requires Prepare(a, asked).Ok? && asked <= served && r == Normalize(Prepare(a, asked).value, served)
    requires b.token == Token(TokenOf(r, position))
    ensures Prepare(b, later).Ok? <==> Continuation(a, b, r) && r.to.value - r.from <= MAX_WINDOW
    ensures Prepare(b, later).Ok? ==>
              Prepare(b, later).value
              == r.(cursor := Some(position), token := Some(b.token.cursor), pageSize := PageSizeOf(b))
  {
    PreparedIsNormal(a, asked, served);
    if multiset(StatusesOf(b)) == multiset(StatusesOf(a)) {
      SameReplayable(StatusesOf(a), StatusesOf(b));
    }
    assert r.from <= r.to.value;
    if b.from.Some? {
      MatchesIff(a, b, r, position);
    }
  }

  predicate Continuation(a: Body, b: Body, r: BulkRequest) {
    && b.from == a.from && 0 <= b.pageSize <= MAX_PAGE
    && multiset(StatusesOf(b)) == multiset(StatusesOf(a)) && multiset(b.configIds) == multiset(a.configIds)
    && (b.to.None? || b.to == r.to)
  }

  lemma MatchesIff(a: Body, b: Body, r: BulkRequest, position: Key)
    requires a.from.Some? && b.from.Some? && r.to.Some? && r.from == a.from.value
    requires r.statuses == SortedStatuses(StatusesOf(a)) && r.configIds == SortedIds(a.configIds)
    requires b.token == Token(TokenOf(r, position))
    ensures Matches(FilledIn(b, SortedStatuses(StatusesOf(b)), SortedIds(b.configIds)), b.token.cursor)
            <==> && b.from == a.from && (b.to.None? || b.to == r.to)
                 && multiset(StatusesOf(b)) == multiset(StatusesOf(a)) && multiset(b.configIds) == multiset(a.configIds)
  {
    StatusesAlike(StatusesOf(a), StatusesOf(b));
    IdsAlike(a.configIds, b.configIds);
  }

  lemma FrozenWindow(a: Body, asked: Time, served: Time)
    requires Prepare(a, asked).Ok? && asked <= served && a.token.NoToken?
    ensures var r := Normalize(Prepare(a, asked).value, served);
            && r.to == (if a.to.Some? then a.to else Some(served)) && Some(r.from) == a.from
            && (a.to.Some? ==> r.to.value - r.from <= MAX_WINDOW)
            && 0 <= a.pageSize <= MAX_PAGE
  {
    PreparedIsNormal(a, asked, served);
  }

  /** A client that only adds the token gets its next page, unless it left the upper
      bound open and the clock, frozen only by the store, passed from + 90 days since
      the handler looked at it. */
  lemma NextPageIff(a: Body, asked: Time, served: Time, r: BulkRequest, position: Key, b: Body, later: Time)
    requires Prepare(a, asked).Ok? && asked <= served && a.token.NoToken?
    requires r == Normalize(Prepare(a, asked).value, served)
    requires r.to.Some? && b == a.(token := Token(TokenOf(r, position)))
    ensures Prepare(b, later).Ok? <==> a.to.Some? || served - a.from.value <= MAX_WINDOW
  {
    FrozenWindow(a, asked, served);
    FollowUpIff(a, asked, served, r, position, b, later);
    assert StatusesOf(a) == StatusesOf(b);
  }

  /** For instance: 90 days asked for just in time, and frozen a nanosecond later. */
  lemma DriftedWindow(a: Body, b: Body, position: Key, later: Time)
    requires a == Body(Some(0), None, [], [], NoToken, 0)
    requires b == a.(token := Token(ReplayCursor(position, 0, MAX_WINDOW + 1, SortedStatuses([Failed, Pending]), SortedIds([]))))
    ensures Prepare(a, MAX_WINDOW).Ok?
    ensures b.token == Token(TokenOf(Normalize(Prepare(a, MAX_WINDOW).value, MAX_WINDOW + 1), position))
    ensures Prepare(b, later).Err?
  {
    assert StatusesOf(a) == [Failed, Pending];
    PreparedIsNormal(a, MAX_WINDOW, MAX_WINDOW + 1);
    NextPageIff(a, MAX_WINDOW, MAX_WINDOW + 1, Normalize(Prepare(a, MAX_WINDOW).value, MAX_WINDOW + 1), position, b, later);
  }

  // ---- A client that follows the tokens ----

  /** The clock the handler reads, and the client's key for this page. */
  datatype Ask = Ask(at: Time, key: IdempotencyKey)

  function BulkApplied(a: Answer): Option<BulkResult> {
    match a
    case Applied(BulkDone(result)) => Some(result)
    case _ => None
  }

  /** A request the handler accepted and the store applied: what the store was sent
      and made of it, and the token answered. */
  datatype Turn = Turn(sent: BulkRequest, request: BulkRequest, token: Option<ReplayCursor>)

  function TakeTurn(w: World, b: Body, ask: Ask): Option<Turn> {
    var prepared := Prepare(b, ask.at);
    if prepared.Err? then None
    else
      var result := BulkApplied(ReplayDeliveries(w.t, prepared.value, ask.key, w.now).answer);
      if result.None? then None
      else Some(Turn(prepared.value, Normalize(prepared.value, w.now).(token := None), result.value.token))
  }

  /** The rows that the request touched. */
  function PageOf(w: World, turn: Turn): seq<Key> {
    BulkPage(w.t, Normalize(turn.sent, w.now))
  }

  /** The pages applied for a client that repeats its body with each token, until an
      answer has none, the handler refuses or a key was used before. */
  function ClientWalk(worlds: seq<World>, b: Body, asks: seq<Ask>): seq<Visit>
    decreases |worlds|
  {
    if worlds == [] || asks == [] then []
    else
      match TakeTurn(worlds[0], b, asks[0])
      case None => []
      case Some(turn) =>
        [Visit(worlds[0], turn.request, PageOf(worlds[0], turn))] +
        if turn.token.None? then [] else ClientWalk(worlds[1..], b.(token := Token(turn.token.value)), asks[1..])
  }

  /** The client's last answer had no token. */
  predicate ClientDone(worlds: seq<World>, b: Body, asks: seq<Ask>)
    decreases |worlds|
  {
    && worlds != [] && asks != [] && TakeTurn(worlds[0], b, asks[0]).Some?
    && var turn := TakeTurn(worlds[0], b, asks[0]).value;
       turn.token.Some? ==> ClientDone(worlds[1..], b.(token := Token(turn.token.value)), asks[1..])
  }

  lemma AppliedToken(t: Tables, sent: BulkRequest, key: IdempotencyKey, now: Time)
    ensures var r := Normalize(sent, now);
            var result := BulkApplied(ReplayDeliveries(t, sent, key, now).answer);
            result.Some? ==>
              result.value.token == if BulkHasMore(t, r) && BulkPage(t, r) != []
                                    then Some(TokenOf(r, BulkPage(t, r)[|BulkPage(t, r)| - 1])) else None
  {
    AppliedAnswer(t, sent, key, now);
  }

  lemma AppliedAnswer(t: Tables, sent: BulkRequest, key: IdempotencyKey, now: Time)
    ensures var result := BulkApplied(ReplayDeliveries(t, sent, key, now).answer);
            result.Some? ==> result.value == BulkAnswer(t, Normalize(sent, now))
  {
  }

  lemma TurnIsPrepared(w: World, b: Body, ask: Ask)
    requires TakeTurn(w, b, ask).Some?
    ensures var turn := TakeTurn(w, b, ask).value;
            && Prepare(b, ask.at) == Ok(turn.sent)
            && turn.request == Normalize(turn.sent, w.now).(token := None)
  {
  }

  lemma TurnToken(w: World, b: Body, ask: Ask)
    requires TakeTurn(w, b, ask).Some?
    ensures var turn := TakeTurn(w, b, ask).value;
            var r := Normalize(turn.sent, w.now);
            turn.token == if BulkHasMore(w.t, r) && BulkPage(w.t, r) != []
                          then Some(TokenOf(r, BulkPage(w.t, r)[|BulkPage(w.t, r)| - 1])) else None
  {
    AppliedToken(w.t, TakeTurn(w, b, ask).value.sent, ask.key, w.now);
  }

  lemma TurnPage(w: World, b: Body, ask: Ask)
    requires TakeTurn(w, b, ask).Some?
    ensures var turn := TakeTurn(w, b, ask).value;
            && Frozen(turn.request)
            && PageOf(w, turn) == BulkPage(w.t, turn.request)
            && turn.token == (if BulkHasMore(w.t, turn.request) && PageOf(w, turn) != []
                              then Some(TokenOf(turn.request, PageOf(w, turn)[|PageOf(w, turn)| - 1])) else None)
  {
    TurnIsPrepared(w, b, ask);
    PreparedIsNormal(b, ask.at, w.now);
    TurnToken(w, b, ask);
    PageOfTurn(w, TakeTurn(w, b, ask).value);
  }

  lemma PageOfTurn(w: World, turn: Turn)
    requires Frozen(Normalize(turn.sent, w.now)) && turn.request == Normalize(turn.sent, w.now).(token := None)
    ensures Frozen(turn.request) && PageOf(w, turn) == BulkPage(w.t, turn.request)
    ensures BulkHasMore(w.t, turn.request) == BulkHasMore(w.t, Normalize(turn.sent, w.now))
    ensures forall k :: TokenOf(turn.request, k) == TokenOf(Normalize(turn.sent, w.now), k)
  {
    TokenIrrelevant(w.t, Normalize(turn.sent, w.now));
  }

  /** With the token of a page the same body asks for the same rows after it. */
  lemma NextAsks(b: Body, asked: Time, now: Time, r: BulkRequest, position: Key, asked1: Time, now1: Time)
    requires Prepare(b, asked).Ok? && r == Normalize(Prepare(b, asked).value, now)
    requires Prepare(b.(token := Token(TokenOf(r, position))), asked1).Ok?
    ensures Normalize(Prepare(b.(token := Token(TokenOf(r, position))), asked1).value, now1).(token := None)
         == r.(token := None, cursor := Some(position))
  {
    PreparedIsNormal(b, asked, now);
    PreparedIsNormal(b.(token := Token(TokenOf(r, position))), asked1, now1);
  }

  lemma NextTurn(w: World, b: Body, ask: Ask, turn: Turn, w1: World, ask1: Ask)
    requires TakeTurn(w, b, ask) == Some(turn) && turn.token.Some?
    ensures var next := TakeTurn(w1, b.(token := Token(turn.token.value)), ask1);
            next.Some? ==> next.value.request == turn.request.(cursor := Some(turn.token.value.position))
  {
    var r := Normalize(turn.sent, w.now);
    TurnPage(w, b, ask);
    TurnIsPrepared(w, b, ask);
    assert turn.token.value == TokenOf(r, turn.token.value.position);
    if TakeTurn(w1, b.(token := Token(turn.token.value)), ask1).Some? {
      TurnIsPrepared(w1, b.(token := Token(turn.token.value)), ask1);
      NextAsks(b, ask.at, w.now, r, turn.token.value.position, ask1.at, w1.now);
    }
  }

  /** The visits are the first pages of the walk, all of them if it is done. */
  predicate Begins(visits: seq<Visit>, done: bool, walk: seq<Visit>, finished: bool) {
    visits <= walk && (done ==> visits == walk && finished)
  }

  lemma BeginsCons(v: Visit, visits: seq<Visit>, done: bool, walk: seq<Visit>, finished: bool)
    requires Begins(visits, done, walk, finished)
    ensures Begins([v] + visits, done, [v] + walk, finished)
  {
  }

  predicate BeginsWalk(visits: seq<Visit>, done: bool, worlds: seq<World>, r: BulkRequest) {
    Frozen(r) && Begins(visits, done, BulkWalk(worlds, r), Finished(worlds, r))
  }

  lemma BulkWalkCons(worlds: seq<World>, r: BulkRequest, page: seq<Key>)
    requires worlds != [] && Frozen(r)
    requires BulkHasMore(worlds[0].t, r) && page == BulkPage(worlds[0].t, r) && page != []
    ensures var r1 := r.(cursor := Some(page[|page| - 1]));
            && BulkWalk(worlds, r) == [Visit(worlds[0], r, page)] + BulkWalk(worlds[1..], r1)
            && (Finished(worlds, r) <==> Finished(worlds[1..], r1))
  {
  }

  lemma ClientCons(worlds: seq<World>, b: Body, asks: seq<Ask>, turn: Turn, b1: Body)
    requires worlds != [] && asks != [] && TakeTurn(worlds[0], b, asks[0]) == Some(turn) && turn.token.Some?
    requires b1 == b.(token := Token(turn.token.value))
    ensures ClientWalk(worlds, b, asks)
         == [Visit(worlds[0], turn.request, PageOf(worlds[0], turn))] + ClientWalk(worlds[1..], b1, asks[1..])
    ensures ClientDone(worlds, b, asks) <==> ClientDone(worlds[1..], b1, asks[1..])
  {
  }

  lemma LastTurn(worlds: seq<World>, b: Body, asks: seq<Ask>, turn: Turn)
    requires worlds != [] && asks != [] && TakeTurn(worlds[0], b, asks[0]) == Some(turn) && turn.token.None?
    ensures BeginsWalk(ClientWalk(worlds, b, asks), ClientDone(worlds, b, asks), worlds, turn.request)
  {
    TurnPage(worlds[0], b, asks[0]);
  }

  lemma TurnCons(worlds: seq<World>, b: Body, ask: Ask, turn: Turn, r1: BulkRequest)
    requires worlds != [] && TakeTurn(worlds[0], b, ask) == Some(turn) && turn.token.Some?
    requires r1 == turn.request.(cursor := Some(turn.token.value.position))
    ensures Frozen(turn.request) && Frozen(r1)
    ensures BulkWalk(worlds, turn.request)
         == [Visit(worlds[0], turn.request, PageOf(worlds[0], turn))] + BulkWalk(worlds[1..], r1)
    ensures Finished(worlds, turn.request) <==> Finished(worlds[1..], r1)
  {
    TurnPage(worlds[0], b, ask);
    BulkWalkCons(worlds, turn.request, PageOf(worlds[0], turn));
  }

  lemma OneMoreTurn(worlds: seq<World>, b: Body, asks: seq<Ask>, turn: Turn, b1: Body, r1: BulkRequest)
    requires worlds != [] && asks != [] && TakeTurn(worlds[0], b, asks[0]) == Some(turn) && turn.token.Some?
    requires b1 == b.(token := Token(turn.token.value)) && r1 == turn.request.(cursor := Some(turn.token.value.position))
    requires BeginsWalk(ClientWalk(worlds[1..], b1, asks[1..]), ClientDone(worlds[1..], b1, asks[1..]), worlds[1..], r1)
    ensures BeginsWalk(ClientWalk(worlds, b, asks), ClientDone(worlds, b, asks), worlds, turn.request)
  {
    ClientCons(worlds, b, asks, turn, b1);
    TurnCons(worlds, b, asks[0], turn, r1);
    BeginsCons(Visit(worlds[0], turn.request, PageOf(worlds[0], turn)),
               ClientWalk(worlds[1..], b1, asks[1..]), ClientDone(worlds[1..], b1, asks[1..]),
               BulkWalk(worlds[1..], r1), Finished(worlds[1..], r1));
  }

  lemma NoTurn(worlds: seq<World>, b: Body, asks: seq<Ask>, r: BulkRequest)
    requires worlds == [] || asks == [] || TakeTurn(worlds[0], b, asks[0]).None?
    requires Frozen(r)
    ensures BeginsWalk(ClientWalk(worlds, b, asks), ClientDone(worlds, b, asks), worlds, r)
  {
  }

  /** The pages of a client are those of the bulk walk of one frozen request, for as
      long as it is answered: its window and its filters are those of the first
      page, whatever the clock does since. */
  lemma {:induction false} ClientWalkIsBulkWalk(worlds: seq<World>, b: Body, asks: seq<Ask>, turn: Turn)
    requires worlds != [] && asks != [] && TakeTurn(worlds[0], b, asks[0]) == Some(turn)
    ensures BeginsWalk(ClientWalk(worlds, b, asks), ClientDone(worlds, b, asks), worlds, turn.request)
    decreases |worlds|
  {
    if turn.token.None? {
      LastTurn(worlds, b, asks, turn);
    } else {
      TurnPage(worlds[0], b, asks[0]);
      var b1, r1 := b.(token := Token(turn.token.value)), turn.request.(cursor := Some(turn.token.value.position));
      if worlds[1..] == [] || asks[1..] == [] || TakeTurn(worlds[1], b1, asks[1]).None? {
        NoTurn(worlds[1..], b1, asks[1..], r1);
      } else {
        NextTurn(worlds[0], b, asks[0], turn, worlds[1], asks[1]);
        ClientWalkIsBulkWalk(worlds[1..], b1, asks[1..], TakeTurn(worlds[1], b1, asks[1]).value);
      }
      OneMoreTurn(worlds, b, asks, turn, b1, r1);
    }
  }

  /** So no delivery is on two pages of a client, whatever steps run between. */
  lemma ClientTouchesOnce(worlds: seq<World>, b: Body, asks: seq<Ask>, i: nat, j: nat, id: DeliveryId)
    requires Following(worlds) && i < j < |ClientWalk(worlds, b, asks)|
    requires id in Ids(ClientWalk(worlds, b, asks)[i].page)
    ensures id !in Ids(ClientWalk(worlds, b, asks)[j].page)
  {
    var turn := TakeTurn(worlds[0], b, asks[0]).value;
    ClientWalkIsBulkWalk(worlds, b, asks, turn);
    TouchedAtMostOnce(worlds, turn.request, i, j, id);
  }

  lemma FirstPageHasNoCursor(w: World, b: Body, ask: Ask)
    requires TakeTurn(w, b, ask).Some? && b.token.NoToken?
    ensures TakeTurn(w, b, ask).value.request.cursor.None?
  {
    TurnIsPrepared(w, b, ask);
    PreparedWithoutCursor(b, ask.at);
  }

  lemma PreparedWithoutCursor(b: Body, now: Time)
    requires Prepare(b, now).Ok? && b.token.NoToken?
    ensures Prepare(b, now).value.cursor.None?
  {
  }

  /** And a delivery that meets the filters until a page touches it is on exactly one
      page of a client that came to the end. */
  lemma ClientTouchesExactlyOnce(worlds: seq<World>, b: Body, asks: seq<Ask>, turn: Turn, id: DeliveryId)
    returns (i: nat)
    requires Following(worlds) && b.token.NoToken? && ClientDone(worlds, b, asks)
    requires TakeTurn(worlds[0], b, asks[0]) == Some(turn) && turn.request.to.Some?
    requires MeetsUntilTouched(ClientWalk(worlds, b, asks), turn.request, id)
    ensures var visits := ClientWalk(worlds, b, asks);
            i < |visits| && forall j :: 0 <= j < |visits| ==> (id in Ids(visits[j].page) <==> j == i)
  {
    ClientWalkIsBulkWalk(worlds, b, asks, turn);
    FirstPageHasNoCursor(worlds[0], b, asks[0]);
    i := TouchedExactlyOnce(worlds, turn.request, id);
  }

  // ---- The handler ----

  method StatusesAreReplayable(s: seq<Status>) returns (ok: bool)
    ensures ok == Replayable(s)
  {
    for j := 0 to |s|
      invariant forall x :: 0 <= x < j ==> s[x] == Failed || s[x] == Pending
    {
      if s[j] != Failed && s[j] != Pending {
        assert s[j] in s;
        return false;
      }
    }
    ok := true;
  }

  /** The handler completes the request in place and checks it. */
  method PrepareRequest(body: Body, now: Time) returns (r: Result<BulkRequest, Problem>)
    ensures r == Prepare(body, now)
  {
    if body.from.None? {
      return Err(FromRequired);
    }
    var request := BulkRequest(body.from.value, body.to, body.statuses, body.configIds, None,
                               if body.token.Token? then Some(body.token.cursor) else None, body.pageSize);
    if request.pageSize == 0 {
      request := request.(pageSize := MAX_PAGE);
    }
    if request.pageSize < 1 || request.pageSize > MAX_PAGE {
      return Err(BadPageSize);
    }
    if |request.statuses| == 0 {
      request := request.(statuses := [Failed, Pending]);
    }
    var replayable := StatusesAreReplayable(request.statuses);
    if !replayable {
      return Err(BadStatus);
    }
    request := request.(statuses := SortedStatuses(request.statuses), configIds := SortedIds(request.configIds));
    if body.token.Malformed? {
      return Err(BadCursor);
    }
    if body.token.Token? {
      var cursor := body.token.cursor;
      if request.to.None? {
        request := request.(to := Some(cursor.to));
      }
      if request.from != cursor.from || request.to != Some(cursor.to)
         || request.statuses != cursor.statuses || request.configIds != cursor.configIds {
        return Err(CursorMismatch);
      }
      request := request.(cursor := Some(cursor.position));
    }
    var effectiveTo := now;
    if request.to.Some? {
      effectiveTo := request.to.value;
    }
    if effectiveTo < request.from || effectiveTo - request.from > MAX_WINDOW {
      return Err(BadWindow);
    }
    r := Ok(request);
  }

  /** The Idempotency-Key header, empty when it is absent. */
  function RequireIdempotencyKey(header: string): Result<IdempotencyKey, Problem> {
    if header == "" then Err(NoKey) else if |header| > 255 then Err(LongKey) else Ok(header)
  }

  /** The handler reads its own clock, the store reads it again. */
  method ReplayDeliveriesHandle(store: Store, header: string, body: Body, now: Time, later: Time)
    returns (reply: Reply)
    modifies store
    ensures header == "" || |header| > 255 ==>
              reply == Invalid(if header == "" then NoKey else LongKey) && store.Contents() == old(store.Contents())
    ensures 0 < |header| <= 255 ==>
              match Prepare(body, now)
              case Err(why) => reply == Invalid(why) && store.Contents() == old(store.Contents())
              case Ok(r) =>
                var replay := ReplayDeliveries(old(store.Contents()), r, header, later);
                store.Contents() == replay.tables && reply == ReplyOf(replay.answer)
  {
    var key := RequireIdempotencyKey(header);
    if key.Err? {
      return Invalid(key.error);
    }
    var prepared := PrepareRequest(body, now);
    match prepared {
      case Err(why) => reply := Invalid(why);
      case Ok(request) =>
        var answer := store.ReplayDeliveries(request, key.value, later);
        reply := ReplyOf(answer);
    }
  }

  /** A stored response is answered like the first one. */
  function ReplyOf(a: Answer): Reply {
    match a
    case Rejected(e) => Failure(e)
    case Applied(BulkDone(result)) => Done(result)
    case Cached(BulkDone(result)) => Done(result)
    case _ => Failure(DatabaseError)
  }
}
