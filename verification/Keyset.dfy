/** Keyset order over (timestamp, id): ORDER BY, LIMIT and cursors, and the walks
    that page through a table other transactions keep changing. */
module Keyset {
  import opened Results

  datatype Key = Key(at: int, id: nat)

  datatype Direction = Asc | Desc

  predicate Less(a: Key, b: Key) {
    a.at < b.at || (a.at == b.at && a.id < b.id)
  }

  /** a comes before b in ORDER BY at, id. */
  predicate Before(dir: Direction, a: Key, b: Key) {
    if dir == Asc then Less(a, b) else Less(b, a)
  }

  ghost predicate Ascending(dir: Direction, s: seq<Key>) {
    forall i, j :: 0 <= i < j < |s| ==> Before(dir, s[i], s[j])
  }

  lemma AscendingOnce(dir: Direction, s: seq<Key>, i: nat, j: nat)
    requires Ascending(dir, s) && i < |s| && j < |s| && s[i] == s[j]
    ensures i == j
  {
  }

  function ToSet(s: seq<Key>): set<Key> {
    set k | k in s
  }

  ghost predicate IsFirst(dir: Direction, s: set<Key>, k: Key) {
    k in s && forall x :: x in s && x != k ==> Before(dir, k, x)
  }

  lemma {:induction false} FirstExists(dir: Direction, s: set<Key>)
    requires s != {}
    ensures exists k :: IsFirst(dir, s, k)
  {
    var x :| x in s;
    var rest := s - {x};
    if rest == {} {
      assert s == {x};
      assert IsFirst(dir, s, x);
    } else {
      FirstExists(dir, rest);
      var k :| IsFirst(dir, rest, k);
      assert s == rest + {x};
      if Before(dir, x, k) {
        forall y | y in s && y != x ensures Before(dir, x, y) {
          assert y == k || Before(dir, k, y);
        }
        assert IsFirst(dir, s, x);
      } else {
        assert IsFirst(dir, s, k);
      }
    }
  }

  function First(dir: Direction, s: set<Key>): (k: Key)
    requires s != {}
    ensures IsFirst(dir, s, k)
  {
    FirstExists(dir, s);
    var k :| k in s && forall x :: x in s && x != k ==> Before(dir, k, x);
    k
  }

  /** SELECT ... ORDER BY at, id. */
  function Sorted(dir: Direction, s: set<Key>): (r: seq<Key>)
    ensures |r| == |s|
  {
    if s == {} then []
    else
      var k := First(dir, s);
      [k] + Sorted(dir, s - {k})
  }

  lemma {:induction false} Sorts(dir: Direction, s: set<Key>)
    ensures forall k :: k in Sorted(dir, s) <==> k in s
    ensures Ascending(dir, Sorted(dir, s))
  {
    if s != {} {
      var k := First(dir, s);
      Sorts(dir, s - {k});
      AscendingJoin(dir, [k], Sorted(dir, s - {k}));
    }
  }

  lemma AscendingJoin(dir: Direction, a: seq<Key>, b: seq<Key>)
    requires Ascending(dir, a) && Ascending(dir, b)
    requires forall x, y :: x in a && y in b ==> Before(dir, x, y)
    ensures Ascending(dir, a + b)
  {
    forall i, j | 0 <= i < j < |a + b| ensures Before(dir, (a + b)[i], (a + b)[j]) {
      if i < |a| <= j {
        assert (a + b)[i] in a && (a + b)[j] in b;
      } else if |a| <= i {
        assert Before(dir, b[i - |a|], b[j - |a|]);
      }
    }
  }

  function Take(s: seq<Key>, n: nat): (r: seq<Key>)
    ensures |r| == (if n <= |s| then n else |s|)
  {
    if n <= |s| then s[..n] else s
  }

  /** LIMIT n + 1 and dropping the extra row is LIMIT n. */
  lemma ExtraRow(s: seq<Key>, n: nat)
    ensures |Take(s, n + 1)| > n <==> |s| > n
    ensures Take(s, n) == if |s| > n then Take(s, n + 1)[..n] else Take(s, n + 1)
  {
  }

  lemma AscendingSplit(dir: Direction, a: seq<Key>, b: seq<Key>)
    requires Ascending(dir, a + b)
    ensures Ascending(dir, b)
    ensures forall x, y :: x in a && y in b ==> Before(dir, x, y)
  {
    forall i, j | 0 <= i < j < |b| ensures Before(dir, b[i], b[j]) {
      assert Before(dir, (a + b)[|a| + i], (a + b)[|a| + j]);
    }
    forall x, y | x in a && y in b ensures Before(dir, x, y) {
      var i :| 0 <= i < |a| && a[i] == x;
      var j :| 0 <= j < |b| && b[j] == y;
      assert Before(dir, (a + b)[i], (a + b)[|a| + j]);
    }
  }

  function Prefix(dir: Direction, s: set<Key>, k: Key): set<Key> {
    set x | x in s && Before(dir, x, k)
  }

  /** The position of a key in the sorted order is the number of keys before it. */
  lemma RankIsIndex(dir: Direction, s: set<Key>, i: nat)
    requires i < |s|
    ensures |Prefix(dir, s, Sorted(dir, s)[i])| == i
  {
    var r := Sorted(dir, s);
    Sorts(dir, s);
    AscendingSize(dir, r[..i]);
    forall x ensures x in ToSet(r[..i]) <==> x in Prefix(dir, s, r[i]) {
      if x in Prefix(dir, s, r[i]) {
        var j :| 0 <= j < |r| && r[j] == x;
        assert j > i ==> Before(dir, r[i], r[j]);
        assert r[..i][j] == x;
      }
      if x in r[..i] {
        var j :| 0 <= j < i && r[..i][j] == x;
        assert r[j] == x && x in r;
      }
    }
    assert ToSet(r[..i]) == Prefix(dir, s, r[i]);
  }

  lemma {:induction false} AscendingSize(dir: Direction, s: seq<Key>)
    requires Ascending(dir, s)
    ensures |ToSet(s)| == |s|
  {
    if s != [] {
      var m := |s| - 1;
      AscendingSize(dir, s[..m]);
      assert s[m] !in s[..m];
      assert s == s[..m] + [s[m]];
      assert ToSet(s) == ToSet(s[..m]) + {s[m]};
    }
  }

  /** LIMIT n takes exactly the keys with fewer than n keys before them. */
  lemma TakeIsLowRank(dir: Direction, s: set<Key>, n: nat, k: Key)
    requires k in s
    ensures k in Take(Sorted(dir, s), n) <==> |Prefix(dir, s, k)| < n
  {
    var r := Sorted(dir, s);
    Sorts(dir, s);
    var i :| 0 <= i < |r| && r[i] == k;
    RankIsIndex(dir, s, i);
    var t := Take(r, n);
    if i < n {
      assert t[i] == k;
    }
  }

  lemma TakeSubset(dir: Direction, s: set<Key>, n: nat)
    ensures ToSet(Take(Sorted(dir, s), n)) <= s
    ensures Ascending(dir, Take(Sorted(dir, s), n))
    ensures |ToSet(Take(Sorted(dir, s), n))| == (if n <= |s| then n else |s|)
  {
    var r := Sorted(dir, s);
    Sorts(dir, s);
    forall x | x in Take(r, n) ensures x in s {
      assert x in r;
    }
    AscendingSize(dir, Take(r, n));
  }

  /** A LIMIT n that leaves a key out takes n keys, all before it. */
  lemma TakenAreBefore(dir: Direction, s: set<Key>, n: nat, k: Key)
    requires k in s && k !in Take(Sorted(dir, s), n)
    ensures ToSet(Take(Sorted(dir, s), n)) <= Prefix(dir, s, k)
    ensures |ToSet(Take(Sorted(dir, s), n))| == n
  {
    TakeSubset(dir, s, n);
    var r := Sorted(dir, s);
    Sorts(dir, s);
    var t := Take(r, n);
    var j :| 0 <= j < |r| && r[j] == k;
    assert forall i :: 0 <= i < |t| ==> t[i] == r[i];
    assert n <= j;
    forall x | x in t ensures x in Prefix(dir, s, k) {
      var i :| 0 <= i < |t| && t[i] == x;
      assert x in ToSet(t) && Before(dir, r[i], r[j]);
    }
  }

  // ---- Pages and walks ----

  function After(dir: Direction, s: set<Key>, cursor: Option<Key>): set<Key> {
    set x | x in s && (cursor.Some? ==> Before(dir, cursor.value, x))
  }

  /** One page: SELECT ... WHERE key after cursor ORDER BY ... LIMIT n. */
  function Page(dir: Direction, s: set<Key>, cursor: Option<Key>, n: nat): seq<Key> {
    Take(Sorted(dir, After(dir, s, cursor)), n)
  }

  /** LIMIT n + 1 returned the extra row. */
  predicate HasMore(dir: Direction, s: set<Key>, cursor: Option<Key>, n: nat) {
    |After(dir, s, cursor)| > n
  }

  /** The pages of a walk whose i-th page reads the table contents tables[i]; the
      next cursor is the last key of a page that announced more. */
  function Walk(dir: Direction, tables: seq<set<Key>>, cursor: Option<Key>, n: nat): seq<seq<Key>>
    requires n > 0
  {
    if tables == [] then []
    else
      var page := Page(dir, tables[0], cursor, n);
      [page] + if HasMore(dir, tables[0], cursor, n)
               then Walk(dir, tables[1..], Some(page[n - 1]), n) else []
  }

  /** Some page of the walk announced that there is no more. */
  predicate Ends(dir: Direction, tables: seq<set<Key>>, cursor: Option<Key>, n: nat)
    requires n > 0
  {
    tables != [] &&
    (HasMore(dir, tables[0], cursor, n) ==>
       Ends(dir, tables[1..], Some(Page(dir, tables[0], cursor, n)[n - 1]), n))
  }

  function Flatten(pages: seq<seq<Key>>): seq<Key> {
    if pages == [] then [] else pages[0] + Flatten(pages[1..])
  }

  lemma BeforeTransitive(dir: Direction, a: Key, b: Key, c: Key)
    requires Before(dir, a, b) && Before(dir, b, c)
    ensures Before(dir, a, c)
  {
  }

  lemma {:induction false} FlattenMember(pages: seq<seq<Key>>, k: Key)
    ensures k in Flatten(pages) <==> exists i :: 0 <= i < |pages| && k in pages[i]
  {
    if pages != [] {
      FlattenMember(pages[1..], k);
      if i :| 0 <= i < |pages| && k in pages[i] {
        assert i > 0 ==> k in pages[1..][i - 1];
      }
      if k in Flatten(pages[1..]) {
        var j :| 0 <= j < |pages[1..]| && k in pages[1..][j];
        assert k in pages[j + 1];
      }
    }
  }

  lemma PageBounds(dir: Direction, s: set<Key>, cursor: Option<Key>, n: nat)
    ensures var page := Page(dir, s, cursor, n);
            && Ascending(dir, page)
            && (forall k :: k in page ==> k in s && (cursor.Some? ==> Before(dir, cursor.value, k)))
            && (HasMore(dir, s, cursor, n) ==> |page| == n)
            && (!HasMore(dir, s, cursor, n) ==> ToSet(page) == After(dir, s, cursor))
  {
    var page := Page(dir, s, cursor, n);
    Sorts(dir, After(dir, s, cursor));
    TakeSubset(dir, After(dir, s, cursor), n);
    forall k | k in page ensures k in After(dir, s, cursor) {
      assert k in ToSet(page);
    }
  }

  /** A key after the cursor is on the page, or lies beyond the page's last key. */
  lemma PageSplits(dir: Direction, s: set<Key>, cursor: Option<Key>, n: nat, k: Key)
    requires n > 0 && k in After(dir, s, cursor)
    ensures var page := Page(dir, s, cursor, n);
            k in page || (HasMore(dir, s, cursor, n) && |page| == n && Before(dir, page[n - 1], k))
  {
    var r := Sorted(dir, After(dir, s, cursor));
    Sorts(dir, After(dir, s, cursor));
    assert k in ToSet(r);
    var i :| 0 <= i < |r| && r[i] == k;
    var page := Page(dir, s, cursor, n);
    if i < n {
      assert page[i] == k;
    } else {
      assert Before(dir, r[n - 1], r[i]);
    }
  }

  lemma WalkUnfold(dir: Direction, tables: seq<set<Key>>, cursor: Option<Key>, n: nat)
    requires n > 0 && tables != []
    ensures var page := Page(dir, tables[0], cursor, n);
            HasMore(dir, tables[0], cursor, n) ==>
              && |page| == n
              && Flatten(Walk(dir, tables, cursor, n))
                 == page + Flatten(Walk(dir, tables[1..], Some(page[n - 1]), n))
    ensures !HasMore(dir, tables[0], cursor, n) ==>
              Flatten(Walk(dir, tables, cursor, n)) == Page(dir, tables[0], cursor, n)
  {
    var page := Page(dir, tables[0], cursor, n);
    var pages := Walk(dir, tables, cursor, n);
    if HasMore(dir, tables[0], cursor, n) {
      assert pages[1..] == Walk(dir, tables[1..], Some(page[n - 1]), n);
    } else {
      assert pages[1..] == [];
      assert page + [] == page;
    }
  }

  /** No key is read twice: whatever happens to the table between the pages, the
      concatenated pages are strictly increasing. */
  lemma {:induction false} WalkAscends(dir: Direction, tables: seq<set<Key>>, cursor: Option<Key>, n: nat)
    requires n > 0
    ensures Ascending(dir, Flatten(Walk(dir, tables, cursor, n)))
    ensures cursor.Some? ==>
              forall k :: k in Flatten(Walk(dir, tables, cursor, n)) ==> Before(dir, cursor.value, k)
  {
    if tables != [] {
      var page := Page(dir, tables[0], cursor, n);
      PageBounds(dir, tables[0], cursor, n);
      WalkUnfold(dir, tables, cursor, n);
      if HasMore(dir, tables[0], cursor, n) {
        var last := page[n - 1];
        var rest := Flatten(Walk(dir, tables[1..], Some(last), n));
        WalkAscends(dir, tables[1..], Some(last), n);
        assert last in page;
        forall x, k | x in page && k in rest ensures Before(dir, x, k) {
          assert Before(dir, last, k);
          assert x == last || Before(dir, x, last);
        }
        AscendingJoin(dir, page, rest);
      }
    }
  }

  /** None of the first i pages reads k. */
  predicate Unread(pages: seq<seq<Key>>, i: nat, k: Key) {
    forall j :: 0 <= j < i && j < |pages| ==> k !in pages[j]
  }

  /** Nothing that stays is missed: a key that is in the table at every page of a
      walk that ends, until a page reads it, is read. */
  lemma {:induction false} WalkCovers(dir: Direction, tables: seq<set<Key>>, cursor: Option<Key>, n: nat, k: Key)
    requires n > 0 && Ends(dir, tables, cursor, n)
    requires var pages := Walk(dir, tables, cursor, n);
             forall i :: 0 <= i < |pages| && i < |tables| && Unread(pages, i, k) ==> k in tables[i]
    requires cursor.Some? ==> Before(dir, cursor.value, k)
    ensures k in Flatten(Walk(dir, tables, cursor, n))
  {
    var pages := Walk(dir, tables, cursor, n);
    assert |pages| > 0 && Unread(pages, 0, k) && k in tables[0];
    var page := Page(dir, tables[0], cursor, n);
    PageBounds(dir, tables[0], cursor, n);
    PageSplits(dir, tables[0], cursor, n, k);
    if k !in page {
      var rest := Walk(dir, tables[1..], Some(page[n - 1]), n);
      assert pages[1..] == rest;
      forall i | 0 <= i < |rest| && i < |tables[1..]| && Unread(rest, i, k) ensures k in tables[1..][i] {
        assert Unread(pages, i + 1, k);
        assert k in tables[i + 1];
      }
      WalkCovers(dir, tables[1..], Some(page[n - 1]), n, k);
    }
  }

  /** Only rows that were in the table are read. */
  lemma {:induction false} WalkSound(dir: Direction, tables: seq<set<Key>>, cursor: Option<Key>, n: nat, i: nat, k: Key)
    requires n > 0 && i < |Walk(dir, tables, cursor, n)| && k in Walk(dir, tables, cursor, n)[i]
    ensures i < |tables| && k in tables[i]
  {
    PageBounds(dir, tables[0], cursor, n);
    if i > 0 {
      var page := Page(dir, tables[0], cursor, n);
      WalkSound(dir, tables[1..], Some(page[n - 1]), n, i - 1, k);
    }
  }

  /** Over an unchanging table a finished walk is the sorted table, and every
      page but the last is full. */
  lemma WalkOfFixedTable(dir: Direction, s: set<Key>, tables: seq<set<Key>>, n: nat)
    requires n > 0 && Ends(dir, tables, None, n)
    requires forall i :: 0 <= i < |tables| ==> tables[i] == s
    ensures Flatten(Walk(dir, tables, None, n)) == Sorted(dir, s)
  {
    var pages := Walk(dir, tables, None, n);
    var all := Flatten(pages);
    WalkAscends(dir, tables, None, n);
    forall k ensures k in ToSet(all) <==> k in s {
      if k in s {
        WalkCovers(dir, tables, None, n, k);
      }
      if k in all {
        FlattenMember(pages, k);
        var i :| 0 <= i < |pages| && k in pages[i];
        WalkSound(dir, tables, None, n, i, k);
      }
    }
    assert ToSet(all) == s;
    Sorts(dir, s);
    SortedUnique(dir, all, Sorted(dir, s));
  }

  lemma {:induction false} SortedUnique(dir: Direction, a: seq<Key>, b: seq<Key>)
    requires Ascending(dir, a) && Ascending(dir, b) && ToSet(a) == ToSet(b)
    ensures a == b
  {
    AscendingSize(dir, a);
    AscendingSize(dir, b);
    if a != [] {
      assert a[0] in ToSet(b) && b[0] in ToSet(a);
      assert a[0] == b[0];
      forall k ensures k in ToSet(a[1..]) <==> k in ToSet(a) && k != a[0] {
        if k in ToSet(a) && k != a[0] {
          var i :| 0 <= i < |a| && a[i] == k;
          assert a[1..][i - 1] == k;
        }
      }
      forall k ensures k in ToSet(b[1..]) <==> k in ToSet(b) && k != b[0] {
        if k in ToSet(b) && k != b[0] {
          var i :| 0 <= i < |b| && b[i] == k;
          assert b[1..][i - 1] == k;
        }
      }
      assert ToSet(a[1..]) == ToSet(b[1..]);
      SortedUnique(dir, a[1..], b[1..]);
      assert a == [a[0]] + a[1..] && b == [b[0]] + b[1..];
    }
  }

  /** A walk into whose range no row is added ends: every page that announces
      more uses up n of the remaining keys. */
  lemma {:induction false} WalkTerminates(dir: Direction, s: set<Key>, tables: seq<set<Key>>, cursor: Option<Key>, n: nat)
    requires n > 0 && tables != []
    requires forall i :: 0 <= i < |tables| ==> tables[i] <= s
    requires |After(dir, s, cursor)| <= n * |tables|
    ensures Ends(dir, tables, cursor, n)
  {
    if HasMore(dir, tables[0], cursor, n) {
      var page := Page(dir, tables[0], cursor, n);
      PageBounds(dir, tables[0], cursor, n);
      PageUsesUp(dir, s, tables[0], cursor, n);
      RoomLeft(n, |tables|, |After(dir, s, Some(page[n - 1]))|);
      assert |tables| > 1 by {
        SubsetSize(After(dir, tables[0], cursor), After(dir, s, cursor));
        assert n * 1 == n;
      }
      WalkTerminates(dir, s, tables[1..], Some(page[n - 1]), n);
    }
  }

  lemma RoomLeft(n: int, m: int, left: int)
    requires left + n <= n * m
    ensures left <= n * (m - 1)
  {
    assert n * (m - 1) == n * m - n;
  }

  /** A page that announces more leaves n fewer keys of the range beyond it. */
  lemma PageUsesUp(dir: Direction, s: set<Key>, table: set<Key>, cursor: Option<Key>, n: nat)
    requires n > 0 && table <= s && HasMore(dir, table, cursor, n)
    requires |Page(dir, table, cursor, n)| == n
    ensures |After(dir, s, Some(Page(dir, table, cursor, n)[n - 1]))| + n <= |After(dir, s, cursor)|
  {
    var page := Page(dir, table, cursor, n);
    PageBounds(dir, table, cursor, n);
    var last := page[n - 1];
    var left := After(dir, s, cursor);
    var beyond := After(dir, s, Some(last));
    AscendingSize(dir, page);
    assert last in page;
    forall k | k in page ensures k in left && k !in beyond {
      assert k == last || Before(dir, k, last);
    }
    forall k | k in beyond ensures k in left {
      if cursor.Some? {
        BeforeTransitive(dir, cursor.value, last, k);
      }
    }
    assert ToSet(page) !! beyond;
    SubsetSize(ToSet(page) + beyond, left);
  }

  lemma {:induction false} SubsetSize<T>(a: set<T>, b: set<T>)
    requires a <= b
    ensures |a| <= |b|
  {
    if a != {} {
      var x :| x in a;
      SubsetSize(a - {x}, b - {x});
    }
  }
}
