/** Following next_cursor through the feed while the tables keep changing. */
module HistoryWalk {
  import opened Options
  import opened History

  datatype Page = Page(rows: seq<Row>, more: bool)

  /** What one request answers when the tables hold `rows`. */
  ghost predicate IsPage(rows: set<Row>, account: string, limit: nat, cursor: Option<Key>, p: Page) {
    && IsTop(p.rows, Feed(rows, account, cursor), limit)
    && (p.more <==> exists q :: q in Feed(rows, account, cursor) && q !in p.rows)
  }

  /** next_cursor: the key of the page's last row. */
  function Next(p: Page): Option<Key> {
    if p.more && p.rows != [] then Some(p.rows[|p.rows| - 1].key) else None
  }

  /** The pages a client gets: request i meets tables holding `views[i]`, and every
      request but the first carries the cursor of the page before it. */
  ghost predicate IsWalk(views: seq<set<Row>>, account: string, limit: nat, cursor: Option<Key>, pages: seq<Page>)
    decreases pages
  {
    && |views| == |pages| && pages != []
    && IsPage(views[0], account, limit, cursor, pages[0])
    && (|pages| > 1 ==> Next(pages[0]).Some? && IsWalk(views[1..], account, limit, Next(pages[0]), pages[1..]))
  }

  predicate Finished(pages: seq<Page>)
    requires pages != []
  {
    Next(pages[|pages| - 1]).None?
  }

  /** Everything the client saw, in order. */
  function All(pages: seq<Page>): seq<Row> {
    if pages == [] then [] else pages[0].rows + All(pages[1..])
  }

  lemma AllIn(pages: seq<Page>, r: Row)
    requires pages != []
    ensures r in All(pages) <==> r in pages[0].rows || r in All(pages[1..])
  {
  }

  /** Every row of a walk lies past the cursor it started from. */
  lemma {:induction false} WalkIsPastCursor(views: seq<set<Row>>, account: string, limit: nat, cursor: Option<Key>,
                                            pages: seq<Page>, r: Row)
    requires IsWalk(views, account, limit, cursor, pages) && r in All(pages)
    ensures After(cursor, r)
    decreases pages
  {
    AllIn(pages, r);
    if r !in pages[0].rows {
      WalkIsPastCursor(views[1..], account, limit, Next(pages[0]), pages[1..], r);
      var last := pages[0].rows[|pages[0].rows| - 1];
      assert last in pages[0].rows;
      if cursor.Some? { NewerIsTransitive(cursor.value, last.key, r.key); }
    }
  }

  /** Main result: whatever happens to the tables between requests, the client sees
      strictly descending keys, so no row twice. */
  lemma {:induction false} WalkDescends(views: seq<set<Row>>, account: string, limit: nat, cursor: Option<Key>,
                                        pages: seq<Page>)
    requires IsWalk(views, account, limit, cursor, pages)
    ensures Descending(All(pages))
    ensures forall i, j :: 0 <= i < j < |All(pages)| ==> Precedes(All(pages)[i], All(pages)[j])
    decreases pages
  {
    var first, rest := pages[0].rows, All(pages[1..]);
    if |pages| > 1 {
      WalkDescends(views[1..], account, limit, Next(pages[0]), pages[1..]);
      forall i, j | 0 <= i < |first| && 0 <= j < |rest| ensures Newer(first[i].key, rest[j].key) {
        WalkIsPastCursor(views[1..], account, limit, Next(pages[0]), pages[1..], rest[j]);
        var last := first[|first| - 1];
        if i < |first| - 1 { NewerIsTransitive(first[i].key, last.key, rest[j].key); }
      }
    }
  }

  /** A row with this key is visible at this moment; its status may differ later. */
  ghost predicate Shows(rows: set<Row>, account: string, key: Key) {
    exists r :: r in rows && Visible(account, r) && r.key == key
  }

  ghost predicate AlwaysVisible(views: seq<set<Row>>, account: string, key: Key) {
    forall i :: 0 <= i < |views| ==> Shows(views[i], account, key)
  }

  ghost predicate HasKey(s: seq<Row>, key: Key) {
    exists i :: 0 <= i < |s| && s[i].key == key
  }

  lemma AllHasKey(pages: seq<Page>, key: Key)
    requires pages != [] && (HasKey(pages[0].rows, key) || HasKey(All(pages[1..]), key))
    ensures HasKey(All(pages), key)
  {
    var first, rest := pages[0].rows, All(pages[1..]);
    if HasKey(first, key) {
      var i :| 0 <= i < |first| && first[i].key == key;
      assert All(pages)[i] == first[i];
    } else {
      var i :| 0 <= i < |rest| && rest[i].key == key;
      assert All(pages)[|first| + i] == rest[i];
    }
  }

  /** A row that stays visible throughout a finished walk is seen; rows coming and
      going around it do not matter. */
  lemma {:induction false} StableRowsAreSeen(views: seq<set<Row>>, account: string, limit: nat, cursor: Option<Key>,
                                             pages: seq<Page>, key: Key)
    requires limit > 0 && IsWalk(views, account, limit, cursor, pages) && Finished(pages)
    requires AlwaysVisible(views, account, key) && (cursor.Some? ==> Newer(cursor.value, key))
    ensures HasKey(All(pages), key)
    decreases pages
  {
    if !HasKey(pages[0].rows, key) {
      assert Shows(views[0], account, key);
      var r :| r in views[0] && Visible(account, r) && r.key == key;
      assert r in Feed(views[0], account, cursor) && r !in pages[0].rows;
      var last := pages[0].rows[|pages[0].rows| - 1];
      assert last in pages[0].rows;
      assert forall i :: 0 <= i < |views[1..]| ==> views[1..][i] == views[i + 1];
      StableRowsAreSeen(views[1..], account, limit, Next(pages[0]), pages[1..], key);
    }
    AllHasKey(pages, key);
  }

  predicate OnlyAt(s: seq<Row>, key: Key, i: int) {
    0 <= i < |s| && s[i].key == key && forall j :: 0 <= j < |s| && s[j].key == key ==> j == i
  }

  /** Main result: exactly once. The row is seen, and at one position only. */
  lemma StableRowsAreSeenOnce(views: seq<set<Row>>, account: string, limit: nat, pages: seq<Page>, key: Key)
    requires limit > 0 && IsWalk(views, account, limit, None, pages) && Finished(pages)
    requires AlwaysVisible(views, account, key)
    ensures exists i :: OnlyAt(All(pages), key, i)
  {
    var seen := All(pages);
    StableRowsAreSeen(views, account, limit, None, pages, key);
    WalkDescends(views, account, limit, None, pages);
    var i :| 0 <= i < |seen| && seen[i].key == key;
    forall j | 0 <= j < |seen| && seen[j].key == key ensures j == i { NewerIsTotal(seen[i].key, seen[j].key); }
    assert OnlyAt(seen, key, i);
  }

  // ----- termination

  /** Every page a client continues from is full. */
  lemma {:induction false} ContinuedPagesAreFull(views: seq<set<Row>>, account: string, limit: nat, cursor: Option<Key>,
                                                 pages: seq<Page>)
    requires IsWalk(views, account, limit, cursor, pages)
    ensures |All(pages)| >= (|pages| - 1) * limit
    decreases pages
  {
    if |pages| > 1 {
      ContinuedPagesAreFull(views[1..], account, limit, Next(pages[0]), pages[1..]);
      assert |pages[0].rows| == limit;
      assert (|pages| - 1) * limit == limit + (|pages[1..]| - 1) * limit;
    }
  }

  /** From the second request on, only rows of `known` lie past the cursor: new rows
      are created with later timestamps, above everything already read. */
  ghost predicate OnlyOldBelow(views: seq<set<Row>>, account: string, cursor: Option<Key>, known: set<Row>) {
    forall i :: 0 <= i < |views| ==> Feed(views[i], account, cursor) <= known
  }

  lemma {:induction false} WalkStaysInside(views: seq<set<Row>>, account: string, limit: nat, cursor: Option<Key>,
                                           pages: seq<Page>, bound: set<Row>, r: Row)
    requires IsWalk(views, account, limit, cursor, pages) && OnlyOldBelow(views, account, cursor, bound) && r in All(pages)
    ensures r in bound
    decreases pages
  {
    AllIn(pages, r);
    if r in pages[0].rows {
      assert r in Feed(views[0], account, cursor);
    } else {
      var next := Next(pages[0]);
      var last := pages[0].rows[|pages[0].rows| - 1];
      assert last in pages[0].rows;
      forall i | 0 <= i < |views[1..]| ensures Feed(views[1..][i], account, next) <= bound {
        forall q | q in Feed(views[1..][i], account, next) ensures q in bound {
          if cursor.Some? { NewerIsTransitive(cursor.value, last.key, q.key); }
          assert q in Feed(views[i + 1], account, cursor);
        }
      }
      WalkStaysInside(views[1..], account, limit, next, pages[1..], bound, r);
    }
  }

  lemma {:induction false} DistinctCount(s: seq<Row>, bound: set<Row>)
    requires Descending(s) && forall r :: r in s ==> r in bound
    ensures |s| <= |bound|
  {
    if s != [] {
      var last, rest := s[|s| - 1], s[..|s| - 1];
      forall r | r in rest ensures r in bound - {last} {
        var i :| 0 <= i < |rest| && rest[i] == r;
        assert s[i] == r && r in s;
        if r == last { DescendingIsDistinct(s, i, |s| - 1); }
      }
      assert last in s;
      DistinctCount(rest, bound - {last});
    }
  }

  /** Main result: the walk ends. After the first page it cannot ask for more pages
      than the rows below the first cursor can fill. */
  lemma WalkEnds(views: seq<set<Row>>, account: string, limit: nat, pages: seq<Page>, bound: set<Row>)
    requires limit > 0 && IsWalk(views, account, limit, None, pages) && |pages| > 1
    requires OnlyOldBelow(views[1..], account, Next(pages[0]), bound)
    ensures (|pages| - 2) * limit <= |bound|
  {
    var next := Next(pages[0]);
    WalkDescends(views[1..], account, limit, next, pages[1..]);
    ContinuedPagesAreFull(views[1..], account, limit, next, pages[1..]);
    forall r | r in All(pages[1..]) ensures r in bound {
      WalkStaysInside(views[1..], account, limit, next, pages[1..], bound, r);
    }
    DistinctCount(All(pages[1..]), bound);
  }
}
