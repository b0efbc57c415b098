/** transfers-svc's history feed: keyset pages merged from separately limited
    sources, and the walk a client makes through them. */
module History {
  import opened Options
  import opened Order

  datatype Key = Key(createdAt: int, id: string)

  datatype Status = Pending | Completed | Failed | Rejected

  datatype Row =
    | Transfer(key: Key, sender: string, recipient: string, amount: int, status: Status)
    | Deposit(key: Key, account: string, amount: int)
    | Withdrawal(key: Key, account: string, amount: int)

  /** ORDER BY created_at DESC, id DESC: does `a` come before `b`? */
  predicate Newer(a: Key, b: Key) {
    a.createdAt > b.createdAt || (a.createdAt == b.createdAt && Less(b.id, a.id))
  }

  lemma NewerIsTotal(a: Key, b: Key)
    ensures !Newer(a, a) && (a == b || Newer(a, b) || Newer(b, a)) && !(Newer(a, b) && Newer(b, a))
  {
    LessIrreflexive(a.id);
    LessTotal(a.id, b.id);
    if Less(a.id, b.id) && Less(b.id, a.id) { LessTransitive(a.id, b.id, a.id); }
  }

  lemma NewerIsTransitive(a: Key, b: Key, c: Key)
    requires Newer(a, b) && Newer(b, c)
    ensures Newer(a, c)
  {
    if a.createdAt == b.createdAt == c.createdAt { LessTransitive(c.id, b.id, a.id); }
  }

  /** Ids are unique across the three tables. */
  predicate UniqueKeys(rows: set<Row>) {
    forall a, b :: a in rows && b in rows && a.key == b.key ==> a == b
  }

  /** A transfer always has two different parties (createTransfer refuses others). */
  predicate NoSelfTransfers(rows: set<Row>) {
    forall r :: r in rows && r.Transfer? ==> r.sender != r.recipient
  }

  // ----- who sees what

  predicate SentBy(account: string, r: Row) {
    r.Transfer? && r.sender == account
  }

  predicate ReceivedBy(account: string, r: Row) {
    r.Transfer? && r.recipient == account && r.status.Completed?
  }

  predicate Visible(account: string, r: Row) {
    SentBy(account, r) || ReceivedBy(account, r) || (!r.Transfer? && r.account == account)
  }

  predicate After(cursor: Option<Key>, r: Row) {
    cursor.Some? ==> Newer(cursor.value, r.key)
  }

  /** The whole feed past the cursor: what a page is a window of. */
  function Feed(rows: set<Row>, account: string, cursor: Option<Key>): set<Row> {
    set r | r in rows && Visible(account, r) && After(cursor, r)
  }

  // ----- ordered, limited queries

  predicate Descending(s: seq<Row>) {
    forall i, j :: 0 <= i < j < |s| ==> Newer(s[i].key, s[j].key)
  }

  /** `s` is the newest `n` rows of `rows`, newest first. */
  predicate IsTop(s: seq<Row>, rows: set<Row>, n: nat) {
    && Descending(s) && |s| <= n
    && (forall r :: r in s ==> r in rows)
    && (forall r, q :: r in s && q in rows && q !in s ==> Newer(r.key, q.key))
    && (|s| < n ==> forall q :: q in rows ==> q in s)
  }

  predicate IsNewest(rows: set<Row>, m: Row) {
    m in rows && forall r :: r in rows && r != m ==> Newer(m.key, r.key)
  }

  lemma NewestOfTwo(rows: set<Row>, y: Row, m: Row)
    requires UniqueKeys(rows) && y in rows && m in rows - {y} && IsNewest(rows - {y}, m)
    ensures IsNewest(rows, if Newer(y.key, m.key) then y else m)
  {
    NewerIsTotal(m.key, y.key);
    if Newer(y.key, m.key) {
      forall r | r in rows && r != y ensures Newer(y.key, r.key) {
        if r != m { NewerIsTransitive(y.key, m.key, r.key); }
      }
    }
    hide Newer;
  }

  lemma {:induction false} NewestExists(rows: set<Row>)
    requires rows != {} && UniqueKeys(rows)
    ensures exists m :: m in rows && IsNewest(rows, m)
    decreases rows
  {
    hide Newer;
    var y :| y in rows;
    if rows == {y} {
      assert IsNewest(rows, y);
    } else {
      NewestExists(rows - {y});
      var m :| m in rows - {y} && IsNewest(rows - {y}, m);
      NewestOfTwo(rows, y, m);
    }
  }

  function Newest(rows: set<Row>): (m: Row)
    requires rows != {} && UniqueKeys(rows)
    ensures IsNewest(rows, m)
  {
    NewestExists(rows);
    assert forall a, b :: IsNewest(rows, a) && IsNewest(rows, b) ==> a == b by {
      forall a, b | IsNewest(rows, a) && IsNewest(rows, b) ensures a == b { NewerIsTotal(a.key, b.key); }
    }
    var m :| m in rows && IsNewest(rows, m);
    m
  }

  /** SELECT ... ORDER BY created_at DESC, id DESC LIMIT n. */
  function Query(rows: set<Row>, n: nat): (s: seq<Row>)
    requires UniqueKeys(rows)
    ensures IsTop(s, rows, n)
    decreases n
  {
    if n == 0 || rows == {} then []
    else
      var m := Newest(rows);
      var rest := Query(rows - {m}, n - 1);
      ConsTop(rows, m, rest, n);
      [m] + rest
  }

  lemma ConsTop(rows: set<Row>, m: Row, rest: seq<Row>, n: nat)
    requires n > 0 && IsNewest(rows, m) && IsTop(rest, rows - {m}, n - 1)
    ensures IsTop([m] + rest, rows, n)
  {
    var s := [m] + rest;
    forall i, j | 0 <= i < j < |s| ensures Newer(s[i].key, s[j].key) {
      assert s[j] in rest;
      if i > 0 { assert rest[i - 1] in rest && s[i] == rest[i - 1] && s[j] == rest[j - 1]; }
    }
    forall r, q | r in s && q in rows && q !in s ensures Newer(r.key, q.key) {
      assert q != m && q !in rest;
    }
  }

  // ----- one extra row tells whether there is more

  /** `s` without what exceeds the limit. */
  function Trim(s: seq<Row>, limit: nat): seq<Row> {
    if |s| > limit then s[..limit] else s
  }

  lemma DescendingIsDistinct(s: seq<Row>, i: nat, j: nat)
    requires Descending(s) && i < |s| && j < |s| && s[i] == s[j]
    ensures i == j
  {
    NewerIsTotal(s[i].key, s[j].key);
  }

  lemma TrimmedTop(s: seq<Row>, rows: set<Row>, limit: nat)
    requires IsTop(s, rows, limit + 1)
    ensures IsTop(Trim(s, limit), rows, limit)
    ensures |s| > limit <==> exists q :: q in rows && q !in Trim(s, limit)
  {
    var t := Trim(s, limit);
    if |s| > limit {
      assert s == t + [s[limit]];
      forall q | q in t ensures q != s[limit] {
        var i :| 0 <= i < |t| && t[i] == q;
        if q == s[limit] { DescendingIsDistinct(s, i, limit); }
      }
      assert s[limit] in rows && s[limit] !in t;
    }
  }

  // ----- merging

  /** No repetitions, and everything in `t`: then no longer than `t`. */
  lemma {:induction false} DistinctFits(s: seq<Row>, t: seq<Row>)
    requires Descending(s) && forall r :: r in s ==> r in t
    ensures |s| <= |t|
  {
    if s != [] {
      var last, rest := s[|s| - 1], s[..|s| - 1];
      assert last in s && last in t;
      var k :| 0 <= k < |t| && t[k] == last;
      var t' := t[..k] + t[k + 1..];
      forall r | r in rest ensures r in t' {
        var i :| 0 <= i < |rest| && rest[i] == r;
        if r == last { DescendingIsDistinct(s, i, |s| - 1); }
        assert s[i] == r && r in s && r in t;
        var j :| 0 <= j < |t| && t[j] == r;
        assert j != k;
        assert r == if j < k then t'[j] else t'[j - 1];
      }
      DistinctFits(rest, t');
    }
  }

  /** `a` is a source's limited result and all of it went into the pool `c`. */
  predicate Pooled(a: seq<Row>, rows: set<Row>, c: seq<Row>, n: nat) {
    IsTop(a, rows, n) && forall r :: r in a ==> r in c
  }

  /** A row its own source left out is older than everything on the merged page. */
  lemma LeftOutIsOlder(a: seq<Row>, rows: set<Row>, c: seq<Row>, n: nat, q: Row, i: nat)
    requires Pooled(a, rows, c, n) && Descending(c)
    requires q in rows && q !in a && i < |c| && i < n
    ensures !Newer(q.key, c[i].key)
  {
    if Newer(q.key, c[i].key) {
      forall r | r in a ensures r in c[..i] {
        var k :| 0 <= k < |c| && c[k] == r;
        NewerIsTransitive(r.key, q.key, c[i].key);
        NewerIsTotal(c[k].key, c[i].key);
        assert k < i;
        assert c[..i][k] == r;
      }
      DistinctFits(a, c[..i]);
    }
  }

  lemma OlderThanPage(a: seq<Row>, rows: set<Row>, c: seq<Row>, n: nat, q: Row, i: nat)
    requires Pooled(a, rows, c, n) && Descending(c) && q in rows
    requires i < |Trim(c, n)| && q !in Trim(c, n) && c[i].key != q.key
    ensures Newer(c[i].key, q.key)
  {
    var t := Trim(c, n);
    assert forall j :: 0 <= j < |t| ==> t[j] == c[j] && t[j] in t;
    if q in c {
      var k :| 0 <= k < |c| && c[k] == q;
    } else {
      LeftOutIsOlder(a, rows, c, n, q, i);
      NewerIsTotal(c[i].key, q.key);
    }
  }

  /** The merged pool: sorted, and made of the three results and nothing else. */
  ghost predicate IsMerge(c: seq<Row>, a: seq<Row>, b: seq<Row>, d: seq<Row>) {
    Descending(c) && forall r :: r in c <==> r in a || r in b || r in d
  }

  /** Main result: merging separately limited sources is exact. */
  lemma MergeIsExact(a: seq<Row>, rowsA: set<Row>, b: seq<Row>, rowsB: set<Row>, d: seq<Row>, rowsD: set<Row>,
                     c: seq<Row>, n: nat)
    requires IsTop(a, rowsA, n) && IsTop(b, rowsB, n) && IsTop(d, rowsD, n) && IsMerge(c, a, b, d)
    requires UniqueKeys(rowsA + rowsB + rowsD)
    ensures IsTop(Trim(c, n), rowsA + rowsB + rowsD, n)
  {
    var t, all := Trim(c, n), rowsA + rowsB + rowsD;
    assert forall r :: r in t ==> r in c;
    forall r, q | r in t && q in all && q !in t ensures Newer(r.key, q.key) {
      var i :| 0 <= i < |t| && t[i] == r;
      assert c[i] == r && r in all;
      if q in rowsA { OlderThanPage(a, rowsA, c, n, q, i); }
      else if q in rowsB { OlderThanPage(b, rowsB, c, n, q, i); }
      else { OlderThanPage(d, rowsD, c, n, q, i); }
    }
    if |t| < n {
      DistinctFits(a, c);
      DistinctFits(b, c);
      DistinctFits(d, c);
    }
  }

  /** Main result: "more" is exactly "a source had more, or the pool overflowed". */
  lemma MoreIsExact(a: seq<Row>, rowsA: set<Row>, b: seq<Row>, rowsB: set<Row>, d: seq<Row>, rowsD: set<Row>,
                    c: seq<Row>, n: nat)
    requires IsTop(a, rowsA, n) && IsTop(b, rowsB, n) && IsTop(d, rowsD, n) && IsMerge(c, a, b, d)
    requires rowsA !! rowsB && rowsA !! rowsD && rowsB !! rowsD
    ensures (exists q :: q in rowsA + rowsB + rowsD && q !in Trim(c, n)) <==>
            || |c| > n
            || (exists q :: q in rowsA && q !in a)
            || (exists q :: q in rowsB && q !in b)
            || (exists q :: q in rowsD && q !in d)
  {
    var t, all := Trim(c, n), rowsA + rowsB + rowsD;
    assert forall r :: r in t ==> r in c;
    if |c| > n {
      assert c[n] in c && c[n] in all;
      forall i | 0 <= i < |t| ensures t[i] != c[n] { if t[i] == c[n] { DescendingIsDistinct(c, i, n); } }
      assert c[n] !in t;
    }
    if q :| q in rowsA && q !in a { assert q in all && q !in c; }
    if q :| q in rowsB && q !in b { assert q in all && q !in c; }
    if q :| q in rowsD && q !in d { assert q in all && q !in c; }
  }

  // ----- the page functions

  /** sort.Slice with the newest-first comparison, as insertion into sorted order. */
  function Place(r: Row, s: seq<Row>): seq<Row> {
    if s == [] || Newer(r.key, s[0].key) then [r] + s else [s[0]] + Place(r, s[1..])
  }

  function Sorted(s: seq<Row>): seq<Row> {
    if s == [] then [] else Place(s[|s| - 1], Sorted(s[..|s| - 1]))
  }

  lemma {:induction false} PlaceSorts(r: Row, s: seq<Row>)
    requires Descending(s) && forall q :: q in s ==> q.key != r.key
    ensures Descending(Place(r, s)) && forall q :: q in Place(r, s) <==> q == r || q in s
  {
    if s == [] {
    } else if Newer(r.key, s[0].key) {
      forall j | 0 <= j < |s| ensures Newer(r.key, s[j].key) {
        if j > 0 { NewerIsTransitive(r.key, s[0].key, s[j].key); }
      }
    } else {
      PlaceSorts(r, s[1..]);
      NewerIsTotal(r.key, s[0].key);
      var rest := Place(r, s[1..]);
      assert s[0] in s && s == [s[0]] + s[1..];
      forall j | 0 <= j < |rest| ensures Newer(s[0].key, rest[j].key) { assert rest[j] in rest; }
    }
  }

  predicate DistinctKeys(s: seq<Row>) {
    forall i, j :: 0 <= i < j < |s| ==> s[i].key != s[j].key
  }

  lemma {:induction false} SortSorts(s: seq<Row>)
    requires DistinctKeys(s)
    ensures Descending(Sorted(s)) && forall q :: q in Sorted(s) <==> q in s
  {
    if s != [] {
      var last, rest := s[|s| - 1], s[..|s| - 1];
      SortSorts(rest);
      assert s == rest + [last];
      forall q | q in Sorted(rest) ensures q.key != last.key {
        assert q in rest;
        var i :| 0 <= i < |rest| && rest[i] == q;
        assert s[i] == q;
      }
      PlaceSorts(last, Sorted(rest));
    }
  }

  /** Rows of two sorted, disjoint sources together have no key twice. */
  lemma JoinedKeys(a: seq<Row>, b: seq<Row>)
    requires DistinctKeys(a) && DistinctKeys(b) && forall r, q :: r in a && q in b ==> r.key != q.key
    ensures DistinctKeys(a + b)
  {
    var c := a + b;
    forall i, j | 0 <= i < j < |c| ensures c[i].key != c[j].key {
      if i < |a| <= j { assert c[i] in a && c[j] in b; }
    }
  }

  lemma DescendingKeys(s: seq<Row>)
    requires Descending(s)
    ensures DistinctKeys(s)
  {
    forall i, j | 0 <= i < j < |s| ensures s[i].key != s[j].key { NewerIsTotal(s[i].key, s[j].key); }
  }

  /** The three pages, pooled and sorted. */
  lemma SortMerges(a: seq<Row>, b: seq<Row>, d: seq<Row>, all: set<Row>)
    requires Descending(a) && Descending(b) && Descending(d) && UniqueKeys(all)
    requires forall r :: r in a || r in b || r in d ==> r in all
    requires forall r :: !(r in a && r in b) && !(r in a && r in d) && !(r in b && r in d)
    ensures IsMerge(Sorted(a + b + d), a, b, d)
  {
    DescendingKeys(a);
    DescendingKeys(b);
    DescendingKeys(d);
    JoinedKeys(a, b);
    JoinedKeys(a + b, d);
    SortSorts(a + b + d);
  }

  // ----- the sources

  function Sent(rows: set<Row>, account: string, cursor: Option<Key>): set<Row> {
    set r | r in rows && SentBy(account, r) && After(cursor, r)
  }

  function Received(rows: set<Row>, account: string, cursor: Option<Key>): set<Row> {
    set r | r in rows && ReceivedBy(account, r) && After(cursor, r)
  }

  function Deposits(rows: set<Row>, account: string, cursor: Option<Key>): set<Row> {
    set r | r in rows && r.Deposit? && r.account == account && After(cursor, r)
  }

  function Withdrawals(rows: set<Row>, account: string, cursor: Option<Key>): set<Row> {
    set r | r in rows && r.Withdrawal? && r.account == account && After(cursor, r)
  }

  /** transferHistoryQuery*: two limited branches, UNION ALL, ordered and limited. */
  function TransferQuery(rows: set<Row>, account: string, cursor: Option<Key>, n: nat): seq<Row>
    requires UniqueKeys(rows)
  {
    Trim(Sorted(Query(Sent(rows, account, cursor), n) + Query(Received(rows, account, cursor), n)), n)
  }

  lemma TransferQueryIsTop(rows: set<Row>, account: string, cursor: Option<Key>, n: nat)
    requires UniqueKeys(rows) && NoSelfTransfers(rows)
    ensures IsTop(TransferQuery(rows, account, cursor, n), Sent(rows, account, cursor) + Received(rows, account, cursor), n)
  {
    var sent, received := Sent(rows, account, cursor), Received(rows, account, cursor);
    var a, b := Query(sent, n), Query(received, n);
    SortMerges(a, b, [], sent + received);
    assert a + b + [] == a + b;
    MergeIsExact(a, sent, b, received, [], {}, Sorted(a + b), n);
    assert sent + received + {} == sent + received;
  }

  // ----- what a page is, column by column

  /** Later in time or, at the same time, with the greater id. */
  predicate Precedes(a: Row, b: Row) {
    a.key.createdAt > b.key.createdAt || (a.key.createdAt == b.key.createdAt && Less(b.key.id, a.key.id))
  }

  /** The row is one of those asked for and, with a cursor, created before it, or at its
      time with a smaller id. */
  predicate Eligible(r: Row, rows: set<Row>, wanted: Row -> bool, cursor: Option<Key>) {
    && r in rows && wanted(r)
    && (cursor.Some? ==>
          || r.key.createdAt < cursor.value.createdAt
          || (r.key.createdAt == cursor.value.createdAt && Less(r.key.id, cursor.value.id)))
  }

  /** The page: eligible rows, latest first, at most `limit` of them, none of those left
      out later than any of them; and `more` says whether one was left out. */
  ghost predicate IsPageOf(page: seq<Row>, more: bool, rows: set<Row>, wanted: Row -> bool, limit: nat, cursor: Option<Key>) {
    && |page| <= limit
    && (forall i :: 0 <= i < |page| ==> Eligible(page[i], rows, wanted, cursor))
    && (forall i, j :: 0 <= i < j < |page| ==> Precedes(page[i], page[j]))
    && (forall i, q :: 0 <= i < |page| && Eligible(q, rows, wanted, cursor) && q !in page ==> Precedes(page[i], q))
    && (more <==> exists q :: Eligible(q, rows, wanted, cursor) && q !in page)
    && (more ==> |page| == limit)
  }

  lemma TopIsPage(page: seq<Row>, more: bool, feed: set<Row>, rows: set<Row>, wanted: Row -> bool, limit: nat, cursor: Option<Key>)
    requires IsTop(page, feed, limit) && (more <==> exists q :: q in feed && q !in page)
    requires forall r :: r in feed <==> r in rows && wanted(r) && After(cursor, r)
    ensures IsPageOf(page, more, rows, wanted, limit, cursor)
  {
    forall r ensures r in feed <==> Eligible(r, rows, wanted, cursor) {}
    forall i | 0 <= i < |page| ensures Eligible(page[i], rows, wanted, cursor) { assert page[i] in page; }
    forall i, q | 0 <= i < |page| && Eligible(q, rows, wanted, cursor) && q !in page ensures Precedes(page[i], q) {
      assert page[i] in page && Newer(page[i].key, q.key);
    }
  }

  // ----- the page functions

  /** The common tail of the page functions: read the rows, use the extra one only
      to tell whether there is more. */
  method ReadPage(result: seq<Row>, ghost wanted: set<Row>, limit: nat) returns (page: seq<Row>, more: bool)
    requires IsTop(result, wanted, limit + 1)
    ensures IsTop(page, wanted, limit)
    ensures more <==> exists q :: q in wanted && q !in page
  {
    page := [];
    for i := 0 to |result|
      invariant page == result[..i]
    {
      page := page + [result[i]];
    }
    assert result[..|result|] == result;
    TrimmedTop(page, wanted, limit);
    more := |page| > limit;
    if more { page := page[..limit]; }
  }

  method TransferHistoryPage(rows: set<Row>, account: string, limit: nat, cursor: Option<Key>)
    returns (page: seq<Row>, more: bool)
    requires UniqueKeys(rows) && NoSelfTransfers(rows)
    ensures var feed := Sent(rows, account, cursor) + Received(rows, account, cursor);
            IsTop(page, feed, limit) && (more <==> exists q :: q in feed && q !in page)
    ensures IsPageOf(page, more, rows, (r: Row) => r.Transfer? && (r.sender == account || (r.recipient == account && r.status == Completed)), limit, cursor)
  {
    TransferQueryIsTop(rows, account, cursor, limit + 1);
    page, more := ReadPage(TransferQuery(rows, account, cursor, limit + 1),
                           Sent(rows, account, cursor) + Received(rows, account, cursor), limit);
    TopIsPage(page, more, Sent(rows, account, cursor) + Received(rows, account, cursor), rows, (r: Row) => r.Transfer? && (r.sender == account || (r.recipient == account && r.status == Completed)), limit, cursor);
  }

  method DepositHistoryPage(rows: set<Row>, account: string, limit: nat, cursor: Option<Key>)
    returns (page: seq<Row>, more: bool)
    requires UniqueKeys(rows)
    ensures var feed := Deposits(rows, account, cursor);
            IsTop(page, feed, limit) && (more <==> exists q :: q in feed && q !in page)
    ensures IsPageOf(page, more, rows, (r: Row) => r.Deposit? && r.account == account, limit, cursor)
  {
    page, more := ReadPage(Query(Deposits(rows, account, cursor), limit + 1), Deposits(rows, account, cursor), limit);
    TopIsPage(page, more, Deposits(rows, account, cursor), rows, (r: Row) => r.Deposit? && r.account == account, limit, cursor);
  }

  method WithdrawalHistoryPage(rows: set<Row>, account: string, limit: nat, cursor: Option<Key>)
    returns (page: seq<Row>, more: bool)
    requires UniqueKeys(rows)
    ensures var feed := Withdrawals(rows, account, cursor);
            IsTop(page, feed, limit) && (more <==> exists q :: q in feed && q !in page)
    ensures IsPageOf(page, more, rows, (r: Row) => r.Withdrawal? && r.account == account, limit, cursor)
  {
    page, more := ReadPage(Query(Withdrawals(rows, account, cursor), limit + 1), Withdrawals(rows, account, cursor), limit);
    TopIsPage(page, more, Withdrawals(rows, account, cursor), rows, (r: Row) => r.Withdrawal? && r.account == account, limit, cursor);
  }

  method AppendAll(pool: seq<Row>, page: seq<Row>) returns (merged: seq<Row>)
    ensures merged == pool + page
  {
    merged := pool;
    for i := 0 to |page|
      invariant merged == pool + page[..i]
    {
      merged := merged + [page[i]];
    }
    assert page[..|page|] == page;
  }

  /** The three pages, pooled, sorted and trimmed. */
  method MergedPage(rows: set<Row>, account: string, limit: nat, cursor: Option<Key>)
    returns (page: seq<Row>, more: bool)
    requires UniqueKeys(rows) && NoSelfTransfers(rows)
    ensures IsTop(page, Feed(rows, account, cursor), limit)
    ensures more <==> exists q :: q in Feed(rows, account, cursor) && q !in page
  {
    var transfers, transfersMore := TransferHistoryPage(rows, account, limit, cursor);
    var deposits, depositsMore := DepositHistoryPage(rows, account, limit, cursor);
    var withdrawals, withdrawalsMore := WithdrawalHistoryPage(rows, account, limit, cursor);
    var merged := AppendAll([], transfers);
    merged := AppendAll(merged, deposits);
    merged := AppendAll(merged, withdrawals);
    assert merged == transfers + deposits + withdrawals;

    ghost var ts := Sent(rows, account, cursor) + Received(rows, account, cursor);
    ghost var ds, ws := Deposits(rows, account, cursor), Withdrawals(rows, account, cursor);
    FeedIsUnion(rows, account, cursor);
    SortMerges(transfers, deposits, withdrawals, ts + ds + ws);
    merged := Sorted(merged);
    MergeIsExact(transfers, ts, deposits, ds, withdrawals, ws, merged, limit);
    MoreIsExact(transfers, ts, deposits, ds, withdrawals, ws, merged, limit);
    more := |merged| > limit || transfersMore || depositsMore || withdrawalsMore;
    page := if |merged| > limit then merged[..limit] else merged;
  }

  /** getOperationHistoryPage: the newest `limit` rows of the whole visible feed past
      the cursor, and whether any visible row is left. */
  method OperationHistoryPage(rows: set<Row>, account: string, limit: nat, cursor: Option<Key>)
    returns (page: seq<Row>, more: bool)
    requires UniqueKeys(rows) && NoSelfTransfers(rows)
    ensures IsTop(page, Feed(rows, account, cursor), limit)
    ensures more <==> exists q :: q in Feed(rows, account, cursor) && q !in page
    ensures IsPageOf(page, more, rows, (r: Row) => if r.Transfer? then r.sender == account || (r.recipient == account && r.status == Completed) else r.account == account, limit, cursor)
  {
    page, more := MergedPage(rows, account, limit, cursor);
    hide IsTop;
    TopIsPage(page, more, Feed(rows, account, cursor), rows, (r: Row) => if r.Transfer? then r.sender == account || (r.recipient == account && r.status == Completed) else r.account == account, limit, cursor);
  }

  lemma FeedIsUnion(rows: set<Row>, account: string, cursor: Option<Key>)
    ensures Feed(rows, account, cursor) ==
            (Sent(rows, account, cursor) + Received(rows, account, cursor)) +
            Deposits(rows, account, cursor) + Withdrawals(rows, account, cursor)
  {
  }
}
