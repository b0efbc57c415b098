/** pkg/outbox: rows written in the caller's transaction, relayed to Kafka by any
    number of concurrent relay passes, and deleted some time after publication. */
module Outbox {

  /** One RelayBatch pass: its transaction holds the row locks of `batch`.
      `sent`: the row at `next` is in Kafka but not yet marked. `open`: the loop
      has not hit its break. `marks` are its uncommitted published_at updates. */
  datatype Relay = Relay(batch: seq<nat>, next: nat, sent: bool, open: bool, marks: set<nat>)

  /** `rows`: every row ever committed; the table holds those not in `deleted`.
      `topic`: the row ids in Kafka, in order. `faults`: failed writes, marks and
      commits, and crashes, so far. */
  datatype State<E> = State(rows: map<nat, E>, published: set<nat>, deleted: set<nat>,
                            relays: map<nat, Relay>, topic: seq<nat>, faults: nat)

  datatype Action<E> =
    | Insert(id: nat, event: E)
    | Claim(w: nat, limit: nat)
    | Write(w: nat)
    | WriteFails(w: nat, delivered: bool)  // the broker may have kept the message
    | Mark(w: nat)
    | MarkFails(w: nat)                    // aborts the transaction
    | Commit(w: nat)
    | Lose(w: nat)                         // crash or failed commit: rolled back
    | Cleanup(ids: set<nat>)

  predicate Locked<E>(s: State<E>, id: nat) {
    exists w :: w in s.relays && id in s.relays[w].batch
  }

  /** Rows the claim query may return: unpublished, and not locked by another pass. */
  function Claimable<E>(s: State<E>): set<nat> {
    set id | id in s.rows && id !in s.published && !Locked(s, id)
  }

  // ----- ORDER BY id LIMIT n

  predicate IsLeast(ids: set<nat>, m: nat) {
    m in ids && forall x :: x in ids ==> m <= x
  }

  function Least(ids: set<nat>): (m: nat)
    requires ids != {}
    ensures IsLeast(ids, m)
  {
    LeastExists(ids);
    var m :| m in ids && IsLeast(ids, m);
    m
  }

  lemma {:induction false} LeastExists(ids: set<nat>)
    requires ids != {}
    ensures exists m :: m in ids && IsLeast(ids, m)
    decreases ids
  {
    var y :| y in ids;
    if IsLeast(ids, y) {
      return;
    }
    var below := set x | x in ids && x < y;
    var z :| z in ids && z < y;
    assert z in below;
    LeastExists(below);
    var m :| m in below && IsLeast(below, m);
    forall x | x in ids ensures m <= x { assert x < y ==> x in below; }
    assert IsLeast(ids, m);
  }

  predicate Ascending(s: seq<nat>) {
    forall i, j :: 0 <= i < j < |s| ==> s[i] < s[j]
  }

  /** The `n` least ids, ascending. */
  function FirstIds(ids: set<nat>, n: nat): (r: seq<nat>)
    ensures Ascending(r) && |r| <= n
    ensures forall x :: x in r ==> x in ids
    ensures forall x, y :: x in r && y in ids && y !in r ==> x < y
    ensures |r| < n ==> forall x :: x in ids ==> x in r
    decreases n
  {
    if ids == {} || n == 0 then []
    else
      var m := Least(ids);
      var rest := FirstIds(ids - {m}, n - 1);
      assert forall x :: x in ids ==> x == m || x in ids - {m};
      assert forall x :: x in rest ==> m < x by {
        forall x | x in rest ensures m < x { assert x in ids - {m}; }
      }
      assert Ascending([m] + rest) by {
        forall i | 0 <= i < |rest| ensures m < rest[i] { assert rest[i] in rest; }
      }
      [m] + rest
  }

  // ----- steps

  predicate Enabled<E>(s: State<E>, a: Action<E>) {
    match a
    case Insert(id, _) => id !in s.rows
    case Claim(w, _) => w !in s.relays
    case Write(w) => Writing(s, w)
    case WriteFails(w, _) => Writing(s, w)
    case Mark(w) => w in s.relays && s.relays[w].sent && s.relays[w].next < |s.relays[w].batch|
    case MarkFails(w) => w in s.relays && s.relays[w].sent
    case Commit(w) =>
      w in s.relays && !s.relays[w].sent && (s.relays[w].open ==> s.relays[w].next >= |s.relays[w].batch|)
    case Lose(w) => w in s.relays
    case Cleanup(ids) => ids <= s.published
  }

  /** The loop is about to write the message of row `batch[next]`. */
  predicate Writing<E>(s: State<E>, w: nat) {
    && w in s.relays && s.relays[w].open && !s.relays[w].sent
    && s.relays[w].next < |s.relays[w].batch|
  }

  function Drop<E>(s: State<E>, w: nat, faults: nat): State<E> {
    s.(relays := map v | v in s.relays && v != w :: s.relays[v], faults := s.faults + faults)
  }

  function Do<E>(s: State<E>, a: Action<E>): State<E>
    requires Enabled(s, a)
  {
    match a
    case Insert(id, event) => s.(rows := s.rows[id := event])
    case Claim(w, limit) => s.(relays := s.relays[w := Relay(FirstIds(Claimable(s), limit), 0, false, true, {})])
    case Write(w) =>
      var r := s.relays[w];
      s.(topic := s.topic + [r.batch[r.next]], relays := s.relays[w := r.(sent := true)])
    case WriteFails(w, delivered) =>
      var r := s.relays[w];
      s.(topic := if delivered then s.topic + [r.batch[r.next]] else s.topic,
         relays := s.relays[w := r.(open := false)], faults := s.faults + 1)
    case Mark(w) =>
      var r := s.relays[w];
      s.(relays := s.relays[w := r.(sent := false, next := r.next + 1, marks := r.marks + {r.batch[r.next]})])
    case MarkFails(w) => Drop(s, w, 1)
    case Commit(w) => Drop(s.(published := s.published + s.relays[w].marks), w, 0)
    case Lose(w) => Drop(s, w, 1)
    case Cleanup(ids) => s.(deleted := s.deleted + ids)
  }

  // ----- the invariant

  /** The rows this pass has put into Kafka so far: a prefix of its batch. */
  function Sent(r: Relay): seq<nat> {
    var n := if r.sent then r.next + 1 else r.next;
    if n <= |r.batch| then r.batch[..n] else r.batch
  }

  predicate RelayOk<E>(s: State<E>, r: Relay) {
    && Ascending(r.batch) && r.next <= |r.batch|
    && (forall id :: id in r.batch ==> id in s.rows && id !in s.published)
    && r.marks == (set id | id in r.batch[..r.next])
    && (r.sent ==> r.open && r.next < |r.batch|)
    && (s.faults == 0 ==> r.open)
  }

  predicate Disjoint(q: Relay, r: Relay) {
    forall id :: id in q.batch ==> id !in r.batch
  }

  predicate RelaysOk<E>(s: State<E>) {
    && (forall w :: w in s.relays ==> RelayOk(s, s.relays[w]))
    && (forall v, w :: v in s.relays && w in s.relays && v != w ==> Disjoint(s.relays[v], s.relays[w]))
  }

  /** Everything published or sent is in the topic, and nothing else got in. */
  predicate TopicOk<E>(s: State<E>) {
    && (forall id :: id in s.topic ==> id in s.rows)
    && (forall id :: id in s.published ==> id in s.topic)
    && (forall w, id :: w in s.relays && id in Sent(s.relays[w]) ==> id in s.topic)
  }

  predicate InFlight<E>(s: State<E>, id: nat) {
    exists w :: w in s.relays && id in Sent(s.relays[w])
  }

  /** Without faults, the topic holds one message per row published or in flight. */
  predicate OnceOk<E>(s: State<E>) {
    s.faults == 0 ==> forall id :: id in s.rows ==>
      multiset(s.topic)[id] == (if id in s.published || InFlight(s, id) then 1 else 0)
  }

  predicate Inv<E>(s: State<E>) {
    && s.published <= s.rows.Keys && s.deleted <= s.published
    && RelaysOk(s) && TopicOk(s) && OnceOk(s)
  }

  lemma InsertKeepsInv<E>(s: State<E>, id: nat, event: E)
    requires Inv(s) && id !in s.rows
    ensures Inv(Do(s, Insert(id, event)))
  {
    var s' := Do(s, Insert(id, event));
    forall w | w in s'.relays ensures RelayOk(s', s'.relays[w]) { assert RelayOk(s, s.relays[w]); }
    forall x | x in s'.rows && s'.faults == 0
      ensures multiset(s'.topic)[x] == (if x in s'.published || InFlight(s', x) then 1 else 0)
    {
      if InFlight(s', x) { assert InFlight(s, x); }
      if InFlight(s, x) { assert InFlight(s', x); }
    }
  }

  lemma ClaimKeepsInv<E>(s: State<E>, w: nat, limit: nat)
    requires Inv(s) && w !in s.relays
    ensures Inv(Do(s, Claim(w, limit)))
  {
    var s' := Do(s, Claim(w, limit));
    forall v | v in s'.relays ensures RelayOk(s', s'.relays[v]) {
      if v != w { assert RelayOk(s, s.relays[v]); }
    }
    forall v, u | v in s'.relays && u in s'.relays && v != u ensures Disjoint(s'.relays[v], s'.relays[u]) {
      if v != w && u != w { assert Disjoint(s.relays[v], s.relays[u]); }
    }
    SameFlight(s, s', w);
  }

  /** Passes that have sent the same rows are in flight alike. */
  lemma SameFlight<E>(s: State<E>, s': State<E>, w: nat)
    requires forall v :: v != w ==> (v in s.relays <==> v in s'.relays)
    requires forall v :: v in s.relays && v != w ==> s.relays[v] == s'.relays[v]
    requires w in s.relays ==> Sent(s.relays[w]) == [] || (w in s'.relays && Sent(s.relays[w]) == Sent(s'.relays[w]))
    requires w in s'.relays ==> Sent(s'.relays[w]) == [] || (w in s.relays && Sent(s.relays[w]) == Sent(s'.relays[w]))
    ensures forall id :: InFlight(s, id) <==> InFlight(s', id)
  {
    forall id ensures InFlight(s, id) <==> InFlight(s', id) {
      if InFlight(s, id) {
        var v :| v in s.relays && id in Sent(s.relays[v]);
        assert v in s'.relays && id in Sent(s'.relays[v]);
      }
      if InFlight(s', id) {
        var v :| v in s'.relays && id in Sent(s'.relays[v]);
        assert v in s.relays && id in Sent(s.relays[v]);
      }
    }
  }

  /** The row about to be written is neither published nor sent by any pass. */
  lemma NextIsUnsent<E>(s: State<E>, w: nat)
    requires Inv(s) && Writing(s, w)
    ensures var id := s.relays[w].batch[s.relays[w].next];
            id in s.rows && id !in s.published && !InFlight(s, id)
  {
    var r := s.relays[w];
    var id := r.batch[r.next];
    assert RelayOk(s, r) && id in r.batch;
    forall v | v in s.relays ensures id !in Sent(s.relays[v]) {
      assert v != w ==> Disjoint(s.relays[v], r);
      assert forall x :: x in Sent(s.relays[v]) ==> x in s.relays[v].batch;
    }
  }

  lemma WriteKeepsRelays<E>(s: State<E>, a: Action<E>)
    requires Inv(s) && (a.Write? || a.WriteFails?) && Enabled(s, a)
    ensures RelaysOk(Do(s, a)) && TopicOk(Do(s, a))
  {
    var s', r := Do(s, a), s.relays[a.w];
    assert RelayOk(s, r) && r.batch[r.next] in r.batch;
    forall v | v in s'.relays ensures RelayOk(s', s'.relays[v]) { assert RelayOk(s, s.relays[v]); }
    forall v, u | v in s'.relays && u in s'.relays && v != u ensures Disjoint(s'.relays[v], s'.relays[u]) {
      assert Disjoint(s.relays[v], s.relays[u]);
    }
    forall v, id | v in s'.relays && id in Sent(s'.relays[v]) ensures id in s'.topic {
      if id !in Sent(s.relays[v]) { assert v == a.w && Sent(s'.relays[v]) == Sent(r) + [r.batch[r.next]]; }
    }
  }

  lemma WriteFlight<E>(s: State<E>, w: nat, id: nat)
    requires RelaysOk(s) && Writing(s, w)
    ensures InFlight(Do(s, Write(w)), id) <==> InFlight(s, id) || id == s.relays[w].batch[s.relays[w].next]
  {
    var s', r := Do(s, Write(w)), s.relays[w];
    assert RelayOk(s, r);
    assert Sent(s'.relays[w]) == Sent(r) + [r.batch[r.next]];
    if InFlight(s, id) {
      var v :| v in s.relays && id in Sent(s.relays[v]);
      assert id in Sent(s'.relays[v]);
    }
    if InFlight(s', id) {
      var v :| v in s'.relays && id in Sent(s'.relays[v]);
      assert v != w ==> id in Sent(s.relays[v]);
    }
    if id == r.batch[r.next] { assert id in Sent(s'.relays[w]); }
  }

  lemma WriteKeepsInv<E>(s: State<E>, w: nat)
    requires Inv(s) && Writing(s, w)
    ensures Inv(Do(s, Write(w)))
  {
    var s' := Do(s, Write(w));
    WriteKeepsRelays(s, Write(w));
    NextIsUnsent(s, w);
    forall id | id in s'.rows && s'.faults == 0
      ensures multiset(s'.topic)[id] == (if id in s'.published || InFlight(s', id) then 1 else 0)
    {
      WriteFlight(s, w, id);
    }
  }

  lemma MarkKeepsInv<E>(s: State<E>, w: nat)
    requires Inv(s) && Enabled(s, Mark(w))
    ensures Inv(Do(s, Mark(w)))
  {
    var s', r := Do(s, Mark(w)), s.relays[w];
    assert RelayOk(s, r);
    var r' := s'.relays[w];
    assert r'.batch[..r'.next] == r.batch[..r.next] + [r.batch[r.next]];
    assert Sent(r') == Sent(r);
    forall v | v in s'.relays ensures RelayOk(s', s'.relays[v]) { assert RelayOk(s, s.relays[v]); }
    forall v, u | v in s'.relays && u in s'.relays && v != u ensures Disjoint(s'.relays[v], s'.relays[u]) {
      assert Disjoint(s.relays[v], s.relays[u]);
    }
    SameFlight(s, s', w);
  }

  lemma DropKeepsRelays<E>(s: State<E>, w: nat, faults: nat, published: set<nat>)
    requires Inv(s) && w in s.relays
    requires published == s.published || published == s.published + s.relays[w].marks
    ensures var s' := Drop(s.(published := published), w, faults);
            RelaysOk(s') && TopicOk(s') && s'.published <= s'.rows.Keys
  {
    var s' := Drop(s.(published := published), w, faults);
    var r := s.relays[w];
    assert RelayOk(s, r);
    forall id | id in published ensures id in s.rows && id in s.topic {
      if id !in s.published { assert id in r.batch[..r.next] && id in r.batch && id in Sent(r); }
    }
    forall v | v in s'.relays ensures RelayOk(s', s'.relays[v]) {
      assert RelayOk(s, s.relays[v]) && Disjoint(s.relays[v], r);
      assert forall id :: id in r.marks ==> id in r.batch;
    }
    forall v, u | v in s'.relays && u in s'.relays && v != u ensures Disjoint(s'.relays[v], s'.relays[u]) {
      assert Disjoint(s.relays[v], s.relays[u]);
    }
  }

  lemma CommitKeepsInv<E>(s: State<E>, w: nat)
    requires Inv(s) && Enabled(s, Commit(w))
    ensures Inv(Do(s, Commit(w)))
  {
    var s', r := Do(s, Commit(w)), s.relays[w];
    assert RelayOk(s, r);
    DropKeepsRelays(s, w, 0, s.published + r.marks);
    assert r.batch[..r.next] == Sent(r);
    forall id | id in s'.rows && s'.faults == 0
      ensures multiset(s'.topic)[id] == (if id in s'.published || InFlight(s', id) then 1 else 0)
    {
      if InFlight(s, id) {
        var v :| v in s.relays && id in Sent(s.relays[v]);
        assert v == w || (v in s'.relays && id in Sent(s'.relays[v]));
      }
      if InFlight(s', id) {
        var v :| v in s'.relays && id in Sent(s'.relays[v]);
        assert v in s.relays && id in Sent(s.relays[v]);
      }
      if id in r.marks { assert id in Sent(r); }
    }
  }

  lemma StepKeepsInv<E>(s: State<E>, a: Action<E>)
    requires Inv(s) && Enabled(s, a)
    ensures Inv(Do(s, a))
  {
    match a
    case Insert(id, event) => InsertKeepsInv(s, id, event);
    case Claim(w, limit) => ClaimKeepsInv(s, w, limit);
    case Write(w) => WriteKeepsInv(s, w);
    case WriteFails(_, _) => WriteKeepsRelays(s, a);
    case Mark(w) => MarkKeepsInv(s, w);
    case MarkFails(w) => DropKeepsRelays(s, w, 1, s.published);
    case Commit(w) => CommitKeepsInv(s, w);
    case Lose(w) => DropKeepsRelays(s, w, 1, s.published);
    case Cleanup(ids) =>
      var s' := Do(s, a);
      forall v | v in s'.relays ensures RelayOk(s', s'.relays[v]) { assert RelayOk(s, s.relays[v]); }
      forall id ensures InFlight(s, id) <==> InFlight(s', id) {}
  }

  // ----- runs

  function Initial<E>(): State<E> {
    State(map[], {}, {}, map[], [], 0)
  }

  predicate ValidRun<E>(s: State<E>, acts: seq<Action<E>>)
    decreases acts
  {
    acts != [] ==> Enabled(s, acts[0]) && ValidRun(Do(s, acts[0]), acts[1..])
  }

  function Exec<E>(s: State<E>, acts: seq<Action<E>>): State<E>
    requires ValidRun(s, acts)
    decreases acts
  {
    if acts == [] then s else Exec(Do(s, acts[0]), acts[1..])
  }

  lemma {:induction false} ExtendRun<E>(s: State<E>, acts: seq<Action<E>>, a: Action<E>)
    requires ValidRun(s, acts) && Enabled(Exec(s, acts), a)
    ensures ValidRun(s, acts + [a]) && Exec(s, acts + [a]) == Do(Exec(s, acts), a)
    decreases acts
  {
    if acts == [] {
      assert (acts + [a])[1..] == [];
    } else {
      assert (acts + [a])[1..] == acts[1..] + [a];
      ExtendRun(Do(s, acts[0]), acts[1..], a);
    }
  }

  lemma {:induction false} RunKeepsInv<E>(s: State<E>, acts: seq<Action<E>>)
    requires Inv(s) && ValidRun(s, acts)
    ensures Inv(Exec(s, acts))
    decreases acts
  {
    if acts != [] {
      StepKeepsInv(s, acts[0]);
      RunKeepsInv(Do(s, acts[0]), acts[1..]);
    }
  }

  /** Main result: at least once. Whatever fails and however many passes overlap,
      each committed row is still in the table unpublished, or is in the topic;
      nothing deleted was lost; and every message is that of a committed row. */
  lemma NothingIsLost<E>(acts: seq<Action<E>>, id: nat)
    requires ValidRun(Initial<E>(), acts)
    ensures var s := Exec(Initial<E>(), acts);
            && (id in s.rows ==> (id !in s.deleted && id !in s.published) || id in s.topic)
            && (id in s.deleted ==> id in s.topic)
            && (id in s.topic ==> id in s.rows)
  {
    RunKeepsInv(Initial<E>(), acts);
  }

  /** Main result: exactly once. If no write, mark or commit ever failed, each row
      has at most one message however many passes overlapped, and has one as soon
      as it is published. */
  lemma FaultFreeIsExactlyOnce<E>(acts: seq<Action<E>>, id: nat)
    requires ValidRun(Initial<E>(), acts) && Exec(Initial<E>(), acts).faults == 0
    ensures var s := Exec(Initial<E>(), acts);
            && (id in s.rows ==> multiset(s.topic)[id] <= 1)
            && (id in s.published ==> multiset(s.topic)[id] == 1)
  {
    RunKeepsInv(Initial<E>(), acts);
  }

  // ----- RelayBatch as written

  datatype WriteResult = WriteOk | WriteError(delivered: bool)

  class Table<E> {
    var rows: map<nat, E>
    var published: set<nat>
    var deleted: set<nat>
    var topic: seq<nat>
    /** Passes of other instances, with the row locks they hold. */
    var others: map<nat, Relay>
    ghost var faults: nat

    ghost function Snapshot(): State<E>
      reads this
    {
      State(rows, published, deleted, others, topic, faults)
    }

    /** InsertEvent, once the caller's transaction commits. */
    method InsertEvent(id: nat, event: E)
      requires id !in rows
      modifies this`rows
      ensures rows == old(rows)[id := event]
      ensures Snapshot() == Do(old(Snapshot()), Insert(id, event))
    {
      rows := rows[id := event];
    }

    /** CleanupPublished: `expired` says which publication stamps are past retention. */
    method CleanupPublished(expired: nat -> bool)
      modifies this`deleted
      ensures deleted == old(deleted) + set id | id in published && expired(id)
      ensures var gone := set id | id in published && expired(id);
              Snapshot() == Do(old(Snapshot()), Cleanup(gone))
    {
      deleted := deleted + set id | id in published && expired(id);
    }

    /** SELECT ... WHERE published_at IS NULL ORDER BY id LIMIT $1 FOR UPDATE SKIP LOCKED. */
    method ClaimBatch(batchSize: nat) returns (batch: seq<nat>)
      ensures batch == FirstIds(Claimable(Snapshot()), batchSize)
    {
      var locked := set v, i | v in others && 0 <= i < |others[v].batch| :: others[v].batch[i];
      var free := set id | id in rows && id !in published && id !in locked;
      assert free == Claimable(Snapshot());
      batch := FirstIds(free, batchSize);
    }

    /** The publish loop: stops at the first failure. `write` and `markOk` say what
        happens to the i-th row. */
    method PublishLoop(batch: seq<nat>, write: nat -> WriteResult, markOk: nat -> bool)
      returns (done: nat, marks: set<nat>)
      modifies this`topic
      ensures done <= |batch| && (forall i :: 0 <= i < done ==> write(i).WriteOk? && markOk(i))
      ensures done < |batch| ==> !(write(done).WriteOk? && markOk(done))
      ensures marks == Ids(batch[..done])
      ensures topic == old(topic) + batch[..done] +
                       if done < |batch| && (write(done).WriteOk? || write(done).delivered) then [batch[done]] else []
    {
      marks, done := {}, 0;
      while done < |batch|
        invariant done <= |batch|
        invariant forall i :: 0 <= i < done ==> write(i).WriteOk? && markOk(i)
        invariant marks == Ids(batch[..done])
        invariant topic == old(topic) + batch[..done]
      {
        if write(done).WriteError? {
          if write(done).delivered { topic := topic + [batch[done]]; }
          return;
        }
        topic := topic + [batch[done]];
        if !markOk(done) { return; }
        marks := marks + {batch[done]};
        assert batch[..done + 1] == batch[..done] + [batch[done]];
        done := done + 1;
      }
    }

    /** One pass, as transaction `w`; `commitOk` says whether its commit goes
        through (it cannot, once a mark has failed). What it leaves behind is a
        run of the relay machine. */
    method RelayBatch(w: nat, batchSize: nat, write: nat -> WriteResult, markOk: nat -> bool, commitOk: bool)
      returns (batch: seq<nat>, done: nat, ghost acts: seq<Action<E>>)
      requires w !in others
      modifies this`published, this`topic, this`faults
      ensures batch == FirstIds(Claimable(old(Snapshot())), batchSize)
      ensures done <= |batch| && (forall i :: 0 <= i < done ==> write(i).WriteOk? && markOk(i))
      ensures done < |batch| ==> !(write(done).WriteOk? && markOk(done))
      ensures topic == old(topic) + batch[..done] +
                       if done < |batch| && (write(done).WriteOk? || write(done).delivered) then [batch[done]] else []
      ensures published == old(published) +
                           if commitOk && (done < |batch| ==> !write(done).WriteOk?) then Ids(batch[..done]) else {}
      ensures ValidRun(old(Snapshot()), acts) && Exec(old(Snapshot()), acts) == Snapshot()
    {
      batch := ClaimBatch(batchSize);
      var marks;
      done, marks := PublishLoop(batch, write, markOk);
      if done == |batch| {
        assert batch[..done] == batch;
        acts := FullPass(old(Snapshot()), w, batchSize, commitOk);
        faults := faults + if commitOk then 0 else 1;
      } else if write(done).WriteOk? {
        acts := AbortedPass(old(Snapshot()), w, batchSize, done);
        faults := faults + 1;
        return;
      } else {
        acts := StoppedPass(old(Snapshot()), w, batchSize, done, write(done).delivered, commitOk);
        faults := faults + if commitOk then 1 else 2;
      }
      if commitOk { published := published + marks; }
    }
  }

  function Ids(s: seq<nat>): set<nat> {
    set id | id in s
  }

  /** Every claim asks for this many rows: the relay's batch size is fixed. */
  predicate Batched<E>(acts: seq<Action<E>>, limit: nat) {
    forall k :: 0 <= k < |acts| && acts[k].Claim? ==> acts[k].limit == limit
  }

  // the passes of RelayBatch, spelled out as runs of the machine

  lemma {:induction false} SentPrefix<E>(s: State<E>, w: nat, limit: nat, n: nat) returns (acts: seq<Action<E>>)
    requires w !in s.relays && n <= |FirstIds(Claimable(s), limit)|
    ensures var batch := FirstIds(Claimable(s), limit);
            && ValidRun(s, acts)
            && Exec(s, acts) == s.(topic := s.topic + batch[..n],
                                   relays := s.relays[w := Relay(batch, n, false, true, Ids(batch[..n]))])
    ensures Batched(acts, limit)
    decreases n
  {
    var batch := FirstIds(Claimable(s), limit);
    if n == 0 {
      acts := [Claim(w, limit)];
      assert acts[1..] == [];
      assert s.topic + batch[..0] == s.topic && Ids(batch[..0]) == {};
    } else {
      var before := SentPrefix(s, w, limit, n - 1);
      ExtendRun(s, before, Write(w));
      ExtendRun(s, before + [Write(w)], Mark(w));
      acts := before + [Write(w)] + [Mark(w)];
      assert batch[..n] == batch[..n - 1] + [batch[n - 1]];
      assert s.topic + batch[..n] == s.topic + batch[..n - 1] + [batch[n - 1]];
      assert Ids(batch[..n]) == Ids(batch[..n - 1]) + {batch[n - 1]};
    }
  }

  lemma FullPass<E>(s: State<E>, w: nat, limit: nat, commitOk: bool) returns (acts: seq<Action<E>>)
    requires w !in s.relays
    ensures var batch := FirstIds(Claimable(s), limit);
            && ValidRun(s, acts)
            && Exec(s, acts) == s.(topic := s.topic + batch,
                                   published := s.published + if commitOk then Ids(batch) else {},
                                   faults := s.faults + if commitOk then 0 else 1)
    ensures Batched(acts, limit)
  {
    var batch := FirstIds(Claimable(s), limit);
    var before := SentPrefix(s, w, limit, |batch|);
    assert batch[..|batch|] == batch;
    var last: Action<E> := if commitOk then Commit(w) else Lose(w);
    ExtendRun(s, before, last);
    acts := before + [last];
    assert Exec(s, acts).relays == s.relays;
  }

  lemma StoppedPass<E>(s: State<E>, w: nat, limit: nat, n: nat, delivered: bool, commitOk: bool)
    returns (acts: seq<Action<E>>)
    requires w !in s.relays && n < |FirstIds(Claimable(s), limit)|
    ensures var batch := FirstIds(Claimable(s), limit);
            && ValidRun(s, acts)
            && Exec(s, acts) == s.(topic := s.topic + batch[..n] + if delivered then [batch[n]] else [],
                                   published := s.published + if commitOk then Ids(batch[..n]) else {},
                                   faults := s.faults + if commitOk then 1 else 2)
  {
    var before := SentPrefix(s, w, limit, n);
    var last: Action<E> := if commitOk then Commit(w) else Lose(w);
    ExtendRun(s, before, WriteFails(w, delivered));
    ExtendRun(s, before + [WriteFails(w, delivered)], last);
    acts := before + [WriteFails(w, delivered)] + [last];
    assert Exec(s, acts).relays == s.relays;
  }

  lemma AbortedPass<E>(s: State<E>, w: nat, limit: nat, n: nat) returns (acts: seq<Action<E>>)
    requires w !in s.relays && n < |FirstIds(Claimable(s), limit)|
    ensures var batch := FirstIds(Claimable(s), limit);
            && ValidRun(s, acts)
            && Exec(s, acts) == s.(topic := s.topic + batch[..n] + [batch[n]], faults := s.faults + 1)
  {
    var before := SentPrefix(s, w, limit, n);
    ExtendRun(s, before, Write(w));
    ExtendRun(s, before + [Write(w)], MarkFails(w));
    acts := before + [Write(w)] + [MarkFails(w)];
    assert Exec(s, acts).relays == s.relays;
  }
}
