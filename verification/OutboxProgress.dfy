/** A committed outbox row is never stuck: whatever the relay's batch size, from
    every reachable state the row can be brought into the topic without any further
    fault, by the pass that holds it or, once that pass is done, by new ones. */
module OutboxProgress {
  import Finite
  import opened Outbox

  /** A run from `s` to `t` in which nothing fails, no row is added, and every claim
      asks for `size` rows. */
  ghost predicate Drives<E>(s: State<E>, acts: seq<Action<E>>, t: State<E>, size: nat) {
    && ValidRun(s, acts) && Exec(s, acts) == t
    && t.faults == s.faults && t.rows == s.rows && Batched(acts, size)
  }

  lemma Stay<E>(s: State<E>, size: nat)
    ensures Drives(s, [], s, size)
  {
  }

  lemma Then<E>(s: State<E>, acts: seq<Action<E>>, t: State<E>, a: Action<E>, size: nat)
    requires Drives(s, acts, t, size) && Enabled(t, a) && (a.Write? || a.Mark? || a.Commit?)
    ensures Drives(s, acts + [a], Do(t, a), size)
  {
    ExtendRun(s, acts, a);
  }

  lemma DrivesKeepsInv<E>(s: State<E>, acts: seq<Action<E>>, t: State<E>, size: nat)
    requires Inv(s) && Drives(s, acts, t, size)
    ensures Inv(t)
  {
    RunKeepsInv(s, acts);
  }

  lemma Join<E>(s: State<E>, first: seq<Action<E>>, t: State<E>, second: seq<Action<E>>, u: State<E>, size: nat)
    requires Drives(s, first, t, size) && Drives(t, second, u, size)
    ensures Drives(s, first + second, u, size)
  {
    JoinFrom(s, first, second);
  }

  lemma {:induction false} JoinFrom<E>(s: State<E>, first: seq<Action<E>>, second: seq<Action<E>>)
    requires ValidRun(s, first) && ValidRun(Exec(s, first), second)
    ensures ValidRun(s, first + second) && Exec(s, first + second) == Exec(Exec(s, first), second)
    decreases second
  {
    if second == [] {
      assert first + second == first;
    } else {
      ExtendRun(s, first, second[0]);
      assert first + second == first + [second[0]] + second[1..];
      JoinFrom(s, first + [second[0]], second[1..]);
    }
  }

  /** An open pass goes on until it has written the row at `j`. */
  lemma {:induction false} DrivePass<E>(s: State<E>, w: nat, j: nat, size: nat) returns (acts: seq<Action<E>>, t: State<E>)
    requires Inv(s) && w in s.relays && s.relays[w].open && s.relays[w].next <= j < |s.relays[w].batch|
    ensures Drives(s, acts, t, size) && s.relays[w].batch[j] in t.topic
    decreases j - s.relays[w].next, !s.relays[w].sent
  {
    hide Drives, Inv;
    var r := s.relays[w];
    Stay(s, size);
    if r.next == j && r.sent {
      SentIsInTopic(s, w, j);
      acts, t := [], s;
    } else {
      var a: Action<E> := if r.sent then Mark(w) else Write(w);
      Then(s, [], s, a, size);
      var s1 := Do(s, a);
      DrivesKeepsInv(s, [] + [a], s1, size);
      if r.next == j {
        acts, t := [] + [a], s1;
      } else {
        var rest;
        rest, t := DrivePass(s1, w, j, size);
        Join(s, [] + [a], s1, rest, t, size);
        acts := [] + [a] + rest;
      }
    }
  }

  /** What a pass has sent is in the topic. */
  lemma SentIsInTopic<E>(s: State<E>, w: nat, j: nat)
    requires Inv(s) && w in s.relays && j < |s.relays[w].batch|
    requires j < s.relays[w].next || (j == s.relays[w].next && s.relays[w].sent)
    ensures s.relays[w].batch[j] in s.topic
  {
    var r := s.relays[w];
    assert RelayOk(s, r);
    assert Sent(r)[j] == r.batch[j];
    assert r.batch[j] in Sent(r);
  }

  /** A whole pass takes its batch out of the free rows, and at least one row with it. */
  lemma PassTakesBatch<E>(s: State<E>, t: State<E>, size: nat)
    requires size > 0 && Claimable(s) != {}
    requires t == s.(topic := t.topic, published := s.published + Ids(FirstIds(Claimable(s), size)))
    ensures Claimable(t) < Claimable(s)
    ensures forall id :: id in Claimable(s) && id !in FirstIds(Claimable(s), size) ==> id in Claimable(t)
  {
    var batch := FirstIds(Claimable(s), size);
    forall id ensures Locked(t, id) <==> Locked(s, id) {}
    var free :| free in Claimable(s);
    assert |batch| < size ==> free in batch;
    assert batch[0] in batch && batch[0] in Claimable(s) && batch[0] !in Claimable(t);
  }

  /** A row nobody holds: pass after pass, each of the fixed size, gets to it. */
  lemma {:induction false} DriveFree<E>(s: State<E>, id: nat, size: nat) returns (acts: seq<Action<E>>, t: State<E>)
    requires size > 0 && id in Claimable(s)
    ensures Drives(s, acts, t, size) && id in t.topic
    decreases |Claimable(s)|
  {
    var w := Finite.UnusedNat(s.relays.Keys);
    var batch := FirstIds(Claimable(s), size);
    acts := FullPass(s, w, size, true);
    t := Exec(s, acts);
    assert Drives(s, acts, t, size);
    if id !in batch {
      PassTakesBatch(s, t, size);
      Finite.SmallerSet(Claimable(t), Claimable(s));
      hide Drives;
      var rest, u := DriveFree(t, id, size);
      Join(s, acts, t, rest, u, size);
      acts, t := acts + rest, u;
    }
  }

  /** A pass that gave up lets go of its rows when it commits what it marked. */
  lemma CommitFrees<E>(s: State<E>, w: nat, id: nat)
    requires Inv(s) && w in s.relays && !s.relays[w].open && id in s.relays[w].batch && id !in s.topic
    ensures Enabled(s, Commit(w)) && id in Claimable(Do(s, Commit(w)))
  {
    var r := s.relays[w];
    assert RelayOk(s, r);
    if id in r.marks {
      var j :| 0 <= j < r.next && r.batch[j] == id;
      SentIsInTopic(s, w, j);
    }
    var t := Do(s, Commit(w));
    forall v | v in t.relays ensures id !in t.relays[v].batch { assert Disjoint(r, s.relays[v]); }
  }

  /** Main result: whatever the batch size, from every state that keeps the invariant a
      committed row can be brought into the topic without any further failure. */
  lemma EveryRowCanGoOut<E>(s: State<E>, id: nat, size: nat) returns (acts: seq<Action<E>>, t: State<E>)
    requires size > 0 && Inv(s) && id in s.rows
    ensures Drives(s, acts, t, size) && id in t.topic
  {
    Stay(s, size);
    if id in s.topic {
      return [], s;
    }
    assert id !in s.published;
    if !Locked(s, id) {
      acts, t := DriveFree(s, id, size);
      return;
    }
    var w :| w in s.relays && id in s.relays[w].batch;
    var j :| 0 <= j < |s.relays[w].batch| && s.relays[w].batch[j] == id;
    if s.relays[w].open {
      if j < s.relays[w].next { SentIsInTopic(s, w, j); }
      hide Inv, Drives;
      acts, t := DrivePass(s, w, j, size);
    } else {
      CommitFrees(s, w, id);
      hide Inv, Drives;
      Then(s, [], s, Commit(w), size);
      var s1 := Do(s, Commit(w));
      var rest;
      rest, t := DriveFree(s1, id, size);
      Join(s, [] + [Commit(w)], s1, rest, t, size);
      acts := [] + [Commit(w)] + rest;
    }
  }

  /** The same, said of runs: whatever happened so far, nothing committed is stuck. */
  lemma NoRowIsStuck<E>(past: seq<Action<E>>, id: nat, size: nat) returns (more: seq<Action<E>>, t: State<E>)
    requires size > 0 && ValidRun(Initial<E>(), past) && id in Exec(Initial<E>(), past).rows
    ensures Drives(Exec(Initial<E>(), past), more, t, size) && id in t.topic
  {
    RunKeepsInv(Initial<E>(), past);
    more, t := EveryRowCanGoOut(Exec(Initial<E>(), past), id, size);
  }
}
