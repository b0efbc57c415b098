/** Ledger transactions never deadlock. A transaction waits only for an advisory
    lock, which it asks for while holding nothing, or for a row above every row
    it holds; the cache rows it writes are already covered by its row locks. */
module LedgerProgress {
  import opened Order
  import opened LedgerSpec
  import opened LedgerMachine

  /** A statement of a running transaction: not a new call, not an error. */
  predicate IsStatement(a: Action) {
    !a.Begin? && !a.Abort? && !a.OpenAccount?
  }

  predicate AwaitsRow(s: State, id: nat, r: Row) {
    && Unfinished(s, id)
    && (if s.txns[id].pc.FirstLocked? then r == SecondRow(s.txns[id].call)
        else ReadyToLock(s.txns[id]) && r == FirstRow(s.txns[id].call))
    && r in s.db.accounts
    && !RowFree(s, id, r)
  }

  predicate AwaitsKey(cfg: Config, s: State, id: nat) {
    && At(s, id, Started) && AmountOk(s.txns[id].call)
    && s.txns[id].call.Post? && s.txns[id].call.reference != ""
    && !KeyFree(cfg, s, id, cfg.hash(s.txns[id].call.reference))
  }

  predicate Blocked(cfg: Config, s: State, id: nat) {
    AwaitsKey(cfg, s, id) || exists r :: r in s.db.accounts && AwaitsRow(s, id, r)
  }

  /** gen_random_uuid() can always return something new. */
  lemma FreshUuid(db: Ledger, txns: map<nat, Txn>) returns (uuid: TransactionId)
    ensures !UsesTxn(db.entries, uuid)
    ensures forall j :: j in txns ==> txns[j].uuid < uuid
  {
    uuid := Unused(db.entries);
    var left := txns.Keys;
    while left != {}
      invariant left <= txns.Keys
      invariant forall e :: e in db.entries ==> e.txn < uuid
      invariant forall j :: j in txns && j !in left ==> txns[j].uuid < uuid
      decreases left
    {
      var j :| j in left;
      uuid := if txns[j].uuid < uuid then uuid else txns[j].uuid + 1;
      left := left - {j};
    }
  }

  /** Cache rows are written only under the account's own row lock. */
  lemma CacheRowsAreCovered(cfg: Config, l0: Ledger, s: State, id: nat, r: Row)
    requires Inv(cfg, l0, s) && id in s.txns && r in Rows(s.txns[id])
    ensures CacheRowFree(s, id, r)
  {
    forall j | j in s.txns && j != id ensures r !in CacheRows(s.txns[j]) {
      assert Apart(cfg, s.txns[id], s.txns[j]);
      assert CacheRows(s.txns[j]) <= Rows(s.txns[j]);
    }
  }

  /** Whoever waits for no lock can run its next statement. */
  lemma UnblockedCanStep(cfg: Config, l0: Ledger, s: State, id: nat) returns (a: Action)
    requires Inv(cfg, l0, s) && Unfinished(s, id) && !Blocked(cfg, s, id)
    ensures IsStatement(a) && a.id == id && Enabled(cfg, s, a)
  {
    var t := s.txns[id];
    assert TxnOk(cfg, s.db, t);
    match t.pc
    case Started =>
      if !AmountOk(t.call) { return RejectAmount(id); }
      if t.call.Post? && t.call.reference != "" { return TakeKey(id); }
      assert !AwaitsRow(s, id, FirstRow(t.call));
      a := LockFirst(id);
    case KeyHeld => a := CheckReference(id);
    case RefClear =>
      assert !AwaitsRow(s, id, FirstRow(t.call));
      a := LockFirst(id);
    case FirstLocked =>
      assert !AwaitsRow(s, id, SecondRow(t.call));
      a := LockSecond(id);
    case BothLocked =>
      if !t.call.Post? { return ReadSum(id); }
      var uuid := FreshUuid(s.db, s.txns);
      a := InsertDebit(id, uuid);
    case SumRead =>
      if t.call.Transfer? {
        var uuid := FreshUuid(s.db, s.txns);
        return InsertDebit(id, uuid);
      }
      CacheRowsAreCovered(cfg, l0, s, id, FromRow(t.call));
      a := CacheSet(id);
    case DebitIn => a := InsertCredit(id);
    case CreditIn =>
      CacheRowsAreCovered(cfg, l0, s, id, FromRow(t.call));
      a := CacheDebit(id);
    case DebitCached =>
      CacheRowsAreCovered(cfg, l0, s, id, ToRow(t.call));
      a := CacheCredit(id);
    case Written => a := Commit(id);
  }

  /** Lock ordering: a holder that itself waits, waits for a greater row. */
  lemma HolderWaitsHigher(cfg: Config, l0: Ledger, s: State, holder: nat, r: Row, r': Row)
    requires Inv(cfg, l0, s) && holder in s.txns && r in Rows(s.txns[holder])
    requires AwaitsRow(s, holder, r')
    ensures Less(r, r')
  {
    var t := s.txns[holder];
    assert t.pc.FirstLocked? && r == FirstRow(t.call) && r' == SecondRow(t.call);
    var j :| j in s.txns && j != holder && r' in Rows(s.txns[j]);
    assert Apart(cfg, t, s.txns[j]);
    LessTotal(FromRow(t.call), ToRow(t.call));
  }

  /** The rows above `r`: what is left of the climb. */
  function Above(rows: set<Row>, r: Row): set<Row> {
    set x | x in rows && Less(r, x)
  }

  lemma Climb(cfg: Config, l0: Ledger, s: State, id: nat, r: Row) returns (a: Action)
    requires Inv(cfg, l0, s) && AwaitsRow(s, id, r)
    ensures IsStatement(a) && Unfinished(s, a.id) && Enabled(cfg, s, a)
    decreases Above(s.db.accounts, r)
  {
    var holder :| holder in s.txns && holder != id && r in Rows(s.txns[holder]);
    assert !AwaitsKey(cfg, s, holder);
    if Blocked(cfg, s, holder) {
      var r' :| r' in s.db.accounts && AwaitsRow(s, holder, r');
      HolderWaitsHigher(cfg, l0, s, holder, r, r');
      LessIsStrictTotalOrder();
      assert r' in Above(s.db.accounts, r) && r' !in Above(s.db.accounts, r');
      assert Above(s.db.accounts, r') < Above(s.db.accounts, r);
      a := Climb(cfg, l0, s, holder, r');
    } else {
      a := UnblockedCanStep(cfg, l0, s, holder);
    }
  }

  /** Main result. In every reachable state with an unfinished transaction some
      transaction can run its next statement. */
  lemma NeverDeadlocked(cfg: Config, l0: Ledger, s: State, id: nat) returns (a: Action)
    requires Inv(cfg, l0, s) && Unfinished(s, id)
    ensures IsStatement(a) && Unfinished(s, a.id) && Enabled(cfg, s, a)
  {
    if AwaitsKey(cfg, s, id) {
      var holder :| holder in s.txns && holder != id && cfg.hash(s.txns[id].call.reference) in Keys(cfg, s.txns[holder]);
      if Blocked(cfg, s, holder) {
        var r :| r in s.db.accounts && AwaitsRow(s, holder, r);
        a := Climb(cfg, l0, s, holder, r);
      } else {
        a := UnblockedCanStep(cfg, l0, s, holder);
      }
    } else if Blocked(cfg, s, id) {
      var r :| r in s.db.accounts && AwaitsRow(s, id, r);
      a := Climb(cfg, l0, s, id, r);
    } else {
      a := UnblockedCanStep(cfg, l0, s, id);
    }
  }

  // ----- and the statements run out

  function Remaining(pc: Pc): nat {
    match pc
    case Started => 10
    case KeyHeld => 9
    case RefClear => 8
    case FirstLocked => 7
    case BothLocked => 6
    case SumRead => 5
    case DebitIn => 4
    case CreditIn => 3
    case DebitCached => 2
    case Written => 1
    case Finished(_) => 0
  }

  /** One token for each statement that may still run. */
  function Work(s: State): set<(nat, nat)> {
    set i, k | i in s.txns && 0 <= k < Remaining(s.txns[i].pc) :: (i, k)
  }

  lemma StatementUsesWork(cfg: Config, s: State, a: Action)
    requires IsStatement(a) && Enabled(cfg, s, a) && Unfinished(s, a.id)
    ensures Work(Do(cfg, s, a)) < Work(s)
  {
    var s' := Do(cfg, s, a);
    var left, had := Remaining(s'.txns[a.id].pc), Remaining(s.txns[a.id].pc);
    assert left < had;
    assert s'.txns == s.txns[a.id := s'.txns[a.id]];
    assert (a.id, left) in Work(s) && (a.id, left) !in Work(s');
    assert Work(s') <= Work(s);
  }

  predicate AllFinished(s: State) {
    forall i :: i in s.txns ==> s.txns[i].pc.Finished?
  }

  /** From every reachable state the running transactions can all be driven to
      their replies by statements alone: no error, no abort, no new call. */
  lemma {:induction false} EveryoneCanFinish(cfg: Config, l0: Ledger, s: State) returns (acts: seq<Action>)
    requires Inv(cfg, l0, s)
    ensures ValidRun(cfg, s, acts) && (forall k :: 0 <= k < |acts| ==> IsStatement(acts[k]))
    ensures AllFinished(Exec(cfg, s, acts))
    decreases Work(s)
  {
    if AllFinished(s) {
      acts := [];
    } else {
      var id :| id in s.txns && !s.txns[id].pc.Finished?;
      var a := NeverDeadlocked(cfg, l0, s, id);
      StepKeepsInv(cfg, l0, s, a);
      StatementUsesWork(cfg, s, a);
      var rest := EveryoneCanFinish(cfg, l0, Do(cfg, s, a));
      acts := [a] + rest;
      assert acts[1..] == rest;
    }
  }

  /** The same, said of runs: whatever has happened so far, what is running can finish. */
  lemma NoRunDeadlocks(cfg: Config, l0: Ledger, acts: seq<Action>) returns (more: seq<Action>)
    requires ValidRun(cfg, Initial(l0), acts)
    ensures var s := Exec(cfg, Initial(l0), acts);
            && ValidRun(cfg, s, more)
            && (forall k :: 0 <= k < |more| ==> IsStatement(more[k]))
            && AllFinished(Exec(cfg, s, more))
  {
    RunKeepsInv(cfg, l0, Initial(l0), acts);
    more := EveryoneCanFinish(cfg, l0, Exec(cfg, Initial(l0), acts));
  }
}
