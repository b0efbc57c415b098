/** The ledger as the database runs it: any number of transactions, interleaved
    statement by statement under READ COMMITTED, with row locks, advisory locks
    and private uncommitted writes. Every run is shown to be a run of the atomic
    ledger of LedgerSpec. */
module LedgerMachine {
  import opened Options
  import opened Order
  import opened LedgerSpec

  /** `hash` is hashtext (collisions allowed); `transferRef` says which
      references are transfer ids. */
  datatype Config = Config(hash: string -> int, transferRef: string -> bool)

  /** Transfer ids are never used as deposit or reversal references. */
  predicate ReferencesPartitioned(cfg: Config, c: Call) {
    match c
    case Transfer(_, _, _, reference) => reference == "" || cfg.transferRef(reference)
    case Post(_, _, _, reference) => reference == "" || !cfg.transferRef(reference)
    case Rebuild(_) => true
  }

  /** How far a transaction has got; the name says which statement ran last. */
  datatype Pc =
    | Started
    | KeyHeld      // pg_advisory_xact_lock returned
    | RefClear     // no entry carries the reference yet
    | FirstLocked
    | BothLocked
    | SumRead
    | DebitIn
    | CreditIn
    | DebitCached
    | Written      // everything written, not committed
    | Finished(reply: Reply)

  datatype Txn = Txn(call: Call, pc: Pc, uuid: TransactionId, sum: int,
                     writes: seq<Entry>, cacheWrites: map<Row, int>)

  datatype State = State(db: Ledger, txns: map<nat, Txn>, history: seq<Event>)

  datatype Action =
    | Begin(id: nat, call: Call)
    | RejectAmount(id: nat)      // the amount test before anything else
    | TakeKey(id: nat)
    | CheckReference(id: nat)
    | LockFirst(id: nat)
    | LockSecond(id: nat)
    | ReadSum(id: nat)
    | InsertDebit(id: nat, uuid: TransactionId)
    | InsertCredit(id: nat)
    | CacheDebit(id: nat)
    | CacheCredit(id: nat)
    | CacheSet(id: nat)
    | Commit(id: nat)
    | Abort(id: nat)             // any error return, lost connection or crash
    | OpenAccount(account: string)

  // ----- the locks a transaction holds at each point; released only at its end

  function FromRow(c: Call): Row {
    match c case Rebuild(a) => Lower(a) case _ => Lower(c.from)
  }

  function ToRow(c: Call): Row {
    match c case Rebuild(a) => Lower(a) case _ => Lower(c.to)
  }

  function FirstRow(c: Call): Row {
    if Less(ToRow(c), FromRow(c)) then ToRow(c) else FromRow(c)
  }

  function SecondRow(c: Call): Row {
    if Less(ToRow(c), FromRow(c)) then FromRow(c) else ToRow(c)
  }

  function Rows(t: Txn): set<Row> {
    match t.pc
    case Started | KeyHeld | RefClear | Finished(_) => {}
    case FirstLocked => {FirstRow(t.call)}
    case _ => {FirstRow(t.call), SecondRow(t.call)}
  }

  function Keys(cfg: Config, t: Txn): set<int> {
    if t.call.Post? && t.call.reference != "" && !t.pc.Started? && !t.pc.Finished?
    then {cfg.hash(t.call.reference)} else {}
  }

  function CacheRows(t: Txn): set<Row> {
    match t.pc
    case DebitCached => {FromRow(t.call)}
    case Written => {FromRow(t.call), ToRow(t.call)}
    case _ => {}
  }

  predicate RowFree(s: State, id: nat, r: Row) {
    forall j :: j in s.txns && j != id ==> r !in Rows(s.txns[j])
  }

  predicate CacheRowFree(s: State, id: nat, r: Row) {
    forall j :: j in s.txns && j != id ==> r !in CacheRows(s.txns[j])
  }

  predicate KeyFree(cfg: Config, s: State, id: nat, key: int) {
    forall j :: j in s.txns && j != id ==> key !in Keys(cfg, s.txns[j])
  }

  /** The transaction has generated its transaction_id. */
  predicate HasUuid(t: Txn) {
    t.pc.DebitIn? || t.pc.CreditIn? || ((t.pc.DebitCached? || t.pc.Written?) && !t.call.Rebuild?)
  }

  predicate UuidFree(s: State, uuid: TransactionId) {
    && !UsesTxn(s.db.entries, uuid)
    && forall j :: j in s.txns && HasUuid(s.txns[j]) ==> s.txns[j].uuid != uuid
  }

  // ----- what a statement reads: committed rows plus the transaction's own

  function Visible(s: State, t: Txn): seq<Entry> {
    s.db.entries + t.writes
  }

  function VisibleCache(s: State, t: Txn): map<Row, int> {
    s.db.cache + t.cacheWrites
  }

  function CacheWrite(s: State, t: Txn, r: Row, delta: int): map<Row, int> {
    t.cacheWrites[r := Cached(VisibleCache(s, t), r) + delta]
  }

  // ----- steps

  predicate At(s: State, id: nat, pc: Pc) {
    id in s.txns && s.txns[id].pc == pc
  }

  predicate Unfinished(s: State, id: nat) {
    id in s.txns && !s.txns[id].pc.Finished?
  }

  predicate AmountOk(c: Call) {
    c.Rebuild? || c.amount > 0
  }

  predicate ReadyToLock(t: Txn) {
    && AmountOk(t.call)
    && if t.call.Post? && t.call.reference != "" then t.pc.RefClear? else t.pc.Started?
  }

  predicate Enabled(cfg: Config, s: State, a: Action) {
    match a
    case Begin(id, call) => id !in s.txns && ReferencesPartitioned(cfg, call)
    case RejectAmount(id) => At(s, id, Started) && !AmountOk(s.txns[id].call)
    case TakeKey(id) =>
      && At(s, id, Started) && AmountOk(s.txns[id].call)
      && s.txns[id].call.Post? && s.txns[id].call.reference != ""
      && KeyFree(cfg, s, id, cfg.hash(s.txns[id].call.reference))
    case CheckReference(id) => At(s, id, KeyHeld) && s.txns[id].call.Post?
    case LockFirst(id) =>
      && Unfinished(s, id) && ReadyToLock(s.txns[id])
      && var r := FirstRow(s.txns[id].call);
         r in s.db.accounts ==> RowFree(s, id, r)
    case LockSecond(id) =>
      && At(s, id, FirstLocked)
      && var r := SecondRow(s.txns[id].call);
         r in s.db.accounts ==> RowFree(s, id, r)
    case ReadSum(id) => At(s, id, BothLocked) && !s.txns[id].call.Post?
    case InsertDebit(id, uuid) =>
      && (if id in s.txns && s.txns[id].call.Post? then At(s, id, BothLocked)
          else At(s, id, SumRead) && s.txns[id].call.Transfer?)
      && UuidFree(s, uuid)
    case InsertCredit(id) => At(s, id, DebitIn) && !s.txns[id].call.Rebuild?
    case CacheDebit(id) =>
      At(s, id, CreditIn) && !s.txns[id].call.Rebuild? && CacheRowFree(s, id, FromRow(s.txns[id].call))
    case CacheCredit(id) =>
      At(s, id, DebitCached) && !s.txns[id].call.Rebuild? && CacheRowFree(s, id, ToRow(s.txns[id].call))
    case CacheSet(id) =>
      At(s, id, SumRead) && s.txns[id].call.Rebuild? && CacheRowFree(s, id, FromRow(s.txns[id].call))
    case Commit(id) => At(s, id, Written)
    case Abort(id) => Unfinished(s, id)
    case OpenAccount(account) =>
      Lower(account) in s.db.accounts ==> forall j :: j in s.txns ==> Lower(account) !in Rows(s.txns[j])
  }

  function Move(s: State, id: nat, t: Txn): State {
    s.(txns := s.txns[id := t])
  }

  /** The transaction ends, leaving the committed tables `db`. */
  function Finish(s: State, id: nat, db: Ledger, uuid: TransactionId, reply: Reply): State
    requires id in s.txns
  {
    var t := s.txns[id];
    State(db, s.txns[id := Txn(t.call, Finished(reply), 0, 0, [], map[])],
          s.history + [Did(id, t.call, uuid, reply)])
  }

  /** The transaction ends without having written anything. */
  function Refuse(s: State, id: nat, reply: Reply): State
    requires id in s.txns
  {
    Finish(s, id, s.db, Unused(s.db.entries), reply)
  }

  // the five writes, each private to the transaction

  function DebitInserted(t: Txn, uuid: TransactionId): Txn
    requires !t.call.Rebuild?
  {
    t.(pc := DebitIn, uuid := uuid,
       writes := t.writes + [Entry(uuid, FromRow(t.call), -t.call.amount, t.call.reference)])
  }

  function CreditInserted(t: Txn): Txn
    requires !t.call.Rebuild?
  {
    t.(pc := CreditIn, writes := t.writes + [Entry(t.uuid, ToRow(t.call), t.call.amount, t.call.reference)])
  }

  function DebitApplied(s: State, t: Txn): Txn
    requires !t.call.Rebuild?
  {
    t.(pc := DebitCached, cacheWrites := CacheWrite(s, t, FromRow(t.call), -t.call.amount))
  }

  function CreditApplied(s: State, t: Txn): Txn
    requires !t.call.Rebuild?
  {
    t.(pc := Written, cacheWrites := CacheWrite(s, t, ToRow(t.call), t.call.amount))
  }

  function SumStored(t: Txn): Txn {
    t.(pc := Written, cacheWrites := map[FromRow(t.call) := t.sum])
  }

  function Do(cfg: Config, s: State, a: Action): State
    requires Enabled(cfg, s, a)
  {
    match a
    case Begin(id, call) =>
      Move(s, id, Txn(call, Started, 0, 0, [], map[]))
    case RejectAmount(id) => Refuse(s, id, InvalidAmount)
    case OpenAccount(account) =>
      s.(db := s.db.(accounts := s.db.accounts + {Lower(account)}), history := s.history + [Opened(Lower(account))])
    case TakeKey(id) => Move(s, id, s.txns[id].(pc := KeyHeld))
    case CheckReference(id) =>
      var t := s.txns[id];
      var found := Find(Visible(s, t), t.call.reference);
      if found.Some? then Refuse(s, id, Posted(found.value)) else Move(s, id, t.(pc := RefClear))
    case LockFirst(id) =>
      var t := s.txns[id];
      if FirstRow(t.call) in s.db.accounts then
        Move(s, id, t.(pc := if t.call.Rebuild? then BothLocked else FirstLocked))
      else Refuse(s, id, Missing(t.call, Less(ToRow(t.call), FromRow(t.call))))
    case LockSecond(id) =>
      var t := s.txns[id];
      if SecondRow(t.call) in s.db.accounts then Move(s, id, t.(pc := BothLocked))
      else Refuse(s, id, Missing(t.call, !Less(ToRow(t.call), FromRow(t.call))))
    case ReadSum(id) =>
      var t := s.txns[id];
      var sum := Balance(Visible(s, t), FromRow(t.call));
      if t.call.Transfer? && sum < t.call.amount then Refuse(s, id, InsufficientFunds)
      else Move(s, id, t.(pc := SumRead, sum := sum))
    case InsertDebit(id, uuid) => Move(s, id, DebitInserted(s.txns[id], uuid))
    case InsertCredit(id) => Move(s, id, CreditInserted(s.txns[id]))
    case CacheDebit(id) => Move(s, id, DebitApplied(s, s.txns[id]))
    case CacheCredit(id) => Move(s, id, CreditApplied(s, s.txns[id]))
    case CacheSet(id) => Move(s, id, SumStored(s.txns[id]))
    case Commit(id) =>
      var t := s.txns[id];
      Finish(s, id, Committed(s.db, t), CommitUuid(s.db, t), CommitReply(t))
    case Abort(id) => Refuse(s, id, Failed)
  }

  /** The tables once the transaction's private writes are merged in. */
  function Committed(db: Ledger, t: Txn): Ledger {
    db.(entries := db.entries + t.writes, cache := db.cache + t.cacheWrites)
  }

  function CommitUuid(db: Ledger, t: Txn): TransactionId {
    if t.call.Rebuild? then Unused(db.entries) else t.uuid
  }

  function CommitReply(t: Txn): Reply {
    if t.call.Rebuild? then Rebuilt(t.sum) else Posted(t.uuid)
  }

  /** Which not-found reply a missing row gives; `missingTo` when it is the recipient's. */
  function Missing(c: Call, missingTo: bool): Reply {
    if !c.Transfer? then AccountNotFound else if missingTo then ToNotFound else FromNotFound
  }

  // ----- the invariant

  predicate PastReference(pc: Pc) {
    !pc.Started? && !pc.KeyHeld? && !pc.Finished?
  }

  predicate PastFunds(pc: Pc) {
    pc.SumRead? || pc.DebitIn? || pc.CreditIn? || pc.DebitCached? || pc.Written?
  }

  function ExpectedWrites(t: Txn): seq<Entry> {
    if t.call.Rebuild? then [] else
    match t.pc
    case DebitIn => [Entry(t.uuid, FromRow(t.call), -t.call.amount, t.call.reference)]
    case CreditIn | DebitCached | Written =>
      Pair(FromRow(t.call), ToRow(t.call), t.call.amount, t.call.reference, t.uuid)
    case _ => []
  }

  /** The private cache rows, as a function of the committed cache. */
  function ExpectedCache(db: Ledger, t: Txn): map<Row, int> {
    var f, to := FromRow(t.call), ToRow(t.call);
    match t.pc
    case DebitCached => if t.call.Rebuild? then map[] else map[f := Cached(db.cache, f) - t.call.amount]
    case Written =>
      if t.call.Rebuild? then map[f := t.sum]
      else if f == to then map[f := Cached(db.cache, f)]
      else map[f := Cached(db.cache, f) - t.call.amount, to := Cached(db.cache, to) + t.call.amount]
    case _ => map[]
  }

  predicate PcFits(t: Txn) {
    match t.call
    case Transfer(_, _, amount, _) =>
      !t.pc.KeyHeld? && !t.pc.RefClear? && (!t.pc.Started? && !t.pc.Finished? ==> amount > 0)
    case Post(_, _, amount, reference) =>
      && !t.pc.SumRead? && (!t.pc.Started? && !t.pc.Finished? ==> amount > 0)
      && (reference == "" ==> !t.pc.KeyHeld? && !t.pc.RefClear?)
    case Rebuild(_) => t.pc.Started? || t.pc.BothLocked? || t.pc.SumRead? || t.pc.Written? || t.pc.Finished?
  }

  /** What a transaction knows about the committed tables, at every point. */
  predicate TxnOk(cfg: Config, db: Ledger, t: Txn) {
    && PcFits(t)
    && ReferencesPartitioned(cfg, t.call)
    && Rows(t) <= db.accounts
    && t.writes == ExpectedWrites(t)
    && t.cacheWrites == ExpectedCache(db, t)
    && (t.call.Transfer? && PastFunds(t.pc) ==> Balance(db.entries, FromRow(t.call)) >= t.call.amount)
    && (t.call.Rebuild? && PastFunds(t.pc) ==> t.sum == Balance(db.entries, FromRow(t.call)))
    && (t.call.Post? && t.call.reference != "" && PastReference(t.pc) ==> Find(db.entries, t.call.reference).None?)
    && (HasUuid(t) ==> !UsesTxn(db.entries, t.uuid))
  }

  predicate Apart(cfg: Config, t: Txn, u: Txn) {
    && Rows(t) !! Rows(u)
    && Keys(cfg, t) !! Keys(cfg, u)
    && (HasUuid(t) && HasUuid(u) ==> t.uuid != u.uuid)
  }

  predicate TxnsOk(cfg: Config, db: Ledger, txns: map<nat, Txn>) {
    && (forall i :: i in txns ==> TxnOk(cfg, db, txns[i]))
    && (forall i, j :: i in txns && j in txns && i != j ==> Apart(cfg, txns[i], txns[j]))
  }

  /** Each finished transaction appears once in the history, with its own call
      and reply; an unfinished one does not appear. */
  predicate Observed(s: State) {
    && (forall k :: 0 <= k < |s.history| && s.history[k].Did? ==>
          && s.history[k].id in s.txns
          && s.txns[s.history[k].id].call == s.history[k].call
          && s.txns[s.history[k].id].pc == Finished(s.history[k].reply))
    && (forall j, k :: 0 <= j < k < |s.history| && s.history[j].Did? && s.history[k].Did? ==>
          s.history[j].id != s.history[k].id)
    && (forall i :: i in s.txns && s.txns[i].pc.Finished? ==>
          exists k :: 0 <= k < |s.history| && s.history[k].Did? && s.history[k].id == i)
  }

  ghost predicate Inv(cfg: Config, l0: Ledger, s: State) {
    && TxnsOk(cfg, s.db, s.txns)
    && Observed(s)
    && AtomicRun(l0, s.history, s.db)
  }

  // ----- runs

  function Initial(l0: Ledger): State {
    State(l0, map[], [])
  }

  predicate ValidRun(cfg: Config, s: State, acts: seq<Action>)
    decreases acts
  {
    acts != [] ==> Enabled(cfg, s, acts[0]) && ValidRun(cfg, Do(cfg, s, acts[0]), acts[1..])
  }

  function Exec(cfg: Config, s: State, acts: seq<Action>): State
    requires ValidRun(cfg, s, acts)
    decreases acts
  {
    if acts == [] then s else Exec(cfg, Do(cfg, s, acts[0]), acts[1..])
  }

  // ----- preservation

  /** A step that moves one transaction and leaves the tables alone. */
  lemma MoveKeepsInv(cfg: Config, l0: Ledger, s: State, id: nat, t: Txn)
    requires Inv(cfg, l0, s)
    requires id !in s.txns || (!s.txns[id].pc.Finished? && s.txns[id].call == t.call)
    requires !t.pc.Finished? && TxnOk(cfg, s.db, t)
    requires forall j :: j in s.txns && j != id ==> Apart(cfg, t, s.txns[j])
    ensures Inv(cfg, l0, Move(s, id, t))
  {
    var s' := Move(s, id, t);
    forall i, j | i in s'.txns && j in s'.txns && i != j ensures Apart(cfg, s'.txns[i], s'.txns[j]) {
      if i != id && j == id { assert Apart(cfg, t, s.txns[i]); }
    }
    assert Observed(s') by {
      forall i | i in s'.txns && s'.txns[i].pc.Finished?
        ensures exists k :: 0 <= k < |s'.history| && s'.history[k].Did? && s'.history[k].id == i
      {
        assert i in s.txns && s.txns[i].pc.Finished?;
      }
    }
  }

  /** A finished transaction holds nothing and claims nothing. */
  lemma FinishedIsApart(cfg: Config, db: Ledger, c: Call, reply: Reply, u: Txn)
    requires ReferencesPartitioned(cfg, c)
    ensures var t := Txn(c, Finished(reply), 0, 0, [], map[]);
            TxnOk(cfg, db, t) && Apart(cfg, t, u) && Apart(cfg, u, t)
  {
  }

  lemma FinishKeepsTxnsOk(cfg: Config, s: State, id: nat, db: Ledger, uuid: TransactionId, reply: Reply)
    requires TxnsOk(cfg, s.db, s.txns) && Unfinished(s, id)
    requires forall j :: j in s.txns && j != id ==> TxnOk(cfg, db, s.txns[j])
    ensures TxnsOk(cfg, db, Finish(s, id, db, uuid, reply).txns)
  {
    var s' := Finish(s, id, db, uuid, reply);
    forall i | i in s'.txns ensures TxnOk(cfg, db, s'.txns[i]) {
      FinishedIsApart(cfg, db, s.txns[id].call, reply, s.txns[i]);
    }
    forall i, j | i in s'.txns && j in s'.txns && i != j ensures Apart(cfg, s'.txns[i], s'.txns[j]) {
      if i == id { FinishedIsApart(cfg, db, s.txns[id].call, reply, s.txns[j]); }
      if j == id { FinishedIsApart(cfg, db, s.txns[id].call, reply, s.txns[i]); }
    }
  }

  lemma FinishKeepsObserved(s: State, id: nat, db: Ledger, uuid: TransactionId, reply: Reply)
    requires Observed(s) && Unfinished(s, id)
    ensures Observed(Finish(s, id, db, uuid, reply))
  {
    var s' := Finish(s, id, db, uuid, reply);
    forall i | i in s'.txns && s'.txns[i].pc.Finished?
      ensures exists k :: 0 <= k < |s'.history| && s'.history[k].Did? && s'.history[k].id == i
    {
      if i == id {
        assert s'.history[|s.history|].Did? && s'.history[|s.history|].id == id;
      } else {
        var k :| 0 <= k < |s.history| && s.history[k].Did? && s.history[k].id == i;
        assert s'.history[k] == s.history[k];
      }
    }
  }

  /** A step that ends one transaction: right if the atomic ledger gives this
      reply and these tables, and no other transaction's knowledge is spoiled. */
  lemma FinishKeepsInv(cfg: Config, l0: Ledger, s: State, id: nat, db: Ledger, uuid: TransactionId, reply: Reply)
    requires Inv(cfg, l0, s) && Unfinished(s, id)
    requires AtomicStep(s.db, Did(id, s.txns[id].call, uuid, reply), db)
    requires forall j :: j in s.txns && j != id ==> TxnOk(cfg, db, s.txns[j])
    ensures Inv(cfg, l0, Finish(s, id, db, uuid, reply))
  {
    ExtendAtomicRun(l0, s.history, s.db, Did(id, s.txns[id].call, uuid, reply), db);
    FinishKeepsTxnsOk(cfg, s, id, db, uuid, reply);
    FinishKeepsObserved(s, id, db, uuid, reply);
  }

  /** Ending without a write: the atomic ledger gives the same refusal now. */
  lemma RefuseKeepsInv(cfg: Config, l0: Ledger, s: State, id: nat, reply: Reply)
    requires Inv(cfg, l0, s) && Unfinished(s, id)
    requires reply.Failed? || Apply(s.db, s.txns[id].call, Unused(s.db.entries)) == (s.db, reply)
    ensures Inv(cfg, l0, Refuse(s, id, reply))
  {
    FinishKeepsInv(cfg, l0, s, id, s.db, Unused(s.db.entries), reply);
  }

  /** Appending a pair is invisible to whoever looks elsewhere. */
  lemma PairInvisible(es: seq<Entry>, c: Call, uuid: TransactionId, r: Row, reference: string, other: TransactionId)
    requires !c.Rebuild?
    ensures var after := es + Pair(FromRow(c), ToRow(c), c.amount, c.reference, uuid);
            && (r != FromRow(c) && r != ToRow(c) ==> Balance(after, r) == Balance(es, r))
            && (reference != c.reference && Find(es, reference).None? ==> Find(after, reference).None?)
            && (other != uuid && !UsesTxn(es, other) ==> !UsesTxn(after, other))
  {
    AppendPair(es, FromRow(c), ToRow(c), c.amount, c.reference, uuid);
  }

  /** Two transactions that hold each other's locks apart never post the same reference. */
  lemma DistinctReferences(cfg: Config, db: Ledger, t: Txn, u: Txn)
    requires TxnOk(cfg, db, t) && TxnOk(cfg, db, u) && Apart(cfg, t, u)
    requires t.pc.Written? && !t.call.Rebuild?
    requires u.call.Post? && u.call.reference != "" && PastReference(u.pc)
    ensures u.call.reference != t.call.reference
  {
    if t.call.Post? && t.call.reference != "" {
      assert cfg.hash(t.call.reference) in Keys(cfg, t);
      assert cfg.hash(u.call.reference) in Keys(cfg, u);
    }
  }

  lemma CommitLeavesOtherCache(cfg: Config, db: Ledger, t: Txn, u: Txn)
    requires TxnOk(cfg, db, t) && Rows(t) !! Rows(u) && t.pc.Written?
    ensures ExpectedCache(Committed(db, t), u) == ExpectedCache(db, u)
  {
    assert forall r :: r in t.cacheWrites ==> r in Rows(t);
    if u.pc.DebitCached? || u.pc.Written? {
      assert FromRow(u.call) in Rows(u) && ToRow(u.call) in Rows(u);
    }
  }

  /** Locks at work: another transaction's commit spoils nothing this one knows. */
  lemma CommitKeepsOthers(cfg: Config, db: Ledger, t: Txn, u: Txn)
    requires TxnOk(cfg, db, t) && TxnOk(cfg, db, u) && Apart(cfg, t, u) && t.pc.Written?
    ensures TxnOk(cfg, Committed(db, t), u)
  {
    CommitLeavesOtherCache(cfg, db, t, u);
    if t.call.Rebuild? {
      assert db.entries + t.writes == db.entries;
    } else {
      var reference := if u.call.Rebuild? then "" else u.call.reference;
      PairInvisible(db.entries, t.call, t.uuid, FromRow(u.call), reference, u.uuid);
      if u.call.Post? && u.call.reference != "" && PastReference(u.pc) {
        DistinctReferences(cfg, db, t, u);
      }
      assert PastFunds(u.pc) ==> FromRow(u.call) in Rows(u);
      assert FromRow(t.call) in Rows(t) && ToRow(t.call) in Rows(t);
    }
  }

  /** The merged cache rows are the two deltas of the atomic ledger. */
  lemma CommittedCache(db: Ledger, t: Txn)
    requires t.pc.Written? && t.cacheWrites == ExpectedCache(db, t)
    ensures var c := t.call;
            db.cache + t.cacheWrites ==
            if c.Rebuild? then db.cache[FromRow(c) := t.sum]
            else Bump(Bump(db.cache, FromRow(c), -c.amount), ToRow(c), c.amount)
  {
  }

  lemma CommittedEntries(db: Ledger, t: Txn)
    requires t.pc.Written? && t.writes == ExpectedWrites(t)
    ensures var c := t.call;
            db.entries + t.writes ==
            if c.Rebuild? then db.entries
            else db.entries + Pair(FromRow(c), ToRow(c), c.amount, c.reference, t.uuid)
  {
  }

  /** At its commit a transaction does exactly what the atomic ledger does. */
  lemma CommitIsAtomic(cfg: Config, db: Ledger, t: Txn)
    requires TxnOk(cfg, db, t) && t.pc.Written?
    ensures Apply(db, t.call, CommitUuid(db, t)) == (Committed(db, t), CommitReply(t))
  {
    hide ExpectedWrites, ExpectedCache, Bump;
    CommittedCache(db, t);
    CommittedEntries(db, t);
    assert FromRow(t.call) in Rows(t) && ToRow(t.call) in Rows(t);
  }

  lemma CommitKeepsAllOthers(cfg: Config, s: State, id: nat)
    requires TxnsOk(cfg, s.db, s.txns) && At(s, id, Written)
    ensures forall j :: j in s.txns && j != id ==> TxnOk(cfg, Committed(s.db, s.txns[id]), s.txns[j])
  {
    forall j | j in s.txns && j != id ensures TxnOk(cfg, Committed(s.db, s.txns[id]), s.txns[j]) {
      assert Apart(cfg, s.txns[id], s.txns[j]);
      CommitKeepsOthers(cfg, s.db, s.txns[id], s.txns[j]);
    }
  }

  lemma CommitStep(cfg: Config, db: Ledger, id: nat, t: Txn)
    requires TxnOk(cfg, db, t) && t.pc.Written?
    ensures AtomicStep(db, Did(id, t.call, CommitUuid(db, t), CommitReply(t)), Committed(db, t))
  {
    CommitIsAtomic(cfg, db, t);
  }

  lemma CommitKeepsInv(cfg: Config, l0: Ledger, s: State, id: nat, t: Txn)
    requires Inv(cfg, l0, s) && At(s, id, Written) && t == s.txns[id]
    ensures Inv(cfg, l0, Finish(s, id, Committed(s.db, t), CommitUuid(s.db, t), CommitReply(t)))
  {
    CommitStep(cfg, s.db, id, t);
    CommitKeepsAllOthers(cfg, s, id);
    FinishKeepsInv(cfg, l0, s, id, Committed(s.db, t), CommitUuid(s.db, t), CommitReply(t));
  }

  lemma BeginKeepsInv(cfg: Config, l0: Ledger, s: State, id: nat, call: Call)
    requires Inv(cfg, l0, s) && Enabled(cfg, s, Begin(id, call))
    ensures Inv(cfg, l0, Do(cfg, s, Begin(id, call)))
  {
    MoveKeepsInv(cfg, l0, s, id, Txn(call, Started, 0, 0, [], map[]));
  }

  lemma ReferenceStepsKeepInv(cfg: Config, l0: Ledger, s: State, a: Action)
    requires a.TakeKey? || a.CheckReference?
    requires Inv(cfg, l0, s) && Enabled(cfg, s, a)
    ensures Inv(cfg, l0, Do(cfg, s, a))
  {
    var t := s.txns[a.id];
    assert TxnOk(cfg, s.db, t);
    assert Visible(s, t) == s.db.entries;
    forall j | j in s.txns && j != a.id ensures Apart(cfg, t, s.txns[j]) {}
    if a.TakeKey? {
      MoveKeepsInv(cfg, l0, s, a.id, t.(pc := KeyHeld));
    } else if Find(s.db.entries, t.call.reference).Some? {
      RefuseKeepsInv(cfg, l0, s, a.id, Posted(Find(s.db.entries, t.call.reference).value));
    } else {
      MoveKeepsInv(cfg, l0, s, a.id, t.(pc := RefClear));
    }
  }

  /** A missing row gives the same reply from the atomic ledger. */
  lemma MissingIsAtomic(cfg: Config, db: Ledger, t: Txn, first: bool)
    requires TxnOk(cfg, db, t)
    requires if first then ReadyToLock(t) else t.pc.FirstLocked?
    requires (if first then FirstRow(t.call) else SecondRow(t.call)) !in db.accounts
    ensures var swapped := Less(ToRow(t.call), FromRow(t.call));
            Apply(db, t.call, Unused(db.entries)) == (db, Missing(t.call, if first then swapped else !swapped))
  {
    LessIrreflexive(FromRow(t.call));
  }

  lemma LockedIsApart(cfg: Config, t: Txn, t': Txn, r: Row, u: Txn)
    requires Apart(cfg, t, u) && r !in Rows(u)
    requires Rows(t') == Rows(t) + {r} && Keys(cfg, t') == Keys(cfg, t) && !HasUuid(t')
    ensures Apart(cfg, t', u)
  {
  }

  lemma LockKeepsInv(cfg: Config, l0: Ledger, s: State, id: nat, t': Txn, r: Row)
    requires Inv(cfg, l0, s) && Unfinished(s, id)
    requires s.txns[id].call == t'.call && !t'.pc.Finished? && TxnOk(cfg, s.db, t')
    requires Rows(t') == Rows(s.txns[id]) + {r} && Keys(cfg, t') == Keys(cfg, s.txns[id]) && !HasUuid(t')
    requires RowFree(s, id, r)
    ensures Inv(cfg, l0, Move(s, id, t'))
  {
    forall j | j in s.txns && j != id ensures Apart(cfg, t', s.txns[j]) {
      LockedIsApart(cfg, s.txns[id], t', r, s.txns[j]);
    }
    MoveKeepsInv(cfg, l0, s, id, t');
  }

  lemma LockedOk(cfg: Config, db: Ledger, t: Txn, first: bool)
    requires TxnOk(cfg, db, t)
    requires if first then ReadyToLock(t) else t.pc.FirstLocked?
    requires (if first then FirstRow(t.call) else SecondRow(t.call)) in db.accounts
    ensures var t' := t.(pc := if first && !t.call.Rebuild? then FirstLocked else BothLocked);
            && TxnOk(cfg, db, t') && Keys(cfg, t') == Keys(cfg, t)
            && Rows(t') == Rows(t) + {if first then FirstRow(t.call) else SecondRow(t.call)}
  {
    LessIrreflexive(FromRow(t.call));
  }

  lemma LockStepsKeepInv(cfg: Config, l0: Ledger, s: State, a: Action)
    requires a.LockFirst? || a.LockSecond?
    requires Inv(cfg, l0, s) && Enabled(cfg, s, a)
    ensures Inv(cfg, l0, Do(cfg, s, a))
  {
    var t := s.txns[a.id];
    var r := if a.LockFirst? then FirstRow(t.call) else SecondRow(t.call);
    if r in s.db.accounts {
      LockedOk(cfg, s.db, t, a.LockFirst?);
      var t' := t.(pc := if a.LockFirst? && !t.call.Rebuild? then FirstLocked else BothLocked);
      LockKeepsInv(cfg, l0, s, a.id, t', r);
    } else {
      MissingIsAtomic(cfg, s.db, t, a.LockFirst?);
      var swapped := Less(ToRow(t.call), FromRow(t.call));
      RefuseKeepsInv(cfg, l0, s, a.id, Missing(t.call, if a.LockFirst? then swapped else !swapped));
    }
  }

  lemma ReadFacts(cfg: Config, l0: Ledger, s: State, id: nat)
    requires Inv(cfg, l0, s) && Enabled(cfg, s, ReadSum(id))
    ensures TxnOk(cfg, s.db, s.txns[id]) && Visible(s, s.txns[id]) == s.db.entries
    ensures forall j :: j in s.txns && j != id ==> Apart(cfg, s.txns[id], s.txns[j])
  {
    assert TxnOk(cfg, s.db, s.txns[id]);
    assert s.txns[id].writes == [];
  }

  lemma ReadStepKeepsInv(cfg: Config, l0: Ledger, s: State, id: nat)
    requires Inv(cfg, l0, s) && Enabled(cfg, s, ReadSum(id))
    ensures Inv(cfg, l0, Do(cfg, s, ReadSum(id)))
  {
    hide Inv;
    var t := s.txns[id];
    ReadFacts(cfg, l0, s, id);
    var sum := Balance(s.db.entries, FromRow(t.call));
    if t.call.Transfer? && sum < t.call.amount {
      assert FromRow(t.call) in Rows(t) && ToRow(t.call) in Rows(t);
      RefuseKeepsInv(cfg, l0, s, id, InsufficientFunds);
    } else {
      var t' := t.(pc := SumRead, sum := sum);
      assert Rows(t') == Rows(t) && Keys(cfg, t') == Keys(cfg, t) && HasUuid(t') == HasUuid(t);
      MoveKeepsInv(cfg, l0, s, id, t');
    }
  }

  /** `t'` is `t` after a private write, made under locks already held. */
  predicate Quiet(cfg: Config, db: Ledger, t: Txn, t': Txn) {
    && t'.call == t.call && !t.pc.Finished? && !t'.pc.Finished?
    && TxnOk(cfg, db, t')
    && Rows(t') == Rows(t) && Keys(cfg, t') == Keys(cfg, t)
  }

  lemma InsertDebitIsQuiet(cfg: Config, db: Ledger, t: Txn, uuid: TransactionId)
    requires TxnOk(cfg, db, t) && !t.call.Rebuild? && !UsesTxn(db.entries, uuid)
    requires if t.call.Post? then t.pc.BothLocked? else t.pc.SumRead?
    ensures Quiet(cfg, db, t, DebitInserted(t, uuid))
  {
  }

  lemma InsertCreditIsQuiet(cfg: Config, db: Ledger, t: Txn)
    requires TxnOk(cfg, db, t) && !t.call.Rebuild? && t.pc.DebitIn?
    ensures Quiet(cfg, db, t, CreditInserted(t))
  {
  }

  lemma CacheDebitIsQuiet(cfg: Config, s: State, t: Txn)
    requires TxnOk(cfg, s.db, t) && !t.call.Rebuild? && t.pc.CreditIn?
    ensures Quiet(cfg, s.db, t, DebitApplied(s, t))
  {
    assert VisibleCache(s, t) == s.db.cache;
  }

  lemma CacheCreditIsQuiet(cfg: Config, s: State, t: Txn)
    requires TxnOk(cfg, s.db, t) && !t.call.Rebuild? && t.pc.DebitCached?
    ensures Quiet(cfg, s.db, t, CreditApplied(s, t))
  {
    var f, to := FromRow(t.call), ToRow(t.call);
    assert t.cacheWrites == map[f := Cached(s.db.cache, f) - t.call.amount];
    assert CacheWrite(s, t, to, t.call.amount) == ExpectedCache(s.db, t.(pc := Written));
  }

  lemma CacheSetIsQuiet(cfg: Config, db: Ledger, t: Txn)
    requires TxnOk(cfg, db, t) && t.call.Rebuild? && t.pc.SumRead?
    ensures Quiet(cfg, db, t, SumStored(t))
  {
  }

  lemma QuietKeepsInv(cfg: Config, l0: Ledger, s: State, id: nat, t': Txn)
    requires Inv(cfg, l0, s) && id in s.txns && Quiet(cfg, s.db, s.txns[id], t')
    requires HasUuid(t') ==> UuidFree(s, t'.uuid) || (HasUuid(s.txns[id]) && t'.uuid == s.txns[id].uuid)
    ensures Inv(cfg, l0, Move(s, id, t'))
  {
    forall j | j in s.txns && j != id ensures Apart(cfg, t', s.txns[j]) {
      assert Apart(cfg, s.txns[id], s.txns[j]);
    }
    MoveKeepsInv(cfg, l0, s, id, t');
  }

  lemma InsertDebitKeepsInv(cfg: Config, l0: Ledger, s: State, id: nat, uuid: TransactionId)
    requires Inv(cfg, l0, s) && Enabled(cfg, s, InsertDebit(id, uuid))
    ensures Inv(cfg, l0, Do(cfg, s, InsertDebit(id, uuid)))
  {
    InsertDebitIsQuiet(cfg, s.db, s.txns[id], uuid);
    QuietKeepsInv(cfg, l0, s, id, DebitInserted(s.txns[id], uuid));
  }

  lemma InsertCreditKeepsInv(cfg: Config, l0: Ledger, s: State, id: nat)
    requires Inv(cfg, l0, s) && Enabled(cfg, s, InsertCredit(id))
    ensures Inv(cfg, l0, Do(cfg, s, InsertCredit(id)))
  {
    InsertCreditIsQuiet(cfg, s.db, s.txns[id]);
    QuietKeepsInv(cfg, l0, s, id, CreditInserted(s.txns[id]));
  }

  lemma CacheDebitKeepsInv(cfg: Config, l0: Ledger, s: State, id: nat)
    requires Inv(cfg, l0, s) && Enabled(cfg, s, CacheDebit(id))
    ensures Inv(cfg, l0, Do(cfg, s, CacheDebit(id)))
  {
    CacheDebitIsQuiet(cfg, s, s.txns[id]);
    QuietKeepsInv(cfg, l0, s, id, DebitApplied(s, s.txns[id]));
  }

  lemma CacheCreditKeepsInv(cfg: Config, l0: Ledger, s: State, id: nat)
    requires Inv(cfg, l0, s) && Enabled(cfg, s, CacheCredit(id))
    ensures Inv(cfg, l0, Do(cfg, s, CacheCredit(id)))
  {
    CacheCreditIsQuiet(cfg, s, s.txns[id]);
    QuietKeepsInv(cfg, l0, s, id, CreditApplied(s, s.txns[id]));
  }

  lemma CacheSetKeepsInv(cfg: Config, l0: Ledger, s: State, id: nat)
    requires Inv(cfg, l0, s) && Enabled(cfg, s, CacheSet(id))
    ensures Inv(cfg, l0, Do(cfg, s, CacheSet(id)))
  {
    CacheSetIsQuiet(cfg, s.db, s.txns[id]);
    QuietKeepsInv(cfg, l0, s, id, SumStored(s.txns[id]));
  }

  lemma OpenKeepsTxnOk(cfg: Config, db: Ledger, t: Txn, r: Row)
    requires TxnOk(cfg, db, t)
    ensures TxnOk(cfg, db.(accounts := db.accounts + {r}), t)
  {
  }

  lemma OpenKeepsObserved(s: State, db: Ledger, r: Row)
    requires Observed(s)
    ensures Observed(State(db, s.txns, s.history + [Opened(r)]))
  {
    var s' := State(db, s.txns, s.history + [Opened(r)]);
    forall i | i in s'.txns && s'.txns[i].pc.Finished?
      ensures exists k :: 0 <= k < |s'.history| && s'.history[k].Did? && s'.history[k].id == i
    {
      var k :| 0 <= k < |s.history| && s.history[k].Did? && s.history[k].id == i;
      assert s'.history[k] == s.history[k];
    }
  }

  lemma OpenKeepsInv(cfg: Config, l0: Ledger, s: State, account: string)
    requires Inv(cfg, l0, s) && Enabled(cfg, s, OpenAccount(account))
    ensures Inv(cfg, l0, Do(cfg, s, OpenAccount(account)))
  {
    var s' := Do(cfg, s, OpenAccount(account));
    ExtendAtomicRun(l0, s.history, s.db, Opened(Lower(account)), s'.db);
    OpenKeepsObserved(s, s'.db, Lower(account));
    forall i | i in s'.txns ensures TxnOk(cfg, s'.db, s'.txns[i]) {
      OpenKeepsTxnOk(cfg, s.db, s.txns[i], Lower(account));
    }
  }

  lemma WriteStepKeepsInv(cfg: Config, l0: Ledger, s: State, a: Action)
    requires a.InsertDebit? || a.InsertCredit? || a.CacheDebit? || a.CacheCredit? || a.CacheSet?
    requires Inv(cfg, l0, s) && Enabled(cfg, s, a)
    ensures Inv(cfg, l0, Do(cfg, s, a))
  {
    match a
    case InsertDebit(id, uuid) => InsertDebitKeepsInv(cfg, l0, s, id, uuid);
    case InsertCredit(id) => InsertCreditKeepsInv(cfg, l0, s, id);
    case CacheDebit(id) => CacheDebitKeepsInv(cfg, l0, s, id);
    case CacheCredit(id) => CacheCreditKeepsInv(cfg, l0, s, id);
    case CacheSet(id) => CacheSetKeepsInv(cfg, l0, s, id);
  }

  lemma EndStepKeepsInv(cfg: Config, l0: Ledger, s: State, a: Action)
    requires a.RejectAmount? || a.Commit? || a.Abort?
    requires Inv(cfg, l0, s) && Enabled(cfg, s, a)
    ensures Inv(cfg, l0, Do(cfg, s, a))
  {
    match a
    case RejectAmount(id) => RefuseKeepsInv(cfg, l0, s, id, InvalidAmount);
    case Commit(id) => CommitKeepsInv(cfg, l0, s, id, s.txns[id]);
    case Abort(id) => RefuseKeepsInv(cfg, l0, s, id, Failed);
  }

  lemma StepKeepsInv(cfg: Config, l0: Ledger, s: State, a: Action)
    requires Inv(cfg, l0, s) && Enabled(cfg, s, a)
    ensures Inv(cfg, l0, Do(cfg, s, a))
  {
    if a.Begin? {
      BeginKeepsInv(cfg, l0, s, a.id, a.call);
    } else if a.RejectAmount? || a.Commit? || a.Abort? {
      EndStepKeepsInv(cfg, l0, s, a);
    } else if a.TakeKey? || a.CheckReference? {
      ReferenceStepsKeepInv(cfg, l0, s, a);
    } else if a.LockFirst? || a.LockSecond? {
      LockStepsKeepInv(cfg, l0, s, a);
    } else if a.ReadSum? {
      ReadStepKeepsInv(cfg, l0, s, a.id);
    } else if a.OpenAccount? {
      OpenKeepsInv(cfg, l0, s, a.account);
    } else {
      WriteStepKeepsInv(cfg, l0, s, a);
    }
  }

  lemma {:induction false} RunKeepsInv(cfg: Config, l0: Ledger, s: State, acts: seq<Action>)
    requires Inv(cfg, l0, s) && ValidRun(cfg, s, acts)
    ensures Inv(cfg, l0, Exec(cfg, s, acts))
    decreases acts
  {
    if acts != [] {
      StepKeepsInv(cfg, l0, s, acts[0]);
      RunKeepsInv(cfg, l0, Do(cfg, s, acts[0]), acts[1..]);
    }
  }

  /** Main result. Whatever the interleaving, and whatever tables it starts
      from, the committed tables are those of the atomic ledger run on the
      history, and each finished transaction got the reply recorded there. */
  lemma InterleavingsAreAtomic(cfg: Config, l0: Ledger, acts: seq<Action>)
    requires ValidRun(cfg, Initial(l0), acts)
    ensures var s := Exec(cfg, Initial(l0), acts);
            && AtomicRun(l0, s.history, s.db)
            && Observed(s)
  {
    RunKeepsInv(cfg, l0, Initial(l0), acts);
  }
}
