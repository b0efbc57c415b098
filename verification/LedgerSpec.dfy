module Options {
  datatype Option<+T> = None | Some(value: T)
}

/** The ledger as its callers see it: every call is one indivisible step.
    Tables: `ledger_accounts` (accounts), `entries` (the append-only log) and
    `account_balances` (cache). */
module LedgerSpec {
  import opened Options
  import opened Order

  /** The canonical account id, i.e. the key of a `ledger_accounts` row. */
  type Row = string
  /** A value of `gen_random_uuid()`. */
  type TransactionId = nat

  const GENESIS := "00000000-0000-0000-0000-000000000001"

  /** `reference` is "" for SQL NULL. */
  datatype Entry = Entry(txn: TransactionId, account: Row, amount: int, reference: string)

  datatype Ledger = Ledger(accounts: set<Row>, entries: seq<Entry>, cache: map<Row, int>)

  /** `Transfer` is executeTransfer, `Post` is postUncheckedTransfer (the body
      of deposit and reverseDeposit), `Rebuild` is rebuildBalance. */
  datatype Call =
    | Transfer(from: string, to: string, amount: int, reference: string)
    | Post(from: string, to: string, amount: int, reference: string)
    | Rebuild(account: string)

  function DepositCall(to: string, amount: int, reference: string): Call {
    Post(GENESIS, to, amount, reference)
  }

  function ReverseCall(from: string, amount: int, reference: string): Call {
    Post(from, GENESIS, amount, reference)
  }

  /** `Failed` is the error return: the transaction was rolled back. */
  datatype Reply =
    | Posted(txn: TransactionId)
    | InvalidAmount
    | FromNotFound
    | ToNotFound
    | AccountNotFound
    | InsufficientFunds
    | Rebuilt(balance: int)
    | Failed

  // ----- reading the log

  function Total(es: seq<Entry>): int {
    if es == [] then 0 else Total(es[..|es| - 1]) + es[|es| - 1].amount
  }

  /** `SELECT COALESCE(SUM(amount), 0) FROM entries WHERE ledger_account_id = r`. */
  function Balance(es: seq<Entry>, r: Row): int {
    if es == [] then 0
    else
      var last := es[|es| - 1];
      Balance(es[..|es| - 1], r) + if last.account == r then last.amount else 0
  }

  /** The entries carrying `reference`, in log order. */
  function Tagged(es: seq<Entry>, reference: string): (r: seq<Entry>)
    ensures forall e :: e in r <==> e in es && e.reference == reference
  {
    if es == [] then []
    else
      var last := es[|es| - 1];
      assert es == es[..|es| - 1] + [last];
      Tagged(es[..|es| - 1], reference) + if last.reference == reference then [last] else []
  }

  /** `SELECT transaction_id FROM entries WHERE reference = $1 LIMIT 1`. */
  function Find(es: seq<Entry>, reference: string): (r: Option<TransactionId>)
    ensures r.None? <==> forall e :: e in es ==> e.reference != reference
    ensures r.Some? ==> exists e :: e in es && e.reference == reference && e.txn == r.value
  {
    var tagged := Tagged(es, reference);
    if tagged == [] then None else
      assert tagged[0] in tagged;
      Some(tagged[0].txn)
  }

  predicate UsesTxn(es: seq<Entry>, txn: TransactionId) {
    exists e :: e in es && e.txn == txn
  }

  /** An id no entry uses. */
  function Unused(es: seq<Entry>): (r: TransactionId)
    ensures !UsesTxn(es, r)
    ensures forall e :: e in es ==> e.txn < r
  {
    if es == [] then 0
    else
      var last, rest := es[|es| - 1], es[..|es| - 1];
      assert es == rest + [last];
      if last.txn < Unused(rest) then Unused(rest) else last.txn + 1
  }

  lemma Append(es: seq<Entry>, e: Entry)
    ensures Total(es + [e]) == Total(es) + e.amount
    ensures forall r :: Balance(es + [e], r) == Balance(es, r) + if e.account == r then e.amount else 0
    ensures forall ref :: Tagged(es + [e], ref) == Tagged(es, ref) + if e.reference == ref then [e] else []
  {
    assert (es + [e])[..|es|] == es;
  }

  // ----- writing

  function Cached(cache: map<Row, int>, r: Row): int {
    if r in cache then cache[r] else 0
  }

  /** applyBalanceDelta. */
  function Bump(cache: map<Row, int>, r: Row, delta: int): map<Row, int> {
    cache[r := Cached(cache, r) + delta]
  }

  /** The debit/credit pair both posting functions insert. */
  function Pair(from: Row, to: Row, amount: int, reference: string, txn: TransactionId): seq<Entry> {
    [Entry(txn, from, -amount, reference), Entry(txn, to, amount, reference)]
  }

  function AddPair(l: Ledger, from: Row, to: Row, amount: int, reference: string, txn: TransactionId): Ledger {
    l.(entries := l.entries + Pair(from, to, amount, reference, txn),
       cache := Bump(Bump(l.cache, from, -amount), to, amount))
  }

  lemma AppendPair(es: seq<Entry>, from: Row, to: Row, amount: int, reference: string, txn: TransactionId)
    ensures var after := es + Pair(from, to, amount, reference, txn);
            && Total(after) == Total(es)
            && (forall r :: Balance(after, r) ==
                            Balance(es, r) - (if from == r then amount else 0) + (if to == r then amount else 0))
            && (forall ref :: Tagged(after, ref) ==
                              Tagged(es, ref) + if ref == reference then Pair(from, to, amount, reference, txn) else [])
  {
    var debit, credit := Entry(txn, from, -amount, reference), Entry(txn, to, amount, reference);
    Append(es, debit);
    Append(es + [debit], credit);
    assert es + Pair(from, to, amount, reference, txn) == es + [debit] + [credit];
    forall ref
      ensures Tagged(es + [debit] + [credit], ref) ==
              Tagged(es, ref) + if ref == reference then Pair(from, to, amount, reference, txn) else []
    {
      if ref == reference {
        assert Tagged(es, ref) + [debit] + [credit] == Tagged(es, ref) + [debit, credit];
      }
    }
  }

  /** The row that must be locked first: ascending by lower-cased id. */
  predicate Swapped(from: string, to: string) {
    Less(Lower(to), Lower(from))
  }

  /** One ledger call run alone. `uuid` is what gen_random_uuid() would return. */
  function Apply(l: Ledger, c: Call, uuid: TransactionId): (Ledger, Reply) {
    match c
    case Transfer(from, to, amount, reference) =>
      if amount <= 0 then (l, InvalidAmount)
      else if Swapped(from, to) && Lower(to) !in l.accounts then (l, ToNotFound)
      else if Lower(from) !in l.accounts then (l, FromNotFound)
      else if Lower(to) !in l.accounts then (l, ToNotFound)
      else if Balance(l.entries, Lower(from)) < amount then (l, InsufficientFunds)
      else (AddPair(l, Lower(from), Lower(to), amount, reference, uuid), Posted(uuid))
    case Post(from, to, amount, reference) =>
      if amount <= 0 then (l, InvalidAmount)
      else if reference != "" && Find(l.entries, reference).Some? then (l, Posted(Find(l.entries, reference).value))
      else if Lower(from) !in l.accounts || Lower(to) !in l.accounts then (l, AccountNotFound)
      else (AddPair(l, Lower(from), Lower(to), amount, reference, uuid), Posted(uuid))
    case Rebuild(account) =>
      var r := Lower(account);
      if r !in l.accounts then (l, AccountNotFound)
      else (l.(cache := l.cache[r := Balance(l.entries, r)]), Rebuilt(Balance(l.entries, r)))
  }

  /** The entries carrying `ref` change only if a call with that reference posts. */
  lemma ApplyTags(l: Ledger, c: Call, uuid: TransactionId, ref: string)
    ensures var (l', reply) := Apply(l, c, uuid);
            Tagged(l'.entries, ref) ==
            Tagged(l.entries, ref) +
            if l'.entries != l.entries && c.reference == ref
            then Pair(Lower(c.from), Lower(c.to), c.amount, ref, uuid) else []
  {
    hide Tagged, Lower, Balance;
    var (l', reply) := Apply(l, c, uuid);
    assert Tagged(l.entries, ref) + [] == Tagged(l.entries, ref);
    if l'.entries != l.entries {
      assert !c.Rebuild? && l' == AddPair(l, Lower(c.from), Lower(c.to), c.amount, c.reference, uuid);
      AppendPair(l.entries, Lower(c.from), Lower(c.to), c.amount, c.reference, uuid);
    }
  }

  // ----- atomic runs

  /** What an observer of the atomic ledger sees, in order. `id` names the
      caller's transaction. */
  datatype Event =
    | Did(id: nat, call: Call, uuid: TransactionId, reply: Reply)
    | Opened(account: Row)

  ghost predicate AtomicStep(l: Ledger, ev: Event, l': Ledger) {
    match ev
    case Did(_, call, uuid, reply) =>
      if reply.Failed? then l' == l
      else !UsesTxn(l.entries, uuid) && (l', reply) == Apply(l, call, uuid)
    case Opened(account) => l' == l.(accounts := l.accounts + {account})
  }

  function Earlier(evs: seq<Event>): seq<Event>
    requires evs != []
  {
    evs[..|evs| - 1]
  }

  function Latest(evs: seq<Event>): Event
    requires evs != []
  {
    evs[|evs| - 1]
  }

  /** `l` is what the calls of `evs`, run one at a time from `l0`, leave behind,
      and every event carries the reply its call got. */
  ghost predicate AtomicRun(l0: Ledger, evs: seq<Event>, l: Ledger) {
    if evs == [] then l == l0
    else exists mid :: AtomicRun(l0, Earlier(evs), mid) && AtomicStep(mid, Latest(evs), l)
  }

  lemma ExtendAtomicRun(l0: Ledger, evs: seq<Event>, mid: Ledger, ev: Event, l: Ledger)
    requires AtomicRun(l0, evs, mid) && AtomicStep(mid, ev, l)
    ensures AtomicRun(l0, evs + [ev], l)
  {
    assert Earlier(evs + [ev]) == evs;
  }
}
