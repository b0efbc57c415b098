/** ledger-svc's functions as they are written: statement by statement on
    tables updated in place. Each is proved to do what LedgerSpec.Apply says. */
module LedgerService {
  import opened Options
  import opened Order
  import opened LedgerSpec

  class Database {
    var accounts: set<Row>
    var entries: seq<Entry>
    var balances: map<Row, int>

    constructor ()
      ensures Tables() == Ledger({Lower(GENESIS)}, [], map[])
    {
      accounts, entries, balances := {Lower(GENESIS)}, [], map[];
    }

    function Tables(): (l: Ledger)
      reads this
    {
      Ledger(accounts, entries, balances)
    }

    /** The cache row of `r` is what the log adds up to. */
    predicate Agrees(r: Row)
      reads this
    {
      Cached(balances, r) == Balance(entries, r)
    }

    /** `None` is ErrLedgerAccountNotFound. The answer comes from the cache, 0 for a
        row without one; while cache and log agree it is the log's balance. */
    method GetBalance(accountId: string) returns (balance: Option<int>)
      ensures balance.Some? <==> Lower(accountId) in accounts
      ensures balance.Some? && Lower(accountId) in balances ==> balance.value == balances[Lower(accountId)]
      ensures balance.Some? && Lower(accountId) !in balances ==> balance.value == 0
      ensures balance.Some? && Agrees(Lower(accountId)) ==> balance.value == Balance(entries, Lower(accountId))
    {
      if Lower(accountId) !in accounts { return None; }
      balance := Some(Cached(balances, Lower(accountId)));
    }

    method CreateLedgerAccount(accountId: string)
      modifies this`accounts
      ensures accounts == old(accounts) + {Lower(accountId)}
    {
      accounts := accounts + {Lower(accountId)};
    }

    method LockLedgerAccount(accountId: string) returns (ledgerAccountId: Row, found: bool)
      ensures found == (Lower(accountId) in accounts)
      ensures found ==> ledgerAccountId == Lower(accountId)
    {
      ledgerAccountId, found := Lower(accountId), Lower(accountId) in accounts;
    }

    method ApplyBalanceDelta(ledgerAccountId: Row, delta: int)
      modifies this`balances
      ensures balances == Bump(old(balances), ledgerAccountId, delta)
      ensures balances.Keys == old(balances).Keys + {ledgerAccountId}
      ensures forall r :: Cached(balances, r) == Cached(old(balances), r) + if r == ledgerAccountId then delta else 0
    {
      if ledgerAccountId in balances {
        balances := balances[ledgerAccountId := balances[ledgerAccountId] + delta];
      } else {
        balances := balances[ledgerAccountId := delta];
      }
    }

    /** `SELECT COALESCE(SUM(amount), 0) FROM entries WHERE ledger_account_id = $1`. */
    method SumEntries(ledgerAccountId: Row) returns (sum: int)
      ensures sum == Balance(entries, ledgerAccountId)
    {
      sum := 0;
      for i := 0 to |entries|
        invariant sum == Balance(entries[..i], ledgerAccountId)
      {
        assert entries[..i + 1] == entries[..i] + [entries[i]];
        Append(entries[..i], entries[i]);
        if entries[i].account == ledgerAccountId { sum := sum + entries[i].amount; }
      }
      assert entries[..|entries|] == entries;
    }

    /** The lock loop: which of the two accounts is missing, if any. */
    method LockBoth(fromAccountId: string, toAccountId: string) returns (locked: map<string, Row>, missing: Option<string>)
      ensures missing.None? ==>
                && locked.Keys == {fromAccountId, toAccountId}
                && locked[fromAccountId] == Lower(fromAccountId) && locked[toAccountId] == Lower(toAccountId)
                && Lower(fromAccountId) in accounts && Lower(toAccountId) in accounts
      ensures missing.Some? ==>
                if Swapped(fromAccountId, toAccountId) && Lower(toAccountId) !in accounts then missing.value == toAccountId
                else if Lower(fromAccountId) !in accounts then missing.value == fromAccountId
                else missing.value == toAccountId && Lower(toAccountId) !in accounts
    {
      var first, second := fromAccountId, toAccountId;
      if Less(Lower(toAccountId), Lower(fromAccountId)) { first, second := toAccountId, fromAccountId; }
      LessIrreflexive(Lower(fromAccountId));
      var order := [first, second];
      locked := map[];
      for i := 0 to 2
        invariant locked.Keys == set k | 0 <= k < i :: order[k]
        invariant forall k :: 0 <= k < i ==> Lower(order[k]) in accounts && locked[order[k]] == Lower(order[k])
      {
        assert i == 1 ==> Lower(order[0]) in accounts;
        var ledgerAccountId, found := LockLedgerAccount(order[i]);
        if !found { return locked, Some(order[i]); }
        locked := locked[order[i] := ledgerAccountId];
      }
      assert order[0] == first && order[1] == second;
      missing := None;
    }

    /** Insert the pair and bring the cache along: what both posting functions end with. */
    method InsertPair(from: Row, to: Row, amount: int, reference: string, uuid: TransactionId)
      modifies this`entries, this`balances
      ensures Tables() == AddPair(old(Tables()), from, to, amount, reference, uuid)
    {
      entries := entries + [Entry(uuid, from, -amount, reference)];
      entries := entries + [Entry(uuid, to, amount, reference)];
      assert entries == old(entries) + Pair(from, to, amount, reference, uuid);
      ApplyBalanceDelta(from, -amount);
      ApplyBalanceDelta(to, amount);
    }

    /** `uuid` is what gen_random_uuid() returns if the debit is inserted. */
    method ExecuteTransfer(fromAccountId: string, toAccountId: string, amount: int, reference: string, uuid: TransactionId)
      returns (reply: Reply)
      modifies this`entries, this`balances
      ensures (Tables(), reply) == Apply(old(Tables()), Transfer(fromAccountId, toAccountId, amount, reference), uuid)
      ensures reply.InvalidAmount? <==> amount <= 0
      ensures var from, to := Lower(fromAccountId), Lower(toAccountId);
              amount > 0 ==>
                && (reply.ToNotFound? <==> to !in accounts && (from in accounts || Less(to, from)))
                && (reply.FromNotFound? <==> from !in accounts && (to in accounts || !Less(to, from)))
                && (reply.InsufficientFunds? <==> from in accounts && to in accounts && Balance(old(entries), from) < amount)
                && (reply == Posted(uuid) <==> from in accounts && to in accounts && Balance(old(entries), from) >= amount)
      ensures entries == old(entries) +
                if reply.Posted? then [Entry(uuid, Lower(fromAccountId), -amount, reference), Entry(uuid, Lower(toAccountId), amount, reference)]
                else []
      ensures !reply.Posted? ==> balances == old(balances)
      ensures reply.Posted? ==> forall r ::
                Cached(balances, r) == Cached(old(balances), r) - (if r == Lower(fromAccountId) then amount else 0)
                                                                 + (if r == Lower(toAccountId) then amount else 0)
    {
      LessIrreflexive(Lower(fromAccountId));
      if amount <= 0 { return InvalidAmount; }
      var locked, missing := LockBoth(fromAccountId, toAccountId);
      if missing.Some? {
        LessIrreflexive(Lower(fromAccountId));
        if missing.value == fromAccountId { return FromNotFound; }
        return ToNotFound;
      }
      var fromBalance := SumEntries(locked[fromAccountId]);
      if fromBalance < amount { return InsufficientFunds; }
      InsertPair(locked[fromAccountId], locked[toAccountId], amount, reference, uuid);
      reply := Posted(uuid);
    }

    method PostUncheckedTransfer(fromAccountId: string, toAccountId: string, amount: int, reference: string,
                                 uuid: TransactionId)
      returns (reply: Reply)
      modifies this`entries, this`balances
      ensures (Tables(), reply) == Apply(old(Tables()), Post(fromAccountId, toAccountId, amount, reference), uuid)
      ensures reply.InvalidAmount? <==> amount <= 0
      ensures amount > 0 && reference != "" ==> forall k :: IsFirst(old(entries), reference, k) ==>
                reply == Posted(old(entries)[k].txn) && entries == old(entries) && balances == old(balances)
      ensures amount > 0 && (reference == "" || forall e :: e in old(entries) ==> e.reference != reference) ==>
                if Lower(fromAccountId) in accounts && Lower(toAccountId) in accounts
                then reply == Posted(uuid)
                     && entries == old(entries) + [Entry(uuid, Lower(fromAccountId), -amount, reference),
                                                   Entry(uuid, Lower(toAccountId), amount, reference)]
                else reply == AccountNotFound && entries == old(entries) && balances == old(balances)
    {
      if amount <= 0 { return InvalidAmount; }
      if reference != "" {
        var existing := GetTransactionByReference(reference);
        FindIsFirst(entries, reference);
        if existing.Some? { return Posted(existing.value); }
      }
      var locked, missing := LockBoth(fromAccountId, toAccountId);
      if missing.Some? { return AccountNotFound; }
      InsertPair(locked[fromAccountId], locked[toAccountId], amount, reference, uuid);
      reply := Posted(uuid);
    }

    method Deposit(toAccountId: string, amount: int, reference: string, uuid: TransactionId) returns (reply: Reply)
      modifies this`entries, this`balances
      ensures (Tables(), reply) == Apply(old(Tables()), DepositCall(toAccountId, amount, reference), uuid)
      ensures entries == old(entries) ||
              (reply == Posted(uuid) && entries == old(entries) + [Entry(uuid, Lower(GENESIS), -amount, reference),
                                                                   Entry(uuid, Lower(toAccountId), amount, reference)])
    {
      reply := PostUncheckedTransfer(GENESIS, toAccountId, amount, reference, uuid);
    }

    method ReverseDeposit(fromAccountId: string, amount: int, reference: string, uuid: TransactionId) returns (reply: Reply)
      modifies this`entries, this`balances
      ensures (Tables(), reply) == Apply(old(Tables()), ReverseCall(fromAccountId, amount, reference), uuid)
      ensures entries == old(entries) ||
              (reply == Posted(uuid) && entries == old(entries) + [Entry(uuid, Lower(fromAccountId), -amount, reference),
                                                                   Entry(uuid, Lower(GENESIS), amount, reference)])
    {
      reply := PostUncheckedTransfer(fromAccountId, GENESIS, amount, reference, uuid);
    }

    /** `SELECT transaction_id FROM entries WHERE reference = $1 LIMIT 1`: the first
        entry that carries the reference decides; without one there is no answer. */
    method GetTransactionByReference(reference: string) returns (found: Option<TransactionId>)
      ensures found.None? <==> forall k :: 0 <= k < |entries| ==> entries[k].reference != reference
      ensures found.Some? ==> exists k :: IsFirst(entries, reference, k) && entries[k].txn == found.value
    {
      for k := 0 to |entries|
        invariant forall j :: 0 <= j < k ==> entries[j].reference != reference
      {
        if entries[k].reference == reference {
          assert IsFirst(entries, reference, k);
          return Some(entries[k].txn);
        }
      }
      return None;
    }

    method RebuildBalance(accountId: string) returns (reply: Reply)
      modifies this`balances
      ensures forall uuid :: (Tables(), reply) == Apply(old(Tables()), Rebuild(accountId), uuid)
      ensures if Lower(accountId) in accounts
              then reply == Rebuilt(Balance(entries, Lower(accountId)))
                   && balances == old(balances)[Lower(accountId) := Balance(entries, Lower(accountId))]
              else reply == AccountNotFound && balances == old(balances)
    {
      var ledgerAccountId, found := LockLedgerAccount(accountId);
      if !found { return AccountNotFound; }
      var balance := SumEntries(ledgerAccountId);
      balances := balances[ledgerAccountId := balance];
      reply := Rebuilt(balance);
    }
  }

  predicate IsFirst(es: seq<Entry>, reference: string, k: int) {
    0 <= k < |es| && es[k].reference == reference && forall j :: 0 <= j < k ==> es[j].reference != reference
  }

  /** Looking the first entry up and filtering the log are the same. */
  lemma {:induction false} FindIsFirst(es: seq<Entry>, reference: string)
    ensures Find(es, reference).None? <==> forall k :: 0 <= k < |es| ==> es[k].reference != reference
    ensures forall k :: IsFirst(es, reference, k) ==> Find(es, reference) == Some(es[k].txn)
  {
    if es != [] {
      var rest, last := es[..|es| - 1], es[|es| - 1];
      FindIsFirst(rest, reference);
      forall k | IsFirst(es, reference, k) ensures Find(es, reference) == Some(es[k].txn) {
        if k < |rest| {
          assert IsFirst(rest, reference, k);
        } else {
          assert Find(rest, reference).None?;
        }
      }
    }
  }
}
