/** What the deposit path promises about money over every run. */
module DepositSafety {
  import opened Order
  import L = LedgerSpec
  import opened DepositSaga

  // ----- money

  /** What a deposit's own entries, credit and reversal, add up to on row `r`. */
  function Net(n: Names, s: State, did: string, r: L.Row): int {
    L.Balance(L.Tagged(s.ledger.entries, did), r) + L.Balance(L.Tagged(s.ledger.entries, n.reversal(did)), r)
  }

  lemma PairBalance(from: L.Row, to: L.Row, amount: int, reference: string, txn: L.TransactionId, r: L.Row)
    ensures L.Balance(L.Pair(from, to, amount, reference, txn), r) ==
            (if r == to then amount else 0) - (if r == from then amount else 0)
  {
    L.AppendPair([], from, to, amount, reference, txn);
    assert [] + L.Pair(from, to, amount, reference, txn) == L.Pair(from, to, amount, reference, txn);
  }

  predicate IsCredited(s: State, did: string) {
    L.Tagged(s.ledger.entries, did) != []
  }

  predicate IsReversed(n: Names, s: State, did: string) {
    L.Tagged(s.ledger.entries, n.reversal(did)) != []
  }

  /** At most one credit pair and one reversal pair, both for the row's own account
      and amount, and no reversal without a credit. */
  predicate EntriesOk(n: Names, s: State, did: string)
    requires did in s.deposits
  {
    && (IsCredited(s, did) ==> IsCredit(L.Tagged(s.ledger.entries, did), did, s.deposits[did]))
    && (IsReversed(n, s, did) ==>
          && IsReversal(L.Tagged(s.ledger.entries, n.reversal(did)), n.reversal(did), s.deposits[did])
          && IsCredited(s, did))
  }

  /** The account holds the whole amount or nothing, and no third row is touched. */
  ghost predicate NetOk(n: Names, s: State, did: string)
    requires did in s.deposits
  {
    var row, account, genesis := s.deposits[did], Lower(s.deposits[did].account), Lower(L.GENESIS);
    && (account != genesis ==>
          Net(n, s, did, account) == if IsCredited(s, did) && !IsReversed(n, s, did) then row.amount else 0)
    && (forall r :: r != account && r != genesis ==> Net(n, s, did, r) == 0)
  }

  /** Recorded statuses and published events agree with the ledger. */
  predicate RecordsOk(n: Names, s: State, did: string)
    requires did in s.deposits
  {
    var row := s.deposits[did];
    && (row.status.Credited? ==> IsCredited(s, did) && row.txn == L.Find(s.ledger.entries, did))
    && (row.status.Refunded? ==> IsReversed(n, s, did))
    && (forall k :: 0 <= k < |EventsOf(s, did)| ==>
          IsCredited(s, did) &&
          EventsOf(s, did)[k] == DepositCredited(did, row.account, row.amount, L.Tagged(s.ledger.entries, did)[0].txn))
  }

  ghost predicate MoneyOk(n: Names, s: State, did: string)
    requires did in s.deposits
  {
    EntriesOk(n, s, did) && NetOk(n, s, did) && RecordsOk(n, s, did)
  }

  lemma NetOfView(n: Names, s: State, did: string, r: L.Row)
    requires did in s.deposits && ViewOk(n, did, ViewOf(n, s, did))
    ensures var row, account, genesis := s.deposits[did], Lower(s.deposits[did].account), Lower(L.GENESIS);
            && (account != genesis && r == account ==>
                  Net(n, s, did, r) == if IsCredited(s, did) && !IsReversed(n, s, did) then row.amount else 0)
            && (r != account && r != genesis ==> Net(n, s, did, r) == 0)
  {
    var v, row := ViewOf(n, s, did), s.deposits[did];
    if v.credit != [] { PairBalance(Lower(L.GENESIS), Lower(row.account), row.amount, did, v.credit[0].txn, r); }
    if v.reversal != [] {
      PairBalance(Lower(row.account), Lower(L.GENESIS), row.amount, n.reversal(did), v.reversal[0].txn, r);
    }
  }

  lemma ViewIsNetOk(n: Names, s: State, did: string)
    requires did in s.deposits && ViewOk(n, did, ViewOf(n, s, did))
    ensures NetOk(n, s, did)
  {
    hide Net, ViewOk, ViewOf;
    NetOfView(n, s, did, Lower(s.deposits[did].account));
    forall r | r != Lower(s.deposits[did].account) && r != Lower(L.GENESIS) ensures Net(n, s, did, r) == 0 {
      NetOfView(n, s, did, r);
    }
  }

  lemma ViewIsRecorded(n: Names, s: State, did: string)
    requires did in s.deposits && ViewOk(n, did, ViewOf(n, s, did))
    ensures EntriesOk(n, s, did) && RecordsOk(n, s, did)
  {
    var v, row, tagged := ViewOf(n, s, did), s.deposits[did], L.Tagged(s.ledger.entries, did);
    assert v.events == EventsOf(s, did) && v.credit == tagged && v.row == row;
    hide L.Tagged;
    forall k | 0 <= k < |EventsOf(s, did)|
      ensures IsCredited(s, did) && EventsOf(s, did)[k] == DepositCredited(did, row.account, row.amount, tagged[0].txn)
    {
      assert v.events[k] == EventsOf(s, did)[k];
    }
  }

  lemma InvIsMoneyOk(n: Names, s: State, did: string)
    requires Inv(n, s) && did in s.deposits
    ensures MoneyOk(n, s, did)
  {
    hide Inv, ViewOk, NetOk, EntriesOk, RecordsOk;
    About(n, s, did);
    ViewIsNetOk(n, s, did);
    ViewIsRecorded(n, s, did);
  }

  /** Every order, loss and duplication of Stripe events, every interleaving of
      workers and refund deliveries, every crash. */
  lemma DepositsMoveOnce(n: Names, ledger: L.Ledger, acts: seq<Action>)
    requires Distinct(n) && ValidRun(n, Initial(ledger), acts)
    ensures var s := Exec(n, Initial(ledger), acts);
            forall did :: did in s.deposits ==> MoneyOk(n, s, did)
  {
    var s := Exec(n, Initial(ledger), acts);
    RunKeepsInv(n, Initial(ledger), acts);
    hide Inv, MoneyOk;
    forall did | did in s.deposits ensures MoneyOk(n, s, did) { InvIsMoneyOk(n, s, did); }
  }
}
