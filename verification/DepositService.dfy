/** transfers-svc's own code on the deposit path, run without interference: the
    webhook handlers, the guarded writers and the reconciliation pass, each shown
    to be a run of the DepositSaga machine. */
module DepositService {
  import opened Options
  import opened Order
  import L = LedgerSpec
  import opened DepositSaga
  import DepositFutures

  ghost predicate Ran(n: Names, s: State, acts: seq<Action>, s': State) {
    ValidRun(n, s, acts) && Exec(n, s, acts) == s'
  }

  lemma RunNone(n: Names, s: State)
    ensures Ran(n, s, [], s)
  {
  }

  lemma RunMore(n: Names, s: State, acts: seq<Action>, mid: State, a: Action)
    requires Ran(n, s, acts, mid) && Enabled(n, mid, a)
    ensures Ran(n, s, acts + [a], Do(n, mid, a))
  {
    hide Enabled, Do;
    assert [a][1..] == [];
    assert ValidRun(n, Do(n, mid, a), []) && Exec(n, Do(n, mid, a), []) == Do(n, mid, a);
    assert ValidRun(n, mid, [a]) && Exec(n, mid, [a]) == Do(n, mid, a);
    DepositFutures.Chain(n, s, acts, [a]);
  }

  /** The answer to a Stripe status poll. */
  datatype Poll = PaymentSucceededNow | PaymentCanceled | StillOpen | PollError

  datatype Creation = Created | InvalidAmount | AccountNotActive | StripeError

  /** How the ledger treats a call. */
  datatype LedgerFate = Serves(uuid: L.TransactionId) | Unreachable

  // ----- what the ledger does to a deposit

  /** The reversal of a credited deposit, and whether it was posted. */
  function Reversal(n: Names, ledger: L.Ledger, did: string, d: Deposit, fate: LedgerFate): (L.Ledger, bool) {
    if fate.Unreachable? then (ledger, false)
    else
      var (after, reply) := L.Apply(ledger, L.ReverseCall(d.account, d.amount, n.reversal(did)), fate.uuid);
      (after, reply.Posted?)
  }

  function CreditCall(ledger: L.Ledger, did: string, d: Deposit, uuid: L.TransactionId): (L.Ledger, L.Reply) {
    L.Apply(ledger, L.DepositCall(d.account, d.amount, did), uuid)
  }

  /** The credit is in the log already, or both rows it needs exist. */
  predicate Credits(ledger: L.Ledger, did: string, d: Deposit, fate: LedgerFate) {
    && fate.Serves? && d.amount > 0
    && ((did != "" && L.Tagged(ledger.entries, did) != []) ||
        (Lower(L.GENESIS) in ledger.accounts && Lower(d.account) in ledger.accounts))
  }

  /** The transaction a credit is known by: the one in the log, or the new one. */
  function CreditTxn(ledger: L.Ledger, did: string, fate: LedgerFate): L.TransactionId
    requires fate.Serves?
  {
    var tagged := L.Tagged(ledger.entries, did);
    if did != "" && tagged != [] then tagged[0].txn else fate.uuid
  }

  function CreditedRow(ledger: L.Ledger, did: string, d: Deposit, fate: LedgerFate): Deposit
    requires fate.Serves?
  {
    d.(status := Credited, txn := Some(CreditTxn(ledger, did, fate)))
  }

  function CreditEvent(ledger: L.Ledger, did: string, d: Deposit, fate: LedgerFate): Event
    requires fate.Serves?
  {
    DepositCredited(did, d.account, d.amount, CreditTxn(ledger, did, fate))
  }

  lemma CreditReply(ledger: L.Ledger, did: string, d: Deposit, uuid: L.TransactionId)
    ensures var reply := CreditCall(ledger, did, d, uuid).1;
            && (reply.Posted? <==> Credits(ledger, did, d, Serves(uuid)))
            && (reply.Posted? ==> reply.txn == CreditTxn(ledger, did, Serves(uuid)))
  {
  }

  /** One credit touches no other reference and no account. */
  lemma CreditCallTags(ledger: L.Ledger, did: string, d: Deposit, uuid: L.TransactionId)
    ensures var after := CreditCall(ledger, did, d, uuid).0;
            after.accounts == ledger.accounts &&
            forall u :: u != did ==> L.Tagged(after.entries, u) == L.Tagged(ledger.entries, u)
  {
    PostAdds(ledger, L.GENESIS, d.account, d.amount, did, uuid);
  }

  lemma SameCredit(ledger: L.Ledger, other: L.Ledger, did: string, d: Deposit, fate: LedgerFate)
    requires ledger.accounts == other.accounts && L.Tagged(ledger.entries, did) == L.Tagged(other.entries, did)
    ensures Credits(ledger, did, d, fate) <==> Credits(other, did, d, fate)
    ensures fate.Serves? ==> CreditTxn(ledger, did, fate) == CreditTxn(other, did, fate)
  {
  }

  /** Row and events of one deposit, before or after its attempt. */
  predicate Attempted(s: State, s': State, did: string, fate: LedgerFate, done: bool) {
    && did in s.deposits && did in s'.deposits
    && var d := s.deposits[did];
       if done && Credits(s.ledger, did, d, fate)
       then s'.deposits[did] == CreditedRow(s.ledger, did, d, fate)
            && EventsOf(s', did) == EventsOf(s, did) + [CreditEvent(s.ledger, did, d, fate)]
       else s'.deposits[did] == d && EventsOf(s', did) == EventsOf(s, did)
  }

  /** What one attempt does to ledger, row and outbox. */
  predicate AttemptOf(mid: State, after: State, did: string, fate: LedgerFate) {
    && did in mid.deposits
    && var d := mid.deposits[did];
       && after.ledger == (if fate.Serves? then CreditCall(mid.ledger, did, d, fate.uuid).0 else mid.ledger)
       && if Credits(mid.ledger, did, d, fate)
          then after.deposits == mid.deposits[did := CreditedRow(mid.ledger, did, d, fate)]
               && after.outbox == mid.outbox[did := EventsOf(mid, did) + [CreditEvent(mid.ledger, did, d, fate)]]
          else after.deposits == mid.deposits && after.outbox == mid.outbox
  }

  lemma OneAttempt(s: State, mid: State, after: State, did: string, fate: LedgerFate)
    requires Attempted(s, mid, did, fate, false) && AttemptOf(mid, after, did, fate)
    requires s.ledger.accounts == mid.ledger.accounts && L.Tagged(s.ledger.entries, did) == L.Tagged(mid.ledger.entries, did)
    ensures Attempted(s, after, did, fate, true)
  {
    SameCredit(s.ledger, mid.ledger, did, mid.deposits[did], fate);
  }

  lemma OthersAttempted(s: State, mid: State, after: State, did: string, e: string, fate: LedgerFate, done: bool)
    requires e != did && Attempted(s, mid, e, fate, done)
    requires did in mid.deposits && did in after.deposits && after.deposits == mid.deposits[did := after.deposits[did]]
    requires after.outbox == mid.outbox || (did in after.outbox && after.outbox == mid.outbox[did := after.outbox[did]])
    ensures Attempted(s, after, e, fate, done)
  {
  }

  /** A pass over `found`, `i` attempts into it. */
  ghost predicate PassOk(s: State, mid: State, found: seq<string>, i: nat, fate: string -> LedgerFate)
    requires i <= |found|
  {
    && mid.deposits.Keys == s.deposits.Keys && mid.ledger.accounts == s.ledger.accounts
    && (forall did :: did !in found[..i] ==> L.Tagged(mid.ledger.entries, did) == L.Tagged(s.ledger.entries, did))
    && (forall did :: did in s.deposits ==> Attempted(s, mid, did, fate(did), did in found[..i]))
  }

  /** An attempt disturbs no other reference. */
  lemma AttemptTags(mid: State, after: State, did: string, fate: LedgerFate)
    requires AttemptOf(mid, after, did, fate)
    ensures after.ledger.accounts == mid.ledger.accounts
    ensures forall u :: u != did ==> L.Tagged(after.ledger.entries, u) == L.Tagged(mid.ledger.entries, u)
    ensures after.deposits.Keys == mid.deposits.Keys
  {
    if fate.Serves? { CreditCallTags(mid.ledger, did, mid.deposits[did], fate.uuid); }
    hide CreditCall, L.Tagged;
  }

  lemma AttemptElsewhere(s: State, mid: State, after: State, did: string, e: string, fateDid: LedgerFate, fate: LedgerFate, done: bool)
    requires AttemptOf(mid, after, did, fateDid) && e != did && Attempted(s, mid, e, fate, done)
    ensures Attempted(s, after, e, fate, done)
  {
    hide CreditCall, Credits;
    OthersAttempted(s, mid, after, did, e, fate, done);
  }

  lemma PassStep(s: State, mid: State, after: State, found: seq<string>, i: nat, fate: string -> LedgerFate)
    requires i < |found| && PassOk(s, mid, found, i, fate) && found[i] in s.deposits && found[i] !in found[..i]
    requires AttemptOf(mid, after, found[i], fate(found[i]))
    ensures PassOk(s, after, found, i + 1, fate)
  {
    hide Attempted, AttemptOf, L.Tagged;
    var did := found[i];
    assert found[..i + 1] == found[..i] + [did];
    AttemptTags(mid, after, did, fate(did));
    assert Attempted(s, mid, did, fate(did), did in found[..i]);
    OneAttempt(s, mid, after, did, fate(did));
    forall e | e in s.deposits ensures Attempted(s, after, e, fate(e), e in found[..i + 1]) {
      assert Attempted(s, mid, e, fate(e), e in found[..i]);
      if e != did { AttemptElsewhere(s, mid, after, did, e, fate(did), fate(e), e in found[..i]); }
    }
  }

  lemma NotYet(s: State, mid: State, found: seq<string>, i: nat, fate: string -> LedgerFate, did: string)
    requires i <= |found| && PassOk(s, mid, found, i, fate) && did in s.deposits && did !in found[..i]
    ensures did in mid.deposits && mid.deposits[did] == s.deposits[did]
  {
    assert Attempted(s, mid, did, fate(did), did in found[..i]);
  }

  /** Each row and its events after the pass, by the ledger as it was before. */
  ghost predicate PassDone(s: State, after: State, fate: string -> LedgerFate) {
    && after.deposits.Keys == s.deposits.Keys
    && forall did :: did in s.deposits ==> Attempted(s, after, did, fate(did), s.deposits[did].status.Succeeded?)
  }

  lemma PassEnds(s: State, after: State, found: seq<string>, fate: string -> LedgerFate)
    requires PassOk(s, after, found, |found|, fate)
    requires forall did :: did in found <==> did in s.deposits && s.deposits[did].status.Succeeded?
    ensures PassDone(s, after, fate)
  {
    hide Attempted;
    assert found[..|found|] == found;
    forall did | did in s.deposits ensures Attempted(s, after, did, fate(did), s.deposits[did].status.Succeeded?) {
      assert Attempted(s, after, did, fate(did), did in found[..|found|]);
    }
  }

  lemma PassStarts(s: State, found: seq<string>, fate: string -> LedgerFate)
    ensures PassOk(s, s, found, 0, fate)
  {
  }

  class Service {
    const n: Names
    var deposits: map<string, Deposit>
    var processed: set<string>
    var outbox: map<string, seq<Event>>
    var ledger: L.Ledger                 // ledger-svc's tables
    ghost var credits: map<nat, Credit>
    ghost var refunds: map<nat, Refund>

    constructor (n: Names, ledger: L.Ledger)
      ensures this.n == n && Snapshot() == Initial(ledger)
    {
      this.n, deposits, processed, outbox, this.ledger := n, map[], {}, map[], ledger;
      credits, refunds := map[], map[];
    }

    ghost function Snapshot(): State
      reads this
    {
      State(deposits, processed, outbox, credits, refunds, ledger)
    }

    // ----- creation

    /** createDeposit: the pending row, then Stripe's intent id if Stripe answered.
        `did` is what the id column generates. */
    method CreateDeposit(did: string, account: string, amount: int, active: bool, intent: Option<string>)
      returns (outcome: Creation, ghost acts: seq<Action>)
      requires FreshId(n, Snapshot(), did) && (intent.Some? ==> !IntentTaken(Snapshot(), intent.value))
      modifies this`deposits
      ensures Ran(n, old(Snapshot()), acts, Snapshot())
      ensures outcome.InvalidAmount? <==> amount < 50 || amount > 1_000_000
      ensures outcome.AccountNotActive? <==> 50 <= amount <= 1_000_000 && !active
      ensures outcome.Created? <==> 50 <= amount <= 1_000_000 && active && intent.Some?
      ensures deposits == if outcome.Created? || outcome.StripeError?
                          then old(deposits)[did := Deposit(account, amount, Pending, intent, None, None)] else old(deposits)
    {
      ghost var s := Snapshot();
      RunNone(n, s);
      acts := [];
      if amount < MIN_AMOUNT || amount > MAX_AMOUNT { return InvalidAmount, acts; }
      if !active { return AccountNotActive, acts; }
      RunMore(n, s, acts, s, Row(Insert(did, account, amount)));
      acts := acts + [Row(Insert(did, account, amount))];
      deposits := deposits[did := Deposit(account, amount, Pending, None, None, None)];
      if intent.None? { return StripeError, acts; }
      RunMore(n, s, acts, Snapshot(), Row(Attach(did, intent.value)));
      acts := acts + [Row(Attach(did, intent.value))];
      deposits := deposits[did := deposits[did].(intent := intent)];
      return Created, acts;
    }

    // ----- writers

    method SetDepositStatus(did: string, status: Status, reason: Option<string>)
      requires did in deposits
      modifies this`deposits
      ensures Snapshot() == SetStatus(old(Snapshot()), did, status, reason)
    {
      var d := deposits[did].(status := status);
      if reason.Some? { d := d.(reason := reason); }
      deposits := deposits[did := d];
    }

    /** markDepositSucceeded and markDepositFailed: by intent, whatever the status. */
    method SetStatusByIntent(pi: string, status: Status, reason: Option<string>)
      modifies this`deposits
      ensures Snapshot() == SetByIntent(old(Snapshot()), pi, status, reason)
    {
      var left := deposits.Keys;
      ghost var was := deposits;
      hide WithStatus;
      while left != {}
        invariant left <= was.Keys == deposits.Keys
        invariant forall did :: did in deposits ==>
                    deposits[did] == if did !in left && HasIntent(was[did], pi) then WithStatus(was[did], status, reason) else was[did]
      {
        var did :| did in left;
        left := left - {did};
        if HasIntent(deposits[did], pi) {
          deposits := deposits[did := WithStatus(deposits[did], status, reason)];
        }
      }
    }

    /** recordProcessedEvent: false for an event id already there. */
    method RecordProcessedEvent(ev: string) returns (isNew: bool)
      modifies this`processed
      ensures isNew <==> ev !in old(processed)
      ensures processed == old(processed) + {ev}
    {
      isNew := ev !in processed;
      processed := processed + {ev};
    }

    /** processStripeEvent for everything but refunds: a redelivery does nothing. */
    method ProcessStripeEvent(ev: string, kind: StripeKind, pi: string)
      modifies this`deposits, this`processed
      ensures Snapshot() == DoStripe(old(Snapshot()), ev, kind, pi)
      ensures processed == old(processed) + {ev} && deposits.Keys == old(deposits).Keys
      ensures forall e :: e in deposits ==>
                var d := old(deposits)[e];
                deposits[e] == if ev in old(processed) || d.intent != Some(pi) then d
                               else match kind
                                    case PaymentSucceeded => d.(status := Succeeded)
                                    case PaymentFailed(reason) => d.(status := Failed, reason := Some(reason))
                                    case Unrelated => d
    {
      var isNew := RecordProcessedEvent(ev);
      if isNew {
        match kind
        case PaymentSucceeded => SetStatusByIntent(pi, Succeeded, None);
        case PaymentFailed(reason) => SetStatusByIntent(pi, Failed, Some(reason));
        case Unrelated =>
      }
    }

    /** markDepositCreditedIfSucceeded. */
    method MarkCreditedIfSucceeded(did: string, txn: L.TransactionId) returns (credited: bool)
      requires did in deposits
      modifies this`deposits, this`outbox
      ensures Snapshot() == CreditedIfSucceeded(old(Snapshot()), did, txn)
      ensures credited <==> old(deposits)[did].status.Succeeded?
      ensures var d := old(deposits)[did];
              && deposits == (if credited then old(deposits)[did := d.(status := Credited, txn := Some(txn))] else old(deposits))
              && outbox == (if credited
                            then old(outbox)[did := EventsOf(old(Snapshot()), did) + [DepositCredited(did, d.account, d.amount, txn)]]
                            else old(outbox))
    {
      var d := deposits[did];
      credited := d.status.Succeeded?;
      if credited {
        deposits := deposits[did := d.(status := Credited, txn := Some(txn))];
        var events := if did in outbox then outbox[did] else [];
        outbox := outbox[did := events + [DepositCredited(did, d.account, d.amount, txn)]];
      }
    }

    // ----- the refund handler

    /** getDepositByStripePaymentIntentID. */
    method FindByIntent(pi: string) returns (hit: Option<string>)
      ensures hit.Some? ==> hit.value in deposits && HasIntent(deposits[hit.value], pi)
      ensures hit.None? ==> !IntentTaken(Snapshot(), pi)
    {
      var left := deposits.Keys;
      while left != {}
        invariant left <= deposits.Keys
        invariant forall did :: did in deposits && did !in left ==> !HasIntent(deposits[did], pi)
      {
        var did :| did in left;
        left := left - {did};
        if HasIntent(deposits[did], pi) { return Some(did); }
      }
      return None;
    }

    /** The reversal, posted before any transaction is open. */
    method ReverseAtLedger(did: string, fate: LedgerFate) returns (reply: L.Reply)
      requires did in deposits
      modifies this`ledger
      ensures fate.Unreachable? ==> reply.Failed? && ledger == old(ledger)
      ensures fate.Serves? ==>
                (ledger, reply) == L.Apply(old(ledger), L.ReverseCall(deposits[did].account, deposits[did].amount, n.reversal(did)), fate.uuid)
    {
      reply := L.Failed;
      if fate.Serves? {
        var (after, answer) := L.Apply(ledger, L.ReverseCall(deposits[did].account, deposits[did].amount, n.reversal(did)), fate.uuid);
        ledger, reply := after, answer;
      }
    }

    /** recordProcessedEventStandalone, and recordProcessedEventAndUpdateDeposit when
        there is a row to write: one transaction, nothing on a redelivery. */
    method RecordRefund(ev: string, write: Option<string>, status: Status, reason: Option<string>)
      requires write.Some? ==> write.value in deposits
      modifies this`deposits, this`processed
      ensures processed == old(processed) + {ev}
      ensures deposits == if ev in old(processed) || write.None? then old(deposits)
                          else old(deposits)[write.value := old(deposits)[write.value].(status := status, reason := reason)]
    {
      var isNew := RecordProcessedEvent(ev);
      if isNew && write.Some? {
        deposits := deposits[write.value := deposits[write.value].(status := status, reason := reason)];
      }
    }

    /** processChargeRefundedEvent for a credited row: reverse, then record. */
    method RefundCredited(q: nat, ev: string, pi: string, did: string, fate: LedgerFate)
      returns (ok: bool, ghost acts: seq<Action>)
      requires q !in refunds && did in deposits && HasIntent(deposits[did], pi) && deposits[did].status.Credited?
      modifies this`deposits, this`processed, this`ledger
      ensures Ran(n, old(Snapshot()), acts, Snapshot())
      ensures (ledger, ok) == Reversal(n, old(ledger), did, old(deposits)[did], fate)
      ensures processed == if ok then old(processed) + {ev} else old(processed)
      ensures deposits == if ok && ev !in old(processed)
                          then old(deposits)[did := old(deposits)[did].(status := Refunded, reason := None)]
                          else old(deposits)
    {
      hide Ran, L.Apply;
      ghost var s := Snapshot();
      var reply := ReverseAtLedger(did, fate);
      ok := reply.Posted?;
      if fate.Unreachable? {
        acts := [Refunding(q, Receive(ev, pi, Some(did))), Refunding(q, Abandon)];
        AbandonedRefund(n, s, q, ev, pi, did);
        return;
      }
      if !ok {
        acts := [Refunding(q, Receive(ev, pi, Some(did))), Refunding(q, Reverse(fate.uuid))];
        ReversedRefund(n, s, q, ev, pi, did, fate.uuid, ledger, reply);
        return;
      }
      RecordRefund(ev, Some(did), Refunded, None);
      assert ev in s.processed ==> s.processed + {ev} == s.processed;
      assert Snapshot() == Recorded(s.(ledger := ledger), Reversed(ev, SnapshotOf(s, did)));
      acts := [Refunding(q, Receive(ev, pi, Some(did))), Refunding(q, Reverse(fate.uuid)), Refunding(q, Record)];
      ReversedRefund(n, s, q, ev, pi, did, fate.uuid, ledger, reply);
    }

    /** processChargeRefundedEvent for any other row, or none: no money to take back.
        A succeeded deposit fails instead of being credited later. */
    method RefundUncredited(q: nat, ev: string, pi: string, hit: Option<string>) returns (ghost acts: seq<Action>)
      requires q !in refunds && RefundEnabled(Snapshot(), q, Receive(ev, pi, hit))
      requires hit.Some? ==> !deposits[hit.value].status.Credited?
      modifies this`deposits, this`processed
      ensures Ran(n, old(Snapshot()), acts, Snapshot())
      ensures processed == old(processed) + {ev}
      ensures deposits == if ev !in old(processed) && hit.Some? && old(deposits)[hit.value].status.Succeeded?
                          then old(deposits)[hit.value := old(deposits)[hit.value].(status := Failed, reason := Some("refunded_before_credit"))]
                          else old(deposits)
    {
      ghost var s := Snapshot();
      if hit.Some? && deposits[hit.value].status.Succeeded? {
        RecordRefund(ev, hit, Failed, Some("refunded_before_credit"));
      } else {
        RecordRefund(ev, None, Failed, None);
      }
      acts := [Refunding(q, Receive(ev, pi, hit)), Refunding(q, Record)];
      RecordedRefund(n, s, q, ev, pi, hit);
    }

    /** processChargeRefundedEvent. `hit` is the row its lookup finds. A credited row
        is reversed first, and only a posted reversal is recorded; a succeeded row
        fails; anything else is recorded and left alone. */
    method ProcessChargeRefunded(q: nat, ev: string, pi: string, fate: LedgerFate)
      returns (ok: bool, ghost hit: Option<string>, ghost acts: seq<Action>)
      requires q !in refunds
      modifies this`deposits, this`processed, this`ledger
      ensures Ran(n, old(Snapshot()), acts, Snapshot())
      ensures hit.None? <==> !IntentTaken(old(Snapshot()), pi)
      ensures hit.Some? ==> hit.value in old(deposits) && HasIntent(old(deposits)[hit.value], pi)
      ensures processed == if ok then old(processed) + {ev} else old(processed)
      ensures var credited := hit.Some? && old(deposits)[hit.value].status.Credited?;
              var reversal := if credited then Reversal(n, old(ledger), hit.value, old(deposits)[hit.value], fate)
                              else (old(ledger), true);
              (ledger, ok) == reversal
      ensures deposits ==
              if !ok || ev in old(processed) || hit.None? then old(deposits)
              else match old(deposits)[hit.value].status
                   case Credited => old(deposits)[hit.value := old(deposits)[hit.value].(status := Refunded, reason := None)]
                   case Succeeded =>
                     old(deposits)[hit.value := old(deposits)[hit.value].(status := Failed, reason := Some("refunded_before_credit"))]
                   case _ => old(deposits)
    {
      hide Ran;
      var found := FindByIntent(pi);
      hit := found;
      if found.Some? && deposits[found.value].status.Credited? {
        ok, acts := RefundCredited(q, ev, pi, found.value, fate);
      } else {
        acts := RefundUncredited(q, ev, pi, found);
        ok := true;
      }
    }

    // ----- the reconciliation pass

    /** creditDeposit: post under the deposit's id, then mark through the guard. The row
        becomes credited, with the ledger's transaction and one more event, exactly
        when the ledger is reached and posts (or had posted) the credit. */
    method CreditDeposit(w: nat, did: string, fate: LedgerFate, ghost s: State, ghost before: seq<Action>)
      returns (ghost acts: seq<Action>)
      requires Ran(n, s, before, Snapshot())
      requires w !in credits && did in deposits && deposits[did].status.Succeeded?
      modifies this`deposits, this`outbox, this`ledger
      ensures Ran(n, s, acts, Snapshot())
      ensures AttemptOf(old(Snapshot()), Snapshot(), did, fate)
    {
      acts := before;
      if fate.Serves? {
        ghost var mid := Snapshot();
        var d := deposits[did];
        CreditReply(ledger, did, d, fate.uuid);
        var (after, reply) := L.Apply(ledger, L.DepositCall(d.account, d.amount, did), fate.uuid);
        CreditActions(n, s, before, mid, w, did, fate.uuid);
        hide L.Apply;
        ledger := after;
        acts := before + [Work(w, List(did)), Work(w, AskLedger(fate.uuid))];
        if reply.Posted? {
          acts := acts + [Work(w, MarkCredited)];
          var _ := MarkCreditedIfSucceeded(did, reply.txn);
        }
      }
    }

    /** getSucceededDeposits. */
    method GetSucceeded() returns (found: seq<string>)
      ensures forall did :: did in found <==> did in deposits && deposits[did].status.Succeeded?
      ensures forall i, j :: 0 <= i < j < |found| ==> found[i] != found[j]
    {
      found := [];
      var left := deposits.Keys;
      while left != {}
        invariant left <= deposits.Keys
        invariant forall did :: did in found <==> did in deposits && did !in left && deposits[did].status.Succeeded?
        invariant forall i, j :: 0 <= i < j < |found| ==> found[i] != found[j]
      {
        var did :| did in left;
        left := left - {did};
        if deposits[did].status.Succeeded? { found := found + [did]; }
      }
    }

    /** creditSucceededDeposits: one attempt for every succeeded deposit. Each is
        decided by the ledger as it was before the pass: no attempt disturbs another. */
    method CreditSucceededDeposits(w: nat, fate: string -> LedgerFate) returns (ghost acts: seq<Action>)
      requires w !in credits
      modifies this`deposits, this`outbox, this`ledger
      ensures Ran(n, old(Snapshot()), acts, Snapshot())
      ensures PassDone(old(Snapshot()), Snapshot(), fate)
    {
      hide Ran, AttemptOf, Attempted;
      ghost var s := Snapshot();
      RunNone(n, s);
      acts := [];
      var found := GetSucceeded();
      PassStarts(s, found, fate);
      hide PassOk;
      for i := 0 to |found|
        invariant Ran(n, s, acts, Snapshot()) && PassOk(s, Snapshot(), found, i, fate)
      {
        var did := found[i];
        assert did in found && did !in found[..i];
        ghost var mid := Snapshot();
        NotYet(s, mid, found, i, fate, did);
        acts := CreditDeposit(w, did, fate(did), s, acts);
        PassStep(s, mid, Snapshot(), found, i, fate);
      }
      assert found[..|found|] == found;
      PassEnds(s, Snapshot(), found, fate);
    }

    /** reconcilePendingDepositWithIntent: only two Stripe answers resolve anything,
        and both write through the pending guard. */
    method ReconcilePending(did: string, poll: Poll) returns (ghost acts: seq<Action>)
      requires did in deposits && deposits[did].intent.Some?
      modifies this`deposits
      ensures Ran(n, old(Snapshot()), acts, Snapshot())
      ensures deposits.Keys == old(deposits).Keys
      ensures forall e :: e in deposits ==>
                var d := old(deposits)[e];
                deposits[e] == if poll.PaymentSucceededNow? && d.status.Pending? && d.intent == old(deposits)[did].intent
                               then d.(status := Succeeded)
                               else if poll.PaymentCanceled? && d.status.Pending? && e == did
                               then d.(status := Failed, reason := Some("canceled"))
                               else d
    {
      ghost var s := Snapshot();
      RunNone(n, s);
      acts := [];
      match poll
      case PaymentSucceededNow =>
        var pi := deposits[did].intent.value;
        deposits := map e | e in deposits ::
                      if HasIntent(deposits[e], pi) && deposits[e].status.Pending?
                      then deposits[e].(status := Succeeded) else deposits[e];
        RunMore(n, s, [], s, Row(PollSucceeded(pi)));
        acts := [] + [Row(PollSucceeded(pi))];
      case PaymentCanceled =>
        if deposits[did].status.Pending? { SetDepositStatus(did, Failed, Some("canceled")); }
        RunMore(n, s, [], s, Row(PollCanceled(did)));
        acts := [] + [Row(PollCanceled(did))];
      case StillOpen =>
      case PollError =>
    }

    /** reconcileOrphanedPendingDeposits, for one listed row. */
    method FailIfOrphaned(did: string) returns (marked: bool, ghost acts: seq<Action>)
      requires did in deposits
      modifies this`deposits
      ensures Ran(n, old(Snapshot()), acts, Snapshot())
      ensures marked <==> old(deposits)[did].status.Pending? && old(deposits)[did].intent.None?
      ensures deposits == if marked
                          then old(deposits)[did := old(deposits)[did].(status := Failed, reason := Some("abandoned_before_payment_intent"))]
                          else old(deposits)
    {
      ghost var s := Snapshot();
      marked := deposits[did].status.Pending? && deposits[did].intent.None?;
      if marked { SetDepositStatus(did, Failed, Some("abandoned_before_payment_intent")); }
      RunNone(n, s);
      RunMore(n, s, [], s, Row(Orphaned(did)));
      acts := [] + [Row(Orphaned(did))];
    }
  }

  // ----- the machine's side of these methods

  lemma Received(n: Names, s: State, q: nat, ev: string, pi: string, hit: Option<string>)
    requires q !in s.refunds && RefundEnabled(s, q, Receive(ev, pi, hit))
    ensures var task := Read(ev, if hit.Some? then Some(SnapshotOf(s, hit.value)) else None);
            Ran(n, s, [Refunding(q, Receive(ev, pi, hit))], s.(refunds := s.refunds[q := task]))
  {
    hide Ran;
    RunNone(n, s);
    RunMore(n, s, [], s, Refunding(q, Receive(ev, pi, hit)));
    assert [] + [Refunding(q, Receive(ev, pi, hit))] == [Refunding(q, Receive(ev, pi, hit))];
  }

  lemma AbandonedRefund(n: Names, s: State, q: nat, ev: string, pi: string, did: string)
    requires q !in s.refunds && did in s.deposits && HasIntent(s.deposits[did], pi)
    ensures Ran(n, s, [Refunding(q, Receive(ev, pi, Some(did))), Refunding(q, Abandon)], s)
  {
    hide Ran;
    var task := Read(ev, Some(SnapshotOf(s, did)));
    var s1 := s.(refunds := s.refunds[q := task]);
    var a, b := Refunding(q, Receive(ev, pi, Some(did))), Refunding(q, Abandon);
    Received(n, s, q, ev, pi, Some(did));
    RunMore(n, s, [a], s1, b);
    DepositFutures.DroppedTask(s, s1, q, task);
    assert [a] + [b] == [a, b];
  }

  lemma RecordedRefund(n: Names, s: State, q: nat, ev: string, pi: string, hit: Option<string>)
    requires q !in s.refunds && RefundEnabled(s, q, Receive(ev, pi, hit))
    requires hit.Some? ==> !s.deposits[hit.value].status.Credited?
    ensures var task := Read(ev, if hit.Some? then Some(SnapshotOf(s, hit.value)) else None);
            && (Touched(task).Some? ==> Touched(task).value in s.deposits)
            && Ran(n, s, [Refunding(q, Receive(ev, pi, hit)), Refunding(q, Record)], Recorded(s, task))
  {
    hide Ran;
    var task := Read(ev, if hit.Some? then Some(SnapshotOf(s, hit.value)) else None);
    var s1 := s.(refunds := s.refunds[q := task]);
    var a, b := Refunding(q, Receive(ev, pi, hit)), Refunding(q, Record);
    Received(n, s, q, ev, pi, hit);
    RunMore(n, s, [a], s1, b);
    DepositFutures.DroppedTask(s, Recorded(s1, task), q, task);
    assert [a] + [b] == [a, b];
  }

  lemma ReversedRefund(n: Names, s: State, q: nat, ev: string, pi: string, did: string, uuid: L.TransactionId,
                       ledger: L.Ledger, reply: L.Reply)
    requires q !in s.refunds && did in s.deposits && HasIntent(s.deposits[did], pi) && s.deposits[did].status.Credited?
    requires (ledger, reply) == L.Apply(s.ledger, L.ReverseCall(s.deposits[did].account, s.deposits[did].amount, n.reversal(did)), uuid)
    ensures var a, b, c := Refunding(q, Receive(ev, pi, Some(did))), Refunding(q, Reverse(uuid)), Refunding(q, Record);
            var after := s.(ledger := ledger);
            if reply.Posted? then Ran(n, s, [a, b, c], Recorded(after, Reversed(ev, SnapshotOf(s, did))))
            else Ran(n, s, [a, b], after)
  {
    hide Ran, L.Apply;
    var seen := SnapshotOf(s, did);
    var task := Read(ev, Some(seen));
    var s1 := s.(refunds := s.refunds[q := task]);
    var a, b, c := Refunding(q, Receive(ev, pi, Some(did))), Refunding(q, Reverse(uuid)), Refunding(q, Record);
    Received(n, s, q, ev, pi, Some(did));
    RunMore(n, s, [a], s1, b);
    assert [a] + [b] == [a, b];
    if reply.Posted? {
      var done := Reversed(ev, seen);
      var s2 := s.(ledger := ledger, refunds := s.refunds[q := done]);
      assert s1.refunds[q := done] == s2.refunds;
      RunMore(n, s, [a, b], s2, c);
      DepositFutures.DroppedTask(s, Recorded(s2, done), q, done);
      assert [a, b] + [c] == [a, b, c];
    } else {
      DepositFutures.DroppedTask(s, s1.(ledger := ledger), q, task);
    }
  }

  lemma DroppedCredit(s: State, s1: State, w: nat, c: Credit)
    requires w !in s.credits && s1.credits == s.credits[w := c]
    ensures WithoutCredit(s1, w) == s1.(credits := s.credits)
  {
    assert (map v | v in s1.credits && v != w :: s1.credits[v]) == s.credits;
  }

  lemma CreditActions(n: Names, s: State, before: seq<Action>, mid: State, w: nat, did: string, uuid: L.TransactionId)
    requires Ran(n, s, before, mid) && w !in mid.credits && did in mid.deposits && mid.deposits[did].status.Succeeded?
    ensures var d := mid.deposits[did];
            var (ledger, reply) := L.Apply(mid.ledger, L.DepositCall(d.account, d.amount, did), uuid);
            var asked := before + [Work(w, List(did)), Work(w, AskLedger(uuid))];
            var after := mid.(ledger := ledger);
            if reply.Posted? then Ran(n, s, asked + [Work(w, MarkCredited)], CreditedIfSucceeded(after, did, reply.txn))
            else Ran(n, s, asked, after)
  {
    hide Ran, L.Apply;
    var d, seen := mid.deposits[did], SnapshotOf(mid, did);
    var (ledger, reply) := L.Apply(mid.ledger, L.DepositCall(d.account, d.amount, did), uuid);
    var a, b, c := Work(w, List(did)), Work(w, AskLedger(uuid)), Work(w, MarkCredited);
    var s1 := mid.(credits := mid.credits[w := Listed(seen)]);
    RunMore(n, s, before, mid, a);
    RunMore(n, s, before + [a], s1, b);
    assert before + [a] + [b] == before + [a, b];
    if reply.Posted? {
      var s2 := mid.(ledger := ledger, credits := mid.credits[w := Told(seen, reply.txn)]);
      assert s1.credits[w := Told(seen, reply.txn)] == s2.credits;
      RunMore(n, s, before + [a, b], s2, c);
      DroppedCredit(mid, CreditedIfSucceeded(s2, did, reply.txn), w, Told(seen, reply.txn));
    } else {
      DroppedCredit(mid, s1.(ledger := ledger), w, Listed(seen));
    }
  }
}
