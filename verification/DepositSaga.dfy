/** transfers-svc's deposit path: Stripe webhooks in any order, duplicated or
    lost; refunds; and any number of overlapping reconciliation workers. Every
    SQL transaction and every ledger call is one step, and any task may be
    abandoned between two of its steps. */
module DepositSaga {
  import opened Options
  import opened Order
  import L = LedgerSpec

  /** `reversal` is reversalReference; `isId` holds of what the id column may hold. */
  datatype Names = Names(reversal: string -> string, isId: string -> bool)

  /** Ids and reversal references never collide: the reversal reference is an
      injective function of the id and is itself no deposit id. */
  ghost predicate Distinct(n: Names) {
    && (forall d :: n.isId(d) ==> d != "" && n.reversal(d) != "" && !n.isId(n.reversal(d)))
    && (forall d, e :: n.isId(d) && n.isId(e) && n.reversal(d) == n.reversal(e) ==> d == e)
  }

  datatype Status = Pending | Succeeded | Credited | Failed | Refunded

  datatype Deposit = Deposit(account: string, amount: int, status: Status, intent: Option<string>,
                             txn: Option<L.TransactionId>, reason: Option<string>)

  /** A DepositCredited outbox row. */
  datatype Event = DepositCredited(did: string, account: string, amount: int, txn: L.TransactionId)

  /** The part of a row a task read and still acts on. */
  datatype Snapshot = Snapshot(did: string, account: string, amount: int, status: Status)

  /** A worker's credit attempt: listed, then answered by the ledger. */
  datatype Credit = Listed(seen: Snapshot) | Told(seen: Snapshot, txn: L.TransactionId)

  /** A charge.refunded delivery: the row was looked up, then perhaps reversed. */
  datatype Refund = Read(ev: string, found: Option<Snapshot>) | Reversed(ev: string, seen: Snapshot)

  datatype State = State(deposits: map<string, Deposit>, processed: set<string>, outbox: map<string, seq<Event>>,
                         credits: map<nat, Credit>, refunds: map<nat, Refund>, ledger: L.Ledger)

  datatype RowStep =
    | Insert(did: string, account: string, amount: int)
    | Attach(did: string, pi: string)
    | PollSucceeded(pi: string)
    | PollCanceled(did: string)
    | Orphaned(did: string)

  datatype StripeKind = PaymentSucceeded | PaymentFailed(reason: string) | Unrelated

  datatype CreditStep = List(did: string) | AskLedger(uuid: L.TransactionId) | MarkCredited | Quit

  datatype RefundStep = Receive(ev: string, pi: string, hit: Option<string>) | Reverse(uuid: L.TransactionId) | Record | Abandon

  datatype OtherStep = LedgerCallBy(call: L.Call, uuid: L.TransactionId) | OpenAccount(account: string)

  datatype Action =
    | Row(row: RowStep)
    | Stripe(ev: string, kind: StripeKind, pi: string)
    | Work(w: nat, work: CreditStep)
    | Refunding(q: nat, refund: RefundStep)
    | Other(other: OtherStep)

  const MIN_AMOUNT := 50
  const MAX_AMOUNT := 1_000_000

  // ----- table access

  function EventsOf(s: State, did: string): seq<Event> {
    if did in s.outbox then s.outbox[did] else []
  }

  predicate HasIntent(d: Deposit, pi: string) {
    d.intent == Some(pi)
  }

  predicate IntentTaken(s: State, pi: string) {
    exists did :: did in s.deposits && HasIntent(s.deposits[did], pi)
  }

  function SnapshotOf(s: State, did: string): Snapshot
    requires did in s.deposits
  {
    Snapshot(did, s.deposits[did].account, s.deposits[did].amount, s.deposits[did].status)
  }

  /** UPDATE deposits SET status, and failure_reason when one is given. */
  function WithStatus(d: Deposit, status: Status, reason: Option<string>): Deposit {
    if reason.Some? then d.(status := status, reason := reason) else d.(status := status)
  }

  function SetStatus(s: State, did: string, status: Status, reason: Option<string>): State
    requires did in s.deposits
  {
    s.(deposits := s.deposits[did := WithStatus(s.deposits[did], status, reason)])
  }

  /** ... WHERE stripe_payment_intent_id = pi, whatever the status. */
  function SetByIntent(s: State, pi: string, status: Status, reason: Option<string>): State {
    s.(deposits := map did | did in s.deposits ::
                     if HasIntent(s.deposits[did], pi) then WithStatus(s.deposits[did], status, reason)
                     else s.deposits[did])
  }

  /** ... AND status = 'pending'. */
  function SetPendingByIntent(s: State, pi: string, status: Status): State {
    s.(deposits := map did | did in s.deposits ::
                     if HasIntent(s.deposits[did], pi) && s.deposits[did].status.Pending?
                     then WithStatus(s.deposits[did], status, None)
                     else s.deposits[did])
  }

  // ----- steps

  /** gen_random_uuid(): an id never used before, in this table or as a reference. */
  predicate FreshId(n: Names, s: State, did: string) {
    && n.isId(did) && did !in s.deposits
    && L.Tagged(s.ledger.entries, did) == [] && L.Tagged(s.ledger.entries, n.reversal(did)) == []
  }

  predicate RowEnabled(n: Names, s: State, step: RowStep) {
    match step
    case Insert(did, _, amount) => FreshId(n, s, did) && MIN_AMOUNT <= amount <= MAX_AMOUNT
    case Attach(did, pi) => did in s.deposits && s.deposits[did].intent.None? && !IntentTaken(s, pi)
    case PollSucceeded(_) => true
    case PollCanceled(did) => did in s.deposits
    case Orphaned(did) => did in s.deposits
  }

  function DoRow(n: Names, s: State, step: RowStep): State
    requires RowEnabled(n, s, step)
  {
    match step
    case Insert(did, account, amount) =>
      s.(deposits := s.deposits[did := Deposit(account, amount, Pending, None, None, None)])
    case Attach(did, pi) => s.(deposits := s.deposits[did := s.deposits[did].(intent := Some(pi))])
    case PollSucceeded(pi) => SetPendingByIntent(s, pi, Succeeded)
    case PollCanceled(did) =>
      if s.deposits[did].status.Pending? then SetStatus(s, did, Failed, Some("canceled")) else s
    case Orphaned(did) =>
      if s.deposits[did].status.Pending? && s.deposits[did].intent.None?
      then SetStatus(s, did, Failed, Some("abandoned_before_payment_intent")) else s
  }

  /** processStripeEvent except refunds: dedup insert and UPDATE in one transaction. */
  function DoStripe(s: State, ev: string, kind: StripeKind, pi: string): State {
    if ev in s.processed then s
    else
      var recorded := s.(processed := s.processed + {ev});
      match kind
      case PaymentSucceeded => SetByIntent(recorded, pi, Succeeded, None)
      case PaymentFailed(reason) => SetByIntent(recorded, pi, Failed, Some(reason))
      case Unrelated => recorded
  }

  predicate WorkEnabled(s: State, w: nat, step: CreditStep) {
    match step
    case List(did) => w !in s.credits && did in s.deposits && s.deposits[did].status.Succeeded?
    case AskLedger(_) => w in s.credits && s.credits[w].Listed?
    case MarkCredited => w in s.credits && s.credits[w].Told? && s.credits[w].seen.did in s.deposits
    case Quit => w in s.credits
  }

  function WithoutCredit(s: State, w: nat): State {
    s.(credits := map v | v in s.credits && v != w :: s.credits[v])
  }

  /** The ledger's answer to the worker; an error answer ends the attempt. */
  function Asked(s: State, w: nat, ledger: L.Ledger, reply: L.Reply): State
    requires w in s.credits
  {
    if reply.Posted? then s.(ledger := ledger, credits := s.credits[w := Told(s.credits[w].seen, reply.txn)])
    else WithoutCredit(s.(ledger := ledger), w)
  }

  /** markDepositCreditedIfSucceeded: the row and its event, or nothing. */
  function CreditedIfSucceeded(s: State, did: string, txn: L.TransactionId): State
    requires did in s.deposits
  {
    var d := s.deposits[did];
    if d.status.Succeeded? then
      s.(deposits := s.deposits[did := d.(status := Credited, txn := Some(txn))],
         outbox := s.outbox[did := EventsOf(s, did) + [DepositCredited(did, d.account, d.amount, txn)]])
    else s
  }

  function DoWork(s: State, w: nat, step: CreditStep): State
    requires WorkEnabled(s, w, step)
  {
    match step
    case List(did) => s.(credits := s.credits[w := Listed(SnapshotOf(s, did))])
    case AskLedger(uuid) =>
      var seen := s.credits[w].seen;
      var (ledger, reply) := L.Apply(s.ledger, L.DepositCall(seen.account, seen.amount, seen.did), uuid);
      Asked(s, w, ledger, reply)
    case MarkCredited => WithoutCredit(CreditedIfSucceeded(s, s.credits[w].seen.did, s.credits[w].txn), w)
    case Quit => WithoutCredit(s, w)
  }

  predicate RefundEnabled(s: State, q: nat, step: RefundStep) {
    match step
    case Receive(_, pi, hit) =>
      && q !in s.refunds
      && (match hit
          case Some(did) => did in s.deposits && HasIntent(s.deposits[did], pi)
          case None => !IntentTaken(s, pi))
    case Reverse(_) => q in s.refunds && s.refunds[q].Read? && MustReverse(s.refunds[q].found)
    case Record =>
      && q in s.refunds
      && (s.refunds[q].Read? ==> !MustReverse(s.refunds[q].found))
      && (Touched(s.refunds[q]).Some? ==> Touched(s.refunds[q]).value in s.deposits)
    case Abandon => q in s.refunds
  }

  predicate MustReverse(found: Option<Snapshot>) {
    found.Some? && found.value.status.Credited?
  }

  /** The row a refund delivery will write, if any. */
  function Touched(r: Refund): Option<string> {
    match r
    case Read(_, found) => if found.Some? && found.value.status.Succeeded? then Some(found.value.did) else None
    case Reversed(_, seen) => Some(seen.did)
  }

  function WithoutRefund(s: State, q: nat): State {
    s.(refunds := map p | p in s.refunds && p != q :: s.refunds[p])
  }

  function ReverseAnswered(s: State, q: nat, ledger: L.Ledger, reply: L.Reply): State
    requires q in s.refunds && s.refunds[q].Read? && s.refunds[q].found.Some?
  {
    if reply.Posted? then s.(ledger := ledger, refunds := s.refunds[q := Reversed(s.refunds[q].ev, s.refunds[q].found.value)])
    else WithoutRefund(s.(ledger := ledger), q)
  }

  /** The final transaction of a refund delivery: dedup insert, then the UPDATE. */
  function Recorded(s: State, r: Refund): State
    requires Touched(r).Some? ==> Touched(r).value in s.deposits
  {
    if r.ev in s.processed then s
    else
      var recorded := s.(processed := s.processed + {r.ev});
      if r.Reversed? then
        recorded.(deposits := recorded.deposits[r.seen.did :=
                    recorded.deposits[r.seen.did].(status := Refunded, reason := None)])
      else if Touched(r).Some? then SetStatus(recorded, Touched(r).value, Failed, Some("refunded_before_credit"))
      else recorded
  }

  function DoRefund(n: Names, s: State, q: nat, step: RefundStep): State
    requires RefundEnabled(s, q, step)
  {
    match step
    case Receive(ev, _, hit) =>
      s.(refunds := s.refunds[q := Read(ev, if hit.Some? then Some(SnapshotOf(s, hit.value)) else None)])
    case Reverse(uuid) =>
      var seen := s.refunds[q].found.value;
      var (ledger, reply) := L.Apply(s.ledger, L.ReverseCall(seen.account, seen.amount, n.reversal(seen.did)), uuid);
      ReverseAnswered(s, q, ledger, reply)
    case Record => WithoutRefund(Recorded(s, s.refunds[q]), q)
    case Abandon => WithoutRefund(s, q)
  }

  /** Transfers, withdrawals and rebuilds: never under a deposit's references. */
  ghost predicate OtherEnabled(n: Names, step: OtherStep) {
    step.LedgerCallBy? && !step.call.Rebuild? ==>
      forall d :: n.isId(d) ==> step.call.reference != d && step.call.reference != n.reversal(d)
  }

  function DoOther(s: State, step: OtherStep): State {
    match step
    case LedgerCallBy(call, uuid) => s.(ledger := L.Apply(s.ledger, call, uuid).0)
    case OpenAccount(account) => s.(ledger := s.ledger.(accounts := s.ledger.accounts + {Lower(account)}))
  }

  ghost predicate Enabled(n: Names, s: State, a: Action) {
    match a
    case Row(step) => RowEnabled(n, s, step)
    case Stripe(_, _, _) => true
    case Work(w, step) => WorkEnabled(s, w, step)
    case Refunding(q, step) => RefundEnabled(s, q, step)
    case Other(step) => OtherEnabled(n, step)
  }

  ghost function Do(n: Names, s: State, a: Action): State
    requires Enabled(n, s, a)
  {
    match a
    case Row(step) => DoRow(n, s, step)
    case Stripe(ev, kind, pi) => DoStripe(s, ev, kind, pi)
    case Work(w, step) => DoWork(s, w, step)
    case Refunding(q, step) => DoRefund(n, s, q, step)
    case Other(step) => DoOther(s, step)
  }

  function Initial(ledger: L.Ledger): State {
    State(map[], {}, map[], map[], map[], ledger)
  }

  ghost predicate ValidRun(n: Names, s: State, acts: seq<Action>)
    decreases acts
  {
    acts != [] ==> Enabled(n, s, acts[0]) && ValidRun(n, Do(n, s, acts[0]), acts[1..])
  }

  ghost function Exec(n: Names, s: State, acts: seq<Action>): State
    requires ValidRun(n, s, acts)
    decreases acts
  {
    if acts == [] then s else Exec(n, Do(n, s, acts[0]), acts[1..])
  }

  // ----- the invariant

  /** Everything the system holds about one deposit. */
  datatype View = View(row: Deposit, credit: seq<L.Entry>, reversal: seq<L.Entry>, events: seq<Event>)

  function ViewOf(n: Names, s: State, did: string): View
    requires did in s.deposits
  {
    View(s.deposits[did], L.Tagged(s.ledger.entries, did), L.Tagged(s.ledger.entries, n.reversal(did)), EventsOf(s, did))
  }

  predicate IsCredit(es: seq<L.Entry>, did: string, row: Deposit) {
    |es| == 2 && es == L.Pair(Lower(L.GENESIS), Lower(row.account), row.amount, did, es[0].txn)
  }

  predicate IsReversal(es: seq<L.Entry>, reference: string, row: Deposit) {
    |es| == 2 && es == L.Pair(Lower(row.account), Lower(L.GENESIS), row.amount, reference, es[0].txn)
  }

  predicate ViewOk(n: Names, did: string, v: View) {
    && n.isId(did) && v.row.amount > 0
    && (v.credit == [] || IsCredit(v.credit, did, v.row))
    && (v.reversal == [] || (IsReversal(v.reversal, n.reversal(did), v.row) && v.credit != []))
    && (v.row.status.Credited? ==> v.credit != [] && v.row.txn == Some(v.credit[0].txn))
    && (v.row.status.Refunded? ==> v.reversal != [])
    && (v.events != [] ==> v.credit != [])
    && (forall k :: 0 <= k < |v.events| ==>
          v.events[k] == DepositCredited(did, v.row.account, v.row.amount, v.credit[0].txn))
  }

  predicate SeenOk(n: Names, s: State, seen: Snapshot) {
    && seen.did in s.deposits
    && seen.account == s.deposits[seen.did].account && seen.amount == s.deposits[seen.did].amount
    && (seen.status.Credited? ==> ViewOf(n, s, seen.did).credit != [])
  }

  predicate CreditOk(n: Names, s: State, c: Credit) {
    && SeenOk(n, s, c.seen)
    && (c.Told? ==> var credit := ViewOf(n, s, c.seen.did).credit; credit != [] && credit[0].txn == c.txn)
  }

  predicate RefundOk(n: Names, s: State, r: Refund) {
    match r
    case Read(_, found) => found.Some? ==> SeenOk(n, s, found.value)
    case Reversed(_, seen) => SeenOk(n, s, seen) && ViewOf(n, s, seen.did).reversal != []
  }

  predicate RowsOk(n: Names, s: State) {
    && s.outbox.Keys <= s.deposits.Keys
    && forall did :: did in s.deposits ==> ViewOk(n, did, ViewOf(n, s, did))
  }

  predicate TasksOk(n: Names, s: State) {
    && (forall w :: w in s.credits ==> CreditOk(n, s, s.credits[w]))
    && (forall q :: q in s.refunds ==> RefundOk(n, s, s.refunds[q]))
  }

  predicate Inv(n: Names, s: State) {
    RowsOk(n, s) && TasksOk(n, s)
  }

  // ----- preservation

  /** Ledger rows never go away and a deposit's terms never change. */
  predicate Grown(v: View, v': View) {
    && v'.row.account == v.row.account && v'.row.amount == v.row.amount
    && (v.credit != [] ==> v'.credit == v.credit)
    && (v.reversal != [] ==> v'.reversal == v.reversal)
  }

  predicate AllGrown(n: Names, s: State, s': State) {
    forall did :: did in s.deposits ==> did in s'.deposits && Grown(ViewOf(n, s, did), ViewOf(n, s', did))
  }

  lemma SeenStays(n: Names, s: State, s': State, seen: Snapshot)
    requires AllGrown(n, s, s') && SeenOk(n, s, seen)
    ensures SeenOk(n, s', seen)
  {
    assert Grown(ViewOf(n, s, seen.did), ViewOf(n, s', seen.did));
  }

  lemma CreditStays(n: Names, s: State, s': State, c: Credit)
    requires AllGrown(n, s, s') && CreditOk(n, s, c)
    ensures CreditOk(n, s', c)
  {
    SeenStays(n, s, s', c.seen);
    assert Grown(ViewOf(n, s, c.seen.did), ViewOf(n, s', c.seen.did));
  }

  lemma RefundStays(n: Names, s: State, s': State, r: Refund)
    requires AllGrown(n, s, s') && RefundOk(n, s, r)
    ensures RefundOk(n, s', r)
  {
    if r.Reversed? {
      SeenStays(n, s, s', r.seen);
      assert Grown(ViewOf(n, s, r.seen.did), ViewOf(n, s', r.seen.did));
    } else if r.found.Some? {
      SeenStays(n, s, s', r.found.value);
    }
  }

  /** Tasks are old ones, or justified by the new state. */
  predicate TasksFrom(n: Names, s: State, s': State) {
    && (forall w :: w in s'.credits ==> (w in s.credits && s'.credits[w] == s.credits[w]) || CreditOk(n, s', s'.credits[w]))
    && (forall q :: q in s'.refunds ==> (q in s.refunds && s'.refunds[q] == s.refunds[q]) || RefundOk(n, s', s'.refunds[q]))
  }

  lemma TasksStay(n: Names, s: State, s': State)
    requires TasksOk(n, s) && AllGrown(n, s, s') && TasksFrom(n, s, s')
    ensures TasksOk(n, s')
  {
    forall w | w in s'.credits ensures CreditOk(n, s', s'.credits[w]) {
      if w in s.credits && s'.credits[w] == s.credits[w] { CreditStays(n, s, s', s.credits[w]); }
    }
    forall q | q in s'.refunds ensures RefundOk(n, s', s'.refunds[q]) {
      if q in s.refunds && s'.refunds[q] == s.refunds[q] { RefundStays(n, s, s', s.refunds[q]); }
    }
  }

  /** The tables and the ledger stand still. */
  predicate SameTables(s: State, s': State) {
    s'.deposits == s.deposits && s'.outbox == s.outbox && s'.ledger == s.ledger
  }

  lemma QuietKeepsInv(n: Names, s: State, s': State)
    requires Inv(n, s) && SameTables(s, s') && TasksFrom(n, s, s')
    ensures Inv(n, s')
  {
    forall did | did in s.deposits ensures ViewOf(n, s', did) == ViewOf(n, s, did) {}
    TasksStay(n, s, s');
  }

  // ----- status writes

  /** Statuses a webhook or a poll may write over anything. */
  predicate Harmless(status: Status) {
    status.Pending? || status.Succeeded? || status.Failed?
  }

  /** Only statuses, reasons and intents changed, and only to harmless values. */
  predicate OnlyStatuses(s: State, s': State) {
    && s'.deposits.Keys == s.deposits.Keys
    && s'.outbox == s.outbox && s'.ledger == s.ledger && s'.credits == s.credits && s'.refunds == s.refunds
    && forall did :: did in s.deposits ==>
         var d, d' := s.deposits[did], s'.deposits[did];
         && d'.account == d.account && d'.amount == d.amount && d'.txn == d.txn
         && (d'.status == d.status || Harmless(d'.status))
  }

  lemma StatusesKeepInv(n: Names, s: State, s': State)
    requires Inv(n, s) && OnlyStatuses(s, s')
    ensures Inv(n, s')
  {
    forall did | did in s'.deposits
      ensures ViewOk(n, did, ViewOf(n, s', did)) && Grown(ViewOf(n, s, did), ViewOf(n, s', did))
    {
      assert ViewOk(n, did, ViewOf(n, s, did));
    }
    TasksStay(n, s, s');
  }

  lemma InsertKeepsInv(n: Names, s: State, did: string, d: Deposit)
    requires Inv(n, s) && FreshId(n, s, did) && d.amount > 0 && d.status.Pending?
    ensures Inv(n, s.(deposits := s.deposits[did := d]))
  {
    var s' := s.(deposits := s.deposits[did := d]);
    assert ViewOf(n, s', did) == View(d, [], [], []) && ViewOk(n, did, View(d, [], [], []));
    assert RowsOk(n, s) && TasksOk(n, s);
    hide Inv, ViewOk, TasksOk;
    forall e | e in s.deposits ensures ViewOf(n, s', e) == ViewOf(n, s, e) {}
    TasksStay(n, s, s');
  }

  lemma PendingSetsStatuses(s: State, pi: string, status: Status)
    requires Harmless(status)
    ensures OnlyStatuses(s, SetPendingByIntent(s, pi, status))
  {
  }

  lemma RowStepsSetStatuses(n: Names, s: State, step: RowStep)
    requires RowEnabled(n, s, step) && !step.Insert?
    ensures OnlyStatuses(s, DoRow(n, s, step))
  {
    if step.PollSucceeded? { PendingSetsStatuses(s, step.pi, Succeeded); }
    hide SetPendingByIntent;
  }

  lemma RowKeepsInv(n: Names, s: State, step: RowStep)
    requires Inv(n, s) && RowEnabled(n, s, step)
    ensures Inv(n, DoRow(n, s, step))
  {
    hide Inv, OnlyStatuses;
    if step.Insert? {
      InsertKeepsInv(n, s, step.did, Deposit(step.account, step.amount, Pending, None, None, None));
    } else {
      RowStepsSetStatuses(n, s, step);
      StatusesKeepInv(n, s, DoRow(n, s, step));
    }
  }

  lemma StripeKeepsInv(n: Names, s: State, ev: string, kind: StripeKind, pi: string)
    requires Inv(n, s)
    ensures Inv(n, DoStripe(s, ev, kind, pi))
  {
    hide Inv;
    StatusesKeepInv(n, s, DoStripe(s, ev, kind, pi));
  }

  // ----- crediting

  lemma PostAdds(l: L.Ledger, from: string, to: string, amount: int, reference: string, uuid: L.TransactionId)
    ensures var l' := L.Apply(l, L.Post(from, to, amount, reference), uuid).0;
            forall u :: L.Tagged(l'.entries, u) ==
                        L.Tagged(l.entries, u) +
                        if l'.entries != l.entries && reference == u then L.Pair(Lower(from), Lower(to), amount, u, uuid) else []
  {
    var l' := L.Apply(l, L.Post(from, to, amount, reference), uuid).0;
    forall u ensures L.Tagged(l'.entries, u) ==
                     L.Tagged(l.entries, u) +
                     if l'.entries != l.entries && reference == u then L.Pair(Lower(from), Lower(to), amount, u, uuid) else []
    {
      L.ApplyTags(l, L.Post(from, to, amount, reference), uuid, u);
    }
  }

  /** Posting under a reference: nothing, or the one pair, old or new. */
  lemma PostTags(l: L.Ledger, from: string, to: string, amount: int, reference: string, uuid: L.TransactionId)
    requires amount > 0 && reference != ""
    ensures var (l', reply) := L.Apply(l, L.Post(from, to, amount, reference), uuid);
            && (forall u :: u != reference ==> L.Tagged(l'.entries, u) == L.Tagged(l.entries, u))
            && (L.Tagged(l.entries, reference) != [] ==> l' == l)
            && (!reply.Posted? ==> l' == l)
            && (reply.Posted? && L.Tagged(l.entries, reference) == [] ==>
                  L.Tagged(l'.entries, reference) == L.Pair(Lower(from), Lower(to), amount, reference, uuid))
            && (reply.Posted? ==> L.Tagged(l'.entries, reference) != [] &&
                                  L.Tagged(l'.entries, reference)[0].txn == reply.txn)
  {
    PostAdds(l, from, to, amount, reference, uuid);
    hide L.Tagged, Lower;
  }

  /** A step about one deposit: whatever else it does, the other views stand. */
  predicate OnlyAbout(n: Names, s: State, s': State, did: string) {
    && did in s.deposits && s'.deposits.Keys == s.deposits.Keys && s'.outbox.Keys <= s.deposits.Keys
    && forall e :: e in s.deposits && e != did ==> ViewOf(n, s', e) == ViewOf(n, s, e)
  }

  lemma OnlyAboutKeepsInv(n: Names, s: State, s': State, did: string)
    requires Inv(n, s) && OnlyAbout(n, s, s', did) && TasksFrom(n, s, s')
    requires ViewOk(n, did, ViewOf(n, s', did)) && Grown(ViewOf(n, s, did), ViewOf(n, s', did))
    ensures Inv(n, s')
  {
    hide ViewOk, ViewOf, TasksFrom, TasksOk;
    assert TasksOk(n, s);
    TasksStay(n, s, s');
  }

  lemma About(n: Names, s: State, did: string)
    requires Inv(n, s) && did in s.deposits
    ensures ViewOk(n, did, ViewOf(n, s, did))
    ensures s.outbox.Keys <= s.deposits.Keys && forall e :: e in s.deposits ==> n.isId(e)
  {
    forall e | e in s.deposits ensures n.isId(e) { assert ViewOk(n, e, ViewOf(n, s, e)); }
  }

  lemma CreditFacts(n: Names, s: State, w: nat)
    requires Inv(n, s) && w in s.credits
    ensures CreditOk(n, s, s.credits[w])
  {
  }

  lemma RefundFacts(n: Names, s: State, q: nat)
    requires Inv(n, s) && q in s.refunds
    ensures RefundOk(n, s, s.refunds[q])
  {
  }

  /** What posting under the deposit's own reference does to its view. */
  lemma AskedView(n: Names, s: State, seen: Snapshot, ledger: L.Ledger, reply: L.Reply, uuid: L.TransactionId)
    requires Distinct(n) && SeenOk(n, s, seen) && ViewOk(n, seen.did, ViewOf(n, s, seen.did))
    requires forall e :: e in s.deposits ==> n.isId(e)
    requires (ledger, reply) == L.Apply(s.ledger, L.DepositCall(seen.account, seen.amount, seen.did), uuid)
    ensures var s', v := s.(ledger := ledger), ViewOf(n, s, seen.did);
            var v' := ViewOf(n, s', seen.did);
            && (forall e :: e in s.deposits && e != seen.did ==> ViewOf(n, s', e) == ViewOf(n, s, e))
            && v' == v.(credit := v'.credit)
            && (v'.credit == v.credit || (v.credit == [] && IsCredit(v'.credit, seen.did, v.row)))
            && (reply.Posted? ==> v'.credit != [] && v'.credit[0].txn == reply.txn)
  {
    hide L.Apply, IsReversal;
    PostTags(s.ledger, L.GENESIS, seen.account, seen.amount, seen.did, uuid);
  }

  lemma AskedLedgerKeepsInv(n: Names, s: State, seen: Snapshot, ledger: L.Ledger, reply: L.Reply, uuid: L.TransactionId)
    requires Distinct(n) && Inv(n, s) && SeenOk(n, s, seen)
    requires (ledger, reply) == L.Apply(s.ledger, L.DepositCall(seen.account, seen.amount, seen.did), uuid)
    ensures Inv(n, s.(ledger := ledger))
    ensures reply.Posted? ==> CreditOk(n, s.(ledger := ledger), Told(seen, reply.txn))
  {
    hide Inv, ViewOk, L.Apply, Grown, IsCredit;
    var s' := s.(ledger := ledger);
    About(n, s, seen.did);
    AskedView(n, s, seen, ledger, reply, uuid);
    CreditedView(n, seen.did, ViewOf(n, s, seen.did), ViewOf(n, s', seen.did).credit);
    OnlyAboutKeepsInv(n, s, s', seen.did);
  }

  lemma AskKeepsInv(n: Names, s: State, w: nat, uuid: L.TransactionId)
    requires Distinct(n) && Inv(n, s) && WorkEnabled(s, w, AskLedger(uuid))
    ensures Inv(n, DoWork(s, w, AskLedger(uuid)))
  {
    hide Inv, L.Apply, RefundOk, SeenOk;
    var seen := s.credits[w].seen;
    var (ledger, reply) := L.Apply(s.ledger, L.DepositCall(seen.account, seen.amount, seen.did), uuid);
    CreditFacts(n, s, w);
    AskedLedgerKeepsInv(n, s, seen, ledger, reply, uuid);
    var s1 := s.(ledger := ledger);
    if reply.Posted? {
      SetCreditKeepsInv(n, s1, w, Told(seen, reply.txn));
    } else {
      WithoutCreditKeepsInv(n, s1, w);
    }
  }

  lemma SetCreditKeepsInv(n: Names, s: State, w: nat, c: Credit)
    requires Inv(n, s) && CreditOk(n, s, c)
    ensures Inv(n, s.(credits := s.credits[w := c]))
  {
    hide Inv, RefundOk;
    var s' := s.(credits := s.credits[w := c]);
    assert ViewOf(n, s', c.seen.did) == ViewOf(n, s, c.seen.did);
    QuietKeepsInv(n, s, s');
  }

  lemma WithoutCreditKeepsInv(n: Names, s: State, w: nat)
    requires Inv(n, s)
    ensures Inv(n, WithoutCredit(s, w))
  {
    QuietKeepsInv(n, s, WithoutCredit(s, w));
  }

  lemma CreditedView(n: Names, did: string, v: View, credit: seq<L.Entry>)
    requires ViewOk(n, did, v) && (credit == v.credit || (v.credit == [] && IsCredit(credit, did, v.row)))
    ensures ViewOk(n, did, v.(credit := credit)) && Grown(v, v.(credit := credit))
  {
  }

  lemma MarkedView(n: Names, did: string, v: View, txn: L.TransactionId)
    requires ViewOk(n, did, v) && v.credit != [] && v.credit[0].txn == txn
    ensures ViewOk(n, did, View(v.row.(status := Credited, txn := Some(txn)), v.credit, v.reversal,
                                v.events + [DepositCredited(did, v.row.account, v.row.amount, txn)]))
  {
  }

  lemma CreditedKeepsInv(n: Names, s: State, did: string, txn: L.TransactionId)
    requires Inv(n, s) && did in s.deposits
    requires var credit := ViewOf(n, s, did).credit; credit != [] && credit[0].txn == txn
    ensures Inv(n, CreditedIfSucceeded(s, did, txn))
  {
    hide Inv, ViewOk, CreditOk, RefundOk;
    if s.deposits[did].status.Succeeded? {
      var v, s' := ViewOf(n, s, did), CreditedIfSucceeded(s, did, txn);
      About(n, s, did);
      MarkedView(n, did, v, txn);
      assert ViewOf(n, s', did) == View(v.row.(status := Credited, txn := Some(txn)), v.credit, v.reversal,
                                        v.events + [DepositCredited(did, v.row.account, v.row.amount, txn)]);
      OnlyAboutKeepsInv(n, s, s', did);
    }
  }

  lemma WorkKeepsInv(n: Names, s: State, w: nat, step: CreditStep)
    requires Distinct(n) && Inv(n, s) && WorkEnabled(s, w, step)
    ensures Inv(n, DoWork(s, w, step))
  {
    match step
    case List(did) => QuietKeepsInv(n, s, DoWork(s, w, step));
    case AskLedger(uuid) => AskKeepsInv(n, s, w, uuid);
    case Quit => QuietKeepsInv(n, s, WithoutCredit(s, w));
    case MarkCredited =>
      var c := s.credits[w];
      assert CreditOk(n, s, c);
      CreditedKeepsInv(n, s, c.seen.did, c.txn);
      var marked := CreditedIfSucceeded(s, c.seen.did, c.txn);
      QuietKeepsInv(n, marked, WithoutCredit(marked, w));
  }

  // ----- refunding

  lemma ReversedView(n: Names, did: string, v: View, reversal: seq<L.Entry>)
    requires ViewOk(n, did, v)
    requires reversal == v.reversal || (v.reversal == [] && v.credit != [] && IsReversal(reversal, n.reversal(did), v.row))
    ensures ViewOk(n, did, v.(reversal := reversal)) && Grown(v, v.(reversal := reversal))
  {
  }

  lemma ReverseAnsweredView(n: Names, s: State, seen: Snapshot, ledger: L.Ledger, reply: L.Reply, uuid: L.TransactionId)
    requires Distinct(n) && SeenOk(n, s, seen) && ViewOk(n, seen.did, ViewOf(n, s, seen.did))
    requires forall e :: e in s.deposits ==> n.isId(e)
    requires (ledger, reply) == L.Apply(s.ledger, L.ReverseCall(seen.account, seen.amount, n.reversal(seen.did)), uuid)
    ensures var s', v := s.(ledger := ledger), ViewOf(n, s, seen.did);
            var v' := ViewOf(n, s', seen.did);
            && (forall e :: e in s.deposits && e != seen.did ==> ViewOf(n, s', e) == ViewOf(n, s, e))
            && v' == v.(reversal := v'.reversal)
            && (v'.reversal == v.reversal || (v.reversal == [] && IsReversal(v'.reversal, n.reversal(seen.did), v.row)))
            && (reply.Posted? ==> v'.reversal != [])
  {
    hide L.Apply, IsCredit;
    PostTags(s.ledger, seen.account, L.GENESIS, seen.amount, n.reversal(seen.did), uuid);
  }

  lemma ReverseLedgerKeepsInv(n: Names, s: State, seen: Snapshot, ledger: L.Ledger, reply: L.Reply, uuid: L.TransactionId)
    requires Distinct(n) && Inv(n, s) && SeenOk(n, s, seen) && seen.status.Credited?
    requires (ledger, reply) == L.Apply(s.ledger, L.ReverseCall(seen.account, seen.amount, n.reversal(seen.did)), uuid)
    ensures Inv(n, s.(ledger := ledger))
    ensures reply.Posted? ==> ViewOf(n, s.(ledger := ledger), seen.did).reversal != []
    ensures SeenOk(n, s.(ledger := ledger), seen)
  {
    hide Inv, ViewOk, L.Apply, Grown, IsReversal;
    var s' := s.(ledger := ledger);
    About(n, s, seen.did);
    ReverseAnsweredView(n, s, seen, ledger, reply, uuid);
    ReversedView(n, seen.did, ViewOf(n, s, seen.did), ViewOf(n, s', seen.did).reversal);
    OnlyAboutKeepsInv(n, s, s', seen.did);
  }

  lemma ReverseKeepsInv(n: Names, s: State, q: nat, uuid: L.TransactionId)
    requires Distinct(n) && Inv(n, s) && RefundEnabled(s, q, Reverse(uuid))
    ensures Inv(n, DoRefund(n, s, q, Reverse(uuid)))
  {
    hide Inv, L.Apply, CreditOk, SeenOk;
    var seen := s.refunds[q].found.value;
    var (ledger, reply) := L.Apply(s.ledger, L.ReverseCall(seen.account, seen.amount, n.reversal(seen.did)), uuid);
    RefundFacts(n, s, q);
    ReverseLedgerKeepsInv(n, s, seen, ledger, reply, uuid);
    var s1 := s.(ledger := ledger);
    if reply.Posted? {
      SetRefundKeepsInv(n, s1, q, Reversed(s.refunds[q].ev, seen));
    } else {
      WithoutRefundKeepsInv(n, s1, q);
    }
  }

  lemma SameRefundOk(n: Names, s: State, s': State, r: Refund)
    requires SameTables(s, s') && RefundOk(n, s, r)
    ensures RefundOk(n, s', r)
  {
    forall did | did in s.deposits ensures ViewOf(n, s', did) == ViewOf(n, s, did) {}
    hide ViewOf;
  }

  lemma SetRefundKeepsInv(n: Names, s: State, q: nat, r: Refund)
    requires Inv(n, s) && RefundOk(n, s, r)
    ensures Inv(n, s.(refunds := s.refunds[q := r]))
  {
    hide Inv, CreditOk, ViewOf;
    var s' := s.(refunds := s.refunds[q := r]);
    SameRefundOk(n, s, s', r);
    hide RefundOk;
    QuietKeepsInv(n, s, s');
  }

  lemma RefundedView(n: Names, did: string, v: View)
    requires ViewOk(n, did, v) && v.reversal != []
    ensures ViewOk(n, did, v.(row := v.row.(status := Refunded, reason := None)))
  {
  }

  lemma RefundedKeepsInv(n: Names, s: State, r: Refund)
    requires Inv(n, s) && r.Reversed? && RefundOk(n, s, r)
    ensures Inv(n, Recorded(s, r))
  {
    hide Inv, ViewOk, CreditOk;
    var did, s' := r.seen.did, Recorded(s, r);
    var v := ViewOf(n, s, did);
    About(n, s, did);
    if r.ev !in s.processed {
      RefundedView(n, did, v);
      assert ViewOf(n, s', did) == v.(row := v.row.(status := Refunded, reason := None));
      OnlyAboutKeepsInv(n, s, s', did);
    }
  }

  lemma WithoutRefundKeepsInv(n: Names, s: State, q: nat)
    requires Inv(n, s)
    ensures Inv(n, WithoutRefund(s, q))
  {
    QuietKeepsInv(n, s, WithoutRefund(s, q));
  }

  lemma ReceiveKeepsInv(n: Names, s: State, q: nat, step: RefundStep)
    requires Inv(n, s) && step.Receive? && RefundEnabled(s, q, step)
    ensures Inv(n, DoRefund(n, s, q, step))
  {
    hide Inv, CreditOk;
    if step.hit.Some? { About(n, s, step.hit.value); }
    QuietKeepsInv(n, s, DoRefund(n, s, q, step));
  }

  lemma ReadRecordsStatuses(s: State, r: Refund)
    requires r.Read? && (Touched(r).Some? ==> Touched(r).value in s.deposits)
    ensures OnlyStatuses(s, Recorded(s, r))
  {
  }

  lemma RecordKeepsInv(n: Names, s: State, q: nat)
    requires Inv(n, s) && RefundEnabled(s, q, Record)
    ensures Inv(n, DoRefund(n, s, q, Record))
  {
    var r := s.refunds[q];
    hide Inv;
    RefundFacts(n, s, q);
    hide RefundOk, OnlyStatuses, Recorded;
    if r.Reversed? {
      RefundedKeepsInv(n, s, r);
    } else {
      ReadRecordsStatuses(s, r);
      StatusesKeepInv(n, s, Recorded(s, r));
    }
    WithoutRefundKeepsInv(n, Recorded(s, r), q);
  }

  lemma RefundKeepsInv(n: Names, s: State, q: nat, step: RefundStep)
    requires Distinct(n) && Inv(n, s) && RefundEnabled(s, q, step)
    ensures Inv(n, DoRefund(n, s, q, step))
  {
    hide Inv;
    match step
    case Receive(_, _, _) => ReceiveKeepsInv(n, s, q, step);
    case Reverse(uuid) => ReverseKeepsInv(n, s, q, uuid);
    case Abandon => WithoutRefundKeepsInv(n, s, q);
    case Record => RecordKeepsInv(n, s, q);
  }

  // ----- the rest of the bank

  lemma OtherTags(n: Names, s: State, step: OtherStep, did: string)
    requires OtherEnabled(n, step) && n.isId(did)
    ensures var es := DoOther(s, step).ledger.entries;
            && L.Tagged(es, did) == L.Tagged(s.ledger.entries, did)
            && L.Tagged(es, n.reversal(did)) == L.Tagged(s.ledger.entries, n.reversal(did))
  {
    if step.LedgerCallBy? {
      L.ApplyTags(s.ledger, step.call, step.uuid, did);
      L.ApplyTags(s.ledger, step.call, step.uuid, n.reversal(did));
    }
  }

  lemma OtherKeepsInv(n: Names, s: State, step: OtherStep)
    requires Inv(n, s) && OtherEnabled(n, step)
    ensures Inv(n, DoOther(s, step))
  {
    hide Inv, ViewOk;
    var s' := DoOther(s, step);
    forall did | did in s.deposits ensures ViewOf(n, s', did) == ViewOf(n, s, did) {
      About(n, s, did);
      OtherTags(n, s, step, did);
    }
    SameViewsKeepInv(n, s, s');
  }

  lemma SameViewsKeepInv(n: Names, s: State, s': State)
    requires Inv(n, s) && s'.deposits == s.deposits && s'.outbox == s.outbox && s'.credits == s.credits && s'.refunds == s.refunds
    requires forall did :: did in s.deposits ==> ViewOf(n, s', did) == ViewOf(n, s, did)
    ensures Inv(n, s')
  {
    hide ViewOf, ViewOk;
    TasksStay(n, s, s');
  }

  // ----- runs

  lemma StepKeepsInv(n: Names, s: State, a: Action)
    requires Distinct(n) && Inv(n, s) && Enabled(n, s, a)
    ensures Inv(n, Do(n, s, a))
  {
    hide Inv;
    match a
    case Row(step) => RowKeepsInv(n, s, step);
    case Stripe(ev, kind, pi) => StripeKeepsInv(n, s, ev, kind, pi);
    case Work(w, step) => WorkKeepsInv(n, s, w, step);
    case Refunding(q, step) => RefundKeepsInv(n, s, q, step);
    case Other(step) => OtherKeepsInv(n, s, step);
  }

  lemma {:induction false} RunKeepsInv(n: Names, s: State, acts: seq<Action>)
    requires Distinct(n) && Inv(n, s) && ValidRun(n, s, acts)
    ensures Inv(n, Exec(n, s, acts))
    decreases acts
  {
    hide Inv;
    if acts != [] {
      StepKeepsInv(n, s, acts[0]);
      RunKeepsInv(n, Do(n, s, acts[0]), acts[1..]);
    }
  }
}
