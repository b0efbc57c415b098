/** transfers-svc's transfer path: the POST handler (create, fraud check, settle),
    the two remote calls it makes, and the reconciliation worker, as steps that
    interleave freely with crashes, lost replies, duplicate requests and time.
    The ledger is the atomic one, which LedgerMachine justifies. */
module TransferSaga {
  import opened Options
  import opened Order
  import L = LedgerSpec

  /** `staleAfter` is the reconciliation threshold, `callTimeout` the timeout of
      the fraud call and of the ledger call, `gap` the longest a live request
      pauses between an answer and its next call. */
  datatype Config = Config(staleAfter: nat, callTimeout: nat, gap: nat)

  /** A row is stale only after everything its request could still do. */
  predicate Timely(cfg: Config) {
    2 * cfg.gap + 2 * cfg.callTimeout <= cfg.staleAfter
  }

  datatype Status = Pending | Completed(txn: L.TransactionId) | Failed(reason: string) | Rejected(rule: string)

  /** A transfers row, keyed by its id, which is also its ledger reference. */
  datatype Row = Row(key: string, sender: string, recipient: string, amount: int, status: Status,
                     createdAt: nat, updatedAt: nat)

  /** What the client sent; the recipient IBAN is resolved by a remote call. */
  datatype Params = Params(key: string, sender: string, amount: int)

  datatype Pc =
    | New
    | Resolving
    | Validated(recipient: string)
    | LostRace
    | Replaying(tid: string, snapshot: Row)
    | NeedFraud(tid: string, since: nat)
    | AwaitFraud(tid: string, deadline: nat)
    | NeedSettle(tid: string, since: nat)
    | AwaitLedger(tid: string, deadline: nat)

  datatype Request = Request(p: Params, pc: Pc)

  /** A remote call lives on its own: its caller may crash or give up, and the
      server may still serve it, though never past its deadline. */
  datatype FraudCall = FraudSent(deadline: nat) | FraudAnswered(deadline: nat, approve: bool)
  datatype LedgerCall = LedgerSent(deadline: nat) | LedgerAnswered(deadline: nat, reply: L.Reply)

  datatype Worker = Picked(tid: string) | Told(tid: string, answer: Option<L.TransactionId>)

  datatype Event =
    | TransferCompleted(tid: string, sender: string, recipient: string, amount: int, txn: L.TransactionId)
    | TransferFailed(tid: string, sender: string, recipient: string, amount: int, reason: string)
    | TransferRejected(tid: string, sender: string, recipient: string, amount: int, rule: string)

  /** A response that reports transfer `tid` to a request with these parameters. */
  datatype Answer = Answer(p: Params, recipient: string, tid: string)

  /** `checks` is fraud_checks and `outbox` the outbox table, each grouped by
      transfer: for every transfer, its rows in the order they were committed. */
  datatype State = State(now: nat, rows: map<string, Row>, requests: map<nat, Request>,
                         fraudCalls: map<string, FraudCall>, ledgerCalls: map<string, LedgerCall>,
                         workers: map<nat, Worker>, ledger: L.Ledger,
                         checks: map<string, seq<bool>>, outbox: map<string, seq<Event>>,
                         answers: seq<Answer>)

  datatype ClientStep =
    | Arrive(p: Params)
    | Lookup(hit: Option<string>)
    | Resolve(recipient: string)
    | Insert(tid: string)
    | ReadWinner(tid: string)
    | FinishReplay(recipient: string)
    | Drop                              // crash, or a refusal that reports no transfer

  datatype CallStep =
    | StartFraud
    | FraudReply(rule: string)
    | StartSettle
    | LedgerReply
    | GiveUp                            // 202: outcome unknown

  datatype ServeStep =
    | Score(approve: bool)
    | Execute(uuid: L.TransactionId)
    | ExecuteError                      // codes.Internal: rolled back

  datatype WorkStep = Pick(tid: string) | Ask | MarkIt | Quit

  datatype OtherStep = LedgerCallBy(call: L.Call, uuid: L.TransactionId) | OpenAccount(account: string)

  datatype Action =
    | Tick(d: nat)
    | Client(r: nat, client: ClientStep)
    | Call(r: nat, call: CallStep)
    | Serve(tid: string, serve: ServeStep)
    | Work(w: nat, work: WorkStep)
    | Other(other: OtherStep)

  // ----- tables grouped by transfer

  function At<T>(m: map<string, seq<T>>, tid: string): seq<T> {
    if tid in m then m[tid] else []
  }

  function Add<T>(m: map<string, seq<T>>, tid: string, x: T): map<string, seq<T>> {
    m[tid := At(m, tid) + [x]]
  }

  // ----- table writes

  /** The outbox event written in the same transaction as a terminal status. */
  function EventOf(tid: string, row: Row): Event
    requires !row.status.Pending?
  {
    match row.status
    case Completed(txn) => TransferCompleted(tid, row.sender, row.recipient, row.amount, txn)
    case Failed(reason) => TransferFailed(tid, row.sender, row.recipient, row.amount, reason)
    case Rejected(rule) => TransferRejected(tid, row.sender, row.recipient, row.amount, rule)
  }

  /** markTransferCompleted / Failed / Rejected: unguarded UPDATE plus its event. */
  function Mark(s: State, tid: string, status: Status): State
    requires tid in s.rows && !status.Pending?
  {
    var row := s.rows[tid].(status := status, updatedAt := s.now);
    s.(rows := s.rows[tid := row], outbox := Add(s.outbox, tid, EventOf(tid, row)))
  }

  /** markTransfer*IfPending: the same, only while the row is pending. */
  function MarkIfPending(s: State, tid: string, status: Status): State
    requires tid in s.rows && !status.Pending?
  {
    if s.rows[tid].status.Pending? then Mark(s, tid, status) else s
  }

  /** settleTransfer's reading of a definite ledger answer. */
  function Settled(reply: L.Reply): (status: Status)
    ensures !status.Pending?
    ensures status.Completed? <==> reply.Posted?
  {
    match reply
    case Posted(txn) => Completed(txn)
    case InsufficientFunds => Failed("insufficient_funds")
    case FromNotFound | ToNotFound | AccountNotFound => Failed("account_not_found")
    case InvalidAmount => Failed("invalid_amount")
    case _ => Failed("ledger_internal_error")
  }

  /** reconcileTransfer's reading of the ledger's answer. */
  function Reconciled(answer: Option<L.TransactionId>): (status: Status)
    ensures !status.Pending?
  {
    match answer
    case Some(txn) => Completed(txn)
    case None => Failed("timeout_unresolved")
  }

  function LedgerArgs(tid: string, row: Row): L.Call {
    L.Transfer(row.sender, row.recipient, row.amount, tid)
  }

  /** Picked up by the worker's query: pending and last touched too long ago. */
  predicate Stale(cfg: Config, now: nat, row: Row) {
    row.updatedAt + cfg.staleAfter < now
  }

  // ----- steps

  predicate KeyTaken(s: State, key: string) {
    exists tid :: tid in s.rows && s.rows[tid].key == key
  }

  /** gen_random_uuid(): an id nobody has used, as a transfer or as a reference. */
  predicate FreshTid(s: State, tid: string) {
    tid != "" && tid !in s.rows && L.Tagged(s.ledger.entries, tid) == []
  }

  predicate ClientEnabled(s: State, r: nat, step: ClientStep) {
    match step
    case Arrive(_) => r !in s.requests
    case Lookup(hit) =>
      && r in s.requests && s.requests[r].pc.New?
      && (match hit
          case Some(tid) => tid in s.rows && s.rows[tid].key == s.requests[r].p.key
          case None => !KeyTaken(s, s.requests[r].p.key))
    case Resolve(recipient) => r in s.requests && s.requests[r].pc.Resolving? && recipient != s.requests[r].p.sender
    case Insert(tid) => r in s.requests && s.requests[r].pc.Validated? && FreshTid(s, tid)
    case ReadWinner(tid) =>
      r in s.requests && s.requests[r].pc.LostRace? && tid in s.rows && s.rows[tid].key == s.requests[r].p.key
    case FinishReplay(_) => r in s.requests && s.requests[r].pc.Replaying?
    case Drop => r in s.requests
  }

  /** A request acts within `gap` of its last answer, and only before its call's
      deadline: the same context covers the call and the write that follows it. */
  predicate CallEnabled(cfg: Config, s: State, r: nat, step: CallStep) {
    && r in s.requests && Owns(s.requests[r].pc) && s.requests[r].pc.tid in s.rows
    && var pc := s.requests[r].pc;
       match step
       case StartFraud => pc.NeedFraud? && s.now <= pc.since + cfg.gap
       case FraudReply(_) =>
         pc.AwaitFraud? && s.now <= pc.deadline && pc.tid in s.fraudCalls && s.fraudCalls[pc.tid].FraudAnswered?
       case StartSettle => pc.NeedSettle? && s.now <= pc.since + cfg.gap
       case LedgerReply =>
         pc.AwaitLedger? && s.now <= pc.deadline && pc.tid in s.ledgerCalls && s.ledgerCalls[pc.tid].LedgerAnswered?
       case GiveUp => pc.AwaitFraud? || pc.AwaitLedger?
  }

  /** A call is never served after its deadline. */
  predicate ServeEnabled(s: State, tid: string, step: ServeStep) {
    && tid in s.rows
    && if step.Score? then
         tid in s.fraudCalls && s.fraudCalls[tid].FraudSent? && s.now <= s.fraudCalls[tid].deadline
       else
         tid in s.ledgerCalls && s.ledgerCalls[tid].LedgerSent? && s.now <= s.ledgerCalls[tid].deadline
  }

  predicate WorkEnabled(cfg: Config, s: State, w: nat, step: WorkStep) {
    match step
    case Pick(tid) =>
      w !in s.workers && tid in s.rows && s.rows[tid].status.Pending? && Stale(cfg, s.now, s.rows[tid])
    case Ask => w in s.workers && s.workers[w].Picked?
    case MarkIt => w in s.workers && s.workers[w].Told? && s.workers[w].tid in s.rows
    case Quit => w in s.workers
  }

  /** Deposits, reversals and withdrawals never use a transfer id as reference. */
  predicate OtherEnabled(s: State, step: OtherStep) {
    step.LedgerCallBy? ==> step.call.Rebuild? || step.call.reference !in s.rows
  }

  predicate Enabled(cfg: Config, s: State, a: Action) {
    match a
    case Tick(_) => true
    case Client(r, step) => ClientEnabled(s, r, step)
    case Call(r, step) => CallEnabled(cfg, s, r, step)
    case Serve(tid, step) => ServeEnabled(s, tid, step)
    case Work(w, step) => WorkEnabled(cfg, s, w, step)
    case Other(step) => OtherEnabled(s, step)
  }

  function SetPc(s: State, r: nat, pc: Pc): State
    requires r in s.requests
  {
    s.(requests := s.requests[r := s.requests[r].(pc := pc)])
  }

  /** The request is over, with or without a response. */
  function End(s: State, r: nat): State {
    s.(requests := map q | q in s.requests && q != r :: s.requests[q])
  }

  /** The request is over and its response reports transfer `tid`. */
  function Report(s: State, r: nat, tid: string): State
    requires r in s.requests && tid in s.rows
  {
    End(s, r).(answers := s.answers + [Answer(s.requests[r].p, s.rows[tid].recipient, tid)])
  }

  function DoClient(s: State, r: nat, step: ClientStep): State
    requires ClientEnabled(s, r, step)
  {
    match step
    case Arrive(p) => s.(requests := s.requests[r := Request(p, New)])
    case Lookup(hit) =>
      if hit.Some? then SetPc(s, r, Replaying(hit.value, s.rows[hit.value]))
      else if s.requests[r].p.amount <= 0 then End(s, r)
      else SetPc(s, r, Resolving)
    case Resolve(recipient) => SetPc(s, r, Validated(recipient))
    case Insert(tid) =>
      if KeyTaken(s, s.requests[r].p.key) then SetPc(s, r, LostRace)
      else Inserted(s, r, tid, NewRow(s.requests[r].p, s.requests[r].pc.recipient, s.now))
    case ReadWinner(tid) => SetPc(s, r, Replaying(tid, s.rows[tid]))
    case FinishReplay(recipient) =>
      var p, pc := s.requests[r].p, s.requests[r].pc;
      if pc.snapshot.sender == p.sender && pc.snapshot.amount == p.amount && pc.snapshot.recipient == recipient
      then End(s, r).(answers := s.answers + [Answer(p, recipient, pc.tid)])
      else End(s, r)
    case Drop => End(s, r)
  }

  function NewRow(p: Params, recipient: string, now: nat): Row {
    Row(p.key, p.sender, recipient, p.amount, Pending, now, now)
  }

  function Inserted(s: State, r: nat, tid: string, row: Row): State
    requires r in s.requests
  {
    SetPc(s, r, NeedFraud(tid, s.now)).(rows := s.rows[tid := row])
  }

  function FraudStarted(s: State, r: nat, tid: string, deadline: nat): State
    requires r in s.requests
  {
    SetPc(s, r, AwaitFraud(tid, deadline)).(fraudCalls := s.fraudCalls[tid := FraudSent(deadline)])
  }

  function SettleStarted(s: State, r: nat, tid: string, deadline: nat): State
    requires r in s.requests
  {
    SetPc(s, r, AwaitLedger(tid, deadline)).(ledgerCalls := s.ledgerCalls[tid := LedgerSent(deadline)])
  }

  function DoCall(cfg: Config, s: State, r: nat, step: CallStep): State
    requires CallEnabled(cfg, s, r, step)
  {
    var tid := s.requests[r].pc.tid;
    match step
    case StartFraud => FraudStarted(s, r, tid, s.now + cfg.callTimeout)
    case FraudReply(rule) =>
      if s.fraudCalls[tid].approve then SetPc(s, r, NeedSettle(tid, s.now))
      else Report(Mark(s, tid, Rejected(rule)), r, tid)
    case StartSettle => SettleStarted(s, r, tid, s.now + cfg.callTimeout)
    case LedgerReply => Report(Mark(s, tid, Settled(s.ledgerCalls[tid].reply)), r, tid)
    case GiveUp => Report(s, r, tid)
  }

  function Scored(s: State, tid: string, approve: bool): State
    requires tid in s.fraudCalls
  {
    s.(checks := Add(s.checks, tid, approve),
       fraudCalls := s.fraudCalls[tid := FraudAnswered(s.fraudCalls[tid].deadline, approve)])
  }

  function LedgerAnsweredWith(s: State, tid: string, ledger: L.Ledger, reply: L.Reply): State
    requires tid in s.ledgerCalls
  {
    s.(ledger := ledger, ledgerCalls := s.ledgerCalls[tid := LedgerAnswered(s.ledgerCalls[tid].deadline, reply)])
  }

  function DoServe(s: State, tid: string, step: ServeStep): State
    requires ServeEnabled(s, tid, step)
  {
    match step
    case Score(approve) => Scored(s, tid, approve)
    case Execute(uuid) =>
      var (ledger, reply) := L.Apply(s.ledger, LedgerArgs(tid, s.rows[tid]), uuid);
      LedgerAnsweredWith(s, tid, ledger, reply)
    case ExecuteError => LedgerAnsweredWith(s, tid, s.ledger, L.Failed)
  }

  function WithoutWorker(s: State, w: nat): State {
    s.(workers := map v | v in s.workers && v != w :: s.workers[v])
  }

  function DoWork(cfg: Config, s: State, w: nat, step: WorkStep): State
    requires WorkEnabled(cfg, s, w, step)
  {
    match step
    case Pick(tid) => s.(workers := s.workers[w := Picked(tid)])
    case Ask => s.(workers := s.workers[w := Told(s.workers[w].tid, L.Find(s.ledger.entries, s.workers[w].tid))])
    case MarkIt => WithoutWorker(MarkIfPending(s, s.workers[w].tid, Reconciled(s.workers[w].answer)), w)
    case Quit => WithoutWorker(s, w)
  }

  function DoOther(s: State, step: OtherStep): State {
    match step
    case LedgerCallBy(call, uuid) => s.(ledger := L.Apply(s.ledger, call, uuid).0)
    case OpenAccount(account) => s.(ledger := s.ledger.(accounts := s.ledger.accounts + {Lower(account)}))
  }

  function Do(cfg: Config, s: State, a: Action): State
    requires Enabled(cfg, s, a)
  {
    match a
    case Tick(d) => s.(now := s.now + d)
    case Client(r, step) => DoClient(s, r, step)
    case Call(r, step) => DoCall(cfg, s, r, step)
    case Serve(tid, step) => DoServe(s, tid, step)
    case Work(w, step) => DoWork(cfg, s, w, step)
    case Other(step) => DoOther(s, step)
  }

  function Initial(ledger: L.Ledger): State {
    State(0, map[], map[], map[], map[], map[], ledger, map[], map[], [])
  }

  predicate ValidRun(cfg: Config, s: State, acts: seq<Action>)
    decreases acts
  {
    acts != [] ==> Enabled(cfg, s, acts[0]) && ValidRun(cfg, Do(cfg, s, acts[0]), acts[1..])
  }

  function Exec(cfg: Config, s: State, acts: seq<Action>): State
    requires ValidRun(cfg, s, acts)
    decreases acts
  {
    if acts == [] then s else Exec(cfg, Do(cfg, s, acts[0]), acts[1..])
  }

  // ----- what is promised of a transfer

  /** The ledger carries this transfer's pair, and nothing else under its id. */
  predicate MovedOnce(s: State, tid: string, txn: L.TransactionId)
    requires tid in s.rows
  {
    var row := s.rows[tid];
    L.Tagged(s.ledger.entries, tid) == L.Pair(Lower(row.sender), Lower(row.recipient), row.amount, tid, txn)
  }

  predicate MovedNothing(s: State, tid: string) {
    L.Tagged(s.ledger.entries, tid) == []
  }

  /** Completed: its one pair is in the ledger under the recorded transaction, and
      one TransferCompleted is out. Failed or rejected: no money moved, and one
      matching event is out. Pending: at most one pair, and no event. Money only
      moves after a recorded approval, and fraud-svc was asked at most once. The
      amount is positive, and nobody pays himself. */
  ghost predicate Safe(s: State, tid: string)
    requires tid in s.rows
  {
    var row := s.rows[tid];
    && row.amount > 0 && row.sender != row.recipient
    && At(s.outbox, tid) == (if row.status.Pending? then [] else [EventOf(tid, row)])
    && (match row.status
        case Completed(txn) => MovedOnce(s, tid, txn)
        case Failed(_) => MovedNothing(s, tid)
        case Rejected(_) => MovedNothing(s, tid)
        case Pending => MovedNothing(s, tid) || exists txn :: MovedOnce(s, tid, txn))
    && (!MovedNothing(s, tid) ==> At(s.checks, tid) == [true])
    && |At(s.checks, tid)| <= 1
  }

  /** Every response that reports a transfer reports the one row of its key, and
      only to a request with that row's sender, recipient and amount. */
  predicate AnswerOk(s: State, ans: Answer) {
    && ans.tid in s.rows
    && s.rows[ans.tid].key == ans.p.key
    && s.rows[ans.tid].sender == ans.p.sender
    && s.rows[ans.tid].recipient == ans.recipient
    && s.rows[ans.tid].amount == ans.p.amount
  }

  predicate OneRowPerKey(s: State) {
    forall t, u :: t in s.rows && u in s.rows && s.rows[t].key == s.rows[u].key ==> t == u
  }

  // ----- the invariant

  /** Everything the system holds about one transfer. */
  datatype View = View(row: Row, fraud: Option<FraudCall>, call: Option<LedgerCall>,
                       tagged: seq<L.Entry>, events: seq<Event>, checks: seq<bool>)

  function ViewOf(s: State, tid: string): View
    requires tid in s.rows
  {
    View(s.rows[tid],
         if tid in s.fraudCalls then Some(s.fraudCalls[tid]) else None,
         if tid in s.ledgerCalls then Some(s.ledgerCalls[tid]) else None,
         L.Tagged(s.ledger.entries, tid), At(s.outbox, tid), At(s.checks, tid))
  }

  /** Past the point where its request, or a call it sent, could still act. */
  predicate Expired(cfg: Config, now: nat, row: Row) {
    row.createdAt + cfg.staleAfter < now
  }

  predicate Executed(v: View) {
    v.call.Some? && v.call.value.LedgerAnswered? && v.call.value.reply.Posted?
  }

  predicate ViewOk(cfg: Config, now: nat, tid: string, v: View) {
    && tid != "" && v.row.createdAt <= now && v.row.amount > 0 && v.row.sender != v.row.recipient
    && (v.row.status.Pending? ==> v.row.updatedAt == v.row.createdAt)
    && (v.fraud.Some? ==> v.fraud.value.deadline <= v.row.createdAt + cfg.gap + cfg.callTimeout)
    && (v.call.Some? ==> v.call.value.deadline <= v.row.createdAt + 2 * cfg.gap + 2 * cfg.callTimeout)
    && (v.call.Some? ==> v.fraud.Some? && v.fraud.value.FraudAnswered? && v.fraud.value.approve)
    && v.tagged == (if Executed(v)
                    then L.Pair(Lower(v.row.sender), Lower(v.row.recipient), v.row.amount, tid, v.call.value.reply.txn)
                    else [])
    && v.events == (if v.row.status.Pending? then [] else [EventOf(tid, v.row)])
    && v.checks == (if v.fraud.Some? && v.fraud.value.FraudAnswered? then [v.fraud.value.approve] else [])
    && (match v.row.status
        case Pending => true
        case Completed(txn) => Executed(v) && v.call.value.reply.txn == txn
        case Failed(_) =>
          !Executed(v) && (Expired(cfg, now, v.row) || (v.call.Some? && v.call.value.LedgerAnswered?))
        case Rejected(_) => v.fraud.Some? && v.fraud.value.FraudAnswered? && !v.fraud.value.approve)
  }

  predicate Owns(pc: Pc) {
    pc.NeedFraud? || pc.AwaitFraud? || pc.NeedSettle? || pc.AwaitLedger?
  }

  /** What a request knows about the transfer it created. */
  predicate OwnerOk(cfg: Config, now: nat, req: Request, v: View)
    requires Owns(req.pc)
  {
    && v.row.key == req.p.key && v.row.sender == req.p.sender && v.row.amount == req.p.amount
    && (v.row.status.Pending? || Expired(cfg, now, v.row))
    && (match req.pc
        case NeedFraud(_, since) => since == v.row.createdAt && v.fraud.None?
        case AwaitFraud(_, deadline) => v.fraud.Some? && v.fraud.value.deadline == deadline && v.call.None?
        case NeedSettle(_, since) =>
          && since <= v.row.createdAt + cfg.gap + cfg.callTimeout && v.call.None?
          && v.fraud.Some? && v.fraud.value.FraudAnswered? && v.fraud.value.approve
        case AwaitLedger(_, deadline) => v.call.Some? && v.call.value.deadline == deadline)
  }

  predicate SameIdentity(a: Row, b: Row) {
    a.key == b.key && a.sender == b.sender && a.recipient == b.recipient && a.amount == b.amount
  }

  predicate RequestOk(cfg: Config, s: State, req: Request) {
    match req.pc
    case New => true
    case Resolving => req.p.amount > 0
    case Validated(recipient) => req.p.amount > 0 && recipient != req.p.sender
    case LostRace => true
    case Replaying(tid, snapshot) => tid in s.rows && SameIdentity(snapshot, s.rows[tid]) && snapshot.key == req.p.key
    case _ => req.pc.tid in s.rows && OwnerOk(cfg, s.now, req, ViewOf(s, req.pc.tid))
  }

  predicate WorkerOk(cfg: Config, s: State, w: Worker) {
    && w.tid in s.rows && Expired(cfg, s.now, s.rows[w.tid])
    && (w.Told? ==> w.answer == L.Find(s.ledger.entries, w.tid))
  }

  predicate TablesOk(cfg: Config, s: State) {
    && OneRowPerKey(s)
    && (forall tid :: tid in s.rows ==> ViewOk(cfg, s.now, tid, ViewOf(s, tid)))
    && KeysOk(s)
  }

  /** Calls, events and checks are about transfers that exist. */
  predicate KeysOk(s: State) {
    && s.fraudCalls.Keys <= s.rows.Keys && s.ledgerCalls.Keys <= s.rows.Keys
    && s.outbox.Keys <= s.rows.Keys && s.checks.Keys <= s.rows.Keys
  }

  predicate OwnerOf(s: State, q: nat, tid: string) {
    q in s.requests && Owns(s.requests[q].pc) && s.requests[q].pc.tid == tid
  }

  predicate RequestsOk(cfg: Config, s: State) {
    && (forall r :: r in s.requests ==> RequestOk(cfg, s, s.requests[r]))
    && (forall q, r :: q in s.requests && r in s.requests && q != r && Owns(s.requests[q].pc) ==>
                         !OwnerOf(s, r, s.requests[q].pc.tid))
  }

  predicate WorkersOk(cfg: Config, s: State) {
    forall w :: w in s.workers ==> WorkerOk(cfg, s, s.workers[w])
  }

  predicate AnswersOk(s: State) {
    forall k :: 0 <= k < |s.answers| ==> AnswerOk(s, s.answers[k])
  }

  predicate Inv(cfg: Config, s: State) {
    TablesOk(cfg, s) && RequestsOk(cfg, s) && WorkersOk(cfg, s) && AnswersOk(s)
  }

  // ----- preservation

  /** Time alone spoils nothing. */
  lemma LaterIsOk(cfg: Config, now: nat, later: nat, tid: string, v: View)
    requires now <= later && ViewOk(cfg, now, tid, v)
    ensures ViewOk(cfg, later, tid, v)
  {
  }

  /** Only the clock may differ, and only forwards. */
  predicate SameTables(s: State, s': State) {
    && s.now <= s'.now
    && s'.rows == s.rows && s'.fraudCalls == s.fraudCalls && s'.ledgerCalls == s.ledgerCalls
    && s'.checks == s.checks && s'.ledger == s.ledger && s'.outbox == s.outbox
  }

  lemma SameTablesOk(cfg: Config, s: State, s': State)
    requires TablesOk(cfg, s) && SameTables(s, s')
    ensures TablesOk(cfg, s')
  {
    forall tid | tid in s'.rows ensures ViewOk(cfg, s'.now, tid, ViewOf(s', tid)) {
      assert ViewOf(s', tid) == ViewOf(s, tid);
      LaterIsOk(cfg, s.now, s'.now, tid, ViewOf(s, tid));
    }
  }

  lemma SameRequestOk(cfg: Config, s: State, s': State, req: Request)
    requires SameTables(s, s') && RequestOk(cfg, s, req)
    ensures RequestOk(cfg, s', req)
  {
    if Owns(req.pc) { assert ViewOf(s', req.pc.tid) == ViewOf(s, req.pc.tid); }
  }

  /** The tables stand still while requests, workers and answers move. */
  lemma QuietKeepsInv(cfg: Config, s: State, s': State)
    requires Inv(cfg, s) && SameTables(s, s')
    requires forall q :: q in s'.requests ==>
               (q in s.requests && s'.requests[q] == s.requests[q]) || RequestOk(cfg, s, s'.requests[q])
    requires forall q :: q in s'.requests && Owns(s'.requests[q].pc) ==> OwnerOf(s, q, s'.requests[q].pc.tid)
    requires forall w :: w in s'.workers ==> WorkerOk(cfg, s, s'.workers[w])
    requires forall k :: 0 <= k < |s'.answers| ==> AnswerOk(s, s'.answers[k])
    ensures Inv(cfg, s')
  {
    SameTablesOk(cfg, s, s');
    forall q | q in s'.requests ensures RequestOk(cfg, s', s'.requests[q]) {
      SameRequestOk(cfg, s, s', s'.requests[q]);
    }
  }

  lemma TickKeepsInv(cfg: Config, s: State, d: nat)
    requires Inv(cfg, s)
    ensures Inv(cfg, s.(now := s.now + d))
  {
    QuietKeepsInv(cfg, s, s.(now := s.now + d));
  }

  lemma SetPcKeepsInv(cfg: Config, s: State, r: nat, pc: Pc)
    requires Inv(cfg, s) && r in s.requests
    requires RequestOk(cfg, s, s.requests[r].(pc := pc))
    requires Owns(pc) ==> Owns(s.requests[r].pc) && s.requests[r].pc.tid == pc.tid
    ensures Inv(cfg, SetPc(s, r, pc))
  {
    QuietKeepsInv(cfg, s, SetPc(s, r, pc));
  }

  lemma EndKeepsInv(cfg: Config, s: State, r: nat)
    requires Inv(cfg, s)
    ensures Inv(cfg, End(s, r))
  {
    QuietKeepsInv(cfg, s, End(s, r));
  }

  lemma AnswerKeepsInv(cfg: Config, s: State, ans: Answer)
    requires Inv(cfg, s) && AnswerOk(s, ans)
    ensures Inv(cfg, s.(answers := s.answers + [ans]))
  {
    QuietKeepsInv(cfg, s, s.(answers := s.answers + [ans]));
  }

  /** A step about one transfer: its view changes, and perhaps its owner's state. */
  predicate OnlyAbout(s: State, s': State, tid: string) {
    && tid in s.rows && s'.now == s.now
    && s'.rows.Keys == s.rows.Keys
    && SameIdentity(s.rows[tid], s'.rows[tid]) && s'.rows[tid].createdAt == s.rows[tid].createdAt
    && (forall u :: u in s.rows && u != tid ==> ViewOf(s', u) == ViewOf(s, u))
    && KeysOk(s')
    && (forall q :: q in s'.requests ==>
          q in s.requests && (s'.requests[q] == s.requests[q] || (OwnerOf(s, q, tid) && OwnerOf(s', q, tid))))
    && s'.workers == s.workers && s'.answers == s.answers
  }

  lemma OnlyAboutKeepsRows(s: State, s': State, tid: string)
    requires OnlyAbout(s, s', tid)
    ensures forall u :: u in s.rows ==> SameIdentity(s.rows[u], s'.rows[u]) && s'.rows[u].createdAt == s.rows[u].createdAt
  {
    forall u | u in s.rows
      ensures SameIdentity(s.rows[u], s'.rows[u]) && s'.rows[u].createdAt == s.rows[u].createdAt
    {
      if u != tid { assert ViewOf(s', u).row == ViewOf(s, u).row; }
    }
  }

  lemma OnlyAboutKeepsTables(cfg: Config, s: State, s': State, tid: string)
    requires TablesOk(cfg, s) && OnlyAbout(s, s', tid)
    requires ViewOk(cfg, s.now, tid, ViewOf(s', tid))
    ensures TablesOk(cfg, s')
  {
    OnlyAboutKeepsRows(s, s', tid);
    forall u | u in s'.rows ensures ViewOk(cfg, s'.now, u, ViewOf(s', u)) {
      assert u != tid ==> ViewOf(s', u) == ViewOf(s, u);
    }
  }

  lemma OnlyAboutKeepsRequests(cfg: Config, s: State, s': State, tid: string)
    requires RequestsOk(cfg, s) && OnlyAbout(s, s', tid)
    requires forall q :: OwnerOf(s', q, tid) ==> OwnerOk(cfg, s.now, s'.requests[q], ViewOf(s', tid))
    ensures RequestsOk(cfg, s')
  {
    OnlyAboutKeepsRows(s, s', tid);
    forall q | q in s'.requests ensures RequestOk(cfg, s', s'.requests[q]) {
      if !OwnerOf(s', q, tid) { assert RequestOk(cfg, s, s.requests[q]); }
    }
  }

  lemma OnlyAboutKeepsRest(cfg: Config, s: State, s': State, tid: string)
    requires WorkersOk(cfg, s) && AnswersOk(s) && OnlyAbout(s, s', tid)
    requires ViewOf(s', tid).tagged == ViewOf(s, tid).tagged || !Expired(cfg, s.now, s.rows[tid])
    ensures WorkersOk(cfg, s') && AnswersOk(s')
  {
    OnlyAboutKeepsRows(s, s', tid);
    forall w | w in s'.workers ensures WorkerOk(cfg, s', s'.workers[w]) {
      var u := s.workers[w].tid;
      assert WorkerOk(cfg, s, s.workers[w]);
      assert u != tid ==> ViewOf(s', u).tagged == ViewOf(s, u).tagged;
    }
    forall k | 0 <= k < |s'.answers| ensures AnswerOk(s', s'.answers[k]) { assert AnswerOk(s, s.answers[k]); }
  }

  /** The step leaves its transfer, and whoever owns it, in order. */
  ghost predicate AboutOk(cfg: Config, s: State, s': State, tid: string) {
    && OnlyAbout(s, s', tid)
    && ViewOk(cfg, s.now, tid, ViewOf(s', tid))
    && (forall q :: OwnerOf(s', q, tid) ==> OwnerOk(cfg, s.now, s'.requests[q], ViewOf(s', tid)))
    && (ViewOf(s', tid).tagged == ViewOf(s, tid).tagged || !Expired(cfg, s.now, s.rows[tid]))
  }

  lemma AboutKeepsInv(cfg: Config, s: State, s': State, tid: string)
    requires Inv(cfg, s) && AboutOk(cfg, s, s', tid)
    ensures Inv(cfg, s')
  {
    OnlyAboutKeepsTables(cfg, s, s', tid);
    OnlyAboutKeepsRequests(cfg, s, s', tid);
    OnlyAboutKeepsRest(cfg, s, s', tid);
  }

  ghost predicate SoleOwner(s: State, r: nat, tid: string) {
    OwnerOf(s, r, tid) && forall q :: OwnerOf(s, q, tid) ==> q == r
  }

  /** What the invariant says about one transfer. */
  lemma AboutTransfer(cfg: Config, s: State, tid: string)
    requires Inv(cfg, s) && tid in s.rows
    ensures KeysOk(s) && ViewOk(cfg, s.now, tid, ViewOf(s, tid))
    ensures forall q :: OwnerOf(s, q, tid) ==> OwnerOk(cfg, s.now, s.requests[q], ViewOf(s, tid))
    ensures forall r :: OwnerOf(s, r, tid) ==> SoleOwner(s, r, tid)
  {
    forall q | OwnerOf(s, q, tid) ensures OwnerOk(cfg, s.now, s.requests[q], ViewOf(s, tid)) {
      assert RequestOk(cfg, s, s.requests[q]);
    }
  }
}
