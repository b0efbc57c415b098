/** Safety of the transfer saga over every run, and the exact timing condition
    it rests on. */
module TransferSafety {
  import opened Options
  import opened Order
  import L = LedgerSpec
  import opened TransferSaga

  // ----- one transfer's view through one step

  /** A call still being served belongs to a row that is not stale: here is where
      the timing condition is used. */
  lemma ServedIsFresh(cfg: Config, now: nat, tid: string, v: View)
    requires Timely(cfg) && ViewOk(cfg, now, tid, v)
    requires (v.call.Some? && now <= v.call.value.deadline) || (v.fraud.Some? && now <= v.fraud.value.deadline)
    ensures !Expired(cfg, now, v.row)
  {
  }

  lemma ScoredView(cfg: Config, now: nat, tid: string, v: View, approve: bool)
    requires ViewOk(cfg, now, tid, v) && v.fraud.Some? && v.fraud.value.FraudSent?
    ensures ViewOk(cfg, now, tid, v.(fraud := Some(FraudAnswered(v.fraud.value.deadline, approve)),
                                     checks := v.checks + [approve]))
  {
  }

  lemma ExecutedView(cfg: Config, now: nat, tid: string, v: View, reply: L.Reply, pair: seq<L.Entry>)
    requires ViewOk(cfg, now, tid, v) && v.call.Some? && v.call.value.LedgerSent?
    requires reply.Posted? ==> !Expired(cfg, now, v.row)
    requires pair == if reply.Posted?
                     then L.Pair(Lower(v.row.sender), Lower(v.row.recipient), v.row.amount, tid, reply.txn) else []
    ensures ViewOk(cfg, now, tid, v.(call := Some(LedgerAnswered(v.call.value.deadline, reply)), tagged := v.tagged + pair))
  {
  }

  function MarkedRow(row: Row, status: Status, now: nat): Row {
    row.(status := status, updatedAt := now)
  }

  /** What must be known before a terminal status may be written. */
  predicate Justified(cfg: Config, now: nat, v: View, status: Status) {
    match status
    case Pending => false
    case Completed(txn) => Executed(v) && v.call.value.reply.txn == txn
    case Failed(_) => !Executed(v) && (Expired(cfg, now, v.row) || (v.call.Some? && v.call.value.LedgerAnswered?))
    case Rejected(_) => v.fraud.Some? && v.fraud.value.FraudAnswered? && !v.fraud.value.approve
  }

  lemma MarkedView(cfg: Config, now: nat, tid: string, v: View, status: Status)
    requires ViewOk(cfg, now, tid, v) && v.row.status.Pending? && Justified(cfg, now, v, status)
    ensures var row := MarkedRow(v.row, status, now);
            ViewOk(cfg, now, tid, v.(row := row, events := v.events + [EventOf(tid, row)]))
  {
  }

  // ----- steps that only read the tables

  lemma FrontStepsKeepInv(cfg: Config, s: State, r: nat, step: ClientStep)
    requires Inv(cfg, s) && ClientEnabled(s, r, step)
    requires step.Lookup? || step.Resolve? || step.ReadWinner? || step.Drop? || step.Arrive?
    ensures Inv(cfg, DoClient(s, r, step))
  {
    match step
    case Arrive(p) => QuietKeepsInv(cfg, s, s.(requests := s.requests[r := Request(p, New)]));
    case Lookup(hit) =>
      if hit.Some? {
        SetPcKeepsInv(cfg, s, r, Replaying(hit.value, s.rows[hit.value]));
      } else if s.requests[r].p.amount <= 0 {
        EndKeepsInv(cfg, s, r);
      } else {
        SetPcKeepsInv(cfg, s, r, Resolving);
      }
    case Resolve(recipient) =>
      assert RequestOk(cfg, s, s.requests[r]);
      SetPcKeepsInv(cfg, s, r, Validated(recipient));
    case ReadWinner(tid) => SetPcKeepsInv(cfg, s, r, Replaying(tid, s.rows[tid]));
    case Drop => EndKeepsInv(cfg, s, r);
  }

  lemma ReplayKeepsInv(cfg: Config, s: State, r: nat, recipient: string)
    requires Inv(cfg, s) && ClientEnabled(s, r, FinishReplay(recipient))
    ensures Inv(cfg, DoClient(s, r, FinishReplay(recipient)))
  {
    var p, pc := s.requests[r].p, s.requests[r].pc;
    assert RequestOk(cfg, s, s.requests[r]);
    EndKeepsInv(cfg, s, r);
    if pc.snapshot.sender == p.sender && pc.snapshot.amount == p.amount && pc.snapshot.recipient == recipient {
      AnswerKeepsInv(cfg, End(s, r), Answer(p, recipient, pc.tid));
    }
  }

  lemma GiveUpKeepsInv(cfg: Config, s: State, r: nat, tid: string)
    requires Inv(cfg, s) && OwnerOf(s, r, tid) && tid in s.rows
    ensures Inv(cfg, Report(s, r, tid))
  {
    assert RequestOk(cfg, s, s.requests[r]);
    assert AnswerOk(s, Answer(s.requests[r].p, s.rows[tid].recipient, tid));
    QuietKeepsInv(cfg, s, Report(s, r, tid));
  }

  lemma WorkersKeepInv(cfg: Config, s: State, workers: map<nat, Worker>)
    requires Inv(cfg, s) && forall w :: w in workers ==> WorkerOk(cfg, s, workers[w])
    ensures Inv(cfg, s.(workers := workers))
  {
    QuietKeepsInv(cfg, s, s.(workers := workers));
  }

  lemma WorkerReadsKeepInv(cfg: Config, s: State, w: nat, step: WorkStep)
    requires Inv(cfg, s) && WorkEnabled(cfg, s, w, step) && !step.MarkIt?
    ensures Inv(cfg, DoWork(cfg, s, w, step))
  {
    if step.Pick? { AboutTransfer(cfg, s, step.tid); }
    assert WorkersOk(cfg, s);
    hide Inv;
    WorkersKeepInv(cfg, s, DoWork(cfg, s, w, step).workers);
  }

  // ----- a new row

  lemma InsertedView(s: State, r: nat, tid: string, row: Row)
    requires r in s.requests && FreshTid(s, tid)
    requires KeysOk(s)
    ensures ViewOf(Inserted(s, r, tid, row), tid) == View(row, None, None, [], [], [])
    ensures forall u :: u in s.rows ==> ViewOf(Inserted(s, r, tid, row), u) == ViewOf(s, u)
  {
  }

  lemma InsertedTables(cfg: Config, s: State, r: nat, tid: string, row: Row)
    requires TablesOk(cfg, s) && r in s.requests && FreshTid(s, tid) && !KeyTaken(s, row.key)
    requires row.status.Pending? && row.amount > 0 && row.sender != row.recipient
    requires row.createdAt == s.now && row.updatedAt == s.now
    ensures TablesOk(cfg, Inserted(s, r, tid, row))
  {
    var s' := Inserted(s, r, tid, row);
    InsertedView(s, r, tid, row);
    assert ViewOk(cfg, s.now, tid, View(row, None, None, [], [], []));
    forall u | u in s'.rows ensures ViewOk(cfg, s'.now, u, ViewOf(s', u)) {
      assert u != tid ==> ViewOf(s', u) == ViewOf(s, u);
    }
    forall t, u | t in s'.rows && u in s'.rows && s'.rows[t].key == s'.rows[u].key ensures t == u {
      assert t != tid ==> s.rows[t].key != row.key;
      assert u != tid ==> s.rows[u].key != row.key;
    }
  }

  lemma InsertedRequests(cfg: Config, s: State, r: nat, tid: string, row: Row)
    requires TablesOk(cfg, s) && RequestsOk(cfg, s) && r in s.requests && FreshTid(s, tid)
    requires row == NewRow(s.requests[r].p, row.recipient, s.now)
    ensures RequestsOk(cfg, Inserted(s, r, tid, row))
  {
    var s' := Inserted(s, r, tid, row);
    InsertedView(s, r, tid, row);
    forall q | q in s'.requests ensures RequestOk(cfg, s', s'.requests[q]) {
      assert q != r ==> RequestOk(cfg, s, s.requests[q]);
    }
    forall q, u | q in s'.requests && u in s'.requests && q != u && Owns(s'.requests[q].pc)
      ensures !OwnerOf(s', u, s'.requests[q].pc.tid)
    {
      assert q != r ==> RequestOk(cfg, s, s.requests[q]);
      assert u != r ==> RequestOk(cfg, s, s.requests[u]);
    }
  }

  lemma InsertedRest(cfg: Config, s: State, r: nat, tid: string, row: Row)
    requires WorkersOk(cfg, s) && AnswersOk(s) && r in s.requests && tid !in s.rows
    ensures WorkersOk(cfg, Inserted(s, r, tid, row)) && AnswersOk(Inserted(s, r, tid, row))
  {
    var s' := Inserted(s, r, tid, row);
    forall w | w in s'.workers ensures WorkerOk(cfg, s', s'.workers[w]) { assert WorkerOk(cfg, s, s.workers[w]); }
    forall k | 0 <= k < |s'.answers| ensures AnswerOk(s', s'.answers[k]) { assert AnswerOk(s, s.answers[k]); }
  }

  lemma InsertKeepsInv(cfg: Config, s: State, r: nat, tid: string)
    requires Inv(cfg, s) && ClientEnabled(s, r, Insert(tid))
    ensures Inv(cfg, DoClient(s, r, Insert(tid)))
  {
    assert RequestOk(cfg, s, s.requests[r]);
    if KeyTaken(s, s.requests[r].p.key) {
      SetPcKeepsInv(cfg, s, r, LostRace);
    } else {
      var row := NewRow(s.requests[r].p, s.requests[r].pc.recipient, s.now);
      InsertedTables(cfg, s, r, tid, row);
      InsertedRequests(cfg, s, r, tid, row);
      InsertedRest(cfg, s, r, tid, row);
    }
  }

  // ----- the remote calls

  lemma FraudStartedView(cfg: Config, now: nat, tid: string, v: View, req: Request)
    requires ViewOk(cfg, now, tid, v) && req.pc.NeedFraud? && OwnerOk(cfg, now, req, v) && now <= req.pc.since + cfg.gap
    ensures var deadline := now + cfg.callTimeout;
            var v' := v.(fraud := Some(FraudSent(deadline)));
            ViewOk(cfg, now, tid, v') && OwnerOk(cfg, now, req.(pc := AwaitFraud(req.pc.tid, deadline)), v')
  {
  }

  lemma SettleStartedView(cfg: Config, now: nat, tid: string, v: View, req: Request)
    requires ViewOk(cfg, now, tid, v) && req.pc.NeedSettle? && OwnerOk(cfg, now, req, v) && now <= req.pc.since + cfg.gap
    ensures var deadline := now + cfg.callTimeout;
            var v' := v.(call := Some(LedgerSent(deadline)));
            ViewOk(cfg, now, tid, v') && OwnerOk(cfg, now, req.(pc := AwaitLedger(req.pc.tid, deadline)), v')
  {
  }

  /** Starting a call touches that call and its owner, nothing else. */
  lemma FraudStartedOnly(s: State, r: nat, tid: string, deadline: nat)
    requires KeysOk(s) && tid in s.rows && SoleOwner(s, r, tid)
    ensures var s' := FraudStarted(s, r, tid, deadline);
            && OnlyAbout(s, s', tid) && SoleOwner(s', r, tid)
            && ViewOf(s', tid) == ViewOf(s, tid).(fraud := Some(FraudSent(deadline)))
  {
    var s' := FraudStarted(s, r, tid, deadline);
    forall q | OwnerOf(s', q, tid) ensures q == r { assert q != r ==> OwnerOf(s, q, tid); }
  }

  lemma SettleStartedOnly(s: State, r: nat, tid: string, deadline: nat)
    requires KeysOk(s) && tid in s.rows && SoleOwner(s, r, tid)
    ensures var s' := SettleStarted(s, r, tid, deadline);
            && OnlyAbout(s, s', tid) && SoleOwner(s', r, tid)
            && ViewOf(s', tid) == ViewOf(s, tid).(call := Some(LedgerSent(deadline)))
  {
    var s' := SettleStarted(s, r, tid, deadline);
    forall q | OwnerOf(s', q, tid) ensures q == r { assert q != r ==> OwnerOf(s, q, tid); }
  }

  lemma FraudStartedAbout(cfg: Config, s: State, r: nat, tid: string)
    requires KeysOk(s) && tid in s.rows && SoleOwner(s, r, tid) && s.requests[r].pc.NeedFraud?
    requires s.now <= s.requests[r].pc.since + cfg.gap
    requires ViewOk(cfg, s.now, tid, ViewOf(s, tid)) && OwnerOk(cfg, s.now, s.requests[r], ViewOf(s, tid))
    ensures AboutOk(cfg, s, FraudStarted(s, r, tid, s.now + cfg.callTimeout), tid)
  {
    hide ViewOk, OwnerOk, ViewOf, OnlyAbout;
    FraudStartedView(cfg, s.now, tid, ViewOf(s, tid), s.requests[r]);
    FraudStartedOnly(s, r, tid, s.now + cfg.callTimeout);
  }

  lemma SettleStartedAbout(cfg: Config, s: State, r: nat, tid: string)
    requires KeysOk(s) && tid in s.rows && SoleOwner(s, r, tid) && s.requests[r].pc.NeedSettle?
    requires s.now <= s.requests[r].pc.since + cfg.gap
    requires ViewOk(cfg, s.now, tid, ViewOf(s, tid)) && OwnerOk(cfg, s.now, s.requests[r], ViewOf(s, tid))
    ensures AboutOk(cfg, s, SettleStarted(s, r, tid, s.now + cfg.callTimeout), tid)
  {
    hide ViewOk, OwnerOk, ViewOf, OnlyAbout;
    SettleStartedView(cfg, s.now, tid, ViewOf(s, tid), s.requests[r]);
    SettleStartedOnly(s, r, tid, s.now + cfg.callTimeout);
  }

  lemma ScoredAbout(cfg: Config, s: State, tid: string, approve: bool)
    requires KeysOk(s) && tid in s.rows && tid in s.fraudCalls && s.fraudCalls[tid].FraudSent?
    requires ViewOk(cfg, s.now, tid, ViewOf(s, tid))
    requires forall q :: OwnerOf(s, q, tid) ==> OwnerOk(cfg, s.now, s.requests[q], ViewOf(s, tid))
    ensures AboutOk(cfg, s, Scored(s, tid, approve), tid)
  {
    var s', v := Scored(s, tid, approve), ViewOf(s, tid);
    ScoredView(cfg, s.now, tid, v, approve);
    assert ViewOf(s', tid) == v.(fraud := Some(FraudAnswered(v.fraud.value.deadline, approve)), checks := v.checks + [approve]);
    forall q | OwnerOf(s', q, tid) ensures OwnerOk(cfg, s.now, s'.requests[q], ViewOf(s', tid)) {
      assert OwnerOf(s, q, tid);
    }
  }

  lemma AnsweredAbout(cfg: Config, s: State, tid: string, ledger: L.Ledger, reply: L.Reply, pair: seq<L.Entry>)
    requires Timely(cfg) && KeysOk(s) && tid in s.rows && tid in s.ledgerCalls
    requires s.ledgerCalls[tid].LedgerSent? && s.now <= s.ledgerCalls[tid].deadline
    requires pair == if reply.Posted?
                     then L.Pair(Lower(s.rows[tid].sender), Lower(s.rows[tid].recipient), s.rows[tid].amount, tid, reply.txn)
                     else []
    requires forall u :: u in s.rows ==>
               L.Tagged(ledger.entries, u) == L.Tagged(s.ledger.entries, u) + if u == tid then pair else []
    requires ViewOk(cfg, s.now, tid, ViewOf(s, tid))
    requires forall q :: OwnerOf(s, q, tid) ==> OwnerOk(cfg, s.now, s.requests[q], ViewOf(s, tid))
    ensures AboutOk(cfg, s, LedgerAnsweredWith(s, tid, ledger, reply), tid)
  {
    var s', v := LedgerAnsweredWith(s, tid, ledger, reply), ViewOf(s, tid);
    ServedIsFresh(cfg, s.now, tid, v);
    ExecutedView(cfg, s.now, tid, v, reply, pair);
    assert ViewOf(s', tid) == v.(call := Some(LedgerAnswered(v.call.value.deadline, reply)), tagged := v.tagged + pair);
    forall u | u in s.rows && u != tid ensures ViewOf(s', u) == ViewOf(s, u) {}
    forall q | OwnerOf(s', q, tid) ensures OwnerOk(cfg, s.now, s'.requests[q], ViewOf(s', tid)) {
      assert OwnerOf(s, q, tid);
    }
  }

  lemma StartFraudKeepsInv(cfg: Config, s: State, r: nat, tid: string)
    requires Inv(cfg, s) && OwnerOf(s, r, tid) && tid in s.rows
    requires s.requests[r].pc.NeedFraud? && s.now <= s.requests[r].pc.since + cfg.gap
    ensures Inv(cfg, FraudStarted(s, r, tid, s.now + cfg.callTimeout))
  {
    AboutTransfer(cfg, s, tid);
    FraudStartedAbout(cfg, s, r, tid);
    AboutKeepsInv(cfg, s, FraudStarted(s, r, tid, s.now + cfg.callTimeout), tid);
  }

  lemma StartSettleKeepsInv(cfg: Config, s: State, r: nat, tid: string)
    requires Inv(cfg, s) && OwnerOf(s, r, tid) && tid in s.rows
    requires s.requests[r].pc.NeedSettle? && s.now <= s.requests[r].pc.since + cfg.gap
    ensures Inv(cfg, SettleStarted(s, r, tid, s.now + cfg.callTimeout))
  {
    AboutTransfer(cfg, s, tid);
    SettleStartedAbout(cfg, s, r, tid);
    AboutKeepsInv(cfg, s, SettleStarted(s, r, tid, s.now + cfg.callTimeout), tid);
  }

  lemma ScoreKeepsInv(cfg: Config, s: State, tid: string, approve: bool)
    requires Inv(cfg, s) && tid in s.rows && tid in s.fraudCalls && s.fraudCalls[tid].FraudSent?
    ensures Inv(cfg, Scored(s, tid, approve))
  {
    AboutTransfer(cfg, s, tid);
    ScoredAbout(cfg, s, tid, approve);
    AboutKeepsInv(cfg, s, Scored(s, tid, approve), tid);
  }

  lemma LedgerAnswerKeepsInv(cfg: Config, s: State, tid: string, ledger: L.Ledger, reply: L.Reply, pair: seq<L.Entry>)
    requires Timely(cfg) && Inv(cfg, s) && tid in s.rows && tid in s.ledgerCalls
    requires s.ledgerCalls[tid].LedgerSent? && s.now <= s.ledgerCalls[tid].deadline
    requires pair == if reply.Posted?
                     then L.Pair(Lower(s.rows[tid].sender), Lower(s.rows[tid].recipient), s.rows[tid].amount, tid, reply.txn)
                     else []
    requires forall u :: u in s.rows ==>
               L.Tagged(ledger.entries, u) == L.Tagged(s.ledger.entries, u) + if u == tid then pair else []
    ensures Inv(cfg, LedgerAnsweredWith(s, tid, ledger, reply))
  {
    AboutTransfer(cfg, s, tid);
    AnsweredAbout(cfg, s, tid, ledger, reply, pair);
    AboutKeepsInv(cfg, s, LedgerAnsweredWith(s, tid, ledger, reply), tid);
  }

  /** What running the ledger call adds under each transfer's reference. */
  lemma ExecuteTags(s: State, tid: string, uuid: L.TransactionId, u: string)
    requires tid in s.rows
    ensures var row := s.rows[tid];
            var (ledger, reply) := L.Apply(s.ledger, LedgerArgs(tid, row), uuid);
            && (reply.Posted? ==> reply.txn == uuid)
            && L.Tagged(ledger.entries, u) ==
               L.Tagged(s.ledger.entries, u) +
               if u == tid && reply.Posted?
               then L.Pair(Lower(row.sender), Lower(row.recipient), row.amount, tid, uuid) else []
  {
    L.ApplyTags(s.ledger, LedgerArgs(tid, s.rows[tid]), uuid, u);
  }

  lemma ExecuteKeepsInv(cfg: Config, s: State, tid: string, uuid: L.TransactionId)
    requires Timely(cfg) && Inv(cfg, s) && ServeEnabled(s, tid, Execute(uuid))
    ensures Inv(cfg, DoServe(s, tid, Execute(uuid)))
  {
    var row := s.rows[tid];
    var (ledger, reply) := L.Apply(s.ledger, LedgerArgs(tid, row), uuid);
    var pair := if reply.Posted? then L.Pair(Lower(row.sender), Lower(row.recipient), row.amount, tid, uuid) else [];
    forall u ensures L.Tagged(ledger.entries, u) == L.Tagged(s.ledger.entries, u) + if u == tid then pair else [] {
      ExecuteTags(s, tid, uuid, u);
    }
    ExecuteTags(s, tid, uuid, tid);
    LedgerAnswerKeepsInv(cfg, s, tid, ledger, reply, pair);
  }

  lemma ServeKeepsInv(cfg: Config, s: State, tid: string, step: ServeStep)
    requires Timely(cfg) && Inv(cfg, s) && ServeEnabled(s, tid, step)
    ensures Inv(cfg, DoServe(s, tid, step))
  {
    match step
    case Score(approve) => ScoreKeepsInv(cfg, s, tid, approve);
    case ExecuteError => LedgerAnswerKeepsInv(cfg, s, tid, s.ledger, L.Failed, []);
    case Execute(uuid) => ExecuteKeepsInv(cfg, s, tid, uuid);
  }

  // ----- terminal statuses

  lemma MarkAbout(s: State, tid: string, status: Status)
    requires tid in s.rows && !status.Pending?
    requires KeysOk(s)
    ensures var s', v := Mark(s, tid, status), ViewOf(s, tid);
            var row := MarkedRow(v.row, status, s.now);
            && OnlyAbout(s, s', tid)
            && ViewOf(s', tid) == v.(row := row, events := v.events + [EventOf(tid, row)])
  {
  }

  lemma MarkedAbout(cfg: Config, s: State, s': State, tid: string, status: Status)
    requires KeysOk(s) && tid in s.rows && s.rows[tid].status.Pending?
    requires ViewOk(cfg, s.now, tid, ViewOf(s, tid)) && Justified(cfg, s.now, ViewOf(s, tid), status)
    requires s' == Mark(s, tid, status).(requests := s'.requests)
    requires forall q :: q in s'.requests ==> q in s.requests && s'.requests[q] == s.requests[q]
    requires forall q :: OwnerOf(s', q, tid) ==>
               Expired(cfg, s.now, s.rows[tid]) && OwnerOk(cfg, s.now, s.requests[q], ViewOf(s, tid))
    ensures AboutOk(cfg, s, s', tid)
  {
    MarkAbout(s, tid, status);
    MarkedView(cfg, s.now, tid, ViewOf(s, tid), status);
    var marked := Mark(s, tid, status);
    assert ViewOf(s', tid) == ViewOf(marked, tid);
    forall u | u in s.rows && u != tid ensures ViewOf(s', u) == ViewOf(s, u) { assert ViewOf(s', u) == ViewOf(marked, u); }
  }

  /** The owner of a live transfer records its outcome and ends. */
  lemma ReportKeepsInv(cfg: Config, s: State, r: nat, tid: string, status: Status)
    requires Inv(cfg, s) && OwnerOf(s, r, tid) && tid in s.rows && s.rows[tid].status.Pending?
    requires Justified(cfg, s.now, ViewOf(s, tid), status)
    ensures Inv(cfg, Report(Mark(s, tid, status), r, tid))
  {
    var s' := End(Mark(s, tid, status), r);
    AboutTransfer(cfg, s, tid);
    forall q ensures !OwnerOf(s', q, tid) { assert SoleOwner(s, r, tid); }
    MarkedAbout(cfg, s, s', tid, status);
    AboutKeepsInv(cfg, s, s', tid);
    AnswerKeepsInv(cfg, s', Answer(s.requests[r].p, s.rows[tid].recipient, tid));
  }

  lemma WorkerOutcomeKeepsInv(cfg: Config, s: State, tid: string, status: Status)
    requires Inv(cfg, s) && tid in s.rows && s.rows[tid].status.Pending? && Expired(cfg, s.now, s.rows[tid])
    requires Justified(cfg, s.now, ViewOf(s, tid), status)
    ensures Inv(cfg, Mark(s, tid, status))
  {
    AboutTransfer(cfg, s, tid);
    hide Inv, ViewOk;
    forall q | OwnerOf(Mark(s, tid, status), q, tid) ensures OwnerOk(cfg, s.now, s.requests[q], ViewOf(s, tid)) {
      assert OwnerOf(s, q, tid);
    }
    MarkedAbout(cfg, s, Mark(s, tid, status), tid, status);
    AboutKeepsInv(cfg, s, Mark(s, tid, status), tid);
  }

  lemma FraudReplyKeepsInv(cfg: Config, s: State, r: nat, tid: string, rule: string)
    requires Timely(cfg) && Inv(cfg, s) && OwnerOf(s, r, tid) && CallEnabled(cfg, s, r, FraudReply(rule))
    ensures Inv(cfg, DoCall(cfg, s, r, FraudReply(rule)))
  {
    assert RequestOk(cfg, s, s.requests[r]);
    ServedIsFresh(cfg, s.now, tid, ViewOf(s, tid));
    if s.fraudCalls[tid].approve {
      SetPcKeepsInv(cfg, s, r, NeedSettle(tid, s.now));
    } else {
      ReportKeepsInv(cfg, s, r, tid, Rejected(rule));
    }
  }

  /** The ledger's answer is the outcome, and the worker has not been there yet. */
  lemma LedgerReplyIsJustified(cfg: Config, s: State, r: nat, tid: string)
    requires Timely(cfg) && Inv(cfg, s) && OwnerOf(s, r, tid) && CallEnabled(cfg, s, r, LedgerReply)
    ensures s.rows[tid].status.Pending? && Justified(cfg, s.now, ViewOf(s, tid), Settled(s.ledgerCalls[tid].reply))
  {
    AboutTransfer(cfg, s, tid);
    hide Inv;
    ServedIsFresh(cfg, s.now, tid, ViewOf(s, tid));
  }

  lemma LedgerReplyKeepsInv(cfg: Config, s: State, r: nat, tid: string)
    requires Timely(cfg) && Inv(cfg, s) && OwnerOf(s, r, tid) && CallEnabled(cfg, s, r, LedgerReply)
    ensures Inv(cfg, DoCall(cfg, s, r, LedgerReply))
  {
    hide Inv;
    LedgerReplyIsJustified(cfg, s, r, tid);
    ReportKeepsInv(cfg, s, r, tid, Settled(s.ledgerCalls[tid].reply));
  }

  lemma StartsKeepInv(cfg: Config, s: State, r: nat, step: CallStep)
    requires Inv(cfg, s) && CallEnabled(cfg, s, r, step) && (step.StartFraud? || step.StartSettle?)
    ensures Inv(cfg, DoCall(cfg, s, r, step))
  {
    hide Inv;
    var tid := s.requests[r].pc.tid;
    assert OwnerOf(s, r, tid);
    if step.StartFraud? { StartFraudKeepsInv(cfg, s, r, tid); } else { StartSettleKeepsInv(cfg, s, r, tid); }
  }

  lemma GivesUpKeepsInv(cfg: Config, s: State, r: nat)
    requires Inv(cfg, s) && CallEnabled(cfg, s, r, GiveUp)
    ensures Inv(cfg, DoCall(cfg, s, r, GiveUp))
  {
    GiveUpKeepsInv(cfg, s, r, s.requests[r].pc.tid);
  }

  lemma CallKeepsInv(cfg: Config, s: State, r: nat, step: CallStep)
    requires Timely(cfg) && Inv(cfg, s) && CallEnabled(cfg, s, r, step)
    ensures Inv(cfg, DoCall(cfg, s, r, step))
  {
    hide Inv;
    if step.FraudReply? {
      FraudReplyKeepsInv(cfg, s, r, s.requests[r].pc.tid, step.rule);
    } else if step.LedgerReply? {
      LedgerReplyKeepsInv(cfg, s, r, s.requests[r].pc.tid);
    } else if step.GiveUp? {
      GivesUpKeepsInv(cfg, s, r);
    } else {
      StartsKeepInv(cfg, s, r, step);
    }
  }

  /** What the ledger told the worker is exactly what the row's view says. */
  lemma WorkerIsJustified(cfg: Config, s: State, w: Worker)
    requires TablesOk(cfg, s) && WorkerOk(cfg, s, w) && w.Told?
    ensures Justified(cfg, s.now, ViewOf(s, w.tid), Reconciled(w.answer))
  {
    var v := ViewOf(s, w.tid);
    assert ViewOk(cfg, s.now, w.tid, v);
    assert v.tagged != [] ==> v.tagged[0].txn == v.call.value.reply.txn;
  }

  lemma WithoutWorkerKeepsInv(cfg: Config, s: State, w: nat)
    requires Inv(cfg, s)
    ensures Inv(cfg, WithoutWorker(s, w))
  {
    QuietKeepsInv(cfg, s, WithoutWorker(s, w));
  }

  lemma WorkerMarkKeepsInv(cfg: Config, s: State, w: nat)
    requires Inv(cfg, s) && WorkEnabled(cfg, s, w, MarkIt)
    ensures Inv(cfg, DoWork(cfg, s, w, MarkIt))
  {
    var worker := s.workers[w];
    assert WorkerOk(cfg, s, worker) && TablesOk(cfg, s);
    hide Inv, TablesOk;
    var marked := MarkIfPending(s, worker.tid, Reconciled(worker.answer));
    if s.rows[worker.tid].status.Pending? {
      WorkerIsJustified(cfg, s, worker);
      WorkerOutcomeKeepsInv(cfg, s, worker.tid, Reconciled(worker.answer));
    }
    WithoutWorkerKeepsInv(cfg, marked, w);
  }

  // ----- the rest of the bank

  lemma LedgerElsewhereKeepsInv(cfg: Config, s: State, ledger: L.Ledger)
    requires Inv(cfg, s)
    requires forall tid :: tid in s.rows ==> L.Tagged(ledger.entries, tid) == L.Tagged(s.ledger.entries, tid)
    ensures Inv(cfg, s.(ledger := ledger))
  {
    var s' := s.(ledger := ledger);
    forall tid | tid in s.rows ensures ViewOf(s', tid) == ViewOf(s, tid) {}
    forall q | q in s'.requests ensures RequestOk(cfg, s', s'.requests[q]) { assert RequestOk(cfg, s, s.requests[q]); }
    forall w | w in s'.workers ensures WorkerOk(cfg, s', s'.workers[w]) { assert WorkerOk(cfg, s, s.workers[w]); }
    forall k | 0 <= k < |s'.answers| ensures AnswerOk(s', s'.answers[k]) { assert AnswerOk(s, s.answers[k]); }
  }

  lemma OtherKeepsInv(cfg: Config, s: State, step: OtherStep)
    requires Inv(cfg, s) && OtherEnabled(s, step)
    ensures Inv(cfg, DoOther(s, step))
  {
    hide Inv;
    match step
    case LedgerCallBy(call, uuid) =>
      var ledger := L.Apply(s.ledger, call, uuid).0;
      forall tid | tid in s.rows ensures L.Tagged(ledger.entries, tid) == L.Tagged(s.ledger.entries, tid) {
        L.ApplyTags(s.ledger, call, uuid, tid);
      }
      LedgerElsewhereKeepsInv(cfg, s, ledger);
    case OpenAccount(account) =>
      LedgerElsewhereKeepsInv(cfg, s, s.ledger.(accounts := s.ledger.accounts + {Lower(account)}));
  }

  // ----- runs

  lemma ClientKeepsInv(cfg: Config, s: State, r: nat, step: ClientStep)
    requires Inv(cfg, s) && ClientEnabled(s, r, step)
    ensures Inv(cfg, DoClient(s, r, step))
  {
    if step.FinishReplay? { ReplayKeepsInv(cfg, s, r, step.recipient); }
    else if step.Insert? { InsertKeepsInv(cfg, s, r, step.tid); }
    else { FrontStepsKeepInv(cfg, s, r, step); }
  }

  lemma WorkKeepsInv(cfg: Config, s: State, w: nat, step: WorkStep)
    requires Inv(cfg, s) && WorkEnabled(cfg, s, w, step)
    ensures Inv(cfg, DoWork(cfg, s, w, step))
  {
    if step.MarkIt? { WorkerMarkKeepsInv(cfg, s, w); } else { WorkerReadsKeepInv(cfg, s, w, step); }
  }

  lemma StepKeepsInv(cfg: Config, s: State, a: Action)
    requires Timely(cfg) && Inv(cfg, s) && Enabled(cfg, s, a)
    ensures Inv(cfg, Do(cfg, s, a))
  {
    hide Inv;
    if a.Tick? { TickKeepsInv(cfg, s, a.d); }
    else if a.Client? { ClientKeepsInv(cfg, s, a.r, a.client); }
    else if a.Call? { CallKeepsInv(cfg, s, a.r, a.call); }
    else if a.Serve? { ServeKeepsInv(cfg, s, a.tid, a.serve); }
    else if a.Work? { WorkKeepsInv(cfg, s, a.w, a.work); }
    else { OtherKeepsInv(cfg, s, a.other); }
  }

  lemma {:induction false} RunKeepsInv(cfg: Config, s: State, acts: seq<Action>)
    requires Timely(cfg) && Inv(cfg, s) && ValidRun(cfg, s, acts)
    ensures Inv(cfg, Exec(cfg, s, acts))
    decreases acts
  {
    if acts != [] {
      StepKeepsInv(cfg, s, acts[0]);
      RunKeepsInv(cfg, Do(cfg, s, acts[0]), acts[1..]);
    }
  }

  lemma InvIsSafe(cfg: Config, s: State, tid: string)
    requires Inv(cfg, s) && tid in s.rows
    ensures Safe(s, tid)
  {
    var v := ViewOf(s, tid);
    assert ViewOk(cfg, s.now, tid, v);
    if Executed(v) { assert MovedOnce(s, tid, v.call.value.reply.txn); }
  }
}
