/** transfers-svc's own code on the transfer path, run without interference: the
    writers, the two remote steps and the reconciliation pass. Every method is
    shown to be a run of the TransferSaga machine, whose runs are all the
    interleavings of such pieces. */
module TransferService {
  import opened Options
  import opened Order
  import L = LedgerSpec
  import opened TransferSaga
  import opened TransferTiming

  /** What fraud-svc's answer, if any arrives in time, says. */
  datatype FraudAnswer = Approves | Rejects(rule: string) | Silent

  /** The ledger call's fate: answered, served but the answer lost, or never served. */
  datatype LedgerFate = Answers(uuid: L.TransactionId) | AnswerLost(uuid: L.TransactionId) | InternalError | Unreachable

  datatype FraudOutcome = Approved | RejectedBy(rule: string) | FraudUncertain
  datatype Settlement = SettledAs(status: Status) | SettlementUncertain

  ghost predicate Ran(cfg: Config, s: State, acts: seq<Action>, s': State) {
    ValidRun(cfg, s, acts) && Exec(cfg, s, acts) == s'
  }

  class Service {
    const cfg: Config
    var now: nat
    var rows: map<string, Row>
    var outbox: map<string, seq<Event>>
    var checks: map<string, seq<bool>>   // fraud-svc's table
    var ledger: L.Ledger                 // ledger-svc's tables
    ghost var requests: map<nat, Request>
    ghost var fraudCalls: map<string, FraudCall>
    ghost var ledgerCalls: map<string, LedgerCall>
    ghost var workers: map<nat, Worker>
    ghost var answers: seq<Answer>

    constructor (cfg: Config, ledger: L.Ledger)
      ensures this.cfg == cfg && Snapshot() == Initial(ledger)
    {
      this.cfg, now, rows, outbox, checks, this.ledger := cfg, 0, map[], map[], map[], ledger;
      requests, fraudCalls, ledgerCalls, workers, answers := map[], map[], map[], map[], [];
    }

    ghost function Snapshot(): State
      reads this
    {
      State(now, rows, requests, fraudCalls, ledgerCalls, workers, ledger, checks, outbox, answers)
    }

    /** markTransferCompleted, markTransferFailed, markTransferRejected: the status
        and its event, together. */
    method MarkTransfer(tid: string, status: Status)
      requires tid in rows && !status.Pending?
      modifies this`rows, this`outbox
      ensures Snapshot() == Mark(old(Snapshot()), tid, status)
      ensures rows == old(rows)[tid := old(rows)[tid].(status := status, updatedAt := now)]
      ensures outbox == Add(old(outbox), tid, OutcomeEvent(tid, old(rows)[tid], status))
    {
      var row := rows[tid].(status := status, updatedAt := now);
      rows := rows[tid := row];
      var event := match status
                   case Completed(txn) => TransferCompleted(tid, row.sender, row.recipient, row.amount, txn)
                   case Failed(reason) => TransferFailed(tid, row.sender, row.recipient, row.amount, reason)
                   case Rejected(rule) => TransferRejected(tid, row.sender, row.recipient, row.amount, rule);
      outbox := outbox[tid := (if tid in outbox then outbox[tid] else []) + [event]];
    }

    /** The guarded writers: nothing happens once someone else resolved the row. */
    method MarkTransferIfPending(tid: string, status: Status) returns (resolved: bool)
      requires tid in rows && !status.Pending?
      modifies this`rows, this`outbox
      ensures Snapshot() == MarkIfPending(old(Snapshot()), tid, status)
      ensures resolved <==> old(rows)[tid].status.Pending?
    {
      resolved := rows[tid].status.Pending?;
      if resolved { MarkTransfer(tid, status); }
    }

    // ----- one effect each

    /** The request hands its transfer back to the client. */
    ghost method Respond(r: nat, tid: string)
      requires r in requests && tid in rows
      modifies this`requests, this`answers
      ensures Snapshot() == Report(old(Snapshot()), r, tid)
    {
      var ended := Report(Snapshot(), r, tid);
      requests, answers := ended.requests, ended.answers;
    }

    ghost method SendFraudCall(r: nat, tid: string)
      requires r in requests
      modifies this`requests, this`fraudCalls
      ensures Snapshot() == FraudStarted(old(Snapshot()), r, tid, now + cfg.callTimeout)
    {
      requests := requests[r := requests[r].(pc := AwaitFraud(tid, now + cfg.callTimeout))];
      fraudCalls := fraudCalls[tid := FraudSent(now + cfg.callTimeout)];
    }

    /** fraud-svc decides and records. */
    method ScoreTransfer(tid: string, approve: bool)
      requires tid in fraudCalls
      modifies this`checks, this`fraudCalls
      ensures Snapshot() == Scored(old(Snapshot()), tid, approve)
    {
      checks := checks[tid := (if tid in checks then checks[tid] else []) + [approve]];
      fraudCalls := fraudCalls[tid := FraudAnswered(fraudCalls[tid].deadline, approve)];
    }

    ghost method SendLedgerCall(r: nat, tid: string)
      requires r in requests
      modifies this`requests, this`ledgerCalls
      ensures Snapshot() == SettleStarted(old(Snapshot()), r, tid, now + cfg.callTimeout)
    {
      requests := requests[r := requests[r].(pc := AwaitLedger(tid, now + cfg.callTimeout))];
      ledgerCalls := ledgerCalls[tid := LedgerSent(now + cfg.callTimeout)];
    }

    /** ledger-svc executes the transfer, or fails internally and rolls back. */
    method ExecuteAtLedger(tid: string, fate: LedgerFate) returns (reply: L.Reply)
      requires tid in rows && tid in ledgerCalls && ledgerCalls[tid].LedgerSent? && now <= ledgerCalls[tid].deadline
      requires !fate.Unreachable?
      modifies this`ledger, this`ledgerCalls
      ensures ServeEnabled(old(Snapshot()), tid, Step(fate)) && Snapshot() == DoServe(old(Snapshot()), tid, Step(fate))
      ensures tid in ledgerCalls && ledgerCalls[tid] == LedgerAnswered(old(ledgerCalls)[tid].deadline, reply)
      ensures (ledger, reply) == Execution(old(ledger), tid, rows[tid], fate)
    {
      if fate.InternalError? {
        reply := L.Failed;
      } else {
        var (after, answer) := L.Apply(ledger, LedgerArgs(tid, rows[tid]), fate.uuid);
        ledger, reply := after, answer;
      }
      ledgerCalls := ledgerCalls[tid := LedgerAnswered(ledgerCalls[tid].deadline, reply)];
    }

    // ----- the two remote steps of a request

    /** checkTransferFraud: only a definite rejection is written. */
    method CheckTransferFraud(r: nat, tid: string, answer: FraudAnswer) returns (outcome: FraudOutcome, ghost acts: seq<Action>)
      requires r in requests && requests[r].pc == NeedFraud(tid, now) && tid in rows && tid !in fraudCalls
      modifies this
      ensures Ran(cfg, old(Snapshot()), acts, Snapshot())
      ensures match answer
              case Approves => outcome == Approved && rows == old(rows) && outbox == old(outbox)
                               && r in requests && requests[r].pc == NeedSettle(tid, now)
              case Rejects(rule) =>
                var row := old(rows)[tid].(status := Rejected(rule), updatedAt := now);
                outcome == RejectedBy(rule) && rows == old(rows)[tid := row]
                && outbox == Add(old(outbox), tid, TransferRejected(tid, row.sender, row.recipient, row.amount, rule))
              case Silent => outcome == FraudUncertain && rows == old(rows) && outbox == old(outbox)
      ensures checks == if answer.Silent? then old(checks) else Add(old(checks), tid, answer.Approves?)
      ensures ledger == old(ledger) && now == old(now)
    {
      hide Ran;
      ghost var s := Snapshot();
      RunOne(cfg, s, Call(r, StartFraud));
      acts := [Call(r, StartFraud)];
      SendFraudCall(r, tid);
      if answer.Silent? {
        outcome := FraudUncertain;
        RunMore(cfg, s, acts, Snapshot(), Call(r, GiveUp));
        acts := acts + [Call(r, GiveUp)];
        Respond(r, tid);
      } else {
        outcome, acts := HearFraudAnswer(r, tid, answer, s, acts);
      }
    }

    /** fraud-svc scores the transfer, and its answer is acted on. */
    method HearFraudAnswer(r: nat, tid: string, answer: FraudAnswer, ghost s: State, ghost before: seq<Action>)
      returns (outcome: FraudOutcome, ghost acts: seq<Action>)
      requires !answer.Silent? && tid in rows && r in requests && requests[r].pc == AwaitFraud(tid, now + cfg.callTimeout)
      requires tid in fraudCalls && fraudCalls[tid] == FraudSent(now + cfg.callTimeout) && Ran(cfg, s, before, Snapshot())
      modifies this
      ensures Ran(cfg, s, acts, Snapshot())
      ensures if answer.Approves?
              then outcome == Approved && rows == old(rows) && outbox == old(outbox)
                   && r in requests && requests[r].pc == NeedSettle(tid, now)
              else
                var row := old(rows)[tid].(status := Rejected(answer.rule), updatedAt := now);
                outcome == RejectedBy(answer.rule) && rows == old(rows)[tid := row]
                && outbox == Add(old(outbox), tid, TransferRejected(tid, row.sender, row.recipient, row.amount, answer.rule))
      ensures checks == Add(old(checks), tid, answer.Approves?) && ledger == old(ledger) && now == old(now)
    {
      hide Ran;
      RunMore(cfg, s, before, Snapshot(), Serve(tid, Score(answer.Approves?)));
      acts := before + [Serve(tid, Score(answer.Approves?))];
      ScoreTransfer(tid, answer.Approves?);
      ghost var rule := if answer.Rejects? then answer.rule else "";
      RunMore(cfg, s, acts, Snapshot(), Call(r, FraudReply(rule)));
      acts := acts + [Call(r, FraudReply(rule))];
      if answer.Approves? {
        outcome := Approved;
        requests := requests[r := requests[r].(pc := NeedSettle(tid, now))];
      } else {
        outcome := RejectedBy(answer.rule);
        MarkTransfer(tid, Rejected(answer.rule));
        Respond(r, tid);
      }
    }

    /** The call to the ledger and the write that follows, by the ledger's own answer. */
    method CallAndRecord(r: nat, tid: string, fate: LedgerFate) returns (outcome: Settlement, ghost acts: seq<Action>)
      requires r in requests && requests[r].pc == NeedSettle(tid, now) && tid in rows && tid !in ledgerCalls
      modifies this
      ensures Ran(cfg, old(Snapshot()), acts, Snapshot())
      ensures var (after, reply) := Execution(old(ledger), tid, old(rows)[tid], fate);
              && ledger == after
              && outcome == (if fate.Answers? || fate.InternalError? then SettledAs(Settled(reply)) else SettlementUncertain)
      ensures rows == if outcome.SettledAs?
                      then old(rows)[tid := old(rows)[tid].(status := outcome.status, updatedAt := old(now))] else old(rows)
      ensures outbox == if outcome.SettledAs?
                        then Add(old(outbox), tid, OutcomeEvent(tid, old(rows)[tid], outcome.status)) else old(outbox)
    {
      hide Ran, L.Apply, OutcomeEvent, EventOf, Add;
      ghost var s := Snapshot();
      RunOne(cfg, s, Call(r, StartSettle));
      acts := [Call(r, StartSettle)];
      SendLedgerCall(r, tid);
      var reply := L.Failed;
      if !fate.Unreachable? {
        RunMore(cfg, s, acts, Snapshot(), Serve(tid, Step(fate)));
        acts := acts + [Serve(tid, Step(fate))];
        reply := ExecuteAtLedger(tid, fate);
      }
      if fate.Answers? || fate.InternalError? {
        RunMore(cfg, s, acts, Snapshot(), Call(r, LedgerReply));
        acts := acts + [Call(r, LedgerReply)];
        outcome := SettledAs(Settled(reply));
        MarkTransfer(tid, Settled(reply));
      } else {
        RunMore(cfg, s, acts, Snapshot(), Call(r, GiveUp));
        acts := acts + [Call(r, GiveUp)];
        outcome := SettlementUncertain;
      }
      Respond(r, tid);
    }

    /** settleTransfer: a definite answer is written, anything else leaves the row. */
    method SettleTransfer(r: nat, tid: string, fate: LedgerFate) returns (outcome: Settlement, ghost acts: seq<Action>)
      requires r in requests && requests[r].pc == NeedSettle(tid, now) && tid in rows && tid !in ledgerCalls
      modifies this
      ensures Ran(cfg, old(Snapshot()), acts, Snapshot())
      ensures var row := old(rows)[tid];
              if (fate.Answers? || fate.AnswerLost?) && CanPay(old(ledger), row)
              then ledger.entries == old(ledger).entries + [L.Entry(fate.uuid, Lower(row.sender), -row.amount, tid),
                                                            L.Entry(fate.uuid, Lower(row.recipient), row.amount, tid)]
              else ledger == old(ledger)
      ensures var row, l := old(rows)[tid], old(ledger);
              outcome == match fate
                         case Answers(uuid) =>
                           SettledAs(if row.amount <= 0 then Failed("invalid_amount")
                                     else if Lower(row.sender) !in l.accounts || Lower(row.recipient) !in l.accounts
                                     then Failed("account_not_found")
                                     else if L.Balance(l.entries, Lower(row.sender)) < row.amount
                                     then Failed("insufficient_funds")
                                     else Completed(uuid))
                         case InternalError => SettledAs(Failed("ledger_internal_error"))
                         case AnswerLost(_) => SettlementUncertain
                         case Unreachable => SettlementUncertain
      ensures rows == if outcome.SettledAs?
                      then old(rows)[tid := old(rows)[tid].(status := outcome.status, updatedAt := old(now))] else old(rows)
      ensures outbox == if outcome.SettledAs?
                        then Add(old(outbox), tid, OutcomeEvent(tid, old(rows)[tid], outcome.status)) else old(outbox)
    {
      hide Ran, Execution, CanPay, OutcomeEvent;
      ExecutionMeans(ledger, tid, rows[tid], fate);
      outcome, acts := CallAndRecord(r, tid, fate);
    }

    // ----- the reconciliation pass

    /** getStalePendingTransfers. */
    method GetStalePending() returns (stale: seq<string>)
      ensures forall tid :: tid in stale <==>
                tid in rows && rows[tid].status.Pending? && rows[tid].updatedAt + cfg.staleAfter < now
      ensures forall i, j :: 0 <= i < j < |stale| ==> stale[i] != stale[j]
    {
      stale := [];
      var left := rows.Keys;
      while left != {}
        invariant left <= rows.Keys
        invariant forall tid :: tid in stale <==>
                    tid in rows && tid !in left && rows[tid].status.Pending? && Stale(cfg, now, rows[tid])
        invariant forall i, j :: 0 <= i < j < |stale| ==> stale[i] != stale[j]
      {
        var tid :| tid in left;
        left := left - {tid};
        if rows[tid].status.Pending? && Stale(cfg, now, rows[tid]) { stale := stale + [tid]; }
      }
    }

    /** reconcileTransfer: ask the ledger, then write through the guard. */
    method ReconcileTransfer(w: nat, tid: string, reachable: bool, ghost s: State, ghost before: seq<Action>)
      returns (ghost acts: seq<Action>)
      requires Ran(cfg, s, before, Snapshot())
      requires w !in workers && tid in rows && rows[tid].status.Pending? && Stale(cfg, now, rows[tid])
      modifies this`rows, this`outbox
      ensures Ran(cfg, s, acts, Snapshot())
      ensures rows.Keys == old(rows).Keys && forall u :: u in rows && u != tid ==> rows[u] == old(rows)[u]
      ensures rows[tid] == Resolved(old(rows)[tid], tid, ledger, now, reachable)
      ensures reachable ==> IsOutcome(ledger, tid, rows[tid].status)
      ensures outbox == if reachable then Add(old(outbox), tid, OutcomeEvent(tid, old(rows)[tid], rows[tid].status)) else old(outbox)
    {
      acts := before;
      if reachable {
        var answer := L.Find(ledger.entries, tid);
        OutcomeOfFind(ledger, tid);
        ReconcileActions(cfg, s, before, Snapshot(), w, tid);
        acts := before + [Work(w, Pick(tid)), Work(w, Ask), Work(w, MarkIt)];
        var _ := MarkTransferIfPending(tid, Reconciled(answer));
      }
    }

    /** reconcileOnce: every stale pending transfer the ledger answers for is closed
        as the ledger says; nothing else is touched. */
    method ReconcileOnce(w: nat, reachable: string -> bool) returns (ghost acts: seq<Action>)
      requires w !in workers
      modifies this`rows, this`outbox
      ensures Ran(cfg, old(Snapshot()), acts, Snapshot())
      ensures rows.Keys == old(rows).Keys
      ensures forall tid :: tid in rows ==>
                var row := old(rows)[tid];
                rows[tid] == Resolved(row, tid, ledger, now, row.status.Pending? && Stale(cfg, now, row) && reachable(tid))
      ensures forall tid :: tid in rows ==>
                var row := old(rows)[tid];
                if row.status.Pending? && row.updatedAt + cfg.staleAfter < now && reachable(tid)
                then IsOutcome(ledger, tid, rows[tid].status) else rows[tid] == row
    {
      hide Ran, Resolved;
      ghost var s := Snapshot();
      RunNone(cfg, s);
      acts := [];
      var stale := GetStalePending();
      PassRowsStart(rows, ledger, now, reachable);
      hide PassRows;
      for i := 0 to |stale|
        invariant Ran(cfg, s, acts, Snapshot()) && PassRows(s.rows, rows, stale[..i], ledger, now, reachable)
        invariant rows.Keys == s.rows.Keys
      {
        var tid := stale[i];
        assert tid in stale && tid !in stale[..i];
        Unasked(s.rows, rows, stale[..i], ledger, now, reachable, tid);
        ghost var was := rows;
        acts := ReconcileTransfer(w, tid, reachable(tid), s, acts);
        PassRowsStep(s.rows, was, rows, stale[..i], tid, ledger, now, reachable);
        assert stale[..i + 1] == stale[..i] + [tid];
      }
      assert stale[..|stale|] == stale;
      PassRowsEnd(cfg, s.rows, rows, stale, ledger, now, reachable);
      forall tid | tid in rows
        ensures var row := s.rows[tid];
                if row.status.Pending? && row.updatedAt + cfg.staleAfter < now && reachable(tid)
                then IsOutcome(ledger, tid, rows[tid].status) else rows[tid] == row
      {
        ResolvedMeans(s.rows[tid], tid, ledger, now);
      }
    }
  }

  /** Completed under the transaction of an entry that carries the transfer's id, or
      failed as unresolved when there is none. */
  ghost predicate IsOutcome(ledger: L.Ledger, tid: string, status: Status) {
    if exists e :: e in ledger.entries && e.reference == tid
    then status.Completed? && exists e :: e in ledger.entries && e.reference == tid && e.txn == status.txn
    else status == Failed("timeout_unresolved")
  }

  lemma OutcomeOfFind(ledger: L.Ledger, tid: string)
    ensures IsOutcome(ledger, tid, Reconciled(L.Find(ledger.entries, tid)))
  {
  }

  lemma ResolvedMeans(row: Row, tid: string, ledger: L.Ledger, now: nat)
    ensures IsOutcome(ledger, tid, Resolved(row, tid, ledger, now, true).status)
    ensures Resolved(row, tid, ledger, now, false) == row
  {
    OutcomeOfFind(ledger, tid);
  }

  lemma PassRowsEnd(cfg: Config, was: map<string, Row>, rows: map<string, Row>, stale: seq<string>, ledger: L.Ledger, now: nat,
                    reachable: string -> bool)
    requires PassRows(was, rows, stale, ledger, now, reachable)
    requires forall tid :: tid in stale <==> tid in was && was[tid].status.Pending? && Stale(cfg, now, was[tid])
    ensures rows.Keys == was.Keys
    ensures forall tid :: tid in rows ==>
              rows[tid] == Resolved(was[tid], tid, ledger, now, was[tid].status.Pending? && Stale(cfg, now, was[tid]) && reachable(tid))
  {
  }

  /** Each row as the pass leaves it once these transfers were dealt with. */
  ghost predicate PassRows(was: map<string, Row>, rows: map<string, Row>, done: seq<string>, ledger: L.Ledger, now: nat,
                           reachable: string -> bool) {
    && rows.Keys == was.Keys
    && forall tid :: tid in was ==> rows[tid] == Resolved(was[tid], tid, ledger, now, tid in done && reachable(tid))
  }

  lemma PassRowsStart(rows: map<string, Row>, ledger: L.Ledger, now: nat, reachable: string -> bool)
    ensures PassRows(rows, rows, [], ledger, now, reachable)
  {
  }

  lemma Unasked(was: map<string, Row>, rows: map<string, Row>, done: seq<string>, ledger: L.Ledger, now: nat,
                reachable: string -> bool, tid: string)
    requires PassRows(was, rows, done, ledger, now, reachable) && tid in was && tid !in done
    ensures tid in rows && rows[tid] == was[tid]
  {
  }

  lemma PassRowsStep(was: map<string, Row>, rows: map<string, Row>, rows': map<string, Row>, done: seq<string>, tid: string,
                     ledger: L.Ledger, now: nat, reachable: string -> bool)
    requires PassRows(was, rows, done, ledger, now, reachable) && tid in was && tid !in done
    requires rows'.Keys == rows.Keys && forall u :: u in rows' && u != tid ==> rows'[u] == rows[u]
    requires rows'[tid] == Resolved(rows[tid], tid, ledger, now, reachable(tid))
    ensures PassRows(was, rows', done + [tid], ledger, now, reachable)
  {
  }

  /** Both parties have a ledger row and the sender's entries cover the amount. */
  predicate CanPay(ledger: L.Ledger, row: Row) {
    && row.amount > 0 && Lower(row.sender) in ledger.accounts && Lower(row.recipient) in ledger.accounts
    && L.Balance(ledger.entries, Lower(row.sender)) >= row.amount
  }

  function OutcomeEvent(tid: string, row: Row, status: Status): Event {
    match status
    case Completed(txn) => TransferCompleted(tid, row.sender, row.recipient, row.amount, txn)
    case Failed(reason) => TransferFailed(tid, row.sender, row.recipient, row.amount, reason)
    case Rejected(rule) => TransferRejected(tid, row.sender, row.recipient, row.amount, rule)
    case Pending => TransferFailed(tid, row.sender, row.recipient, row.amount, "")
  }

  /** The ledger's answer and what settleTransfer makes of it, by the log alone. */
  lemma ExecutionMeans(ledger: L.Ledger, tid: string, row: Row, fate: LedgerFate)
    ensures var (after, reply) := Execution(ledger, tid, row, fate);
            && (if (fate.Answers? || fate.AnswerLost?) && CanPay(ledger, row)
                then after.entries == ledger.entries + [L.Entry(fate.uuid, Lower(row.sender), -row.amount, tid),
                                                        L.Entry(fate.uuid, Lower(row.recipient), row.amount, tid)]
                else after == ledger)
            && (fate.InternalError? ==> Settled(reply) == Failed("ledger_internal_error"))
            && (fate.Answers? ==>
                  Settled(reply) == if row.amount <= 0 then Failed("invalid_amount")
                                    else if Lower(row.sender) !in ledger.accounts || Lower(row.recipient) !in ledger.accounts
                                    then Failed("account_not_found")
                                    else if L.Balance(ledger.entries, Lower(row.sender)) < row.amount
                                    then Failed("insufficient_funds")
                                    else Completed(fate.uuid))
  {
  }

  /** The row once the ledger was asked about it: closed as the log says. */
  function Resolved(row: Row, tid: string, ledger: L.Ledger, now: nat, asked: bool): Row {
    if asked then row.(status := Reconciled(L.Find(ledger.entries, tid)), updatedAt := now) else row
  }

  /** What becomes of the ledger, and what it answers whoever hears it. */
  function Execution(ledger: L.Ledger, tid: string, row: Row, fate: LedgerFate): (L.Ledger, L.Reply) {
    match fate
    case Answers(uuid) => L.Apply(ledger, LedgerArgs(tid, row), uuid)
    case AnswerLost(uuid) => L.Apply(ledger, LedgerArgs(tid, row), uuid)
    case InternalError => (ledger, L.Failed)
    case Unreachable => (ledger, L.Failed)
  }

  /** The ledger's side of a call's fate, as a machine step. */
  function Step(fate: LedgerFate): ServeStep
    requires !fate.Unreachable?
  {
    if fate.InternalError? then ExecuteError else Execute(fate.uuid)
  }

  lemma ReconcileActions(cfg: Config, s: State, before: seq<Action>, mid: State, w: nat, tid: string)
    requires Ran(cfg, s, before, mid)
    requires w !in mid.workers && tid in mid.rows && mid.rows[tid].status.Pending? && Stale(cfg, mid.now, mid.rows[tid])
    ensures Ran(cfg, s, before + [Work(w, Pick(tid)), Work(w, Ask), Work(w, MarkIt)],
                MarkIfPending(mid, tid, Reconciled(L.Find(mid.ledger.entries, tid))))
  {
    hide Ran;
    var a, b, c := Work(w, Pick(tid)), Work(w, Ask), Work(w, MarkIt);
    var answer := L.Find(mid.ledger.entries, tid);
    RunMore(cfg, s, before, mid, a);
    var s1 := mid.(workers := mid.workers[w := Picked(tid)]);
    RunMore(cfg, s, before + [a], s1, b);
    var s2 := mid.(workers := mid.workers[w := Told(tid, answer)]);
    assert s1.workers[w := Told(tid, answer)] == s2.workers;
    RunMore(cfg, s, before + [a] + [b], s2, c);
    assert before + [a] + [b] + [c] == before + [a, b, c];
    assert WithoutWorker(MarkIfPending(s2, tid, Reconciled(answer)), w).workers == mid.workers;
  }

  lemma RunNone(cfg: Config, s: State)
    ensures Ran(cfg, s, [], s)
  {
  }

  lemma RunOne(cfg: Config, s: State, a: Action)
    requires Enabled(cfg, s, a)
    ensures Ran(cfg, s, [a], Do(cfg, s, a))
  {
    hide Enabled, Do;
    assert [a][1..] == [];
    assert ValidRun(cfg, Do(cfg, s, a), []) && Exec(cfg, Do(cfg, s, a), []) == Do(cfg, s, a);
  }

  lemma RunMore(cfg: Config, s: State, acts: seq<Action>, mid: State, a: Action)
    requires Ran(cfg, s, acts, mid) && Enabled(cfg, mid, a)
    ensures Ran(cfg, s, acts + [a], Do(cfg, mid, a))
  {
    hide Enabled, Do;
    ExtendRun(cfg, s, acts, a);
  }
}
