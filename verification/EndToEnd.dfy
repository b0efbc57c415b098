/** From a transfer's terminal status to the Kafka topic: the saga writes its
    event in the same transaction as the status, and the relay takes it from there. */
module EndToEnd {
  import opened Options
  import L = LedgerSpec
  import S = TransferSaga
  import TransferSafety
  import O = Outbox

  /** What an outbox row carries: a transfer's event, or one of another kind. */
  datatype Message = FromTransfer(event: S.Event) | Foreign(payload: string)

  datatype System = System(saga: S.State, box: O.State<Message>)

  datatype Step =
    | Bank(a: S.Action, id: nat)             // `id` is the outbox row it writes, if any
    | Publish(b: O.Action<Message>)
    | Elsewhere(id: nat, payload: string)    // another service's event, e.g. DepositCredited

  /** The transfer whose terminal status this step writes. */
  function Closes(cfg: S.Config, s: S.State, a: S.Action): Option<string>
    requires S.Enabled(cfg, s, a)
  {
    match a
    case Call(r, step) =>
      var tid := s.requests[r].pc.tid;
      if step.LedgerReply? || (step.FraudReply? && !s.fraudCalls[tid].approve) then Some(tid) else None
    case Work(w, step) =>
      if step.MarkIt? && s.rows[s.workers[w].tid].status.Pending? then Some(s.workers[w].tid) else None
    case _ => None
  }

  predicate Enabled(cfg: S.Config, s: System, step: Step) {
    match step
    case Bank(a, id) => S.Enabled(cfg, s.saga, a) && (Closes(cfg, s.saga, a).Some? ==> id !in s.box.rows)
    case Publish(b) => O.Enabled(s.box, b) && !b.Insert?
    case Elsewhere(id, _) => id !in s.box.rows
  }

  /** The outbox row committed together with a terminal status. */
  function Written(saga: S.State, tid: string, box: O.State<Message>, id: nat): O.State<Message>
    requires S.At(saga.outbox, tid) != [] && id !in box.rows
  {
    var events := S.At(saga.outbox, tid);
    O.Do(box, O.Insert(id, FromTransfer(events[|events| - 1])))
  }

  function Do(cfg: S.Config, s: System, step: Step): System
    requires Enabled(cfg, s, step)
  {
    match step
    case Bank(a, id) =>
      var saga := S.Do(cfg, s.saga, a);
      (match Closes(cfg, s.saga, a)
       case None => System(saga, s.box)
       case Some(tid) => ClosesWrites(cfg, s.saga, a); System(saga, Written(saga, tid, s.box, id)))
    case Publish(b) => System(s.saga, O.Do(s.box, b))
    case Elsewhere(id, payload) => System(s.saga, O.Do(s.box, O.Insert(id, Foreign(payload))))
  }

  /** What one saga step does to the outbox, given the transfer it closes. */
  predicate Writes(s: S.State, s': S.State, closed: Option<string>) {
    match closed
    case None => s'.outbox == s.outbox
    case Some(tid) =>
      && tid in s'.rows && !s'.rows[tid].status.Pending?
      && s'.outbox == S.Add(s.outbox, tid, S.EventOf(tid, s'.rows[tid]))
  }

  lemma CallWrites(cfg: S.Config, s: S.State, r: nat, step: S.CallStep)
    requires S.CallEnabled(cfg, s, r, step)
    ensures Writes(s, S.DoCall(cfg, s, r, step), Closes(cfg, s, S.Call(r, step)))
  {
  }

  lemma WorkWrites(cfg: S.Config, s: S.State, w: nat, step: S.WorkStep)
    requires S.WorkEnabled(cfg, s, w, step)
    ensures Writes(s, S.DoWork(cfg, s, w, step), Closes(cfg, s, S.Work(w, step)))
  {
  }

  lemma ClientWritesNothing(s: S.State, r: nat, step: S.ClientStep)
    requires S.ClientEnabled(s, r, step)
    ensures S.DoClient(s, r, step).outbox == s.outbox
  {
    hide S.KeyTaken, S.FreshTid, S.NewRow;
    match step
    case Arrive(_) =>
    case Lookup(_) =>
    case Resolve(_) =>
    case Insert(_) =>
    case ReadWinner(_) =>
    case FinishReplay(_) =>
    case Drop =>
  }

  /** The saga's outbox grows by one event of the closed transfer, or not at all. */
  lemma ClosesWrites(cfg: S.Config, s: S.State, a: S.Action)
    requires S.Enabled(cfg, s, a)
    ensures Writes(s, S.Do(cfg, s, a), Closes(cfg, s, a))
  {
    if a.Call? {
      CallWrites(cfg, s, a.r, a.call);
    } else if a.Work? {
      WorkWrites(cfg, s, a.w, a.work);
    } else if a.Client? {
      ClientWritesNothing(s, a.r, a.client);
    }
    hide S.DoCall, S.DoWork, S.DoClient;
  }

  function Initial(ledger: L.Ledger): System {
    System(S.Initial(ledger), O.Initial())
  }

  predicate ValidRun(cfg: S.Config, s: System, steps: seq<Step>)
    decreases steps
  {
    steps != [] ==> Enabled(cfg, s, steps[0]) && ValidRun(cfg, Do(cfg, s, steps[0]), steps[1..])
  }

  function Exec(cfg: S.Config, s: System, steps: seq<Step>): System
    requires ValidRun(cfg, s, steps)
    decreases steps
  {
    if steps == [] then s else Exec(cfg, Do(cfg, s, steps[0]), steps[1..])
  }

  // ----- the two outboxes agree

  /** Row `id` carries an event of transfer `tid`. */
  predicate Carries(box: O.State<Message>, id: nat, tid: string) {
    id in box.rows && box.rows[id].FromTransfer? && box.rows[id].event.tid == tid
  }

  /** The rows about `tid` are the saga's events about it: none, or exactly one. */
  ghost predicate RowsAgree(s: System, tid: string) {
    var events := S.At(s.saga.outbox, tid);
    && (events == [] ==> forall id :: !Carries(s.box, id, tid))
    && (|events| == 1 ==>
          exists id :: Carries(s.box, id, tid) && s.box.rows[id] == FromTransfer(events[0])
                       && forall other :: Carries(s.box, other, tid) ==> other == id)
    && |events| <= 1
  }

  ghost predicate Agree(s: System) {
    forall tid :: RowsAgree(s, tid)
  }

  ghost predicate Inv(cfg: S.Config, s: System) {
    S.Inv(cfg, s.saga) && O.Inv(s.box) && Agree(s)
  }

  lemma SameRowsAgree(s: System, s': System)
    requires Agree(s) && s'.saga.outbox == s.saga.outbox
    requires forall id, tid :: Carries(s'.box, id, tid) <==> Carries(s.box, id, tid)
    requires forall id :: id in s.box.rows ==> id in s'.box.rows && s'.box.rows[id] == s.box.rows[id]
    ensures Agree(s')
  {
    forall tid ensures RowsAgree(s', tid) {
      assert RowsAgree(s, tid);
      if |S.At(s.saga.outbox, tid)| == 1 {
        var id :| Carries(s.box, id, tid) && s.box.rows[id] == FromTransfer(S.At(s.saga.outbox, tid)[0])
                  && forall other :: Carries(s.box, other, tid) ==> other == id;
        assert Carries(s'.box, id, tid);
      }
    }
  }

  lemma WrittenAgrees(s: System, s': System, tid: string, event: S.Event, id: nat)
    requires Agree(s) && id !in s.box.rows && event.tid == tid && S.At(s.saga.outbox, tid) == []
    requires s'.saga.outbox == S.Add(s.saga.outbox, tid, event)
    requires s'.box.rows == s.box.rows[id := FromTransfer(event)]
    ensures Agree(s')
  {
    assert RowsAgree(s, tid);
    forall u ensures RowsAgree(s', u) {
      assert RowsAgree(s, u);
      assert forall x :: x != id || u != tid ==> (Carries(s'.box, x, u) <==> Carries(s.box, x, u));
      if u == tid {
        assert Carries(s'.box, id, tid);
        assert S.At(s'.saga.outbox, tid) == [event];
      } else if |S.At(s.saga.outbox, u)| == 1 {
        var x :| Carries(s.box, x, u) && s.box.rows[x] == FromTransfer(S.At(s.saga.outbox, u)[0])
                 && forall other :: Carries(s.box, other, u) ==> other == x;
        assert Carries(s'.box, x, u);
      }
    }
  }

  /** A transfer that is just being closed has no event yet. */
  lemma ClosedOnce(cfg: S.Config, s: S.State, a: S.Action)
    requires S.Timely(cfg) && S.Inv(cfg, s) && S.Enabled(cfg, s, a) && Closes(cfg, s, a).Some?
    ensures S.At(s.outbox, Closes(cfg, s, a).value) == []
  {
    hide S.Inv, S.Do, S.Enabled;
    var s', tid := S.Do(cfg, s, a), Closes(cfg, s, a).value;
    ClosesWrites(cfg, s, a);
    TransferSafety.StepKeepsInv(cfg, s, a);
    TransferSafety.InvIsSafe(cfg, s', tid);
    assert |S.At(s'.outbox, tid)| == |S.At(s.outbox, tid)| + 1;
  }

  lemma BankKeepsInv(cfg: S.Config, s: System, a: S.Action, id: nat)
    requires S.Timely(cfg) && Inv(cfg, s) && Enabled(cfg, s, Bank(a, id))
    ensures Inv(cfg, Do(cfg, s, Bank(a, id)))
  {
    hide S.Inv, S.Do, S.Enabled, O.Inv, Closes, RowsAgree;
    var s' := Do(cfg, s, Bank(a, id));
    TransferSafety.StepKeepsInv(cfg, s.saga, a);
    ClosesWrites(cfg, s.saga, a);
    if Closes(cfg, s.saga, a).None? {
      SameRowsAgree(s, s');
    } else {
      var tid := Closes(cfg, s.saga, a).value;
      var event := S.EventOf(tid, s'.saga.rows[tid]);
      ClosedOnce(cfg, s.saga, a);
      O.StepKeepsInv(s.box, O.Insert(id, FromTransfer(event)));
      WrittenAgrees(s, s', tid, event, id);
    }
  }

  lemma PublishKeepsRows(box: O.State<Message>, b: O.Action<Message>)
    requires O.Enabled(box, b) && !b.Insert?
    ensures O.Do(box, b).rows == box.rows
  {
  }

  lemma StepKeepsInv(cfg: S.Config, s: System, step: Step)
    requires S.Timely(cfg) && Inv(cfg, s) && Enabled(cfg, s, step)
    ensures Inv(cfg, Do(cfg, s, step))
  {
    hide S.Inv, O.Inv, RowsAgree;
    var s' := Do(cfg, s, step);
    if step.Bank? {
      BankKeepsInv(cfg, s, step.a, step.id);
    } else if step.Publish? {
      PublishKeepsRows(s.box, step.b);
      O.StepKeepsInv(s.box, step.b);
      SameRowsAgree(s, s');
    } else {
      var b := O.Insert(step.id, Foreign(step.payload));
      O.StepKeepsInv(s.box, b);
      SameRowsAgree(s, s');
    }
  }

  lemma {:induction false} RunKeepsInv(cfg: S.Config, s: System, steps: seq<Step>)
    requires S.Timely(cfg) && Inv(cfg, s) && ValidRun(cfg, s, steps)
    ensures Inv(cfg, Exec(cfg, s, steps))
    decreases steps
  {
    hide Inv, Enabled, Do;
    if steps != [] {
      StepKeepsInv(cfg, s, steps[0]);
      RunKeepsInv(cfg, Do(cfg, s, steps[0]), steps[1..]);
    }
  }

  lemma InitialInv(cfg: S.Config, ledger: L.Ledger)
    ensures Inv(cfg, Initial(ledger))
  {
  }

  // ----- what a consumer of the topic may conclude

  /** The books agree with this message. */
  ghost predicate Truthful(s: S.State, event: S.Event) {
    && event.tid in s.rows
    && var row := s.rows[event.tid];
       && event.sender == row.sender && event.recipient == row.recipient && event.amount == row.amount
       && (match event
           case TransferCompleted(tid, _, _, _, txn) => row.status == S.Completed(txn) && S.MovedOnce(s, tid, txn)
           case TransferFailed(tid, _, _, _, reason) => row.status == S.Failed(reason) && S.MovedNothing(s, tid)
           case TransferRejected(tid, _, _, _, rule) => row.status == S.Rejected(rule) && S.MovedNothing(s, tid))
  }

  lemma RowIsTruthful(cfg: S.Config, s: System, id: nat)
    requires Inv(cfg, s) && id in s.box.rows && s.box.rows[id].FromTransfer?
    ensures Truthful(s.saga, s.box.rows[id].event)
  {
    hide S.Inv, O.Inv;
    var event := s.box.rows[id].event;
    assert RowsAgree(s, event.tid) && Carries(s.box, id, event.tid);
    EventsHaveRows(cfg, s.saga, event.tid);
    TransferSafety.InvIsSafe(cfg, s.saga, event.tid);
  }

  lemma EventsHaveRows(cfg: S.Config, s: S.State, tid: string)
    requires S.Inv(cfg, s) && S.At(s.outbox, tid) != []
    ensures tid in s.rows
  {
  }

  /** Main result: over every run of the whole system, a message about a transfer
      is true of the books, whichever copies of it were delivered. */
  lemma TopicTellsTheTruth(cfg: S.Config, ledger: L.Ledger, steps: seq<Step>, k: nat)
    requires S.Timely(cfg) && ValidRun(cfg, Initial(ledger), steps)
    requires var s := Exec(cfg, Initial(ledger), steps);
             k < |s.box.topic| && s.box.topic[k] in s.box.rows && s.box.rows[s.box.topic[k]].FromTransfer?
    ensures var s := Exec(cfg, Initial(ledger), steps);
            Truthful(s.saga, s.box.rows[s.box.topic[k]].event)
  {
    InitialInv(cfg, ledger);
    RunKeepsInv(cfg, Initial(ledger), steps);
    hide Inv;
    RowIsTruthful(cfg, Exec(cfg, Initial(ledger), steps), Exec(cfg, Initial(ledger), steps).box.topic[k]);
  }

  /** A closed transfer's one event: still waiting in the table, or in the topic. */
  ghost predicate OneEventOnItsWay(s: System, tid: string)
    requires tid in s.saga.rows && !s.saga.rows[tid].status.Pending?
  {
    exists id :: Carries(s.box, id, tid) && s.box.rows[id] == FromTransfer(S.EventOf(tid, s.saga.rows[tid]))
                 && (forall other :: Carries(s.box, other, tid) ==> other == id)
                 && ((id !in s.box.published && id !in s.box.deleted) || id in s.box.topic)
                 && (s.box.faults == 0 ==> multiset(s.box.topic)[id] <= 1)
  }

  ghost predicate Announced(s: System, tid: string)
    requires tid in s.saga.rows
  {
    if s.saga.rows[tid].status.Pending? then forall id :: !Carries(s.box, id, tid) else OneEventOnItsWay(s, tid)
  }

  lemma InvAnnounces(cfg: S.Config, s: System, tid: string)
    requires Inv(cfg, s) && tid in s.saga.rows
    ensures Announced(s, tid)
  {
    hide S.Inv;
    TransferSafety.InvIsSafe(cfg, s.saga, tid);
    assert RowsAgree(s, tid);
    assert forall id :: id in s.box.published ==> id in s.box.topic;
  }

  /** Main result: every closed transfer has exactly one event, neither lost nor
      doubled in the table, and a pending transfer has none. */
  lemma EveryOutcomeIsAnnounced(cfg: S.Config, ledger: L.Ledger, steps: seq<Step>, tid: string)
    requires S.Timely(cfg) && ValidRun(cfg, Initial(ledger), steps)
    requires tid in Exec(cfg, Initial(ledger), steps).saga.rows
    ensures Announced(Exec(cfg, Initial(ledger), steps), tid)
  {
    InitialInv(cfg, ledger);
    hide Inv, Announced;
    RunKeepsInv(cfg, Initial(ledger), steps);
    InvAnnounces(cfg, Exec(cfg, Initial(ledger), steps), tid);
  }
}
