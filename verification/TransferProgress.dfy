/** What a request can still get: a repeated request gets the transfer its key
    already has, and a new one can be carried all the way to a completed transfer. */
module TransferProgress {
  import opened Options
  import opened Order
  import Finite
  import L = LedgerSpec
  import opened TransferSaga
  import opened TransferTiming

  /** The request asks for exactly what this row records. */
  predicate Matches(p: Params, recipient: string, row: Row) {
    p.key == row.key && p.sender == row.sender && p.amount == row.amount && recipient == row.recipient
  }

  /** reconcileReplay: the existing transfer is returned if sender, amount and resolved
      recipient are the row's, and refused as key reuse otherwise; nothing else moves. */
  lemma ReplayAnswers(s: State, r: nat, tid: string, snapshot: Row, recipient: string)
    requires r in s.requests && s.requests[r].pc == Replaying(tid, snapshot)
    ensures var p, s' := s.requests[r].p, DoClient(s, r, FinishReplay(recipient));
            && s'.answers == s.answers +
                 (if snapshot.sender == p.sender && snapshot.amount == p.amount && snapshot.recipient == recipient
                  then [Answer(p, recipient, tid)] else [])
            && r !in s'.requests && s'.rows == s.rows && s'.ledger == s.ledger && s'.outbox == s.outbox && s'.checks == s.checks
  {
    hide KeyTaken, FreshTid, NewRow, Inserted, SetPc;
    var p := s.requests[r].p;
    assert s.answers + [] == s.answers;
    if snapshot.sender == p.sender && snapshot.amount == p.amount && snapshot.recipient == recipient {
      assert DoClient(s, r, FinishReplay(recipient)) == End(s, r).(answers := s.answers + [Answer(p, recipient, tid)]);
    } else {
      assert DoClient(s, r, FinishReplay(recipient)) == End(s, r);
    }
  }

  /** Where a replay of `tid` by a request with parameters `p` leads. */
  predicate Replayed(s: State, t: State, p: Params, recipient: string, tid: string)
    requires tid in s.rows
  {
    && t.rows == s.rows && t.ledger == s.ledger && t.outbox == s.outbox && t.checks == s.checks
    && t.answers == s.answers + (if Matches(p, recipient, s.rows[tid]) then [Answer(p, recipient, tid)] else [])
  }

  lemma FinishIt(cfg: Config, ledger: L.Ledger, s: State, r: nat, p: Params, tid: string, recipient: string) returns (t: State)
    requires Reachable(cfg, ledger, s) && tid in s.rows && s.rows[tid].key == p.key
    requires r in s.requests && s.requests[r] == Request(p, Replaying(tid, s.rows[tid]))
    ensures Reachable(cfg, ledger, t) && Replayed(s, t, p, recipient, tid) && r !in t.requests
  {
    hide Reachable;
    Extend(cfg, ledger, s, Client(r, FinishReplay(recipient)));
    ReplayAnswers(s, r, tid, s.rows[tid], recipient);
    t := DoClient(s, r, FinishReplay(recipient));
  }

  /** Main result: from every reachable state, a new request with the key of an existing
      row is driven to its end in three steps. It is answered with that row if it asks
      for the same transfer, and with nothing otherwise; no money moves, no check is
      made and no event is written. */
  lemma RepeatGetsItsTransfer(cfg: Config, ledger: L.Ledger, s: State, tid: string, p: Params, recipient: string) returns (t: State)
    requires Reachable(cfg, ledger, s) && tid in s.rows && p.key == s.rows[tid].key
    ensures Reachable(cfg, ledger, t) && Replayed(s, t, p, recipient, tid)
  {
    hide Reachable;
    var r := Finite.UnusedNat(s.requests.Keys);
    Extend(cfg, ledger, s, Client(r, Arrive(p)));
    var s1 := s.(requests := s.requests[r := Request(p, New)]);
    Extend(cfg, ledger, s1, Client(r, Lookup(Some(tid))));
    var s2 := s.(requests := s.requests[r := Request(p, Replaying(tid, s.rows[tid]))]);
    assert s1.requests[r := Request(p, Replaying(tid, s.rows[tid]))] == s2.requests;
    t := FinishIt(cfg, ledger, s2, r, p, tid, recipient);
  }

  /** The same for a request that passed the lookup and then lost the race to insert. */
  lemma LoserGetsTheWinner(cfg: Config, ledger: L.Ledger, s: State, r: nat, p: Params, tid: string, recipient: string)
    returns (t: State)
    requires Reachable(cfg, ledger, s) && tid in s.rows && s.rows[tid].key == p.key
    requires r in s.requests && s.requests[r] == Request(p, LostRace)
    ensures Reachable(cfg, ledger, t) && Replayed(s, t, p, recipient, tid)
  {
    hide Reachable;
    Extend(cfg, ledger, s, Client(r, ReadWinner(tid)));
    var s1 := s.(requests := s.requests[r := Request(p, Replaying(tid, s.rows[tid]))]);
    t := FinishIt(cfg, ledger, s1, r, p, tid, recipient);
  }

  /** An insert meets its key taken: the request has lost the race. */
  lemma TakenKeyLosesTheRace(s: State, r: nat, tid: string, other: string)
    requires ClientEnabled(s, r, Insert(other)) && tid in s.rows && s.rows[tid].key == s.requests[r].p.key
    ensures var s' := DoClient(s, r, Insert(other));
            s'.rows == s.rows && r in s'.requests && s'.requests[r] == Request(s.requests[r].p, LostRace)
  {
  }

  // ----- a new transfer goes through

  /** The request, with nothing in its way. */
  predicate Funded(s: State, p: Params, recipient: string) {
    && !KeyTaken(s, p.key) && p.amount > 0 && recipient != p.sender
    && Lower(p.sender) in s.ledger.accounts && Lower(recipient) in s.ledger.accounts
    && L.Balance(s.ledger.entries, Lower(p.sender)) >= p.amount
  }

  function With(s: State, r: nat, p: Params, pc: Pc): State {
    s.(requests := s.requests[r := Request(p, pc)])
  }

  lemma Untaken(s: State, r: nat, p: Params)
    requires !KeyTaken(s, p.key)
    ensures forall pc :: !KeyTaken(With(s, r, p, pc), p.key)
  {
  }

  lemma FreshStays(s: State, s': State, tid: string)
    requires FreshTid(s, tid) && s'.rows == s.rows && s'.ledger == s.ledger
    ensures FreshTid(s', tid)
  {
  }

  lemma CreateIt(cfg: Config, ledger: L.Ledger, s: State, r: nat, p: Params, recipient: string, tid: string)
    requires Reachable(cfg, ledger, s) && r !in s.requests && Funded(s, p, recipient) && FreshTid(s, tid)
    ensures Reachable(cfg, ledger, With(s, r, p, NeedFraud(tid, s.now)).(rows := s.rows[tid := NewRow(p, recipient, s.now)]))
  {
    hide Reachable;
    Extend(cfg, ledger, s, Client(r, Arrive(p)));
    var s1 := With(s, r, p, New);
    Untaken(s, r, p);
    hide KeyTaken, FreshTid;
    Extend(cfg, ledger, s1, Client(r, Lookup(None)));
    var s2 := With(s, r, p, Resolving);
    assert s1.requests[r := Request(p, Resolving)] == s2.requests;
    Extend(cfg, ledger, s2, Client(r, Resolve(recipient)));
    var s3 := With(s, r, p, Validated(recipient));
    assert s2.requests[r := Request(p, Validated(recipient))] == s3.requests;
    FreshStays(s, s3, tid);
    Extend(cfg, ledger, s3, Client(r, Insert(tid)));
    var s4 := With(s, r, p, NeedFraud(tid, s.now)).(rows := s.rows[tid := NewRow(p, recipient, s.now)]);
    assert s3.requests[r := Request(p, NeedFraud(tid, s.now))] == s4.requests;
  }

  lemma ApproveIt(cfg: Config, ledger: L.Ledger, s: State, r: nat, p: Params, tid: string)
    requires Reachable(cfg, ledger, s) && tid in s.rows
    requires r in s.requests && s.requests[r] == Request(p, NeedFraud(tid, s.now))
    ensures Reachable(cfg, ledger, With(s, r, p, NeedSettle(tid, s.now)).(
              fraudCalls := s.fraudCalls[tid := FraudAnswered(s.now + cfg.callTimeout, true)],
              checks := Add(s.checks, tid, true)))
  {
    hide Reachable;
    var deadline := s.now + cfg.callTimeout;
    Extend(cfg, ledger, s, Call(r, StartFraud));
    var s1 := With(s, r, p, AwaitFraud(tid, deadline)).(fraudCalls := s.fraudCalls[tid := FraudSent(deadline)]);
    Extend(cfg, ledger, s1, Serve(tid, Score(true)));
    var s2 := With(s, r, p, AwaitFraud(tid, deadline)).(
      fraudCalls := s.fraudCalls[tid := FraudAnswered(deadline, true)], checks := Add(s.checks, tid, true));
    assert s1.fraudCalls[tid := FraudAnswered(deadline, true)] == s2.fraudCalls;
    Extend(cfg, ledger, s2, Call(r, FraudReply("")));
    assert s2.requests[r := Request(p, NeedSettle(tid, s.now))] == s.requests[r := Request(p, NeedSettle(tid, s.now))];
  }

  /** Where settlement with the ledger's answer leads. */
  predicate Settles(s: State, t: State, p: Params, tid: string, uuid: L.TransactionId)
    requires tid in s.rows
  {
    var row := s.rows[tid];
    && t.rows == s.rows[tid := row.(status := Completed(uuid), updatedAt := s.now)]
    && t.ledger.entries == s.ledger.entries + [L.Entry(uuid, Lower(row.sender), -row.amount, tid),
                                               L.Entry(uuid, Lower(row.recipient), row.amount, tid)]
    && t.outbox == Add(s.outbox, tid, TransferCompleted(tid, row.sender, row.recipient, row.amount, uuid))
    && t.answers == s.answers + [Answer(p, row.recipient, tid)] && t.checks == s.checks
  }

  lemma SettleIt(cfg: Config, ledger: L.Ledger, s: State, r: nat, p: Params, tid: string, uuid: L.TransactionId) returns (t: State)
    requires Reachable(cfg, ledger, s) && tid in s.rows
    requires r in s.requests && s.requests[r] == Request(p, NeedSettle(tid, s.now))
    requires var row := s.rows[tid];
             && row.amount > 0 && Lower(row.sender) in s.ledger.accounts && Lower(row.recipient) in s.ledger.accounts
             && L.Balance(s.ledger.entries, Lower(row.sender)) >= row.amount
    ensures Reachable(cfg, ledger, t) && Settles(s, t, p, tid, uuid)
  {
    hide Reachable;
    var deadline, row := s.now + cfg.callTimeout, s.rows[tid];
    Extend(cfg, ledger, s, Call(r, StartSettle));
    var s1 := With(s, r, p, AwaitLedger(tid, deadline)).(ledgerCalls := s.ledgerCalls[tid := LedgerSent(deadline)]);
    Extend(cfg, ledger, s1, Serve(tid, Execute(uuid)));
    var after := L.AddPair(s.ledger, Lower(row.sender), Lower(row.recipient), row.amount, tid, uuid);
    assert L.Apply(s.ledger, LedgerArgs(tid, row), uuid) == (after, L.Posted(uuid));
    hide L.Apply;
    var s2 := s1.(ledger := after, ledgerCalls := s1.ledgerCalls[tid := LedgerAnswered(deadline, L.Posted(uuid))]);
    Extend(cfg, ledger, s2, Call(r, LedgerReply));
    t := DoCall(cfg, s2, r, LedgerReply);
  }

  /** Main result: from every reachable state, a new request whose parties are known and
      whose sender has the funds can be carried to a completed transfer: one row, one
      approval, its pair in the log, its event, and the answer. */
  lemma NewTransferCanComplete(cfg: Config, ledger: L.Ledger, s: State, p: Params, recipient: string, tid: string,
                               uuid: L.TransactionId) returns (t: State)
    requires Reachable(cfg, ledger, s) && Funded(s, p, recipient) && FreshTid(s, tid)
    ensures Reachable(cfg, ledger, t)
    ensures t.rows == s.rows[tid := Row(p.key, p.sender, recipient, p.amount, Completed(uuid), s.now, s.now)]
    ensures t.ledger.entries == s.ledger.entries + [L.Entry(uuid, Lower(p.sender), -p.amount, tid),
                                                    L.Entry(uuid, Lower(recipient), p.amount, tid)]
    ensures t.checks == Add(s.checks, tid, true)
    ensures t.outbox == Add(s.outbox, tid, TransferCompleted(tid, p.sender, recipient, p.amount, uuid))
    ensures t.answers == s.answers + [Answer(p, recipient, tid)]
  {
    hide Reachable;
    var r := Finite.UnusedNat(s.requests.Keys);
    CreateIt(cfg, ledger, s, r, p, recipient, tid);
    var s1 := With(s, r, p, NeedFraud(tid, s.now)).(rows := s.rows[tid := NewRow(p, recipient, s.now)]);
    ApproveIt(cfg, ledger, s1, r, p, tid);
    var s2 := With(s1, r, p, NeedSettle(tid, s.now)).(
      fraudCalls := s1.fraudCalls[tid := FraudAnswered(s.now + cfg.callTimeout, true)], checks := Add(s.checks, tid, true));
    t := SettleIt(cfg, ledger, s2, r, p, tid, uuid);
  }
}
