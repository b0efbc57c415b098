/** The transfer saga's promises over every run, and the exact timing condition
    they rest on: the reconciliation threshold must cover everything a live
    request, and the calls it sent, can still do. */
module TransferTiming {
  import opened Options
  import opened Order
  import L = LedgerSpec
  import opened TransferSaga
  import opened TransferSafety

  /** Some run of the whole system, from this ledger and no transfers, ends in `s`. */
  ghost predicate Reachable(cfg: Config, ledger: L.Ledger, s: State) {
    exists acts :: ValidRun(cfg, Initial(ledger), acts) && Exec(cfg, Initial(ledger), acts) == s
  }

  /** Every transfer is safe, a key has one row, and every reply is about it. */
  ghost predicate AllSafe(s: State) {
    && (forall tid :: tid in s.rows ==> Safe(s, tid))
    && OneRowPerKey(s) && AnswersOk(s)
  }

  lemma TransfersAreSafe(cfg: Config, ledger: L.Ledger, s: State)
    requires Timely(cfg) && Reachable(cfg, ledger, s)
    ensures AllSafe(s)
  {
    var acts :| ValidRun(cfg, Initial(ledger), acts) && Exec(cfg, Initial(ledger), acts) == s;
    RunKeepsInv(cfg, Initial(ledger), acts);
    forall tid | tid in s.rows ensures Safe(s, tid) { InvIsSafe(cfg, s, tid); }
  }

  /** One key, one transfer: any two responses to requests with one idempotency key
      report the same row, to requests with the same parameters; that row was
      scored at most once and tags at most one pair. */
  lemma OneKeyOneTransfer(cfg: Config, ledger: L.Ledger, s: State, i: nat, j: nat)
    requires Timely(cfg) && Reachable(cfg, ledger, s)
    requires i < |s.answers| && j < |s.answers| && s.answers[i].p.key == s.answers[j].p.key
    ensures s.answers[i] == s.answers[j]
    ensures var tid := s.answers[i].tid;
            tid in s.rows && |At(s.checks, tid)| <= 1 && |L.Tagged(s.ledger.entries, tid)| <= 2
  {
    TransfersAreSafe(cfg, ledger, s);
    assert AnswerOk(s, s.answers[i]) && AnswerOk(s, s.answers[j]);
    assert Safe(s, s.answers[i].tid);
  }

  // ----- runs grow at the end

  lemma {:induction false} ExtendRun(cfg: Config, s: State, acts: seq<Action>, a: Action)
    requires ValidRun(cfg, s, acts) && Enabled(cfg, Exec(cfg, s, acts), a)
    ensures ValidRun(cfg, s, acts + [a]) && Exec(cfg, s, acts + [a]) == Do(cfg, Exec(cfg, s, acts), a)
    decreases acts
  {
    hide Enabled, Do;
    if acts == [] {
      assert (acts + [a])[1..] == [];
    } else {
      ExtendRun(cfg, Do(cfg, s, acts[0]), acts[1..], a);
      assert (acts + [a])[1..] == acts[1..] + [a];
    }
  }

  lemma Extend(cfg: Config, ledger: L.Ledger, s: State, a: Action)
    requires Reachable(cfg, ledger, s) && Enabled(cfg, s, a)
    ensures Reachable(cfg, ledger, Do(cfg, s, a))
  {
    var acts :| ValidRun(cfg, Initial(ledger), acts) && Exec(cfg, Initial(ledger), acts) == s;
    ExtendRun(cfg, Initial(ledger), acts, a);
  }

  lemma Start(cfg: Config, ledger: L.Ledger)
    ensures Reachable(cfg, ledger, Initial(ledger))
  {
    assert ValidRun(cfg, Initial(ledger), []) && Exec(cfg, Initial(ledger), []) == Initial(ledger);
  }

  // ----- what happens when the threshold is too short

  /** Two accounts, one of them just funded. */
  function Funded(): L.Ledger {
    L.AddPair(L.Ledger({L.GENESIS, "a", "b"}, [], map[]), L.GENESIS, "a", 1, "", 0)
  }

  lemma FundedFacts()
    ensures L.Tagged(Funded().entries, "t") == [] && L.Balance(Funded().entries, "a") == 1
    ensures Lower("a") == "a" && Lower("b") == "b"
  {
    L.AppendPair([], L.GENESIS, "a", 1, "", 0);
    assert [] + L.Pair(L.GENESIS, "a", 1, "", 0) == L.Pair(L.GENESIS, "a", 1, "", 0);
    assert L.GENESIS[1] != "a"[0];
  }

  const Asked := Params("k", "a", 1)
  const Fresh := Row("k", "a", "b", 1, Pending, 0, 0)

  function AtPc(now: nat, pc: Pc): State {
    Initial(Funded()).(now := now, rows := map["t" := Fresh], requests := map[0 := Request(Asked, pc)])
  }

  lemma Created(cfg: Config)
    ensures Reachable(cfg, Funded(), AtPc(0, NeedFraud("t", 0)))
  {
    var s0 := Initial(Funded());
    Start(cfg, Funded());
    FundedFacts();
    Extend(cfg, Funded(), s0, Client(0, Arrive(Asked)));
    var s1 := s0.(requests := map[0 := Request(Asked, New)]);
    assert DoClient(s0, 0, Arrive(Asked)) == s1;
    Extend(cfg, Funded(), s1, Client(0, Lookup(None)));
    var s2 := s0.(requests := map[0 := Request(Asked, Resolving)]);
    assert DoClient(s1, 0, Lookup(None)) == s2;
    Extend(cfg, Funded(), s2, Client(0, Resolve("b")));
    var s3 := s0.(requests := map[0 := Request(Asked, Validated("b"))]);
    assert DoClient(s2, 0, Resolve("b")) == s3;
    Extend(cfg, Funded(), s3, Client(0, Insert("t")));
    assert DoClient(s3, 0, Insert("t")) == AtPc(0, NeedFraud("t", 0));
  }

  function Approved(cfg: Config, now: nat, pc: Pc): State {
    AtPc(now, pc).(fraudCalls := map["t" := FraudAnswered(cfg.gap + cfg.callTimeout, true)], checks := map["t" := [true]])
  }

  function AskedFraud(cfg: Config, now: nat): State {
    var t := cfg.gap + cfg.callTimeout;
    AtPc(now, AwaitFraud("t", t)).(fraudCalls := map["t" := FraudSent(t)])
  }

  lemma AskedLate(cfg: Config)
    ensures Reachable(cfg, Funded(), AskedFraud(cfg, cfg.gap + cfg.callTimeout))
  {
    var t, ledger := cfg.gap + cfg.callTimeout, Funded();
    Created(cfg);
    var s0 := AtPc(0, NeedFraud("t", 0));
    Extend(cfg, ledger, s0, Tick(cfg.gap));
    var s1 := AtPc(cfg.gap, NeedFraud("t", 0));
    assert Do(cfg, s0, Tick(cfg.gap)) == s1;
    Extend(cfg, ledger, s1, Call(0, StartFraud));
    var s2 := AskedFraud(cfg, cfg.gap);
    assert DoCall(cfg, s1, 0, StartFraud) == s2;
    Extend(cfg, ledger, s2, Tick(cfg.callTimeout));
    assert Do(cfg, s2, Tick(cfg.callTimeout)) == AskedFraud(cfg, t);
  }

  lemma ApprovedLate(cfg: Config)
    ensures var t := cfg.gap + cfg.callTimeout;
            Reachable(cfg, Funded(), Approved(cfg, t, NeedSettle("t", t)))
  {
    var t, ledger := cfg.gap + cfg.callTimeout, Funded();
    AskedLate(cfg);
    var s3 := AskedFraud(cfg, t);
    Extend(cfg, ledger, s3, Serve("t", Score(true)));
    var s4 := Approved(cfg, t, AwaitFraud("t", t));
    assert At(s3.checks, "t") + [true] == [true];
    assert DoServe(s3, "t", Score(true)) == s4;
    Extend(cfg, ledger, s4, Call(0, FraudReply("")));
    assert DoCall(cfg, s4, 0, FraudReply("")) == Approved(cfg, t, NeedSettle("t", t));
  }

  function Settling(cfg: Config): State {
    var end := 2 * cfg.gap + 2 * cfg.callTimeout;
    Approved(cfg, end, AwaitLedger("t", end)).(ledgerCalls := map["t" := LedgerSent(end)])
  }

  lemma SettlingLate(cfg: Config)
    ensures Reachable(cfg, Funded(), Settling(cfg))
  {
    var t, end, ledger := cfg.gap + cfg.callTimeout, 2 * cfg.gap + 2 * cfg.callTimeout, Funded();
    ApprovedLate(cfg);
    var s0 := Approved(cfg, t, NeedSettle("t", t));
    Extend(cfg, ledger, s0, Tick(cfg.gap));
    var s1 := Approved(cfg, t + cfg.gap, NeedSettle("t", t));
    assert Do(cfg, s0, Tick(cfg.gap)) == s1;
    Extend(cfg, ledger, s1, Call(0, StartSettle));
    var s2 := Settling(cfg).(now := t + cfg.gap);
    assert DoCall(cfg, s1, 0, StartSettle) == s2;
    Extend(cfg, ledger, s2, Tick(cfg.callTimeout));
    assert Do(cfg, s2, Tick(cfg.callTimeout)) == Settling(cfg);
  }

  /** The worker finds nothing in the ledger and gives the transfer up. */
  function GivenUp(cfg: Config): State {
    Mark(Settling(cfg), "t", Failed("timeout_unresolved"))
  }

  lemma GivenUpTooSoon(cfg: Config)
    requires !Timely(cfg)
    ensures Reachable(cfg, Funded(), GivenUp(cfg))
  {
    var s0, ledger := Settling(cfg), Funded();
    SettlingLate(cfg);
    FundedFacts();
    Extend(cfg, ledger, s0, Work(0, Pick("t")));
    var s1 := s0.(workers := map[0 := Picked("t")]);
    assert DoWork(cfg, s0, 0, Pick("t")) == s1;
    Extend(cfg, ledger, s1, Work(0, Ask));
    var s2 := s0.(workers := map[0 := Told("t", None)]);
    assert DoWork(cfg, s1, 0, Ask) == s2;
    Extend(cfg, ledger, s2, Work(0, MarkIt));
    assert WithoutWorker(Mark(s2, "t", Failed("timeout_unresolved")), 0) == GivenUp(cfg);
  }

  /** With too short a threshold the system reaches a failed transfer that moved
      money: the worker gave it up while the ledger call was still in flight. */
  lemma FailedYetMoved(cfg: Config) returns (s: State)
    requires !Timely(cfg)
    ensures Reachable(cfg, Funded(), s)
    ensures "t" in s.rows && s.rows["t"].status.Failed? && MovedOnce(s, "t", 7)
  {
    GivenUpTooSoon(cfg);
    FundedFacts();
    var g := GivenUp(cfg);
    Extend(cfg, Funded(), g, Serve("t", Execute(7)));
    s := DoServe(g, "t", Execute(7));
    L.AppendPair(Funded().entries, "a", "b", 1, "t", 7);
  }

  /** The promises hold in every run exactly when the threshold covers the two
      calls and the pauses before them. */
  lemma SafeIffTimely(cfg: Config)
    ensures (forall ledger, s :: Reachable(cfg, ledger, s) ==> AllSafe(s)) <==> Timely(cfg)
  {
    if Timely(cfg) {
      forall ledger, s | Reachable(cfg, ledger, s) ensures AllSafe(s) { TransfersAreSafe(cfg, ledger, s); }
    } else {
      var s := FailedYetMoved(cfg);
      assert !Safe(s, "t");
      assert Reachable(cfg, Funded(), s) && !AllSafe(s);
    }
  }

  /** The shipped threshold (2 min) and timeouts (5 s), in milliseconds: a live
      request may pause 55 s before each call, and no longer. */
  lemma ShippedDefaults(gap: nat)
    ensures Timely(Config(120_000, 5_000, gap)) <==> gap <= 55_000
  {
  }
}
