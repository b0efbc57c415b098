/** What a deposit can still do from a given state. The only steps that can bring
    a closed row back are payment_intent.succeeded deliveries for its payment intent,
    attached already or later, whose event id is not recorded yet. So everything here
    is relative to the ids under which Stripe may still deliver one, `allowed`. */
module DepositFutures {
  import opened Options
  import opened Order
  import Finite
  import L = LedgerSpec
  import opened DepositSaga
  import opened DepositSafety

  predicate Owns(s: State, did: string, pi: string) {
    did in s.deposits && HasIntent(s.deposits[did], pi)
  }

  /** Status from which the workers may still credit. */
  predicate Open(s: State, did: string) {
    did in s.deposits && (s.deposits[did].status.Pending? || s.deposits[did].status.Succeeded?)
  }

  predicate SaysCredited(s: State, did: string) {
    did in s.deposits && s.deposits[did].status.Credited?
  }

  /** The account holds the amount: credited and not taken back. */
  predicate Holds(n: Names, s: State, did: string) {
    IsCredited(s, did) && !IsReversed(n, s, did)
  }

  /** This step delivers a success for the intent the deposit has. */
  predicate Confirms(s: State, a: Action, did: string) {
    a.Stripe? && a.kind.PaymentSucceeded? && Owns(s, did, a.pi)
  }

  /** ... under an id not recorded yet. */
  predicate Reopens(s: State, a: Action, did: string) {
    Confirms(s, a, did) && a.ev !in s.processed
  }

  /** Along this run every success for the deposit carries one of these event ids. */
  ghost predicate From(n: Names, s: State, acts: seq<Action>, did: string, allowed: set<string>)
    requires ValidRun(n, s, acts)
    decreases acts
  {
    acts != [] ==>
      && (Confirms(s, acts[0], did) ==> acts[0].ev in allowed)
      && From(n, Do(n, s, acts[0]), acts[1..], did, allowed)
  }

  /** DepositCredited events out, plus one if the row can still be credited. */
  function Potential(s: State, did: string): nat {
    |EventsOf(s, did)| + if Open(s, did) then 1 else 0
  }

  /** ... plus one for every success that can still reopen it. */
  function Budget(s: State, did: string, allowed: set<string>): nat {
    Potential(s, did) + |allowed - s.processed|
  }

  // ----- one step

  /** A step that does not reopen the row. */
  predicate Kept(s: State, s': State, did: string) {
    && did in s'.deposits && Potential(s', did) <= Potential(s, did)
    && (Open(s', did) ==> Open(s, did))
    && (SaysCredited(s', did) ==> SaysCredited(s, did) || Open(s, did))
    && s.processed <= s'.processed
  }

  lemma KeptByRow(n: Names, s: State, step: RowStep, did: string)
    requires did in s.deposits && RowEnabled(n, s, step)
    ensures Kept(s, DoRow(n, s, step), did)
  {
  }

  lemma KeptByStripe(s: State, a: Action, did: string)
    requires did in s.deposits && a.Stripe? && !Reopens(s, a, did)
    ensures Kept(s, DoStripe(s, a.ev, a.kind, a.pi), did)
  {
  }

  lemma KeptByWork(s: State, w: nat, step: CreditStep, did: string)
    requires did in s.deposits && WorkEnabled(s, w, step)
    ensures Kept(s, DoWork(s, w, step), did)
  {
  }

  lemma KeptByRefund(n: Names, s: State, q: nat, step: RefundStep, did: string)
    requires did in s.deposits && RefundEnabled(s, q, step)
    ensures Kept(s, DoRefund(n, s, q, step), did)
  {
  }

  lemma KeptStep(n: Names, s: State, a: Action, did: string)
    requires did in s.deposits && Enabled(n, s, a) && !Reopens(s, a, did)
    ensures Kept(s, Do(n, s, a), did)
  {
    if a.Row? {
      KeptByRow(n, s, a.row, did);
    } else if a.Stripe? {
      KeptByStripe(s, a, did);
    } else if a.Work? {
      KeptByWork(s, a.w, a.work, did);
    } else if a.Refunding? {
      KeptByRefund(n, s, a.q, a.refund, did);
    }
    hide DoRow, DoStripe, DoWork, DoRefund;
  }

  /** Reopening costs the event id it came under. */
  lemma ReopenedStep(s: State, a: Action, did: string)
    requires did in s.deposits && Reopens(s, a, did)
    ensures var s' := DoStripe(s, a.ev, a.kind, a.pi);
            && did in s'.deposits && s'.deposits[did].status.Succeeded?
            && EventsOf(s', did) == EventsOf(s, did) && s'.processed == s.processed + {a.ev}
            && s'.ledger == s.ledger && s'.credits == s.credits
  {
  }

  lemma StepKeepsBudget(n: Names, s: State, a: Action, did: string, allowed: set<string>)
    requires did in s.deposits && Enabled(n, s, a) && (Confirms(s, a, did) ==> a.ev in allowed)
    ensures did in Do(n, s, a).deposits && Budget(Do(n, s, a), did, allowed) <= Budget(s, did, allowed)
  {
    var s' := Do(n, s, a);
    if Reopens(s, a, did) {
      ReopenedStep(s, a, did);
      assert allowed - s'.processed == (allowed - s.processed) - {a.ev};
    } else {
      KeptStep(n, s, a, did);
      Finite.SmallerSet(allowed - s'.processed, allowed - s.processed);
    }
  }

  lemma {:induction false} RunKeepsBudget(n: Names, s: State, acts: seq<Action>, did: string, allowed: set<string>)
    requires did in s.deposits && ValidRun(n, s, acts) && From(n, s, acts, did, allowed)
    ensures Budget(Exec(n, s, acts), did, allowed) <= Budget(s, did, allowed)
    decreases acts
  {
    hide Enabled, Do, Budget;
    if acts != [] {
      StepKeepsBudget(n, s, acts[0], did, allowed);
      RunKeepsBudget(n, Do(n, s, acts[0]), acts[1..], did, allowed);
    }
  }

  // ----- putting runs together

  lemma {:induction false} Chain(n: Names, s: State, first: seq<Action>, second: seq<Action>)
    requires ValidRun(n, s, first) && ValidRun(n, Exec(n, s, first), second)
    ensures ValidRun(n, s, first + second) && Exec(n, s, first + second) == Exec(n, Exec(n, s, first), second)
    decreases first
  {
    hide Enabled, Do;
    if first == [] {
      assert first + second == second;
    } else {
      Chain(n, Do(n, s, first[0]), first[1..], second);
      assert (first + second)[1..] == first[1..] + second;
    }
  }

  lemma {:induction false} ChainFrom(n: Names, s: State, first: seq<Action>, second: seq<Action>, did: string, allowed: set<string>)
    requires ValidRun(n, s, first) && ValidRun(n, Exec(n, s, first), second)
    requires From(n, s, first, did, allowed) && From(n, Exec(n, s, first), second, did, allowed)
    ensures ValidRun(n, s, first + second) && From(n, s, first + second, did, allowed)
    decreases first
  {
    hide Enabled, Do, Confirms;
    if first == [] {
      assert first + second == second;
    } else {
      ChainFrom(n, Do(n, s, first[0]), first[1..], second, did, allowed);
      assert (first + second)[1..] == first[1..] + second;
    }
  }

  lemma One(n: Names, s: State, a: Action, did: string, allowed: set<string>)
    requires Enabled(n, s, a) && (Confirms(s, a, did) ==> a.ev in allowed)
    ensures ValidRun(n, s, [a]) && Exec(n, s, [a]) == Do(n, s, a) && From(n, s, [a], did, allowed)
  {
    hide Enabled, Do, Confirms;
    assert [a][1..] == [];
    assert ValidRun(n, Do(n, s, a), []) && Exec(n, Do(n, s, a), []) == Do(n, s, a);
    assert From(n, Do(n, s, a), [], did, allowed);
  }

  /** A run from `s` to `t` in which successes for the deposit come from `allowed`. */
  ghost predicate Leads(n: Names, s: State, acts: seq<Action>, t: State, did: string, allowed: set<string>) {
    ValidRun(n, s, acts) && Exec(n, s, acts) == t && From(n, s, acts, did, allowed)
  }

  lemma Stay(n: Names, s: State, did: string, allowed: set<string>)
    ensures Leads(n, s, [], s, did, allowed)
  {
  }

  lemma Then(n: Names, s: State, acts: seq<Action>, t: State, a: Action, did: string, allowed: set<string>)
    requires Leads(n, s, acts, t, did, allowed) && Enabled(n, t, a) && (Confirms(t, a, did) ==> a.ev in allowed)
    ensures Leads(n, s, acts + [a], Do(n, t, a), did, allowed)
  {
    hide Enabled, Do, Confirms;
    One(n, t, a, did, allowed);
    Chain(n, s, acts, [a]);
    ChainFrom(n, s, acts, [a], did, allowed);
  }

  lemma Join(n: Names, s: State, first: seq<Action>, t: State, second: seq<Action>, u: State, did: string, allowed: set<string>)
    requires Leads(n, s, first, t, did, allowed) && Leads(n, t, second, u, did, allowed)
    ensures Leads(n, s, first + second, u, did, allowed)
  {
    Chain(n, s, first, second);
    ChainFrom(n, s, first, second, did, allowed);
  }

  lemma LeadsKeepsInv(n: Names, s: State, acts: seq<Action>, t: State, did: string, allowed: set<string>)
    requires Distinct(n) && Inv(n, s) && Leads(n, s, acts, t, did, allowed)
    ensures Inv(n, t)
  {
    RunKeepsInv(n, s, acts);
  }

  // ----- what the workers can do for an open row

  /** The deposit has an intent, given now if it had none; nothing else changes. */
  predicate Attached(s: State, t: State, did: string, pi: string) {
    && did in s.deposits && Owns(t, did, pi)
    && t == s.(deposits := s.deposits[did := s.deposits[did].(intent := Some(pi))])
  }

  /** createDeposit may still attach an intent, whatever became of the row. */
  lemma EnsureIntent(n: Names, s: State, did: string, allowed: set<string>) returns (acts: seq<Action>, t: State, pi: string)
    requires did in s.deposits
    ensures Leads(n, s, acts, t, did, allowed) && Attached(s, t, did, pi)
  {
    hide Leads;
    Stay(n, s, did, allowed);
    if s.deposits[did].intent.Some? {
      acts, t, pi := [], s, s.deposits[did].intent.value;
      assert s.deposits[did := s.deposits[did].(intent := Some(pi))] == s.deposits;
    } else {
      pi := Finite.UnusedText(set e | e in s.deposits && s.deposits[e].intent.Some? :: s.deposits[e].intent.value);
      Then(n, s, [], s, Row(Attach(did, pi)), did, allowed);
      acts, t := [] + [Row(Attach(did, pi))], DoRow(n, s, Attach(did, pi));
    }
  }

  function Opened(s: State, account: string): State {
    s.(ledger := s.ledger.(accounts := s.ledger.accounts + {Lower(L.GENESIS)} + {Lower(account)}))
  }

  /** Both ledger rows a deposit needs can be opened at any time. */
  lemma OpenBoth(n: Names, s: State, account: string, did: string, allowed: set<string>) returns (acts: seq<Action>)
    ensures Leads(n, s, acts, Opened(s, account), did, allowed)
  {
    hide Leads;
    Stay(n, s, did, allowed);
    var a, b := Other(OpenAccount(L.GENESIS)), Other(OpenAccount(account));
    Then(n, s, [], s, a, did, allowed);
    var s1 := s.(ledger := s.ledger.(accounts := s.ledger.accounts + {Lower(L.GENESIS)}));
    Then(n, s, [] + [a], s1, b, did, allowed);
    acts := [] + [a] + [b];
  }

  lemma Terms(n: Names, s: State, did: string)
    requires Distinct(n) && Inv(n, s) && did in s.deposits
    ensures n.isId(did) && s.deposits[did].amount > 0 && did != "" && n.reversal(did) != "" && n.reversal(did) != did
  {
    About(n, s, did);
  }

  /** The ledger, asked for a deposit's credit: old or new, it answers with the pair. */
  lemma LedgerCredits(n: Names, s: State, did: string)
    requires Distinct(n) && Inv(n, s) && did in s.deposits
    requires Lower(L.GENESIS) in s.ledger.accounts && Lower(s.deposits[did].account) in s.ledger.accounts
    ensures var d := s.deposits[did];
            var (ledger, reply) := L.Apply(s.ledger, L.DepositCall(d.account, d.amount, did), 0);
            && reply.Posted? && L.Tagged(ledger.entries, did) != []
            && L.Tagged(ledger.entries, n.reversal(did)) == L.Tagged(s.ledger.entries, n.reversal(did))
  {
    hide Inv, L.Tagged;
    Terms(n, s, did);
    PostTags(s.ledger, L.GENESIS, s.deposits[did].account, s.deposits[did].amount, did, 0);
  }

  /** After a worker went through with a succeeded row. */
  predicate Announced(n: Names, s: State, t: State, did: string) {
    && did in t.deposits && SaysCredited(t, did) && IsCredited(t, did)
    && IsReversed(n, t, did) == IsReversed(n, s, did)
    && |EventsOf(t, did)| == |EventsOf(s, did)| + 1 && t.processed == s.processed
  }

  lemma AskAndMark(n: Names, s: State, w: nat, did: string, allowed: set<string>)
    returns (acts: seq<Action>, t: State)
    requires Distinct(n) && Inv(n, s) && did in s.deposits && s.deposits[did].status.Succeeded? && w !in s.credits
    requires Lower(L.GENESIS) in s.ledger.accounts && Lower(s.deposits[did].account) in s.ledger.accounts
    ensures Leads(n, s, acts, t, did, allowed) && Announced(n, s, t, did)
  {
    hide Inv, Leads, L.Apply, L.Tagged, Lower;
    var d, seen := s.deposits[did], SnapshotOf(s, did);
    var (ledger, reply) := L.Apply(s.ledger, L.DepositCall(d.account, d.amount, did), 0);
    LedgerCredits(n, s, did);
    Stay(n, s, did, allowed);
    var a, b, c := Work(w, List(did)), Work(w, AskLedger(0)), Work(w, MarkCredited);
    Then(n, s, [], s, a, did, allowed);
    var s1 := s.(credits := s.credits[w := Listed(seen)]);
    Then(n, s, [] + [a], s1, b, did, allowed);
    var s2 := s.(ledger := ledger, credits := s.credits[w := Told(seen, reply.txn)]);
    assert s1.credits[w := Told(seen, reply.txn)] == s2.credits;
    Then(n, s, [] + [a] + [b], s2, c, did, allowed);
    acts, t := [] + [a] + [b] + [c], DoWork(s2, w, MarkCredited);
  }

  lemma OpenedKeepsInv(n: Names, s: State, account: string)
    requires Distinct(n) && Inv(n, s)
    ensures Inv(n, Opened(s, account))
  {
    hide Inv;
    var acts := OpenBoth(n, s, account, "", {});
    LeadsKeepsInv(n, s, acts, Opened(s, account), "", {});
  }

  lemma Announce(n: Names, s: State, did: string, allowed: set<string>) returns (acts: seq<Action>, t: State)
    requires Distinct(n) && Inv(n, s) && did in s.deposits && s.deposits[did].status.Succeeded?
    ensures Leads(n, s, acts, t, did, allowed) && Announced(n, s, t, did)
  {
    hide Inv, Leads;
    var account := s.deposits[did].account;
    var first := OpenBoth(n, s, account, did, allowed);
    OpenedKeepsInv(n, s, account);
    var w := Finite.UnusedNat(s.credits.Keys);
    var second;
    second, t := AskAndMark(n, Opened(s, account), w, did, allowed);
    Join(n, s, first, Opened(s, account), second, t, did, allowed);
    acts := first + second;
  }

  /** A pending row gets its intent, and a poll confirms it, first. */
  lemma AnnounceOpen(n: Names, s: State, did: string, allowed: set<string>) returns (acts: seq<Action>, t: State)
    requires Distinct(n) && Inv(n, s) && did in s.deposits && Open(s, did)
    ensures Leads(n, s, acts, t, did, allowed) && Announced(n, s, t, did)
  {
    hide Inv, Leads;
    if s.deposits[did].status.Succeeded? {
      acts, t := Announce(n, s, did, allowed);
    } else {
      var first, s0, pi := EnsureIntent(n, s, did, allowed);
      var poll, s1 := Row(PollSucceeded(pi)), SetPendingByIntent(s0, pi, Succeeded);
      Then(n, s, first, s0, poll, did, allowed);
      LeadsKeepsInv(n, s, first + [poll], s1, did, allowed);
      var second;
      second, t := Announce(n, s1, did, allowed);
      Join(n, s, first + [poll], s1, second, t, did, allowed);
      acts := first + [poll] + second;
    }
  }

  /** After a success under `ev` brought the row back and a worker went through with it. */
  predicate Reannounced(n: Names, s: State, t: State, did: string, ev: string) {
    && SaysCredited(t, did) && IsCredited(t, did)
    && IsReversed(n, t, did) == IsReversed(n, s, did)
    && |EventsOf(t, did)| == |EventsOf(s, did)| + 1 && t.processed == s.processed + {ev}
  }

  lemma AnnounceReopened(n: Names, s: State, did: string, allowed: set<string>, ev: string)
    returns (acts: seq<Action>, t: State)
    requires Distinct(n) && Inv(n, s) && did in s.deposits && ev in allowed && ev !in s.processed
    ensures Leads(n, s, acts, t, did, allowed) && Reannounced(n, s, t, did, ev)
  {
    hide Inv, Leads, DoStripe;
    var first, s0, pi := EnsureIntent(n, s, did, allowed);
    var a, s1 := Stripe(ev, PaymentSucceeded, pi), DoStripe(s0, ev, PaymentSucceeded, pi);
    ReopenedStep(s0, a, did);
    Then(n, s, first, s0, a, did, allowed);
    LeadsKeepsInv(n, s, first + [a], s1, did, allowed);
    var second;
    second, t := Announce(n, s1, did, allowed);
    Join(n, s, first + [a], s1, second, t, did, allowed);
    acts := first + [a] + second;
  }

  /** A worker that already listed the row posts the credit, whatever became of it. */
  lemma CreditAnyway(n: Names, s: State, did: string, allowed: set<string>, w: nat)
    returns (acts: seq<Action>, t: State)
    requires Distinct(n) && Inv(n, s) && did in s.deposits && !IsCredited(s, did)
    requires w in s.credits && s.credits[w].seen.did == did
    ensures Leads(n, s, acts, t, did, allowed) && Holds(n, t, did)
  {
    hide Inv, Leads, L.Apply, ViewOk;
    CreditFacts(n, s, w);
    var seen, s1 := s.credits[w].seen, Opened(s, s.deposits[did].account);
    OpenedKeepsInv(n, s, s.deposits[did].account);
    LedgerCredits(n, s1, did);
    NotReversed(n, s, did);
    var first := OpenBoth(n, s, s.deposits[did].account, did, allowed);
    Then(n, s, first, s1, Work(w, AskLedger(0)), did, allowed);
    acts, t := first + [Work(w, AskLedger(0))], DoWork(s1, w, AskLedger(0));
  }

  lemma NotReversed(n: Names, s: State, did: string)
    requires Inv(n, s) && did in s.deposits && !IsCredited(s, did)
    ensures !IsReversed(n, s, did)
  {
    About(n, s, did);
  }

  /** A refund of a row that says credited takes the money back before it says so. */
  lemma ReverseNow(n: Names, s: State, did: string, allowed: set<string>) returns (acts: seq<Action>, t: State)
    requires Distinct(n) && Inv(n, s) && SaysCredited(s, did)
    ensures Leads(n, s, acts, t, did, allowed) && SaysCredited(t, did) && IsReversed(n, t, did)
  {
    hide Inv, Leads, L.Apply;
    var attach, s0, pi := EnsureIntent(n, s, did, allowed);
    LeadsKeepsInv(n, s, attach, s0, did, allowed);
    var d, s1 := s0.deposits[did], Opened(s0, s0.deposits[did].account);
    var seen := SnapshotOf(s0, did);
    var q := Finite.UnusedNat(s.refunds.Keys);
    var open := OpenBoth(n, s0, d.account, did, allowed);
    Join(n, s, attach, s0, open, s1, did, allowed);
    var first := attach + open;
    var a, b := Refunding(q, Receive("", pi, Some(did))), Refunding(q, Reverse(0));
    Then(n, s, first, s1, a, did, allowed);
    var s2 := s1.(refunds := s1.refunds[q := Read("", Some(seen))]);
    Then(n, s, first + [a], s2, b, did, allowed);
    LedgerReverses(n, s0, did);
    acts, t := first + [a] + [b], DoRefund(n, s2, q, Reverse(0));
  }

  lemma LedgerReverses(n: Names, s: State, did: string)
    requires Distinct(n) && Inv(n, s) && did in s.deposits
    ensures var d, l := s.deposits[did], Opened(s, s.deposits[did].account).ledger;
            var (ledger, reply) := L.Apply(l, L.ReverseCall(d.account, d.amount, n.reversal(did)), 0);
            reply.Posted? && L.Tagged(ledger.entries, n.reversal(did)) != []
  {
    hide Inv, L.Tagged;
    Terms(n, s, did);
    var l := Opened(s, s.deposits[did].account).ledger;
    PostTags(l, s.deposits[did].account, L.GENESIS, s.deposits[did].amount, n.reversal(did), 0);
  }

  /** The budget can be spent to the last event. */
  lemma {:induction false} SpendBudget(n: Names, s: State, did: string, allowed: set<string>)
    returns (acts: seq<Action>, t: State)
    requires Distinct(n) && Inv(n, s) && did in s.deposits
    ensures Leads(n, s, acts, t, did, allowed) && |EventsOf(t, did)| == Budget(s, did, allowed)
    decreases |allowed - s.processed|
  {
    hide Inv, Leads, Enabled, Do;
    if Open(s, did) {
      var first, s1 := AnnounceOpen(n, s, did, allowed);
      LeadsKeepsInv(n, s, first, s1, did, allowed);
      var second;
      second, t := SpendClosed(n, s1, did, allowed);
      Join(n, s, first, s1, second, t, did, allowed);
      acts := first + second;
    } else {
      acts, t := SpendClosed(n, s, did, allowed);
    }
  }

  lemma {:induction false} SpendClosed(n: Names, s: State, did: string, allowed: set<string>)
    returns (acts: seq<Action>, t: State)
    requires Distinct(n) && Inv(n, s) && did in s.deposits && !Open(s, did)
    ensures Leads(n, s, acts, t, did, allowed) && |EventsOf(t, did)| == |EventsOf(s, did)| + |allowed - s.processed|
    decreases |allowed - s.processed|
  {
    hide Inv, Leads, Enabled, Do;
    if allowed - s.processed == {} {
      Stay(n, s, did, allowed);
      acts, t := [], s;
    } else {
      var ev :| ev in allowed - s.processed;
      var first, s1 := AnnounceReopened(n, s, did, allowed, ev);
      LeadsKeepsInv(n, s, first, s1, did, allowed);
      assert allowed - s1.processed == (allowed - s.processed) - {ev};
      var second;
      second, t := SpendClosed(n, s1, did, allowed);
      Join(n, s, first, s1, second, t, did, allowed);
      acts := first + second;
    }
  }

  /** A finished delivery leaves the other deliveries as they were. */
  lemma DroppedTask(s: State, s1: State, q: nat, task: Refund)
    requires q !in s.refunds && s1.refunds == s.refunds[q := task]
    ensures WithoutRefund(s1, q) == s1.(refunds := s.refunds)
  {
    assert (map p | p in s1.refunds && p != q :: s1.refunds[p]) == s.refunds;
  }

  // ----- what can no longer happen

  predicate Unlisted(s: State, did: string) {
    forall w :: w in s.credits ==> s.credits[w].seen.did != did
  }

  /** Nothing is left that could credit the row. */
  predicate Shut(s: State, did: string, allowed: set<string>) {
    did in s.deposits && !Open(s, did) && Unlisted(s, did) && !IsCredited(s, did) && allowed <= s.processed
  }

  lemma ShutByWork(s: State, w: nat, step: CreditStep, did: string, allowed: set<string>)
    requires Shut(s, did, allowed) && WorkEnabled(s, w, step)
    ensures !IsCredited(DoWork(s, w, step), did) && Unlisted(DoWork(s, w, step), did)
  {
    if step.AskLedger? {
      var seen := s.credits[w].seen;
      PostAdds(s.ledger, L.GENESIS, seen.account, seen.amount, seen.did, step.uuid);
      hide L.Apply;
    }
  }

  lemma ShutByRefund(n: Names, s: State, q: nat, step: RefundStep, did: string)
    requires Distinct(n) && Inv(n, s) && did in s.deposits && !IsCredited(s, did) && RefundEnabled(s, q, step)
    ensures !IsCredited(DoRefund(n, s, q, step), did) && DoRefund(n, s, q, step).credits == s.credits
  {
    hide Inv;
    if step.Reverse? {
      hide L.Apply;
      var seen := s.refunds[q].found.value;
      ReversalIsNoId(n, s, q, did);
      PostAdds(s.ledger, seen.account, L.GENESIS, seen.amount, n.reversal(seen.did), step.uuid);
    }
  }

  lemma ReversalIsNoId(n: Names, s: State, q: nat, did: string)
    requires Distinct(n) && Inv(n, s) && q in s.refunds && s.refunds[q].Read? && s.refunds[q].found.Some?
    requires did in s.deposits
    ensures n.reversal(s.refunds[q].found.value.did) != did
  {
    RefundFacts(n, s, q);
    About(n, s, did);
  }

  lemma LedgerAlone(n: Names, s: State, a: Action)
    requires Enabled(n, s, a) && (a.Row? || a.Stripe?)
    ensures Do(n, s, a).ledger == s.ledger && Do(n, s, a).credits == s.credits
  {
  }

  lemma ShutStep(n: Names, s: State, a: Action, did: string, allowed: set<string>)
    requires Distinct(n) && Inv(n, s) && Shut(s, did, allowed) && Enabled(n, s, a) && (Confirms(s, a, did) ==> a.ev in allowed)
    ensures Shut(Do(n, s, a), did, allowed)
  {
    hide Inv, L.Apply;
    KeptStep(n, s, a, did);
    hide DoWork, DoRow, DoStripe, DoRefund;
    if a.Work? {
      ShutByWork(s, a.w, a.work, did, allowed);
    } else if a.Refunding? {
      ShutByRefund(n, s, a.q, a.refund, did);
    } else if a.Other? {
      About(n, s, did);
      OtherTags(n, s, a.other, did);
    } else {
      LedgerAlone(n, s, a);
    }
  }

  lemma {:induction false} ShutRun(n: Names, s: State, acts: seq<Action>, did: string, allowed: set<string>)
    requires Distinct(n) && Inv(n, s) && Shut(s, did, allowed) && ValidRun(n, s, acts) && From(n, s, acts, did, allowed)
    ensures !IsCredited(Exec(n, s, acts), did)
    decreases acts
  {
    hide Inv, Enabled, Do;
    if acts != [] {
      ShutStep(n, s, acts[0], did, allowed);
      StepKeepsInv(n, s, acts[0]);
      ShutRun(n, Do(n, s, acts[0]), acts[1..], did, allowed);
    }
  }

  /** A row that is closed, not credited and not reopened never says credited. */
  lemma {:induction false} DormantRun(n: Names, s: State, acts: seq<Action>, did: string, allowed: set<string>)
    requires did in s.deposits && !Open(s, did) && !SaysCredited(s, did) && allowed <= s.processed
    requires ValidRun(n, s, acts) && From(n, s, acts, did, allowed)
    ensures !SaysCredited(Exec(n, s, acts), did)
    decreases acts
  {
    hide Enabled, Do;
    if acts != [] {
      KeptStep(n, s, acts[0], did);
      DormantRun(n, Do(n, s, acts[0]), acts[1..], did, allowed);
    }
  }

  /** The log only grows: what carries a reference keeps carrying it. */
  lemma CallKeepsTags(l: L.Ledger, call: L.Call, uuid: L.TransactionId, reference: string)
    requires L.Tagged(l.entries, reference) != []
    ensures L.Tagged(L.Apply(l, call, uuid).0.entries, reference) != []
  {
    L.ApplyTags(l, call, uuid, reference);
    hide L.Apply, L.Tagged;
  }

  lemma TagsStay(n: Names, s: State, a: Action, reference: string)
    requires Enabled(n, s, a) && L.Tagged(s.ledger.entries, reference) != []
    ensures L.Tagged(Do(n, s, a).ledger.entries, reference) != []
  {
    hide L.Apply, L.Tagged;
    if a.Row? || a.Stripe? {
      LedgerAlone(n, s, a);
    } else if a.Work? {
      if a.work.AskLedger? {
        var seen := s.credits[a.w].seen;
        CallKeepsTags(s.ledger, L.DepositCall(seen.account, seen.amount, seen.did), a.work.uuid, reference);
      }
    } else if a.Refunding? {
      if a.refund.Reverse? {
        var seen := s.refunds[a.q].found.value;
        CallKeepsTags(s.ledger, L.ReverseCall(seen.account, seen.amount, n.reversal(seen.did)), a.refund.uuid, reference);
      }
    } else if a.other.LedgerCallBy? {
      CallKeepsTags(s.ledger, a.other.call, a.other.uuid, reference);
    }
  }

  lemma {:induction false} ReversedStays(n: Names, s: State, acts: seq<Action>, did: string)
    requires ValidRun(n, s, acts) && IsReversed(n, s, did)
    ensures IsReversed(n, Exec(n, s, acts), did)
    decreases acts
  {
    hide Enabled, Do;
    if acts != [] {
      TagsStay(n, s, acts[0], n.reversal(did));
      ReversedStays(n, Do(n, s, acts[0]), acts[1..], did);
    }
  }
}
