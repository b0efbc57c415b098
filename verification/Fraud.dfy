/** fraud-svc: the rule loop, and what it guarantees about every time window. */
module Fraud {
  import opened Options

  /** A fraud_checks row; `at` is now() of its own transaction, in seconds. */
  datatype Check = Check(transfer: string, account: string, amount: int, approved: bool, at: int)

  datatype Rule = Rule(threshold: int, window: Option<nat>)

  datatype RuleType = AmountThreshold | VelocityCount | VelocitySum

  datatype Decision = Approve | Reject(rule: RuleType) | Error(rule: RuleType)

  const EvaluationOrder := [AmountThreshold, VelocityCount, VelocitySum]

  // ----- the two aggregate queries

  predicate Counts(c: Check, account: string, since: int) {
    c.account == account && c.approved && c.at >= since
  }

  function CountSince(checks: seq<Check>, account: string, since: int): nat {
    if checks == [] then 0
    else CountSince(checks[..|checks| - 1], account, since) + if Counts(checks[|checks| - 1], account, since) then 1 else 0
  }

  function SumSince(checks: seq<Check>, account: string, since: int): int {
    if checks == [] then 0
    else
      var last := checks[|checks| - 1];
      SumSince(checks[..|checks| - 1], account, since) + if Counts(last, account, since) then last.amount else 0
  }

  // ----- the decision

  /** What a rule measures, had this transfer been approved; None if it needs a
      window and has none. */
  function Observed(checks: seq<Check>, kind: RuleType, rule: Rule, account: string, amount: int, now: int): Option<int> {
    match kind
    case AmountThreshold => Some(amount)
    case VelocityCount =>
      if rule.window.None? then None else Some(CountSince(checks, account, now - rule.window.value) + 1)
    case VelocitySum =>
      if rule.window.None? then None else Some(SumSince(checks, account, now - rule.window.value) + amount)
  }

  /** Nothing against the transfer: the rule is off, or its measure is within bounds. */
  predicate Passes(checks: seq<Check>, rules: map<RuleType, Rule>, kind: RuleType, account: string, amount: int, now: int) {
    kind in rules ==>
      var observed := Observed(checks, kind, rules[kind], account, amount, now);
      observed.Some? && observed.value <= rules[kind].threshold
  }

  /** The first rule of the order that objects decides; without one, approve. */
  predicate IsDecision(d: Decision, checks: seq<Check>, rules: map<RuleType, Rule>, account: string, amount: int, now: int) {
    if d.Approve? then
      forall kind :: kind in EvaluationOrder ==> Passes(checks, rules, kind, account, amount, now)
    else
      exists k :: 0 <= k < |EvaluationOrder| && Objects(d, k, checks, rules, account, amount, now)
  }

  predicate Objects(d: Decision, k: nat, checks: seq<Check>, rules: map<RuleType, Rule>, account: string, amount: int, now: int)
    requires k < |EvaluationOrder|
  {
    && !d.Approve? && d.rule == EvaluationOrder[k] && d.rule in rules
    && !Passes(checks, rules, d.rule, account, amount, now)
    && (d.Error? <==> Observed(checks, d.rule, rules[d.rule], account, amount, now).None?)
    && forall j :: 0 <= j < k ==> Passes(checks, rules, EvaluationOrder[j], account, amount, now)
  }

  lemma DecisionIsUnique(d: Decision, e: Decision, checks: seq<Check>, rules: map<RuleType, Rule>,
                         account: string, amount: int, now: int)
    requires IsDecision(d, checks, rules, account, amount, now) && IsDecision(e, checks, rules, account, amount, now)
    ensures d == e
  {
    if !d.Approve? && !e.Approve? {
      var j :| 0 <= j < |EvaluationOrder| && Objects(d, j, checks, rules, account, amount, now);
      var k :| 0 <= k < |EvaluationOrder| && Objects(e, k, checks, rules, account, amount, now);
      assert j == k;
    }
  }

  /** The count rule is off, or one more check stays within it. */
  predicate CountPasses(checks: seq<Check>, rules: map<RuleType, Rule>, account: string, now: int) {
    VelocityCount in rules ==>
      && rules[VelocityCount].window.Some?
      && CountSince(checks, account, now - rules[VelocityCount].window.value) + 1 <= rules[VelocityCount].threshold
  }

  /** What each decision says about amount, count and sum: the amount rule speaks
      first, then the count, then the sum. */
  lemma DecisionMeans(d: Decision, checks: seq<Check>, rules: map<RuleType, Rule>, account: string, amount: int, now: int)
    requires IsDecision(d, checks, rules, account, amount, now)
    ensures var amountOk := AmountThreshold in rules ==> amount <= rules[AmountThreshold].threshold;
            var countOk := CountPasses(checks, rules, account, now);
            && (d == Reject(AmountThreshold) <==> !amountOk)
            && (d == Reject(VelocityCount) <==> amountOk && !countOk && rules[VelocityCount].window.Some?)
            && (d == Error(VelocityCount) <==> amountOk && !countOk && rules[VelocityCount].window.None?)
            && (d == Reject(VelocitySum) <==>
                  && amountOk && countOk && VelocitySum in rules && rules[VelocitySum].window.Some?
                  && SumSince(checks, account, now - rules[VelocitySum].window.value) + amount > rules[VelocitySum].threshold)
            && (d == Error(VelocitySum) <==> amountOk && countOk && VelocitySum in rules && rules[VelocitySum].window.None?)
            && d != Error(AmountThreshold)
  {
    assert EvaluationOrder[0] == AmountThreshold && EvaluationOrder[1] == VelocityCount && EvaluationOrder[2] == VelocitySum;
    if !d.Approve? {
      var k :| 0 <= k < |EvaluationOrder| && Objects(d, k, checks, rules, account, amount, now);
    } else {
      assert EvaluationOrder[0] in EvaluationOrder && EvaluationOrder[1] in EvaluationOrder && EvaluationOrder[2] in EvaluationOrder;
      assert Passes(checks, rules, AmountThreshold, account, amount, now);
      assert Passes(checks, rules, VelocityCount, account, amount, now);
      assert Passes(checks, rules, VelocitySum, account, amount, now);
    }
  }

  /** What the two queries count: approved checks of the account itself, at `since` or
      later, and nothing else. */
  lemma QueriesMean(checks: seq<Check>, c: Check, account: string, since: int)
    ensures CountSince([], account, since) == 0 && SumSince([], account, since) == 0
    ensures var hit := c.account == account && c.approved && c.at >= since;
            && CountSince(checks + [c], account, since) == CountSince(checks, account, since) + (if hit then 1 else 0)
            && SumSince(checks + [c], account, since) == SumSince(checks, account, since) + (if hit then c.amount else 0)
  {
    assert (checks + [c])[..|checks|] == checks;
  }

  class Service {
    var checks: seq<Check>
    var rules: map<RuleType, Rule>

    constructor (rules: map<RuleType, Rule>)
      ensures this.rules == rules && checks == []
    {
      this.rules, checks := rules, [];
    }

    method CountRecentApproved(account: string, window: nat, now: int) returns (count: nat)
      ensures count == CountSince(checks, account, now - window)
    {
      count := 0;
      for i := 0 to |checks|
        invariant count == CountSince(checks[..i], account, now - window)
      {
        assert checks[..i + 1][..i] == checks[..i];
        if Counts(checks[i], account, now - window) { count := count + 1; }
      }
      assert checks[..|checks|] == checks;
    }

    method SumRecentApproved(account: string, window: nat, now: int) returns (sum: int)
      ensures sum == SumSince(checks, account, now - window)
    {
      sum := 0;
      for i := 0 to |checks|
        invariant sum == SumSince(checks[..i], account, now - window)
      {
        assert checks[..i + 1][..i] == checks[..i];
        if Counts(checks[i], account, now - window) { sum := sum + checks[i].amount; }
      }
      assert checks[..|checks|] == checks;
    }

    /** checkTransfer: decide and record, or (on an error) neither. */
    method CheckTransfer(transfer: string, account: string, amount: int, now: int) returns (d: Decision)
      modifies this`checks
      ensures IsDecision(d, old(checks), rules, account, amount, now)
      ensures checks == if d.Error? then old(checks) else old(checks) + [Check(transfer, account, amount, d.Approve?, now)]
      ensures amount >= 0 && Serialized(old(checks), rules) ==> Serialized(checks, rules)
      ensures d == Reject(AmountThreshold) <==> AmountThreshold in rules && amount > rules[AmountThreshold].threshold
      ensures d == Reject(VelocityCount) <==>
                && (AmountThreshold in rules ==> amount <= rules[AmountThreshold].threshold)
                && VelocityCount in rules && rules[VelocityCount].window.Some?
                && CountSince(old(checks), account, now - rules[VelocityCount].window.value) + 1 > rules[VelocityCount].threshold
      ensures d == Reject(VelocitySum) <==>
                && (AmountThreshold in rules ==> amount <= rules[AmountThreshold].threshold)
                && CountPasses(old(checks), rules, account, now)
                && VelocitySum in rules && rules[VelocitySum].window.Some?
                && SumSince(old(checks), account, now - rules[VelocitySum].window.value) + amount > rules[VelocitySum].threshold
      ensures d == Error(VelocityCount) <==>
                && (AmountThreshold in rules ==> amount <= rules[AmountThreshold].threshold)
                && VelocityCount in rules && rules[VelocityCount].window.None?
      ensures d == Error(VelocitySum) <==>
                && (AmountThreshold in rules ==> amount <= rules[AmountThreshold].threshold)
                && CountPasses(old(checks), rules, account, now)
                && VelocitySum in rules && rules[VelocitySum].window.None?
      ensures d != Error(AmountThreshold)
    {
      d := Approve;
      for i := 0 to |EvaluationOrder|
        invariant d.Approve? && checks == old(checks)
        invariant forall j :: 0 <= j < i ==> Passes(checks, rules, EvaluationOrder[j], account, amount, now)
      {
        var kind := EvaluationOrder[i];
        if kind in rules {
          var rule := rules[kind];
          var observed := amount;
          if kind != AmountThreshold {
            if rule.window.None? {
              d := Error(kind);
              assert Objects(d, i, checks, rules, account, amount, now);
              DecisionMeans(d, checks, rules, account, amount, now);
              return;
            }
            if kind == VelocityCount {
              var prior := CountRecentApproved(account, rule.window.value, now);
              observed := prior + 1;
            } else {
              var prior := SumRecentApproved(account, rule.window.value, now);
              observed := prior + amount;
            }
          }
          if observed > rule.threshold {
            d := Reject(kind);
            assert Objects(d, i, checks, rules, account, amount, now);
            break;
          }
        }
      }
      DecisionMeans(d, checks, rules, account, amount, now);
      checks := checks + [Check(transfer, account, amount, d.Approve?, now)];
      assert checks[..|checks| - 1] == old(checks);
    }
  }

  // ----- every window

  /** These checks were made one after another under fixed rules: each saw all the
      earlier ones. */
  predicate Serialized(checks: seq<Check>, rules: map<RuleType, Rule>) {
    checks != [] ==>
      var before, last := checks[..|checks| - 1], checks[|checks| - 1];
      && Serialized(before, rules) && last.amount >= 0
      && (last.approved ==> IsDecision(Approve, before, rules, last.account, last.amount, last.at))
  }

  predicate Within(c: Check, account: string, from: int, to: int) {
    c.account == account && c.approved && from <= c.at <= to
  }

  /** Approved checks of the account in the closed interval, and their total. */
  function CountIn(checks: seq<Check>, account: string, from: int, to: int): nat {
    if checks == [] then 0
    else CountIn(checks[..|checks| - 1], account, from, to) + if Within(checks[|checks| - 1], account, from, to) then 1 else 0
  }

  function SumIn(checks: seq<Check>, account: string, from: int, to: int): int {
    if checks == [] then 0
    else
      var last := checks[|checks| - 1];
      SumIn(checks[..|checks| - 1], account, from, to) + if Within(last, account, from, to) then last.amount else 0
  }

  /** A query that looks back beyond the interval's start sees at least as much. */
  lemma {:induction false} QuerySeesInterval(checks: seq<Check>, rules: map<RuleType, Rule>, account: string,
                                             from: int, to: int, since: int)
    requires Serialized(checks, rules) && since <= from
    ensures CountIn(checks, account, from, to) <= CountSince(checks, account, since)
    ensures SumIn(checks, account, from, to) <= SumSince(checks, account, since)
  {
    if checks != [] { QuerySeesInterval(checks[..|checks| - 1], rules, account, from, to, since); }
  }

  function AtLeast0(n: int): int {
    if n < 0 then 0 else n
  }

  /** Main result: no interval of the rule's window length, wherever it starts, holds
      more approved checks of one account than the threshold. */
  lemma {:induction false} EveryWindowCount(checks: seq<Check>, rules: map<RuleType, Rule>, account: string, from: int)
    requires Serialized(checks, rules) && VelocityCount in rules && rules[VelocityCount].window.Some?
    ensures var rule := rules[VelocityCount];
            CountIn(checks, account, from, from + rule.window.value) <= AtLeast0(rule.threshold)
  {
    var rule := rules[VelocityCount];
    var to := from + rule.window.value;
    if checks != [] {
      var before, last := checks[..|checks| - 1], checks[|checks| - 1];
      EveryWindowCount(before, rules, account, from);
      if Within(last, account, from, to) {
        QuerySeesInterval(before, rules, account, from, to, last.at - rule.window.value);
        assert EvaluationOrder[1] == VelocityCount;
        assert Passes(before, rules, VelocityCount, account, last.amount, last.at);
      }
    }
  }

  /** Main result: nor more money than the threshold. */
  lemma {:induction false} EveryWindowSum(checks: seq<Check>, rules: map<RuleType, Rule>, account: string, from: int)
    requires Serialized(checks, rules) && VelocitySum in rules && rules[VelocitySum].window.Some?
    ensures var rule := rules[VelocitySum];
            SumIn(checks, account, from, from + rule.window.value) <= AtLeast0(rule.threshold)
  {
    var rule := rules[VelocitySum];
    var to := from + rule.window.value;
    if checks != [] {
      var before, last := checks[..|checks| - 1], checks[|checks| - 1];
      EveryWindowSum(before, rules, account, from);
      if Within(last, account, from, to) {
        QuerySeesInterval(before, rules, account, from, to, last.at - rule.window.value);
        assert EvaluationOrder[2] == VelocitySum;
        assert Passes(before, rules, VelocitySum, account, last.amount, last.at);
      }
    }
  }
}
