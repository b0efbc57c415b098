/** fraud-svc with any number of checks in flight: each reads the committed rows at
    two moments, decides, and commits its own row later. Nothing locks the account,
    so a check may miss others that commit in between; how much is missed is
    exactly how far a window can exceed its threshold. */
module FraudOverlap {
  import opened Options
  import opened Fraud

  /** A transaction that has begun at `at`. A query sees the rows committed so far,
      a prefix of the log: `counted` and `summed` are how long it was each time. */
  datatype Flight = Flight(transfer: string, account: string, amount: int, at: int, counted: Option<nat>, summed: Option<nat>)

  /** A committed row, and how much of the log its two queries saw. */
  datatype Done = Done(check: Check, counted: nat, summed: nat)

  datatype State = State(log: seq<Done>, flights: map<nat, Flight>)

  datatype Action =
    | Begin(id: nat, transfer: string, account: string, amount: int, at: int)
    | ReadCount(id: nat)
    | ReadSum(id: nat)
    | Commit(id: nat)
    | Abort(id: nat)      // an error, or a crash: nothing is recorded

  function Checks(log: seq<Done>): seq<Check> {
    seq(|log|, i requires 0 <= i < |log| => log[i].check)
  }

  // ----- the decision

  /** What the query of this rule saw. */
  function View(kind: RuleType, checks: seq<Check>, counted: nat, summed: nat): seq<Check>
    requires counted <= |checks| && summed <= |checks|
  {
    if kind.VelocitySum? then checks[..summed] else checks[..counted]
  }

  predicate PassesWith(rules: map<RuleType, Rule>, kind: RuleType, checks: seq<Check>, counted: nat, summed: nat,
                       account: string, amount: int, at: int)
    requires counted <= |checks| && summed <= |checks|
  {
    Passes(View(kind, checks, counted, summed), rules, kind, account, amount, at)
  }

  /** The rule loop: the first rule that objects decides. */
  function Verdict(rules: map<RuleType, Rule>, checks: seq<Check>, counted: nat, summed: nat,
                   account: string, amount: int, at: int): Decision
    requires counted <= |checks| && summed <= |checks|
  {
    if !PassesWith(rules, AmountThreshold, checks, counted, summed, account, amount, at) then Reject(AmountThreshold)
    else if !PassesWith(rules, VelocityCount, checks, counted, summed, account, amount, at) then
      if rules[VelocityCount].window.None? then Error(VelocityCount) else Reject(VelocityCount)
    else if !PassesWith(rules, VelocitySum, checks, counted, summed, account, amount, at) then
      if rules[VelocitySum].window.None? then Error(VelocitySum) else Reject(VelocitySum)
    else Approve
  }

  /** When both queries see the same rows, this is checkTransfer's decision on them. */
  lemma VerdictIsDecision(rules: map<RuleType, Rule>, checks: seq<Check>, seen: nat, account: string, amount: int, at: int)
    requires seen <= |checks|
    ensures IsDecision(Verdict(rules, checks, seen, seen, account, amount, at), checks[..seen], rules, account, amount, at)
  {
    var d := Verdict(rules, checks, seen, seen, account, amount, at);
    assert EvaluationOrder[0] == AmountThreshold && EvaluationOrder[1] == VelocityCount && EvaluationOrder[2] == VelocitySum;
    if !d.Approve? {
      var k := if d.rule.AmountThreshold? then 0 else if d.rule.VelocityCount? then 1 else 2;
      assert Objects(d, k, checks[..seen], rules, account, amount, at);
    }
  }

  // ----- steps

  predicate Ready(rules: map<RuleType, Rule>, s: State, id: nat) {
    && id in s.flights && s.flights[id].counted.Some? && s.flights[id].summed.Some?
    && s.flights[id].counted.value <= |s.log| && s.flights[id].summed.value <= |s.log|
    && !Outcome(rules, s, s.flights[id]).Error?
  }

  function Outcome(rules: map<RuleType, Rule>, s: State, f: Flight): Decision
    requires f.counted.Some? && f.summed.Some? && f.counted.value <= |s.log| && f.summed.value <= |s.log|
  {
    Verdict(rules, Checks(s.log), f.counted.value, f.summed.value, f.account, f.amount, f.at)
  }

  predicate Enabled(rules: map<RuleType, Rule>, s: State, a: Action) {
    match a
    case Begin(id, _, _, amount, _) => id !in s.flights && amount >= 0
    case ReadCount(id) => id in s.flights
    case ReadSum(id) => id in s.flights
    case Commit(id) => Ready(rules, s, id)
    case Abort(id) => id in s.flights
  }

  function Without(flights: map<nat, Flight>, id: nat): map<nat, Flight> {
    map i | i in flights && i != id :: flights[i]
  }

  function Do(rules: map<RuleType, Rule>, s: State, a: Action): State
    requires Enabled(rules, s, a)
  {
    match a
    case Begin(id, transfer, account, amount, at) =>
      s.(flights := s.flights[id := Flight(transfer, account, amount, at, None, None)])
    case ReadCount(id) => s.(flights := s.flights[id := s.flights[id].(counted := Some(|s.log|))])
    case ReadSum(id) => s.(flights := s.flights[id := s.flights[id].(summed := Some(|s.log|))])
    case Commit(id) =>
      var f := s.flights[id];
      var check := Check(f.transfer, f.account, f.amount, Outcome(rules, s, f).Approve?, f.at);
      State(s.log + [Done(check, f.counted.value, f.summed.value)], Without(s.flights, id))
    case Abort(id) => s.(flights := Without(s.flights, id))
  }

  predicate ValidRun(rules: map<RuleType, Rule>, s: State, acts: seq<Action>)
    decreases acts
  {
    acts != [] ==> Enabled(rules, s, acts[0]) && ValidRun(rules, Do(rules, s, acts[0]), acts[1..])
  }

  function Exec(rules: map<RuleType, Rule>, s: State, acts: seq<Action>): State
    requires ValidRun(rules, s, acts)
    decreases acts
  {
    if acts == [] then s else Exec(rules, Do(rules, s, acts[0]), acts[1..])
  }

  const Empty := State([], map[])

  ghost predicate Reachable(rules: map<RuleType, Rule>, s: State) {
    exists acts :: ValidRun(rules, Empty, acts) && Exec(rules, Empty, acts) == s
  }

  lemma {:induction false} ExtendRun(rules: map<RuleType, Rule>, s: State, acts: seq<Action>, a: Action)
    requires ValidRun(rules, s, acts) && Enabled(rules, Exec(rules, s, acts), a)
    ensures ValidRun(rules, s, acts + [a]) && Exec(rules, s, acts + [a]) == Do(rules, Exec(rules, s, acts), a)
    decreases acts
  {
    hide Enabled, Do;
    if acts == [] {
      assert (acts + [a])[1..] == [];
    } else {
      assert (acts + [a])[1..] == acts[1..] + [a];
      ExtendRun(rules, Do(rules, s, acts[0]), acts[1..], a);
    }
  }

  lemma Extend(rules: map<RuleType, Rule>, s: State, a: Action)
    requires Reachable(rules, s) && Enabled(rules, s, a)
    ensures Reachable(rules, Do(rules, s, a))
  {
    hide Enabled, Do;
    var acts :| ValidRun(rules, Empty, acts) && Exec(rules, Empty, acts) == s;
    ExtendRun(rules, Empty, acts, a);
  }

  // ----- what every row was decided on

  predicate RowOk(rules: map<RuleType, Rule>, log: seq<Done>, k: nat)
    requires k < |log|
  {
    var d := log[k];
    && d.counted <= k && d.summed <= k && d.check.amount >= 0
    && (d.check.approved ==>
          forall kind :: PassesWith(rules, kind, Checks(log), d.counted, d.summed, d.check.account, d.check.amount, d.check.at))
  }

  predicate LogOk(rules: map<RuleType, Rule>, log: seq<Done>) {
    forall k :: 0 <= k < |log| ==> RowOk(rules, log, k)
  }

  predicate FlightsOk(s: State) {
    forall id :: id in s.flights ==>
      var f := s.flights[id];
      && f.amount >= 0 && (f.counted.Some? ==> f.counted.value <= |s.log|) && (f.summed.Some? ==> f.summed.value <= |s.log|)
  }

  /** Later rows do not change what an earlier one saw. */
  lemma RowStays(rules: map<RuleType, Rule>, log: seq<Done>, more: seq<Done>, k: nat)
    requires k < |log|
    ensures RowOk(rules, log + more, k) <==> RowOk(rules, log, k)
  {
    var d := log[k];
    if d.counted <= k && d.summed <= k {
      forall kind
        ensures PassesWith(rules, kind, Checks(log + more), d.counted, d.summed, d.check.account, d.check.amount, d.check.at) ==
                PassesWith(rules, kind, Checks(log), d.counted, d.summed, d.check.account, d.check.amount, d.check.at)
      {
        assert View(kind, Checks(log + more), d.counted, d.summed) == View(kind, Checks(log), d.counted, d.summed);
      }
    }
  }

  lemma StepKeepsOk(rules: map<RuleType, Rule>, s: State, a: Action)
    requires LogOk(rules, s.log) && FlightsOk(s) && Enabled(rules, s, a)
    ensures LogOk(rules, Do(rules, s, a).log) && FlightsOk(Do(rules, s, a))
  {
    if a.Commit? {
      var s' := Do(rules, s, a);
      var d := s'.log[|s.log|];
      forall k | 0 <= k < |s'.log| ensures RowOk(rules, s'.log, k) {
        if k < |s.log| {
          RowStays(rules, s.log, [d], k);
        } else {
          forall kind ensures View(kind, Checks(s'.log), d.counted, d.summed) == View(kind, Checks(s.log), d.counted, d.summed) {}
        }
      }
    }
  }

  lemma {:induction false} RunKeepsOk(rules: map<RuleType, Rule>, s: State, acts: seq<Action>)
    requires LogOk(rules, s.log) && FlightsOk(s) && ValidRun(rules, s, acts)
    ensures LogOk(rules, Exec(rules, s, acts).log)
    decreases acts
  {
    hide LogOk, FlightsOk, Enabled, Do;
    if acts != [] {
      StepKeepsOk(rules, s, acts[0]);
      RunKeepsOk(rules, Do(rules, s, acts[0]), acts[1..]);
    }
  }

  // ----- measures

  predicate IsVelocity(kind: RuleType) {
    kind.VelocityCount? || kind.VelocitySum?
  }

  /** What one approved check adds to the rule's measure. */
  function Weight(kind: RuleType, c: Check): int {
    if kind.VelocityCount? then 1 else c.amount
  }

  /** The rule's query. */
  function Since(kind: RuleType, checks: seq<Check>, account: string, since: int): int {
    if kind.VelocityCount? then CountSince(checks, account, since) else SumSince(checks, account, since)
  }

  /** The rule's measure over the closed interval. */
  function TotalIn(kind: RuleType, checks: seq<Check>, account: string, from: int, to: int): int {
    if kind.VelocityCount? then CountIn(checks, account, from, to) else SumIn(checks, account, from, to)
  }

  /** ... over the interval of the rule's window length that starts at `from`. */
  function InWindow(rules: map<RuleType, Rule>, kind: RuleType, log: seq<Done>, account: string, from: int): int
    requires HasWindow(rules, kind)
  {
    TotalIn(kind, Checks(log), account, from, from + rules[kind].window.value)
  }

  predicate Amounts(checks: seq<Check>) {
    forall i :: 0 <= i < |checks| ==> checks[i].amount >= 0
  }

  lemma {:induction false} SinceConcat(kind: RuleType, a: seq<Check>, b: seq<Check>, account: string, since: int)
    ensures Since(kind, a + b, account, since) == Since(kind, a, account, since) + Since(kind, b, account, since)
  {
    if b == [] {
      assert a + b == a;
    } else {
      assert (a + b)[..|a + b| - 1] == a + b[..|b| - 1];
      SinceConcat(kind, a, b[..|b| - 1], account, since);
    }
  }

  /** A query that looks back beyond the interval's start sees at least as much. */
  lemma {:induction false} SinceCovers(kind: RuleType, checks: seq<Check>, account: string, from: int, to: int, since: int)
    requires Amounts(checks) && since <= from
    ensures 0 <= TotalIn(kind, checks, account, from, to) <= Since(kind, checks, account, since)
  {
    if checks != [] { SinceCovers(kind, checks[..|checks| - 1], account, from, to, since); }
  }

  // ----- how much is missed

  predicate HasWindow(rules: map<RuleType, Rule>, kind: RuleType) {
    IsVelocity(kind) && kind in rules && rules[kind].window.Some?
  }

  /** The measure of what row `k` should have seen and did not: approved checks of its
      account, in its window, committed after its query and before itself. */
  function Missed(rules: map<RuleType, Rule>, kind: RuleType, log: seq<Done>, k: nat): int
    requires HasWindow(rules, kind) && k < |log| && log[k].counted <= k && log[k].summed <= k
  {
    var d := log[k];
    var seen := if kind.VelocitySum? then d.summed else d.counted;
    Since(kind, Checks(log)[seen..k], d.check.account, d.check.at - rules[kind].window.value)
  }

  predicate MissesAtMost(rules: map<RuleType, Rule>, kind: RuleType, log: seq<Done>, m: nat)
    requires HasWindow(rules, kind)
  {
    forall k :: 0 <= k < |log| && log[k].check.approved && log[k].counted <= k && log[k].summed <= k ==>
      Missed(rules, kind, log, k) <= m
  }

  lemma EarlierRows(rules: map<RuleType, Rule>, kind: RuleType, log: seq<Done>, m: nat)
    requires log != [] && HasWindow(rules, kind) && LogOk(rules, log) && MissesAtMost(rules, kind, log, m)
    ensures var rest := log[..|log| - 1];
            LogOk(rules, rest) && MissesAtMost(rules, kind, rest, m) && Checks(rest) == Checks(log)[..|log| - 1]
  {
    var rest, last := log[..|log| - 1], log[|log| - 1];
    assert log == rest + [last];
    forall k | 0 <= k < |rest| ensures RowOk(rules, rest, k) { RowStays(rules, rest, [last], k); }
    forall k | 0 <= k < |rest| && rest[k].check.approved && rest[k].counted <= k && rest[k].summed <= k
      ensures Missed(rules, kind, rest, k) <= m
    {
      var seen := if kind.VelocitySum? then rest[k].summed else rest[k].counted;
      assert Checks(rest)[seen..k] == Checks(log)[seen..k];
      assert Missed(rules, kind, log, k) <= m;
    }
  }

  /** What a row could have seen is what it saw and what it missed. */
  lemma SeenAndMissed(rules: map<RuleType, Rule>, kind: RuleType, log: seq<Done>, k: nat)
    requires HasWindow(rules, kind) && k < |log| && log[k].counted <= k && log[k].summed <= k
    ensures var d, checks := log[k], Checks(log);
            var since := d.check.at - rules[kind].window.value;
            Since(kind, checks[..k], d.check.account, since) ==
            Since(kind, View(kind, checks, d.counted, d.summed), d.check.account, since) + Missed(rules, kind, log, k)
  {
    hide Since;
    var d, checks := log[k], Checks(log);
    var seen := if kind.VelocitySum? then d.summed else d.counted;
    assert checks[..k] == checks[..seen] + checks[seen..k];
    SinceConcat(kind, checks[..seen], checks[seen..k], d.check.account, d.check.at - rules[kind].window.value);
  }

  /** An approved row, and what it saw, are within the threshold. */
  lemma ApprovedIsWithin(rules: map<RuleType, Rule>, kind: RuleType, log: seq<Done>, k: nat)
    requires HasWindow(rules, kind) && k < |log| && RowOk(rules, log, k) && log[k].check.approved
    ensures var d, checks := log[k], Checks(log);
            var since := d.check.at - rules[kind].window.value;
            Since(kind, View(kind, checks, d.counted, d.summed), d.check.account, since) + Weight(kind, d.check) <= rules[kind].threshold
  {
    var d := log[k];
    assert PassesWith(rules, kind, Checks(log), d.counted, d.summed, d.check.account, d.check.amount, d.check.at);
  }

  /** The last row, if it counts: what it saw, what it missed and itself cover the
      interval. */
  lemma LastRowCovers(rules: map<RuleType, Rule>, kind: RuleType, log: seq<Done>, m: nat, account: string, from: int)
    requires log != [] && HasWindow(rules, kind) && LogOk(rules, log) && MissesAtMost(rules, kind, log, m)
    requires Within(log[|log| - 1].check, account, from, from + rules[kind].window.value)
    ensures InWindow(rules, kind, log, account, from) <= rules[kind].threshold + m
  {
    var k := |log| - 1;
    var d, checks := log[k], Checks(log);
    var to, since := from + rules[kind].window.value, d.check.at - rules[kind].window.value;
    assert RowOk(rules, log, k);
    SeenAndMissed(rules, kind, log, k);
    ApprovedIsWithin(rules, kind, log, k);
    assert Missed(rules, kind, log, k) <= m;
    assert Amounts(checks[..k]) by {
      forall i | 0 <= i < k ensures checks[..k][i].amount >= 0 { assert RowOk(rules, log, i); }
    }
    SinceCovers(kind, checks[..k], account, from, to, since);
    hide Since, Missed, RowOk, View;
    assert TotalIn(kind, checks, account, from, to) == TotalIn(kind, checks[..k], account, from, to) + Weight(kind, d.check);
  }

  /** Main result: if every approved check misses at most `m`, every interval of the
      rule's window length holds at most the threshold plus `m`. */
  lemma {:induction false} EveryWindowExceedsByAtMost(rules: map<RuleType, Rule>, kind: RuleType, log: seq<Done>, m: nat,
                                                      account: string, from: int)
    requires HasWindow(rules, kind) && LogOk(rules, log) && MissesAtMost(rules, kind, log, m)
    ensures InWindow(rules, kind, log, account, from) <= AtLeast0(rules[kind].threshold) + m
  {
    if log != [] {
      EarlierRows(rules, kind, log, m);
      EveryWindowExceedsByAtMost(rules, kind, log[..|log| - 1], m, account, from);
      if Within(log[|log| - 1].check, account, from, from + rules[kind].window.value) {
        LastRowCovers(rules, kind, log, m, account, from);
      }
    }
  }

  // ----- rule sets that let nothing through

  /** The smallest amount that adds to the rule's measure: the count rule counts
      transfers of nothing too. */
  function Unit(kind: RuleType): int {
    if kind.VelocityCount? then 0 else 1
  }

  /** No enabled rule, this one or another, objects to a first check of that amount. */
  predicate Passable(rules: map<RuleType, Rule>, kind: RuleType) {
    forall k :: Passes([], rules, k, "a", Unit(kind), 0)
  }

  /** If some rule does, whatever is approved adds nothing. */
  lemma ApprovedAddsNothing(rules: map<RuleType, Rule>, kind: RuleType, log: seq<Done>, i: nat)
    requires HasWindow(rules, kind) && LogOk(rules, log) && !Passable(rules, kind)
    requires i < |log| && log[i].check.approved
    ensures Weight(kind, log[i].check) <= 0
  {
    var k :| !Passes([], rules, k, "a", Unit(kind), 0);
    var d := log[i];
    assert RowOk(rules, log, i);
    assert PassesWith(rules, k, Checks(log), d.counted, d.summed, d.check.account, d.check.amount, d.check.at);
    if IsVelocity(k) {
      var view, since := View(k, Checks(log), d.counted, d.summed), d.check.at - rules[k].window.value;
      assert Amounts(view) by {
        forall j | 0 <= j < |view| ensures view[j].amount >= 0 { assert RowOk(rules, log, j); }
      }
      SinceCovers(k, view, d.check.account, since, since, since);
    }
  }

  lemma {:induction false} NothingCounts(rules: map<RuleType, Rule>, kind: RuleType, log: seq<Done>, account: string, from: int, to: int)
    requires HasWindow(rules, kind) && LogOk(rules, log) && !Passable(rules, kind)
    ensures TotalIn(kind, Checks(log), account, from, to) <= 0
  {
    if log != [] {
      var k := |log| - 1;
      var d, rest := log[k], log[..k];
      assert log == rest + [d] && Checks(rest) == Checks(log)[..k];
      forall i | 0 <= i < |rest| ensures RowOk(rules, rest, i) { RowStays(rules, rest, [d], i); }
      NothingCounts(rules, kind, rest, account, from, to);
      if d.check.approved { ApprovedAddsNothing(rules, kind, log, k); }
    }
  }

  /** Rows that saw everything before them are a serialized history. */
  lemma {:induction false} WholeViewIsSerialized(rules: map<RuleType, Rule>, log: seq<Done>)
    requires LogOk(rules, log) && forall k :: 0 <= k < |log| ==> log[k].counted == log[k].summed == k
    ensures Serialized(Checks(log), rules)
  {
    if log != [] {
      var k := |log| - 1;
      var d, rest := log[k], log[..k];
      assert log == rest + [d] && Checks(rest) == Checks(log)[..k];
      forall i | 0 <= i < |rest| ensures RowOk(rules, rest, i) { RowStays(rules, rest, [d], i); }
      WholeViewIsSerialized(rules, rest);
      assert RowOk(rules, log, k);
      if d.check.approved {
        forall kind ensures Passes(Checks(rest), rules, kind, d.check.account, d.check.amount, d.check.at) {
          assert PassesWith(rules, kind, Checks(log), d.counted, d.summed, d.check.account, d.check.amount, d.check.at);
        }
      }
    }
  }

  // ----- runs that exceed the threshold by everything they miss

  function Small(kind: RuleType): Check {
    Check("t", "a", Unit(kind), true, 0)
  }

  /** A check whose query of this rule saw `seen` rows, and whose other query was made
      before there were any. */
  function Saw(kind: RuleType, seen: nat): Done {
    if kind.VelocityCount? then Done(Small(kind), seen, 0) else Done(Small(kind), 0, seen)
  }

  function Seen(cap: nat, k: nat): nat {
    if k < cap then k else cap
  }

  /** `n` equal rows: the first ones saw everything before them, the rest only the
      first `cap`. */
  function Rows(kind: RuleType, cap: nat, n: nat): seq<Done> {
    seq(n, k requires 0 <= k < n => Saw(kind, Seen(cap, k)))
  }

  /** Begun, with the other rule's query already made on an empty log. */
  function Early(kind: RuleType): Flight {
    if kind.VelocityCount? then Flight("t", "a", Unit(kind), 0, None, Some(0)) else Flight("t", "a", Unit(kind), 0, Some(0), None)
  }

  function Read(kind: RuleType, seen: nat): Flight {
    if kind.VelocityCount? then Flight("t", "a", Unit(kind), 0, Some(seen), Some(0))
    else Flight("t", "a", Unit(kind), 0, Some(0), Some(seen))
  }

  function ReadIt(kind: RuleType, id: nat): Action {
    if kind.VelocityCount? then ReadCount(id) else ReadSum(id)
  }

  function Ids(lo: nat, hi: nat): (r: set<nat>)
    ensures forall id :: id in r <==> lo <= id < hi
  {
    if lo >= hi then {} else Ids(lo, hi - 1) + {hi - 1}
  }

  /** Flights lo..hi; those below `mid` have read `cap` rows, the others not yet. */
  function Flights(kind: RuleType, cap: nat, lo: nat, mid: nat, hi: nat): map<nat, Flight> {
    map id | id in Ids(lo, hi) :: if id < mid then Read(kind, cap) else Early(kind)
  }

  lemma {:induction false} SmallRows(kind: RuleType, cap: nat, n: nat, since: int)
    requires IsVelocity(kind) && since <= 0
    ensures Since(kind, Checks(Rows(kind, cap, n)), "a", since) == n
  {
    if n > 0 {
      SmallRows(kind, cap, n - 1, since);
      assert Checks(Rows(kind, cap, n))[..n - 1] == Checks(Rows(kind, cap, n - 1));
    }
  }

  /** Where a first small check passes, one that saw fewer rows than the threshold does. */
  lemma SmallIsApproved(rules: map<RuleType, Rule>, kind: RuleType, cap: nat, n: nat, seen: nat)
    requires HasWindow(rules, kind) && Passable(rules, kind) && seen <= n && seen < rules[kind].threshold
    ensures var d := Saw(kind, seen);
            Verdict(rules, Checks(Rows(kind, cap, n)), d.counted, d.summed, "a", Unit(kind), 0) == Approve
  {
    var d, checks := Saw(kind, seen), Checks(Rows(kind, cap, n));
    SmallRows(kind, cap, seen, 0 - rules[kind].window.value);
    assert checks[..seen] == Checks(Rows(kind, cap, seen));
    forall k ensures PassesWith(rules, k, checks, d.counted, d.summed, "a", Unit(kind), 0) {
      assert Passes([], rules, k, "a", Unit(kind), 0);
      if IsVelocity(k) && k != kind { assert View(k, checks, d.counted, d.summed) == []; }
    }
  }

  lemma CommitSmall(rules: map<RuleType, Rule>, kind: RuleType, cap: nat, n: nat, flights: map<nat, Flight>, id: nat)
    requires HasWindow(rules, kind) && Passable(rules, kind) && cap < rules[kind].threshold
    requires id in flights && flights[id] == Read(kind, Seen(cap, n))
    requires Reachable(rules, State(Rows(kind, cap, n), flights))
    ensures Reachable(rules, State(Rows(kind, cap, n + 1), Without(flights, id)))
  {
    var seen, s := Seen(cap, n), State(Rows(kind, cap, n), flights);
    SmallIsApproved(rules, kind, cap, n, seen);
    hide Verdict, Reachable, Passable;
    Extend(rules, s, Commit(id));
    assert Rows(kind, cap, n) + [Saw(kind, seen)] == Rows(kind, cap, n + 1);
  }

  lemma ReadSmall(rules: map<RuleType, Rule>, kind: RuleType, log: seq<Done>, flights: map<nat, Flight>, id: nat)
    requires Reachable(rules, State(log, flights)) && id in flights && flights[id] == Early(kind)
    ensures Reachable(rules, State(log, flights[id := Read(kind, |log|)]))
  {
    hide Reachable;
    Extend(rules, State(log, flights), ReadIt(kind, id));
  }

  /** Everyone begins, and makes the other query, before anything is committed. */
  lemma {:induction false} AllBegin(rules: map<RuleType, Rule>, kind: RuleType, cap: nat, hi: nat)
    requires IsVelocity(kind)
    ensures Reachable(rules, State([], Flights(kind, cap, 0, 0, hi)))
  {
    if hi == 0 {
      assert ValidRun(rules, Empty, []) && Exec(rules, Empty, []) == Empty;
      assert Flights(kind, cap, 0, 0, 0) == map[];
    } else {
      hide Reachable;
      AllBegin(rules, kind, cap, hi - 1);
      var id, s := hi - 1, State([], Flights(kind, cap, 0, 0, hi - 1));
      var blank := Flight("t", "a", Unit(kind), 0, None, None);
      Extend(rules, s, Begin(id, "t", "a", Unit(kind), 0));
      var s1 := s.(flights := s.flights[id := blank]);
      Extend(rules, s1, if kind.VelocityCount? then ReadSum(id) else ReadCount(id));
      assert s1.flights[id := Early(kind)] == Flights(kind, cap, 0, 0, hi);
    }
  }

  /** The first `cap` read and commit one after another. */
  lemma {:induction false} InTurn(rules: map<RuleType, Rule>, kind: RuleType, cap: nat, hi: nat, i: nat)
    requires HasWindow(rules, kind) && Passable(rules, kind) && cap < rules[kind].threshold && i <= cap <= hi
    ensures Reachable(rules, State(Rows(kind, cap, i), Flights(kind, cap, i, i, hi)))
  {
    hide Reachable, Passable;
    if i == 0 {
      AllBegin(rules, kind, cap, hi);
      assert Rows(kind, cap, 0) == [];
    } else {
      InTurn(rules, kind, cap, hi, i - 1);
      var log, flights := Rows(kind, cap, i - 1), Flights(kind, cap, i - 1, i - 1, hi);
      ReadSmall(rules, kind, log, flights, i - 1);
      CommitSmall(rules, kind, cap, i - 1, flights[i - 1 := Read(kind, i - 1)], i - 1);
      assert Without(flights[i - 1 := Read(kind, i - 1)], i - 1) == Flights(kind, cap, i, i, hi);
    }
  }

  /** The others all read before any of them commits. */
  lemma {:induction false} AllRead(rules: map<RuleType, Rule>, kind: RuleType, cap: nat, hi: nat, mid: nat)
    requires HasWindow(rules, kind) && Passable(rules, kind) && cap < rules[kind].threshold && cap <= mid <= hi
    ensures Reachable(rules, State(Rows(kind, cap, cap), Flights(kind, cap, cap, mid, hi)))
  {
    hide Reachable, Passable;
    if mid == cap {
      InTurn(rules, kind, cap, hi, cap);
    } else {
      AllRead(rules, kind, cap, hi, mid - 1);
      ReadSmall(rules, kind, Rows(kind, cap, cap), Flights(kind, cap, cap, mid - 1, hi), mid - 1);
      assert Flights(kind, cap, cap, mid - 1, hi)[mid - 1 := Read(kind, cap)] == Flights(kind, cap, cap, mid, hi);
    }
  }

  /** And then they all commit, approved. */
  lemma {:induction false} AllCommit(rules: map<RuleType, Rule>, kind: RuleType, cap: nat, hi: nat, i: nat)
    requires HasWindow(rules, kind) && Passable(rules, kind) && cap < rules[kind].threshold && cap <= i <= hi
    ensures Reachable(rules, State(Rows(kind, cap, i), Flights(kind, cap, i, hi, hi)))
  {
    hide Reachable, Passable;
    if i == cap {
      AllRead(rules, kind, cap, hi, hi);
    } else {
      AllCommit(rules, kind, cap, hi, i - 1);
      CommitSmall(rules, kind, cap, i - 1, Flights(kind, cap, i - 1, hi, hi), i - 1);
      assert Without(Flights(kind, cap, i - 1, hi, hi), i - 1) == Flights(kind, cap, i, hi, hi);
    }
  }

  /** The rows between what was seen and the row itself. */
  lemma SmallBetween(kind: RuleType, cap: nat, n: nat, seen: nat, k: nat, since: int)
    requires IsVelocity(kind) && seen <= k <= n && since <= 0
    ensures Since(kind, Checks(Rows(kind, cap, n))[seen..k], "a", since) == k - seen
  {
    hide Since;
    SmallRows(kind, cap, seen, since);
    SmallRows(kind, cap, k, since);
    var checks := Checks(Rows(kind, cap, n));
    assert checks[..k] == Checks(Rows(kind, cap, k)) && checks[..seen] == Checks(Rows(kind, cap, seen));
    assert checks[..k] == checks[..seen] + checks[seen..k];
    SinceConcat(kind, checks[..seen], checks[seen..k], "a", since);
  }

  lemma RowsMiss(rules: map<RuleType, Rule>, kind: RuleType, cap: nat, m: nat)
    requires HasWindow(rules, kind)
    ensures MissesAtMost(rules, kind, Rows(kind, cap, cap + m + 1), m)
  {
    hide Since;
    var n := cap + m + 1;
    forall k | 0 <= k < n ensures Missed(rules, kind, Rows(kind, cap, n), k) <= m {
      SmallBetween(kind, cap, n, Seen(cap, k), k, 0 - rules[kind].window.value);
    }
  }

  lemma {:induction false} RowsTotal(kind: RuleType, cap: nat, n: nat, to: nat)
    requires IsVelocity(kind)
    ensures TotalIn(kind, Checks(Rows(kind, cap, n)), "a", 0, to) == n
  {
    if n > 0 {
      RowsTotal(kind, cap, n - 1, to);
      assert Checks(Rows(kind, cap, n))[..n - 1] == Checks(Rows(kind, cap, n - 1));
    }
  }

  // ----- the exact bound

  /** In every reachable state in which approved checks miss at most `m`, every window
      of every account holds at most `bound`. */
  ghost predicate Bounded(rules: map<RuleType, Rule>, kind: RuleType, m: nat, bound: int)
    requires HasWindow(rules, kind)
  {
    forall s, account, from :: Reachable(rules, s) && MissesAtMost(rules, kind, s.log, m) ==>
      InWindow(rules, kind, s.log, account, from) <= bound
  }

  /** The most a window can hold. */
  function Most(rules: map<RuleType, Rule>, kind: RuleType, m: nat): int
    requires HasWindow(rules, kind)
  {
    if Passable(rules, kind) then rules[kind].threshold + m else 0
  }

  lemma ReachableLogOk(rules: map<RuleType, Rule>, s: State)
    requires Reachable(rules, s)
    ensures LogOk(rules, s.log)
  {
    var acts :| ValidRun(rules, Empty, acts) && Exec(rules, Empty, acts) == s;
    RunKeepsOk(rules, Empty, acts);
  }

  /** Main result: however checks overlap, no approved row exceeds the amount threshold. */
  lemma ApprovedWithinAmount(rules: map<RuleType, Rule>, s: State, k: nat)
    requires Reachable(rules, s) && k < |s.log| && s.log[k].check.approved && AmountThreshold in rules
    ensures s.log[k].check.amount <= rules[AmountThreshold].threshold
  {
    ReachableLogOk(rules, s);
    var d := s.log[k];
    assert RowOk(rules, s.log, k);
    assert PassesWith(rules, AmountThreshold, Checks(s.log), d.counted, d.summed, d.check.account, d.check.amount, d.check.at);
  }

  lemma AlwaysBounded(rules: map<RuleType, Rule>, kind: RuleType, m: nat)
    requires HasWindow(rules, kind)
    ensures Bounded(rules, kind, m, Most(rules, kind, m))
  {
    if Passable(rules, kind) { PassableThreshold(rules, kind); }
    forall s, account, from | Reachable(rules, s) && MissesAtMost(rules, kind, s.log, m)
      ensures InWindow(rules, kind, s.log, account, from) <= Most(rules, kind, m)
    {
      ReachableLogOk(rules, s);
      if Passable(rules, kind) {
        EveryWindowExceedsByAtMost(rules, kind, s.log, m, account, from);
      } else {
        NothingCounts(rules, kind, s.log, account, from, from + rules[kind].window.value);
      }
    }
  }

  lemma PassableThreshold(rules: map<RuleType, Rule>, kind: RuleType)
    requires HasWindow(rules, kind) && Passable(rules, kind)
    ensures rules[kind].threshold >= 1
  {
    assert Passes([], rules, kind, "a", Unit(kind), 0);
  }

  /** An empty log holds nothing. */
  lemma NothingYet(rules: map<RuleType, Rule>, kind: RuleType, m: nat)
    requires HasWindow(rules, kind)
    ensures Reachable(rules, Empty) && MissesAtMost(rules, kind, Empty.log, m) && InWindow(rules, kind, Empty.log, "a", 0) == 0
  {
    assert ValidRun(rules, Empty, []) && Exec(rules, Empty, []) == Empty;
  }

  /** The witness: threshold - 1 checks in turn, then m + 1 at once. Each misses at
      most `m`, and the window holds threshold + m. The other rules see nothing of it,
      because everyone asked them before there was anything to see. */
  lemma OverlapReaches(rules: map<RuleType, Rule>, kind: RuleType, m: nat) returns (s: State)
    requires HasWindow(rules, kind) && Passable(rules, kind)
    ensures Reachable(rules, s) && MissesAtMost(rules, kind, s.log, m)
    ensures InWindow(rules, kind, s.log, "a", 0) == rules[kind].threshold + m
  {
    PassableThreshold(rules, kind);
    hide Reachable, Passable;
    var cap := rules[kind].threshold - 1;
    AllCommit(rules, kind, cap, cap + m + 1, cap + m + 1);
    RowsMiss(rules, kind, cap, m);
    RowsTotal(kind, cap, cap + m + 1, rules[kind].window.value);
    s := State(Rows(kind, cap, cap + m + 1), Flights(kind, cap, cap + m + 1, cap + m + 1, cap + m + 1));
  }

  /** Main result, for every rule set: with checks that miss at most `m`, a bound on
      every window holds in every run if and only if it is at least the threshold plus
      `m`, or at least 0 where the rules let nothing through that counts. */
  lemma OverlapBoundIff(rules: map<RuleType, Rule>, kind: RuleType, m: nat, bound: int)
    requires HasWindow(rules, kind)
    ensures Bounded(rules, kind, m, bound) <==> Most(rules, kind, m) <= bound
  {
    AlwaysBounded(rules, kind, m);
    if Most(rules, kind, m) > bound {
      var s := Empty;
      if Passable(rules, kind) {
        s := OverlapReaches(rules, kind, m);
      } else {
        NothingYet(rules, kind, m);
      }
      hide Reachable, MissesAtMost, InWindow;
      assert InWindow(rules, kind, s.log, "a", 0) > bound;
    }
  }

  /** Main result: the rule's own promise holds in every run if and only if no check
      misses anything, or the rules let nothing through that counts. */
  lemma PlainBoundIff(rules: map<RuleType, Rule>, kind: RuleType, m: nat)
    requires HasWindow(rules, kind)
    ensures Bounded(rules, kind, m, AtLeast0(rules[kind].threshold)) <==> m == 0 || !Passable(rules, kind)
  {
    OverlapBoundIff(rules, kind, m, AtLeast0(rules[kind].threshold));
    if Passable(rules, kind) { PassableThreshold(rules, kind); }
    hide Bounded;
  }
}
