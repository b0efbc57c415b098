/** pkg/pgha's Retry: backoff, budget and classification. Times in milliseconds. */
module DatabaseRetry {
  const BUDGET := 120_000
  const BASE_DELAY := 250
  const MAX_DELAY := 5_000
  const MAX_CALLS := 29

  datatype End = Ok | Err(standby: bool, unavailable: bool)

  /** One call of fn and the wait after it. `expired`: the attempt's own context
      ran out. `cancelled`, `cancelledLater`: the caller's context was done at the
      first, and at the second, look. `interrupted`: it was done during the wait. */
  datatype Call = Call(end: End, expired: bool, cancelled: bool, cancelledLater: bool, interrupted: bool,
                       took: nat, overslept: nat)

  datatype Result = Success | Fatal(call: Call) | Cancelled | GaveUp(calls: nat)

  predicate Retryable(c: Call) {
    c.end.Err? && ((c.expired && !c.cancelled) || c.end.standby || c.end.unavailable)
  }

  function Min(a: nat, b: nat): nat {
    if a < b then a else b
  }

  /** The `delay` variable after these calls, all of which were retried. */
  function Delay(calls: seq<Call>): nat
    decreases |calls|, 0
  {
    if calls == [] then BASE_DELAY else Min(2 * Wait(Earlier(calls), Last(calls)), MAX_DELAY)
  }

  function Elapsed(calls: seq<Call>): nat
    decreases |calls|, 0
  {
    if calls == [] then 0
    else Elapsed(Earlier(calls)) + Last(calls).took + Wait(Earlier(calls), Last(calls)) + Last(calls).overslept
  }

  /** The pause after `c`: the delay, cut to what is left of the budget. */
  function Wait(before: seq<Call>, c: Call): nat
    decreases |before|, 1
  {
    var returned := Elapsed(before) + c.took;
    if returned < BUDGET then Min(Delay(before), BUDGET - returned) else 0
  }

  function Earlier(calls: seq<Call>): seq<Call>
    requires calls != []
  {
    calls[..|calls| - 1]
  }

  function Last(calls: seq<Call>): Call
    requires calls != []
  {
    calls[|calls| - 1]
  }

  predicate GoesOn(before: seq<Call>, c: Call) {
    Retryable(c) && !c.cancelledLater && Elapsed(before) + c.took < BUDGET && !c.interrupted
  }

  predicate AllGoOn(calls: seq<Call>) {
    calls != [] ==> AllGoOn(Earlier(calls)) && GoesOn(Earlier(calls), Last(calls))
  }

  /** A whole execution: calls are repeated until the first that ends it. */
  predicate Complete(calls: seq<Call>) {
    calls != [] && AllGoOn(Earlier(calls)) && !GoesOn(Earlier(calls), Last(calls))
  }

  /** What a complete execution returns. */
  function Verdict(calls: seq<Call>): Result
    requires calls != []
  {
    var c := Last(calls);
    if c.end.Ok? then Success
    else if !Retryable(c) then Fatal(c)
    else if c.cancelledLater then Cancelled
    else if Elapsed(Earlier(calls)) + c.took >= BUDGET then GaveUp(|calls|)
    else Cancelled
  }

  /** The loop has no exit condition of its own; it terminates because the budget runs
      out. */
  method CallUntilDone(fn: nat -> Call) returns (result: Result, calls: seq<Call>)
    ensures Complete(calls) && result == Verdict(calls)
    ensures forall i :: 0 <= i < |calls| ==> calls[i] == fn(i)
  {
    var delay, now := BASE_DELAY, 0;
    calls := [];
    while true
      invariant AllGoOn(calls) && delay == Delay(calls) && now == Elapsed(calls)
      invariant forall i :: 0 <= i < |calls| ==> calls[i] == fn(i)
      decreases BUDGET + 1 - now, MAX_CALLS - |calls|
    {
      GoingOnIsBounded(calls);
      var c := fn(|calls|);
      ghost var before := calls;
      calls := calls + [c];
      assert Earlier(calls) == before;
      now := now + c.took;
      if c.end.Ok? { return Success, calls; }
      if !((c.expired && !c.cancelled) || c.end.standby || c.end.unavailable) { return Fatal(c), calls; }
      if c.cancelledLater { return Cancelled, calls; }
      if now >= BUDGET { return GaveUp(|calls|), calls; }
      if delay > BUDGET - now { delay := BUDGET - now; }
      if c.interrupted { return Cancelled, calls; }
      now := now + delay + c.overslept;
      delay := Min(2 * delay, MAX_DELAY);
    }
  }

  /** Retry: `fn(i)` is what the i-th call does. Only an unavailable database, a standby or
      an attempt that timed out is tried again, and only while the caller is there and
      the budget lasts; the last call decides the result. */
  method Retry(fn: nat -> Call) returns (result: Result, calls: seq<Call>)
    ensures Complete(calls) && result == Verdict(calls)
    ensures forall i :: 0 <= i < |calls| ==> calls[i] == fn(i)
    ensures forall i :: 0 <= i < |calls| - 1 ==>
              var c := calls[i];
              && c.end.Err? && (c.end.unavailable || c.end.standby || (c.expired && !c.cancelled))
              && !c.cancelledLater && !c.interrupted
    ensures var c, returned := Last(calls), Elapsed(Earlier(calls)) + Last(calls).took;
            var hopeless := c.end.Err? && !c.end.unavailable && !c.end.standby && (!c.expired || c.cancelled);
            && (result == Success <==> c.end.Ok?)
            && (result == Fatal(c) <==> hopeless)
            && (result == GaveUp(|calls|) <==> c.end.Err? && !hopeless && !c.cancelledLater && returned >= 120_000)
            && (result == Cancelled <==> c.end.Err? && !hopeless && (c.cancelledLater || (returned < 120_000 && c.interrupted)))
  {
    result, calls := CallUntilDone(fn);
    VerdictMeans(calls);
    forall i | 0 <= i < |calls| - 1
      ensures var c := calls[i];
              && c.end.Err? && (c.end.unavailable || c.end.standby || (c.expired && !c.cancelled))
              && !c.cancelledLater && !c.interrupted
    {
      AllRetryable(Earlier(calls), i);
    }
  }

  lemma VerdictMeans(calls: seq<Call>)
    requires Complete(calls)
    ensures var c, returned := Last(calls), Elapsed(Earlier(calls)) + Last(calls).took;
            var hopeless := c.end.Err? && !c.end.unavailable && !c.end.standby && (!c.expired || c.cancelled);
            var result := Verdict(calls);
            && (result == Success <==> c.end.Ok?)
            && (result == Fatal(c) <==> hopeless)
            && (result == GaveUp(|calls|) <==> c.end.Err? && !hopeless && !c.cancelledLater && returned >= 120_000)
            && (result == Cancelled <==> c.end.Err? && !hopeless && (c.cancelledLater || (returned < 120_000 && c.interrupted)))
  {
  }

  // ----- the bounds

  /** The untruncated delays, and their sum, after n failures. */
  function Ladder(n: nat): nat {
    match n case 0 => 250 case 1 => 500 case 2 => 1_000 case 3 => 2_000 case 4 => 4_000 case _ => 5_000
  }

  function LadderSum(n: nat): nat {
    match n
    case 0 => 0 case 1 => 250 case 2 => 750 case 3 => 1_750 case 4 => 3_750
    case _ => 7_750 + 5_000 * (n - 5)
  }

  /** Either the budget is spent or every wait so far was a full step of the ladder. */
  lemma {:induction false} ClimbsTheLadder(calls: seq<Call>)
    requires AllGoOn(calls) && Elapsed(calls) < BUDGET
    ensures Delay(calls) == Ladder(|calls|) && Elapsed(calls) >= LadderSum(|calls|)
  {
    if calls != [] { ClimbsTheLadder(Earlier(calls)); }
  }

  lemma GoingOnIsBounded(calls: seq<Call>)
    requires AllGoOn(calls)
    ensures |calls| < MAX_CALLS
  {
    if calls != [] { ClimbsTheLadder(Earlier(calls)); }
  }

  /** Main result: at most 29 calls; the last one starts within the budget plus
      however late the last sleep woke up, so with attempts that honour their
      timeout everything is over 10 s later. */
  lemma StopsInTime(calls: seq<Call>)
    requires Complete(calls)
    ensures |calls| <= 29
    ensures var before := Earlier(calls);
            Elapsed(before) <= 120_000 + if before == [] then 0 else Last(before).overslept
    ensures Last(calls).took <= 10_000 && (|calls| > 1 ==> Last(Earlier(calls)).overslept == 0) ==>
              Elapsed(Earlier(calls)) + Last(calls).took <= 120_000 + 10_000
  {
    GoingOnIsBounded(Earlier(calls));
  }

  /** Main result: every error that was followed by another call was retryable. */
  lemma {:induction false} NeverRepeatsFatal(calls: seq<Call>, i: nat)
    requires Complete(calls) && i < |calls| - 1
    ensures var c := calls[i]; c.end.Err? && (c.end.unavailable || c.end.standby || (c.expired && !c.cancelled))
  {
    AllRetryable(Earlier(calls), i);
  }

  lemma {:induction false} AllRetryable(calls: seq<Call>, i: nat)
    requires AllGoOn(calls) && i < |calls|
    ensures Retryable(calls[i]) && !calls[i].cancelledLater && !calls[i].interrupted
  {
    if i < |calls| - 1 { AllRetryable(Earlier(calls), i); }
  }

  function Outage(n: nat): seq<Call> {
    seq(n, _ => Call(Err(false, true), false, false, false, false, 0, 0))
  }

  lemma {:induction false} OutageClimbs(n: nat)
    requires n <= 28
    ensures AllGoOn(Outage(n)) && Elapsed(Outage(n)) == Min(LadderSum(n), BUDGET)
    ensures n < 28 ==> Delay(Outage(n)) == Ladder(n)
  {
    if n > 0 {
      OutageClimbs(n - 1);
      assert Earlier(Outage(n)) == Outage(n - 1);
    }
  }

  /** The bound is reached when the database stays down and answers at once. */
  lemma Exactly29IsPossible()
    ensures Complete(Outage(29)) && Verdict(Outage(29)) == GaveUp(MAX_CALLS)
  {
    OutageClimbs(28);
    hide AllGoOn, Elapsed, Delay;
    assert Earlier(Outage(29)) == Outage(28);
    assert Last(Outage(29)).took == 0 && Retryable(Last(Outage(29)));
  }
}
