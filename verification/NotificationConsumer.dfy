/** How long handleTransferMessageWithRetry keeps trying. Times in milliseconds. */
module RetryPolicy {
  const MAX_ATTEMPTS := 5
  const BASE_DELAY := 500
  const MAX_DELAY := 8_000
  const UNAVAILABLE_BUDGET := 300_000
  const UNAVAILABLE_DELAY := 2_000
  const MAX_RUNS := 155

  datatype End = Ok | Unavailable | OtherError

  /** One run of the handler: how it ended, how long it took, and by how much the
      sleep after it overran. */
  datatype Run = Run(end: End, took: nat, overslept: nat)

  function Pow2(n: nat): nat {
    if n == 0 then 1 else 2 * Pow2(n - 1)
  }

  function RetryDelay(attempt: nat): (d: nat)
    requires 1 <= attempt
  {
    var d := BASE_DELAY * Pow2(attempt - 1);
    if d > MAX_DELAY then MAX_DELAY else d
  }

  lemma {:induction false} RetryDelays(attempt: nat)
    requires 1 <= attempt
    ensures RetryDelay(attempt) == (match attempt case 1 => 500 case 2 => 1_000 case 3 => 2_000 case 4 => 4_000 case _ => 8_000)
  {
    if attempt >= 5 { Pow2Grows(4, attempt - 1); }
  }

  lemma {:induction false} Pow2Grows(m: nat, n: nat)
    requires m <= n
    ensures Pow2(m) <= Pow2(n)
  {
    if m < n { Pow2Grows(m, n - 1); }
  }

  /** The loop's `attempt` counter and the time spent after these failed runs. */
  function Attempt(runs: seq<Run>): (a: nat)
    ensures a >= 1
  {
    if runs == [] then 1
    else Attempt(runs[..|runs| - 1]) + if runs[|runs| - 1].end.OtherError? then 1 else 0
  }

  function Elapsed(runs: seq<Run>): nat {
    if runs == [] then 0
    else
      var before, last := runs[..|runs| - 1], runs[|runs| - 1];
      Elapsed(before) + last.took + last.overslept +
      match last.end
      case Ok => 0
      case Unavailable => UNAVAILABLE_DELAY
      case OtherError => RetryDelay(Attempt(before))
  }

  /** After `before`, this run's end sends the loop round again. */
  predicate GoesOn(before: seq<Run>, last: Run) {
    match last.end
    case Ok => false
    case Unavailable => Elapsed(before) + last.took < UNAVAILABLE_BUDGET
    case OtherError => Attempt(before) < MAX_ATTEMPTS
  }

  /** Each of these runs sent the loop round again. */
  predicate AllGoOn(runs: seq<Run>) {
    runs != [] ==> AllGoOn(runs[..|runs| - 1]) && GoesOn(runs[..|runs| - 1], runs[|runs| - 1])
  }

  /** A whole execution of the loop: it goes on until the first run that ends it. */
  predicate Complete(runs: seq<Run>) {
    && runs != []
    && AllGoOn(runs[..|runs| - 1]) && !GoesOn(runs[..|runs| - 1], runs[|runs| - 1])
  }

  lemma NoRunsYet()
    ensures AllGoOn([]) && Attempt([]) == 1 && Elapsed([]) == 0
  {
  }

  /** What one more run makes of the loop's state. An outage is waited out two seconds
      at a time, for five minutes in all; any other error is retried after a doubling
      pause, until the fifth. */
  lemma OneMore(runs: seq<Run>, run: Run)
    requires AllGoOn(runs)
    ensures var more := runs + [run];
            && Attempt(more) == Attempt(runs) + (if run.end.OtherError? then 1 else 0)
            && Elapsed(more) == Elapsed(runs) + run.took + run.overslept +
                                (match run.end
                                 case Ok => 0
                                 case Unavailable => 2_000
                                 case OtherError => RetryDelay(Attempt(runs)))
            && (GoesOn(runs, run) <==> match run.end
                                       case Ok => false
                                       case Unavailable => Elapsed(runs) + run.took < 300_000
                                       case OtherError => Attempt(runs) < 5)
            && if GoesOn(runs, run) then AllGoOn(more) else Complete(more)
  {
    assert (runs + [run])[..|runs|] == runs;
  }

  /** How many more flat waits fit into the budget. */
  function WaitsLeft(elapsed: nat): nat {
    if elapsed < UNAVAILABLE_BUDGET then (UNAVAILABLE_BUDGET - elapsed + UNAVAILABLE_DELAY - 1) / UNAVAILABLE_DELAY else 0
  }

  lemma {:induction false} GoingOnIsBounded(runs: seq<Run>)
    requires AllGoOn(runs)
    ensures Attempt(runs) <= MAX_ATTEMPTS
    ensures |runs| + (MAX_ATTEMPTS - Attempt(runs)) + WaitsLeft(Elapsed(runs)) < MAX_RUNS
  {
    if runs != [] { GoingOnIsBounded(runs[..|runs| - 1]); }
  }

  /** Main result: the handler runs at most 155 times. */
  lemma AtMost155Runs(runs: seq<Run>)
    requires Complete(runs)
    ensures |runs| <= 155
  {
    GoingOnIsBounded(runs[..|runs| - 1]);
  }

  function Waits(n: nat): seq<Run> {
    seq(n, _ => Run(Unavailable, 0, 0))
  }

  lemma {:induction false} WaitsGoOn(n: nat)
    requires n <= 150
    ensures AllGoOn(Waits(n)) && Attempt(Waits(n)) == 1 && Elapsed(Waits(n)) == n * UNAVAILABLE_DELAY
  {
    if n > 0 {
      WaitsGoOn(n - 1);
      assert Waits(n)[..n - 1] == Waits(n - 1);
    }
  }

  function Errors(n: nat): seq<Run> {
    Waits(150) + seq(n, _ => Run(OtherError, 0, 0))
  }

  lemma {:induction false} ErrorsGoOn(n: nat)
    requires n < MAX_ATTEMPTS
    ensures AllGoOn(Errors(n)) && Attempt(Errors(n)) == n + 1
  {
    WaitsGoOn(150);
    if n == 0 {
      assert Errors(0) == Waits(150);
    } else {
      ErrorsGoOn(n - 1);
      assert Errors(n)[..|Errors(n)| - 1] == Errors(n - 1);
    }
  }

  /** The bound is reached: 150 waits for the database, then 5 other failures. */
  lemma Exactly155IsPossible()
    ensures Complete(Errors(5)) && |Errors(5)| == 155
  {
    ErrorsGoOn(4);
    assert Errors(5)[..|Errors(5)| - 1] == Errors(4);
  }
}

/** The consumer's code: the barrier statements, the event handlers and the retry
    loop around them, each shown to be a run of the Notifications machine. */
module NotificationConsumer {
  import opened Notifications
  import opened RetryPolicy

  datatype Lookup = Resolved(found: seq<bool>) | LookupError

  /** What the outside world does during one handler run. `copies(i)` is how many
      times party i's email left; `failing` is the party whose send reports an
      error; `down` tells whether an error is a database outage. */
  datatype World = World(claim: Write, lookup: Lookup, copies: nat -> nat, failing: nat, finish: Write,
                         down: bool, took: nat, overslept: nat)

  predicate Plausible(w: World, m: Message) {
    m.Event? && w.lookup.Resolved? ==>
      && |w.lookup.found| == |m.parties|
      && forall i :: 0 <= i < |m.parties| && i != w.failing ==> (w.lookup.found[i] <==> w.copies(i) > 0)
  }

  // ----- what a run comes to, by what the world does

  /** The send that reports an error, if its party was resolved. */
  predicate SendFailure(w: World) {
    w.lookup.Resolved? && w.failing < |w.lookup.found| && w.lookup.found[w.failing]
  }

  /** A run fails on bytes it cannot read, on a failed claim, and, unless the event is
      closed already, on a failed lookup, send or finish. */
  predicate Fails(w: World, m: Message, closed: bool) {
    m.Poison? || w.claim.Failed? || (!closed && (w.lookup.LookupError? || SendFailure(w) || w.finish.Failed?))
  }

  function RunOf(w: World, m: Message, closed: bool): Run {
    Run(if !Fails(w, m, closed) then Ok else if w.down then Unavailable else OtherError, w.took, w.overslept)
  }

  // ----- runs of the machine

  ghost predicate Ran(msgs: seq<Message>, s: State, acts: seq<Action>, s': State) {
    ValidRun(msgs, s, acts) && Exec(msgs, s, acts) == s'
  }

  lemma Nothing(msgs: seq<Message>, s: State)
    ensures Ran(msgs, s, [], s)
  {
  }

  lemma More(msgs: seq<Message>, s: State, acts: seq<Action>, mid: State, a: Action)
    requires Ran(msgs, s, acts, mid) && Enabled(msgs, mid, a)
    ensures Ran(msgs, s, acts + [a], Do(msgs, mid, a))
  {
    hide Enabled, Do;
    ExtendRun(msgs, s, acts, a);
  }

  /** The emails to the first `n` parties. */
  function Outgoing(m: Message, w: World, n: nat): seq<Email>
    requires m.Event? && w.lookup.Resolved? && n <= |w.lookup.found| == |m.parties|
  {
    if n == 0 then []
    else Outgoing(m, w, n - 1) + Copies(Email(m.ev, m.parties[n - 1]), if w.lookup.found[n - 1] then w.copies(n - 1) else 0)
  }

  /** How far the sends get: through the failing one, or all the way. */
  function Reached(w: World): nat
    requires w.lookup.Resolved?
  {
    if SendFailure(w) then w.failing + 1 else |w.lookup.found|
  }

  /** The barrier row after the run. */
  function RowsAfter(rows: map<string, Status>, w: World, m: Message): map<string, Status> {
    if m.Poison? || !Applied(w.claim) then rows
    else
      var claimed := Claimed(rows, m.ev);
      if w.claim.Failed? || Closed(rows, m.ev) || w.lookup.LookupError? || SendFailure(w) || !Applied(w.finish) then claimed
      else Finished(claimed, m.ev, Outcome(w.lookup.found))
  }

  predicate IsClosed(rows: map<string, Status>, m: Message) {
    m.Event? && Closed(rows, m.ev)
  }

  /** The emails of one run: none unless it claims the event and resolves its parties. */
  function MailOf(rows: map<string, Status>, w: World, m: Message): seq<Email> {
    if m.Event? && w.claim.Done? && !Closed(rows, m.ev) && w.lookup.Resolved? && |w.lookup.found| == |m.parties|
    then Outgoing(m, w, Reached(w)) else []
  }

  // ----- a sequence of runs

  /** The barrier rows when run `i` begins. */
  function RowsBefore(world: nat -> World, m: Message, rows: map<string, Status>, i: nat): map<string, Status> {
    if i == 0 then rows else RowsAfter(RowsBefore(world, m, rows, i - 1), world(i - 1), m)
  }

  /** What went out before run `i`. */
  function MailBefore(world: nat -> World, m: Message, rows: map<string, Status>, i: nat): seq<Email> {
    if i == 0 then [] else MailBefore(world, m, rows, i - 1) + MailOf(RowsBefore(world, m, rows, i - 1), world(i - 1), m)
  }

  function Told(world: nat -> World, m: Message, rows: map<string, Status>, i: nat): Run {
    RunOf(world(i), m, IsClosed(RowsBefore(world, m, rows, i), m))
  }

  /** Each run ends as the world, and what earlier runs left behind, make it end. */
  predicate AsTold(runs: seq<Run>, world: nat -> World, m: Message, rows: map<string, Status>) {
    forall i :: 0 <= i < |runs| ==> runs[i] == Told(world, m, rows, i)
  }

  lemma RunIsTold(runs: seq<Run>, run: Run, world: nat -> World, m: Message, rows: map<string, Status>)
    requires AsTold(runs, world, m, rows)
    requires run == RunOf(world(|runs|), m, IsClosed(RowsBefore(world, m, rows, |runs|), m))
    ensures AsTold(runs + [run], world, m, rows)
  {
    assert run == Told(world, m, rows, |runs|);
    hide Told, RunOf, RowsBefore;
  }

  lemma NoneTold(world: nat -> World, m: Message, rows: map<string, Status>)
    ensures AsTold([], world, m, rows) && RowsBefore(world, m, rows, 0) == rows && MailBefore(world, m, rows, 0) == []
  {
  }

  lemma OneTold(world: nat -> World, m: Message, rows: map<string, Status>, i: nat)
    ensures RowsBefore(world, m, rows, i + 1) == RowsAfter(RowsBefore(world, m, rows, i), world(i), m)
    ensures MailBefore(world, m, rows, i + 1) ==
            MailBefore(world, m, rows, i) + MailOf(RowsBefore(world, m, rows, i), world(i), m)
  {
  }

  class Consumer {
    const msgs: seq<Message>
    var rows: map<string, Status>
    var emails: seq<Email>
    var dlq: set<nat>
    var committed: set<nat>
    ghost var lookups: map<string, seq<bool>>

    constructor (msgs: seq<Message>)
      ensures this.msgs == msgs && Snapshot(Idle) == Initial()
    {
      this.msgs := msgs;
      rows, emails, dlq, committed, lookups := map[], [], {}, {}, map[];
    }

    ghost function Snapshot(pc: Pc): State
      reads this
    {
      State(rows, emails, lookups, dlq, committed, pc)
    }

    /** `claimed` is meaningful when the statement reports no error. */
    method ClaimEvent(ev: string, write: Write) returns (claimed: bool, err: bool)
      modifies this`rows
      ensures err == write.Failed?
      ensures rows == if Applied(write) then Claimed(old(rows), ev) else old(rows)
      ensures rows == if Applied(write) && ev !in old(rows) then old(rows)[ev := Processing] else old(rows)
      ensures !err ==> (claimed <==> ev !in old(rows) || old(rows)[ev] == Processing)
    {
      claimed, err := false, write.Failed?;
      if Applied(write) {
        if ev !in rows { rows := rows[ev := Processing]; }
        claimed := rows[ev].Processing?;
      }
    }

    method FinishEvent(ev: string, status: Status, write: Write) returns (err: bool)
      modifies this`rows
      ensures err == write.Failed?
      ensures rows == if Applied(write) then Finished(old(rows), ev, status) else old(rows)
      ensures rows == if Applied(write) && ev in old(rows) then old(rows)[ev := status] else old(rows)
    {
      err := write.Failed?;
      if Applied(write) && ev in rows { rows := rows[ev := status]; }
    }

    method MarkEventProcessed(ev: string, status: Status)
      modifies this`rows
      ensures rows == MarkedProcessed(old(rows), ev, status)
      ensures rows == if ev in old(rows) then old(rows) else old(rows)[ev := status]
    {
      if ev !in rows { rows := rows[ev := status]; }
    }

    /** The sends of one handler, in order, stopping at the first error. */
    method MailParties(k: nat, found: seq<bool>, w: World, ghost start: State, ghost before: seq<Action>)
      returns (sent: nat, err: bool, ghost acts: seq<Action>)
      requires IsEvent(msgs, k) && |found| == |msgs[k].parties| && Plausible(w, msgs[k]) && w.lookup == Resolved(found)
      requires Ran(msgs, start, before, Snapshot(Sending(k, found, 0)))
      modifies this`emails
      ensures Ran(msgs, start, acts, Snapshot(if err then AttemptFailed(k) else Sending(k, found, |found|)))
      ensures err <==> SendFailure(w)
      ensures emails == old(emails) + Outgoing(msgs[k], w, Reached(w))
      ensures !err ==> (sent == 0 <==> Outcome(found) == Skipped)
    {
      hide Ran;
      acts, sent, err := before, 0, false;
      var i := 0;
      while i < |found|
        invariant 0 <= i <= |found| && !err
        invariant SendFailure(w) ==> i <= w.failing
        invariant emails == old(emails) + Outgoing(msgs[k], w, i)
        invariant Ran(msgs, start, acts, Snapshot(Sending(k, found, i)))
        invariant sent == 0 <==> forall j :: 0 <= j < i ==> !found[j]
      {
        var out := if found[i] then w.copies(i) else 0;
        ghost var mid := Snapshot(Sending(k, found, i));
        emails := emails + Copies(Email(msgs[k].ev, msgs[k].parties[i]), out);
        assert Outgoing(msgs[k], w, i + 1) ==
               Outgoing(msgs[k], w, i) + Copies(Email(msgs[k].ev, msgs[k].parties[i]), out);
        if found[i] && i == w.failing {
          err := true;
          More(msgs, start, acts, mid, SendFails(out));
          acts := acts + [SendFails(out)];
          return;
        }
        if found[i] { sent := sent + 1; }
        More(msgs, start, acts, mid, Send(out));
        acts := acts + [Send(out)];
        i := i + 1;
      }
    }

    /** processTransferMessage with the handler of the message's type. */
    method HandleOnce(k: nat, w: World, ghost start: State, ghost before: seq<Action>)
      returns (err: bool, ghost acts: seq<Action>)
      requires k < |msgs| && Plausible(w, msgs[k])
      requires Ran(msgs, start, before, Snapshot(Start(k)))
      modifies this`rows, this`emails, this`lookups
      ensures Ran(msgs, start, acts, Snapshot(if err then AttemptFailed(k) else Committing(k)))
      ensures err == Fails(w, msgs[k], IsClosed(old(rows), msgs[k]))
      ensures rows == RowsAfter(old(rows), w, msgs[k])
      ensures emails == old(emails) + MailOf(old(rows), w, msgs[k])
    {
      hide Ran;
      acts := before;
      if msgs[k].Poison? {
        More(msgs, start, acts, Snapshot(Start(k)), Reject);
        return true, acts + [Reject];
      }
      More(msgs, start, acts, Snapshot(Start(k)), Claim(w.claim));
      acts := acts + [Claim(w.claim)];
      var claimed;
      claimed, err := ClaimEvent(msgs[k].ev, w.claim);
      if err || !claimed {
        return err, acts;
      }
      if w.lookup.LookupError? {
        More(msgs, start, acts, Snapshot(Looking(k)), LookUpFails);
        return true, acts + [LookUpFails];
      }
      More(msgs, start, acts, Snapshot(Looking(k)), LookUp(w.lookup.found));
      acts := acts + [LookUp(w.lookup.found)];
      lookups := lookups[msgs[k].ev := w.lookup.found];
      var sent;
      sent, err, acts := MailParties(k, w.lookup.found, w, start, acts);
      if err {
        return err, acts;
      }
      More(msgs, start, acts, Snapshot(Sending(k, w.lookup.found, |w.lookup.found|)), Finish(w.finish));
      acts := acts + [Finish(w.finish)];
      err := FinishEvent(msgs[k].ev, if sent == 0 then Skipped else Sent, w.finish);
    }

    /** The end of the road for a message that kept failing. */
    method GiveUpOn(k: nat, close: Write, ghost start: State, ghost before: seq<Action>) returns (ghost acts: seq<Action>)
      requires k < |msgs| && Ran(msgs, start, before, Snapshot(AttemptFailed(k)))
      modifies this`rows, this`dlq
      ensures dlq == old(dlq) + {k}
      ensures rows == if msgs[k].Event? && Applied(close) then Finished(old(rows), msgs[k].ev, Skipped) else old(rows)
      ensures Ran(msgs, start, acts, Snapshot(Committing(k)))
    {
      hide Ran;
      More(msgs, start, before, Snapshot(AttemptFailed(k)), GiveUp);
      More(msgs, start, before + [GiveUp], Snapshot(GivenUp(k)), DeadLetter);
      acts := before + [GiveUp] + [DeadLetter];
      dlq := dlq + {k};
      if msgs[k].Event? {
        More(msgs, start, acts, Snapshot(Closing(k)), Close(close));
        acts := acts + [Close(close)];
        var _ := FinishEvent(msgs[k].ev, Skipped, close);
      }
    }

    /** The loop: run the handler until it succeeds or the policy says stop.
        `world(i)` is what happens during run i. */
    method RetryLoop(k: nat, world: nat -> World, ghost start: State, ghost before: seq<Action>)
      returns (runs: seq<Run>, ghost acts: seq<Action>)
      requires k < |msgs| && forall i :: Plausible(world(i), msgs[k])
      requires Ran(msgs, start, before, Snapshot(Start(k)))
      modifies this`rows, this`emails, this`lookups
      ensures Complete(runs) && AsTold(runs, world, msgs[k], old(rows))
      ensures rows == RowsBefore(world, msgs[k], old(rows), |runs|)
      ensures emails == old(emails) + MailBefore(world, msgs[k], old(rows), |runs|)
      ensures Ran(msgs, start, acts, Snapshot(if runs[|runs| - 1].end.Ok? then Committing(k) else AttemptFailed(k)))
    {
      hide Ran, AllGoOn, Attempt, Elapsed, RowsAfter, MailOf, AsTold, Complete, Fails;
      runs, acts := [], before;
      NoRunsYet();
      NoneTold(world, msgs[k], rows);
      hide RowsBefore, MailBefore;
      var attempt, elapsed, done := 1, 0, false;
      while !done && attempt <= MAX_ATTEMPTS
        invariant AsTold(runs, world, msgs[k], old(rows))
        invariant rows == RowsBefore(world, msgs[k], old(rows), |runs|)
        invariant emails == old(emails) + MailBefore(world, msgs[k], old(rows), |runs|)
        invariant if !done && attempt <= MAX_ATTEMPTS
                  then AllGoOn(runs) && attempt == Attempt(runs) && elapsed == Elapsed(runs)
                       && Ran(msgs, start, acts, Snapshot(Start(k)))
                  else runs != [] && Complete(runs)
                       && Ran(msgs, start, acts, Snapshot(if runs[|runs| - 1].end.Ok? then Committing(k) else AttemptFailed(k)))
        decreases !done, MAX_ATTEMPTS + 1 - attempt, if elapsed < UNAVAILABLE_BUDGET then UNAVAILABLE_BUDGET - elapsed else 0
      {
        var w := world(|runs|);
        var err;
        err, acts := HandleOnce(k, w, start, acts);
        var run := Run(if !err then Ok else if w.down then Unavailable else OtherError, w.took, w.overslept);
        RunIsTold(runs, run, world, msgs[k], old(rows));
        OneTold(world, msgs[k], old(rows), |runs|);
        OneMore(runs, run);
        elapsed := elapsed + w.took;
        runs := runs + [run];
        if !err {
          done := true;
        } else if w.down {
          if elapsed < UNAVAILABLE_BUDGET {
            elapsed := elapsed + UNAVAILABLE_DELAY + w.overslept;
            More(msgs, start, acts, Snapshot(AttemptFailed(k)), Retry);
            acts := acts + [Retry];
          } else {
            done := true;
          }
        } else {
          if attempt < MAX_ATTEMPTS {
            elapsed := elapsed + RetryDelay(attempt) + w.overslept;
            More(msgs, start, acts, Snapshot(AttemptFailed(k)), Retry);
            acts := acts + [Retry];
          }
          attempt := attempt + 1;
        }
      }
    }

    /** handleTransferMessageWithRetry: `world(i)` is what happens during run i. Every
        run ends as the world makes it end; only a last run that failed sends the
        message to the dead-letter topic; the commit comes last. */
    method HandleWithRetry(k: nat, world: nat -> World, close: Write, commitOk: bool)
      returns (runs: seq<Run>, ghost acts: seq<Action>)
      requires k < |msgs| && forall i :: Plausible(world(i), msgs[k])
      modifies this
      ensures Complete(runs) && |runs| <= 155
      ensures AsTold(runs, world, msgs[k], old(rows))
      ensures emails == old(emails) + MailBefore(world, msgs[k], old(rows), |runs|)
      ensures var after := RowsBefore(world, msgs[k], old(rows), |runs|);
              rows == if runs[|runs| - 1].end.Ok? || msgs[k].Poison? || !Applied(close) then after
                      else Finished(after, msgs[k].ev, Skipped)
      ensures dlq == old(dlq) + if runs[|runs| - 1].end.Ok? then {} else {k}
      ensures committed == old(committed) + if commitOk then {k} else {}
      ensures Ran(msgs, old(Snapshot(Idle)), acts, Snapshot(Idle))
    {
      hide Ran, AsTold;
      ghost var start := Snapshot(Idle);
      Nothing(msgs, start);
      More(msgs, start, [], start, Deliver(k));
      runs, acts := RetryLoop(k, world, start, [] + [Deliver(k)]);
      AtMost155Runs(runs);
      if !runs[|runs| - 1].end.Ok? {
        acts := GiveUpOn(k, close, start, acts);
      }
      More(msgs, start, acts, Snapshot(Committing(k)), Commit(commitOk));
      acts := acts + [Commit(commitOk)];
      if commitOk { committed := committed + {k}; }
    }
  }
}
