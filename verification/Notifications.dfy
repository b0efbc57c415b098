/** notifications-svc's transfer consumer: one worker, a barrier row per event,
    and a crash, a failed write or a redelivery between any two effects. */
module Notifications {

  datatype Status = Processing | Sent | Skipped

  /** A message of transfer.events: an event and the accounts its handler mails, in
      order (sender then recipient, the sender alone, or the depositor), or
      bytes no handler accepts. */
  datatype Message = Event(ev: string, parties: seq<string>) | Poison

  datatype Email = Email(ev: string, account: string)

  datatype Pc =
    | Idle
    | Start(k: nat)
    | Looking(k: nat)
    | Sending(k: nat, found: seq<bool>, next: nat)
    | AttemptFailed(k: nat)
    | GivenUp(k: nat)
    | Closing(k: nat)
    | Committing(k: nat)

  /** `lookups`: per event, which parties its latest lookup resolved to a contact.
      `dlq`: offsets whose dead-letter publish was attempted. */
  datatype State = State(rows: map<string, Status>, emails: seq<Email>, lookups: map<string, seq<bool>>,
                         dlq: set<nat>, committed: set<nat>, pc: Pc)

  /** A write that reports an error may still have been applied. */
  datatype Write = Done | Failed(applied: bool)

  datatype Action =
    | Deliver(k: nat)                       // first delivery or any redelivery
    | Reject                                // unmarshal error or unknown type
    | Claim(write: Write)
    | LookUp(found: seq<bool>)
    | LookUpFails
    | Send(copies: nat)                     // sendEmailWithRetry may repeat itself
    | SendFails(copies: nat)
    | Finish(write: Write)
    | Retry
    | GiveUp
    | DeadLetter                            // whether or not the publish succeeds
    | Close(write: Write)
    | Commit(ok: bool)
    | Crash
    | Project(ev: string, status: Status)   // the other consumers' markEventProcessed

  // ----- the barrier table

  predicate Closed(rows: map<string, Status>, ev: string) {
    ev in rows && !rows[ev].Processing?
  }

  /** claimEvent: insert 'processing', or leave the row as it is. */
  function Claimed(rows: map<string, Status>, ev: string): map<string, Status> {
    if ev in rows then rows else rows[ev := Processing]
  }

  /** finishEvent: a bare UPDATE, so it touches an existing row only. */
  function Finished(rows: map<string, Status>, ev: string, status: Status): map<string, Status> {
    if ev in rows then rows[ev := status] else rows
  }

  /** markEventProcessed: INSERT ... ON CONFLICT DO NOTHING. */
  function MarkedProcessed(rows: map<string, Status>, ev: string, status: Status): map<string, Status> {
    if ev in rows then rows else rows[ev := status]
  }

  function Copies(email: Email, n: nat): seq<Email> {
    seq(n, _ => email)
  }

  predicate Applied(write: Write) {
    write.Done? || write.applied
  }

  /** finishTransferEvent's choice. */
  function Outcome(found: seq<bool>): Status {
    if exists i :: 0 <= i < |found| && found[i] then Sent else Skipped
  }

  // ----- steps

  predicate IsEvent(msgs: seq<Message>, k: int) {
    0 <= k < |msgs| && msgs[k].Event?
  }

  /** One event id names one event. */
  ghost predicate Consistent(msgs: seq<Message>) {
    forall j, k :: IsEvent(msgs, j) && IsEvent(msgs, k) && msgs[j].ev == msgs[k].ev ==> msgs[j].parties == msgs[k].parties
  }

  predicate Enabled(msgs: seq<Message>, s: State, a: Action) {
    match a
    case Deliver(k) => s.pc.Idle? && k < |msgs|
    case Reject => s.pc.Start? && s.pc.k < |msgs| && msgs[s.pc.k].Poison?
    case Claim(_) => s.pc.Start? && IsEvent(msgs, s.pc.k)
    case LookUp(found) => s.pc.Looking? && IsEvent(msgs, s.pc.k) && |found| == |msgs[s.pc.k].parties|
    case LookUpFails => s.pc.Looking?
    case Send(copies) => AtSend(msgs, s.pc) && (s.pc.found[s.pc.next] <==> copies > 0)
    case SendFails(_) => AtSend(msgs, s.pc) && s.pc.found[s.pc.next]
    case Finish(_) => s.pc.Sending? && s.pc.next == |s.pc.found| && IsEvent(msgs, s.pc.k)
    case Retry => s.pc.AttemptFailed?
    case GiveUp => s.pc.AttemptFailed?
    case DeadLetter => s.pc.GivenUp? && s.pc.k < |msgs|
    case Close(_) => s.pc.Closing? && IsEvent(msgs, s.pc.k)
    case Commit(_) => s.pc.Committing?
    case Crash => true
    case Project(ev, status) => !status.Processing? && Unrelated(msgs, ev)
  }

  predicate Unrelated(msgs: seq<Message>, ev: string) {
    forall k :: 0 <= k < |msgs| && msgs[k].Event? ==> msgs[k].ev != ev
  }

  predicate AtSend(msgs: seq<Message>, pc: Pc) {
    pc.Sending? && IsEvent(msgs, pc.k) && pc.next < |pc.found| == |msgs[pc.k].parties|
  }

  function DoClaim(s: State, k: nat, ev: string, write: Write): State {
    var rows := if Applied(write) then Claimed(s.rows, ev) else s.rows;
    s.(rows := rows,
       pc := if write.Failed? then AttemptFailed(k)
             else if Claimed(s.rows, ev)[ev].Processing? then Looking(k)
             else Committing(k))
  }

  function DoFinish(s: State, k: nat, ev: string, found: seq<bool>, write: Write): State {
    s.(rows := if Applied(write) then Finished(s.rows, ev, Outcome(found)) else s.rows,
       pc := if write.Done? then Committing(k) else AttemptFailed(k))
  }

  function Do(msgs: seq<Message>, s: State, a: Action): State
    requires Enabled(msgs, s, a)
  {
    match a
    case Deliver(k) => s.(pc := Start(k))
    case Reject => s.(pc := AttemptFailed(s.pc.k))
    case Claim(write) => DoClaim(s, s.pc.k, msgs[s.pc.k].ev, write)
    case LookUp(found) => s.(lookups := s.lookups[msgs[s.pc.k].ev := found], pc := Sending(s.pc.k, found, 0))
    case LookUpFails => s.(pc := AttemptFailed(s.pc.k))
    case Send(copies) =>
      var m := msgs[s.pc.k];
      s.(emails := s.emails + Copies(Email(m.ev, m.parties[s.pc.next]), copies), pc := s.pc.(next := s.pc.next + 1))
    case SendFails(copies) =>
      var m := msgs[s.pc.k];
      s.(emails := s.emails + Copies(Email(m.ev, m.parties[s.pc.next]), copies), pc := AttemptFailed(s.pc.k))
    case Finish(write) => DoFinish(s, s.pc.k, msgs[s.pc.k].ev, s.pc.found, write)
    case Retry => s.(pc := Start(s.pc.k))
    case GiveUp => s.(pc := GivenUp(s.pc.k))
    case DeadLetter =>
      s.(dlq := s.dlq + {s.pc.k}, pc := if msgs[s.pc.k].Event? then Closing(s.pc.k) else Committing(s.pc.k))
    case Close(write) =>
      s.(rows := if Applied(write) then Finished(s.rows, msgs[s.pc.k].ev, Skipped) else s.rows, pc := Committing(s.pc.k))
    case Commit(ok) => s.(committed := if ok then s.committed + {s.pc.k} else s.committed, pc := Idle)
    case Crash => s.(pc := Idle)
    case Project(ev, status) => s.(rows := MarkedProcessed(s.rows, ev, status))
  }

  function Initial(): State {
    State(map[], [], map[], {}, {}, Idle)
  }

  predicate ValidRun(msgs: seq<Message>, s: State, acts: seq<Action>)
    decreases acts
  {
    acts != [] ==> Enabled(msgs, s, acts[0]) && ValidRun(msgs, Do(msgs, s, acts[0]), acts[1..])
  }

  function Exec(msgs: seq<Message>, s: State, acts: seq<Action>): State
    requires ValidRun(msgs, s, acts)
    decreases acts
  {
    if acts == [] then s else Exec(msgs, Do(msgs, s, acts[0]), acts[1..])
  }

  // ----- the invariant

  /** Every party among the first `n` that resolved has its email. */
  predicate Mailed(emails: seq<Email>, m: Message, found: seq<bool>, n: nat)
    requires m.Event?
  {
    n <= |found| == |m.parties| && forall i :: 0 <= i < n && found[i] ==> Email(m.ev, m.parties[i]) in emails
  }

  /** The event's own handler finished it, after mailing everyone it resolved. */
  predicate Delivered(s: State, m: Message)
    requires m.Event?
  {
    && m.ev in s.lookups && m.ev in s.rows && s.rows[m.ev] == Outcome(s.lookups[m.ev])
    && Mailed(s.emails, m, s.lookups[m.ev], |s.lookups[m.ev]|)
  }

  predicate DeadLettered(msgs: seq<Message>, s: State, ev: string) {
    exists k :: k in s.dlq && IsEvent(msgs, k) && msgs[k].ev == ev
  }

  /** Why a closed row is closed. */
  predicate ClosedOk(msgs: seq<Message>, s: State, m: Message)
    requires m.Event?
  {
    Closed(s.rows, m.ev) ==> Delivered(s, m) || DeadLettered(msgs, s, m.ev)
  }

  /** Why an offset may be committed. */
  predicate MayCommit(msgs: seq<Message>, s: State, k: nat) {
    k < |msgs| && (k in s.dlq || (msgs[k].Event? && Closed(s.rows, msgs[k].ev)))
  }

  predicate PcOk(msgs: seq<Message>, s: State) {
    match s.pc
    case Idle => true
    case Start(k) => k < |msgs|
    case Looking(k) => IsEvent(msgs, k) && msgs[k].ev in s.rows && s.rows[msgs[k].ev].Processing?
    case Sending(k, found, next) =>
      && IsEvent(msgs, k) && msgs[k].ev in s.rows && s.rows[msgs[k].ev].Processing?
      && msgs[k].ev in s.lookups && s.lookups[msgs[k].ev] == found && Mailed(s.emails, msgs[k], found, next)
    case AttemptFailed(k) => k < |msgs|
    case GivenUp(k) => k < |msgs|
    case Closing(k) => IsEvent(msgs, k) && k in s.dlq
    case Committing(k) => MayCommit(msgs, s, k)
  }

  ghost predicate RowsOk(msgs: seq<Message>, s: State) {
    forall k :: IsEvent(msgs, k) ==> ClosedOk(msgs, s, msgs[k])
  }

  ghost predicate CommitsOk(msgs: seq<Message>, s: State) {
    forall k :: k in s.committed ==> MayCommit(msgs, s, k)
  }

  ghost predicate Inv(msgs: seq<Message>, s: State) {
    PcOk(msgs, s) && RowsOk(msgs, s) && CommitsOk(msgs, s)
  }

  // ----- preservation

  /** Closed rows stay closed, dead letters stay dead, emails are never unsent. */
  ghost predicate Grows(s: State, s': State) {
    && (forall ev :: Closed(s.rows, ev) ==> Closed(s'.rows, ev))
    && s.dlq <= s'.dlq
    && (forall e :: e in s.emails ==> e in s'.emails)
  }

  lemma StepGrows(msgs: seq<Message>, s: State, a: Action)
    requires Inv(msgs, s) && Enabled(msgs, s, a)
    ensures Grows(s, Do(msgs, s, a))
  {
  }

  lemma CommitsStay(msgs: seq<Message>, s: State, s': State)
    requires CommitsOk(msgs, s) && Grows(s, s') && s'.committed == s.committed
    ensures CommitsOk(msgs, s')
  {
    forall k | k in s'.committed ensures MayCommit(msgs, s', k) { assert MayCommit(msgs, s, k); }
  }

  /** Rows, lookups and dead letters as before: closed rows stay explained. */
  lemma RowsStay(msgs: seq<Message>, s: State, s': State)
    requires RowsOk(msgs, s) && Grows(s, s')
    requires s'.rows == s.rows && s'.lookups == s.lookups
    ensures RowsOk(msgs, s')
  {
    forall k | IsEvent(msgs, k) ensures ClosedOk(msgs, s', msgs[k]) {
      OneStays(msgs, s, s', msgs[k]);
    }
  }

  lemma OneStays(msgs: seq<Message>, s: State, s': State, m: Message)
    requires m.Event? && ClosedOk(msgs, s, m) && Grows(s, s')
    requires Closed(s'.rows, m.ev) ==> Closed(s.rows, m.ev) && s'.rows[m.ev] == s.rows[m.ev]
    requires Closed(s.rows, m.ev) && m.ev in s.lookups ==> m.ev in s'.lookups && s'.lookups[m.ev] == s.lookups[m.ev]
    ensures ClosedOk(msgs, s', m)
  {
    if Closed(s.rows, m.ev) && DeadLettered(msgs, s, m.ev) {
      var k :| k in s.dlq && IsEvent(msgs, k) && msgs[k].ev == m.ev;
      assert k in s'.dlq;
    }
  }

  lemma ClaimKeepsInv(msgs: seq<Message>, s: State, write: Write)
    requires Inv(msgs, s) && Enabled(msgs, s, Claim(write))
    ensures Inv(msgs, Do(msgs, s, Claim(write)))
  {
    var s' := Do(msgs, s, Claim(write));
    CommitsStay(msgs, s, s');
    forall k | IsEvent(msgs, k) ensures ClosedOk(msgs, s', msgs[k]) { OneStays(msgs, s, s', msgs[k]); }
  }

  lemma LookUpKeepsInv(msgs: seq<Message>, s: State, found: seq<bool>)
    requires Inv(msgs, s) && Enabled(msgs, s, LookUp(found))
    ensures Inv(msgs, Do(msgs, s, LookUp(found)))
  {
    var s' := Do(msgs, s, LookUp(found));
    CommitsStay(msgs, s, s');
    forall k | IsEvent(msgs, k) ensures ClosedOk(msgs, s', msgs[k]) { OneStays(msgs, s, s', msgs[k]); }
  }

  lemma SendKeepsInv(msgs: seq<Message>, s: State, copies: nat)
    requires Inv(msgs, s) && Enabled(msgs, s, Send(copies))
    ensures Inv(msgs, Do(msgs, s, Send(copies)))
  {
    var s', m := Do(msgs, s, Send(copies)), msgs[s.pc.k];
    CommitsStay(msgs, s, s');
    RowsStay(msgs, s, s');
    if copies > 0 { assert Copies(Email(m.ev, m.parties[s.pc.next]), copies)[0] in s'.emails; }
    assert Mailed(s'.emails, m, s.pc.found, s.pc.next + 1);
  }

  lemma FinishKeepsInv(msgs: seq<Message>, s: State, write: Write)
    requires Consistent(msgs) && Inv(msgs, s) && Enabled(msgs, s, Finish(write))
    ensures Inv(msgs, Do(msgs, s, Finish(write)))
  {
    var s', m := Do(msgs, s, Finish(write)), msgs[s.pc.k];
    CommitsStay(msgs, s, s');
    forall k | IsEvent(msgs, k) ensures ClosedOk(msgs, s', msgs[k]) {
      if msgs[k].ev != m.ev || !Applied(write) {
        OneStays(msgs, s, s', msgs[k]);
      } else {
        assert Delivered(s', msgs[k]);
      }
    }
  }

  lemma CloseKeepsInv(msgs: seq<Message>, s: State, write: Write)
    requires Inv(msgs, s) && Enabled(msgs, s, Close(write))
    ensures Inv(msgs, Do(msgs, s, Close(write)))
  {
    var s', m := Do(msgs, s, Close(write)), msgs[s.pc.k];
    CommitsStay(msgs, s, s');
    forall k | IsEvent(msgs, k) ensures ClosedOk(msgs, s', msgs[k]) {
      if msgs[k].ev != m.ev { OneStays(msgs, s, s', msgs[k]); }
    }
  }

  lemma ProjectKeepsInv(msgs: seq<Message>, s: State, ev: string, status: Status)
    requires Inv(msgs, s) && Enabled(msgs, s, Project(ev, status))
    ensures Inv(msgs, Do(msgs, s, Project(ev, status)))
  {
    var s' := Do(msgs, s, Project(ev, status));
    CommitsStay(msgs, s, s');
    forall k | IsEvent(msgs, k) ensures ClosedOk(msgs, s', msgs[k]) { OneStays(msgs, s, s', msgs[k]); }
  }

  /** Steps that leave the rows and the lookups alone. */
  lemma OthersKeepInv(msgs: seq<Message>, s: State, a: Action)
    requires Inv(msgs, s) && Enabled(msgs, s, a)
    requires !(a.Claim? || a.LookUp? || a.Send? || a.Finish? || a.Close? || a.Project?)
    ensures Inv(msgs, Do(msgs, s, a))
  {
    var s' := Do(msgs, s, a);
    RowsStay(msgs, s, s');
    forall k | k in s'.committed ensures MayCommit(msgs, s', k) {
      if k in s.committed { assert MayCommit(msgs, s, k); }
    }
  }

  lemma StepKeepsInv(msgs: seq<Message>, s: State, a: Action)
    requires Consistent(msgs) && Inv(msgs, s) && Enabled(msgs, s, a)
    ensures Inv(msgs, Do(msgs, s, a))
  {
    hide Inv;
    match a
    case Claim(write) => ClaimKeepsInv(msgs, s, write);
    case LookUp(found) => LookUpKeepsInv(msgs, s, found);
    case Send(copies) => SendKeepsInv(msgs, s, copies);
    case Finish(write) => FinishKeepsInv(msgs, s, write);
    case Close(write) => CloseKeepsInv(msgs, s, write);
    case Project(ev, status) => ProjectKeepsInv(msgs, s, ev, status);
    case _ => OthersKeepInv(msgs, s, a);
  }

  lemma {:induction false} RunKeepsInv(msgs: seq<Message>, s: State, acts: seq<Action>)
    requires Consistent(msgs) && Inv(msgs, s) && ValidRun(msgs, s, acts)
    ensures Inv(msgs, Exec(msgs, s, acts))
    decreases acts
  {
    hide Inv;
    if acts != [] {
      StepKeepsInv(msgs, s, acts[0]);
      RunKeepsInv(msgs, Do(msgs, s, acts[0]), acts[1..]);
    }
  }

  // ----- main results

  /** The emails sent about one event. */
  function About(emails: seq<Email>, ev: string): seq<Email> {
    if emails == [] then []
    else About(emails[..|emails| - 1], ev) +
         if emails[|emails| - 1].ev == ev then [emails[|emails| - 1]] else []
  }

  lemma {:induction false} AboutAppend(emails: seq<Email>, e: Email, n: nat, ev: string)
    requires e.ev != ev
    ensures About(emails + Copies(e, n), ev) == About(emails, ev)
  {
    if n == 0 {
      assert emails + Copies(e, 0) == emails;
    } else {
      AboutAppend(emails, e, n - 1, ev);
      var all := emails + Copies(e, n);
      assert all[..|all| - 1] == emails + Copies(e, n - 1);
    }
  }

  lemma ClosedStep(msgs: seq<Message>, s: State, a: Action, ev: string)
    requires Inv(msgs, s) && Enabled(msgs, s, a) && Closed(s.rows, ev)
    ensures Closed(Do(msgs, s, a).rows, ev)
    ensures About(Do(msgs, s, a).emails, ev) == About(s.emails, ev)
  {
    StepGrows(msgs, s, a);
    if a.Send? || a.SendFails? {
      var m := msgs[s.pc.k];
      AboutAppend(s.emails, Email(m.ev, m.parties[s.pc.next]), a.copies, ev);
    }
  }

  lemma {:induction false} ClosedRun(msgs: seq<Message>, s: State, acts: seq<Action>, ev: string)
    requires Consistent(msgs) && Inv(msgs, s) && ValidRun(msgs, s, acts) && Closed(s.rows, ev)
    ensures var s' := Exec(msgs, s, acts);
            Closed(s'.rows, ev) && About(s'.emails, ev) == About(s.emails, ev)
    decreases acts
  {
    hide Inv;
    if acts != [] {
      ClosedStep(msgs, s, acts[0], ev);
      StepKeepsInv(msgs, s, acts[0]);
      ClosedRun(msgs, Do(msgs, s, acts[0]), acts[1..], ev);
    }
  }

  /** Main result: once an event's row is closed it stays closed, and no further
      email goes out for it, through every redelivery, retry, failure and crash. */
  lemma ClosedIsFinal(msgs: seq<Message>, past: seq<Action>, more: seq<Action>, ev: string)
    requires Consistent(msgs) && ValidRun(msgs, Initial(), past)
    requires ValidRun(msgs, Exec(msgs, Initial(), past), more) && Closed(Exec(msgs, Initial(), past).rows, ev)
    ensures var s := Exec(msgs, Initial(), past);
            var s' := Exec(msgs, s, more);
            Closed(s'.rows, ev) && About(s'.emails, ev) == About(s.emails, ev)
  {
    RunKeepsInv(msgs, Initial(), past);
    ClosedRun(msgs, Exec(msgs, Initial(), past), more, ev);
  }

  /** Main result: an offset is committed only after its message was offered to the
      dead-letter topic, or its event was closed; and an event is closed only once
      everyone its handler could resolve was mailed ('sent' if anyone was, else
      'skipped'), or a copy of it was dead-lettered. */
  lemma CommittedIsAccountedFor(msgs: seq<Message>, acts: seq<Action>, k: nat)
    requires Consistent(msgs) && ValidRun(msgs, Initial(), acts) && k in Exec(msgs, Initial(), acts).committed
    ensures var s := Exec(msgs, Initial(), acts);
            && k < |msgs|
            && (k in s.dlq || (msgs[k].Event? && (Delivered(s, msgs[k]) || DeadLettered(msgs, s, msgs[k].ev))))
            && (msgs[k].Event? && Delivered(s, msgs[k]) ==>
                  var m, found := msgs[k], s.lookups[msgs[k].ev];
                  && |found| == |m.parties|
                  && (forall i :: 0 <= i < |found| && found[i] ==> Email(m.ev, m.parties[i]) in s.emails)
                  && s.rows[m.ev] == (if exists i :: 0 <= i < |found| && found[i] then Sent else Skipped))
  {
    var s := Exec(msgs, Initial(), acts);
    RunKeepsInv(msgs, Initial(), acts);
    assert MayCommit(msgs, s, k);
    if k !in s.dlq { assert ClosedOk(msgs, s, msgs[k]); }
  }

  // ----- runs grow at the end

  lemma {:induction false} ExtendRun(msgs: seq<Message>, s: State, acts: seq<Action>, a: Action)
    requires ValidRun(msgs, s, acts) && Enabled(msgs, Exec(msgs, s, acts), a)
    ensures ValidRun(msgs, s, acts + [a]) && Exec(msgs, s, acts + [a]) == Do(msgs, Exec(msgs, s, acts), a)
    decreases acts
  {
    hide Enabled, Do;
    if acts == [] {
      assert (acts + [a])[1..] == [];
    } else {
      assert (acts + [a])[1..] == acts[1..] + [a];
      ExtendRun(msgs, Do(msgs, s, acts[0]), acts[1..], a);
    }
  }
}
