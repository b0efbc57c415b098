/** Promises of the deposit path that do not hold in every run: one DepositCredited
    per deposit, no credit after a refund closed it, a credited row only while the
    account holds the amount, and a zero net once a refund is recorded. For each,
    runs that break it and the exact condition under which it holds. */
module DepositRaces {
  import opened Options
  import opened Order
  import L = LedgerSpec
  import opened DepositSaga
  import opened DepositSafety
  import opened DepositFutures

  ghost predicate Reachable(n: Names, ledger: L.Ledger, s: State) {
    exists acts :: ValidRun(n, Initial(ledger), acts) && Exec(n, Initial(ledger), acts) == s
  }

  lemma ReachableInv(n: Names, ledger: L.Ledger, s: State)
    requires Distinct(n) && Reachable(n, ledger, s)
    ensures Inv(n, s)
  {
    var acts :| ValidRun(n, Initial(ledger), acts) && Exec(n, Initial(ledger), acts) == s;
    RunKeepsInv(n, Initial(ledger), acts);
  }

  lemma Continue(n: Names, ledger: L.Ledger, s: State, more: seq<Action>)
    requires Reachable(n, ledger, s) && ValidRun(n, s, more)
    ensures Reachable(n, ledger, Exec(n, s, more))
  {
    var acts :| ValidRun(n, Initial(ledger), acts) && Exec(n, Initial(ledger), acts) == s;
    Chain(n, Initial(ledger), acts, more);
  }

  lemma Extend(n: Names, ledger: L.Ledger, s: State, a: Action)
    requires Reachable(n, ledger, s) && Enabled(n, s, a)
    ensures Reachable(n, ledger, Do(n, s, a))
  {
    hide Enabled, Do;
    assert [a][1..] == [];
    assert ValidRun(n, Do(n, s, a), []) && Exec(n, Do(n, s, a), []) == Do(n, s, a);
    Continue(n, ledger, s, [a]);
  }

  // ----- one event per deposit

  ghost predicate AtMost(n: Names, s: State, did: string, allowed: set<string>, m: nat) {
    forall acts :: ValidRun(n, s, acts) && From(n, s, acts, did, allowed) ==> |EventsOf(Exec(n, s, acts), did)| <= m
  }

  /** From any reachable state, whatever happens and whichever of the allowed success
      events are delivered, a deposit announces at most `m` credits, if and only if
      those already out, one more if the row is still open, and one for every
      allowed id not recorded yet come to at most `m`. */
  lemma AnnouncementsIff(n: Names, ledger: L.Ledger, s: State, did: string, allowed: set<string>, m: nat)
    requires Distinct(n) && Reachable(n, ledger, s) && did in s.deposits
    ensures AtMost(n, s, did, allowed, m) <==> Budget(s, did, allowed) <= m
  {
    ReachableInv(n, ledger, s);
    hide Inv, Budget;
    if Budget(s, did, allowed) <= m {
      forall acts | ValidRun(n, s, acts) && From(n, s, acts, did, allowed) ensures |EventsOf(Exec(n, s, acts), did)| <= m {
        RunKeepsBudget(n, s, acts, did, allowed);
        EventsWithinBudget(Exec(n, s, acts), did, allowed);
      }
    } else {
      var acts, t := SpendBudget(n, s, did, allowed);
      hide ValidRun, Exec;
      assert ValidRun(n, s, acts) && From(n, s, acts, did, allowed) && Exec(n, s, acts) == t;
    }
  }

  lemma EventsWithinBudget(s: State, did: string, allowed: set<string>)
    ensures |EventsOf(s, did)| <= Budget(s, did, allowed)
  {
  }

  /** The webhook writer is unguarded: once a closed deposit was announced, be it
      credited, refunded or failed by now, a success delivery leaves the count as it
      is exactly when its event id was already recorded. */
  lemma LateSuccessRepublishesIff(n: Names, ledger: L.Ledger, s: State, did: string, pi: string, ev: string)
    requires Distinct(n) && Reachable(n, ledger, s) && Owns(s, did, pi) && !Open(s, did)
    ensures AtMost(n, DoStripe(s, ev, PaymentSucceeded, pi), did, {}, |EventsOf(s, did)|) <==> ev in s.processed
  {
    var a, s1 := Stripe(ev, PaymentSucceeded, pi), DoStripe(s, ev, PaymentSucceeded, pi);
    Extend(n, ledger, s, a);
    if ev !in s.processed { ReopenedStep(s, a, did); }
    hide AtMost;
    AnnouncementsIff(n, ledger, s1, did, {}, |EventsOf(s, did)|);
    assert {} - s1.processed == {};
  }

  // ----- no credit after a refund

  ghost predicate NeverCredited(n: Names, s: State, did: string, allowed: set<string>) {
    forall acts :: ValidRun(n, s, acts) && From(n, s, acts, did, allowed) ==> !IsCredited(Exec(n, s, acts), did)
  }

  /** From any reachable state, an uncredited deposit is never credited, whatever
      happens and whichever of the allowed success events are delivered, if and only
      if its row is closed, no worker has it listed, and every allowed id is
      recorded already. */
  lemma NeverCreditedIff(n: Names, ledger: L.Ledger, s: State, did: string, allowed: set<string>)
    requires Distinct(n) && Reachable(n, ledger, s) && did in s.deposits && !IsCredited(s, did)
    ensures NeverCredited(n, s, did, allowed) <==> Shut(s, did, allowed)
  {
    ReachableInv(n, ledger, s);
    hide Inv;
    if Shut(s, did, allowed) {
      forall acts | ValidRun(n, s, acts) && From(n, s, acts, did, allowed) ensures !IsCredited(Exec(n, s, acts), did) {
        ShutRun(n, s, acts, did, allowed);
      }
    } else {
      var acts, t := CreditSomehow(n, s, did, allowed);
      hide ValidRun, Exec;
      assert ValidRun(n, s, acts) && From(n, s, acts, did, allowed) && Exec(n, s, acts) == t;
    }
  }

  /** Three ways to a credit: the row is open, a worker has it, or a success reopens it. */
  lemma CreditSomehow(n: Names, s: State, did: string, allowed: set<string>) returns (acts: seq<Action>, t: State)
    requires Distinct(n) && Inv(n, s) && did in s.deposits && !IsCredited(s, did) && !Shut(s, did, allowed)
    ensures Leads(n, s, acts, t, did, allowed) && Holds(n, t, did)
  {
    NotReversed(n, s, did);
    hide Inv, Leads, DoStripe;
    if Open(s, did) {
      acts, t := AnnounceOpen(n, s, did, allowed);
    } else if !Unlisted(s, did) {
      var w :| w in s.credits && s.credits[w].seen.did == did;
      acts, t := CreditAnyway(n, s, did, allowed, w);
    } else {
      var ev :| ev in allowed && ev !in s.processed;
      acts, t := AnnounceReopened(n, s, did, allowed, ev);
    }
  }

  /** A success delivery leaves a deposit that nothing could credit in that state
      exactly when its event id was already recorded. */
  lemma LateSuccessCreditsIff(n: Names, ledger: L.Ledger, s: State, did: string, pi: string, allowed: set<string>, ev: string)
    requires Distinct(n) && Reachable(n, ledger, s) && Owns(s, did, pi) && Shut(s, did, allowed)
    ensures NeverCredited(n, DoStripe(s, ev, PaymentSucceeded, pi), did, allowed) <==> ev in s.processed
  {
    var a, s1 := Stripe(ev, PaymentSucceeded, pi), DoStripe(s, ev, PaymentSucceeded, pi);
    Extend(n, ledger, s, a);
    if ev !in s.processed { ReopenedStep(s, a, did); }
    hide NeverCredited;
    NeverCreditedIff(n, ledger, s1, did, allowed);
  }

  // ----- credited means the account holds the amount

  ghost predicate AlwaysHeld(n: Names, s: State, did: string, allowed: set<string>) {
    forall acts :: ValidRun(n, s, acts) && From(n, s, acts, did, allowed) ==>
      (SaysCredited(Exec(n, s, acts), did) ==> Holds(n, Exec(n, s, acts), did))
  }

  /** From any reachable state, the row says 'credited' only while the account holds
      the amount, if and only if the row can no longer come to say so: a refund
      reverses before it records, and a new success makes a refunded row credited
      again without any money. */
  lemma CreditedIsHeldIff(n: Names, ledger: L.Ledger, s: State, did: string, allowed: set<string>)
    requires Distinct(n) && Reachable(n, ledger, s) && did in s.deposits
    ensures AlwaysHeld(n, s, did, allowed) <==> !Open(s, did) && !SaysCredited(s, did) && allowed <= s.processed
  {
    ReachableInv(n, ledger, s);
    hide Inv;
    if !Open(s, did) && !SaysCredited(s, did) && allowed <= s.processed {
      forall acts | ValidRun(n, s, acts) && From(n, s, acts, did, allowed) ensures !SaysCredited(Exec(n, s, acts), did) {
        DormantRun(n, s, acts, did, allowed);
      }
    } else {
      var acts, t := ReverseSomehow(n, s, did, allowed);
      hide ValidRun, Exec;
      assert ValidRun(n, s, acts) && From(n, s, acts, did, allowed) && Exec(n, s, acts) == t;
    }
  }

  lemma ReverseSomehow(n: Names, s: State, did: string, allowed: set<string>) returns (acts: seq<Action>, t: State)
    requires Distinct(n) && Inv(n, s) && did in s.deposits
    requires Open(s, did) || SaysCredited(s, did) || !(allowed <= s.processed)
    ensures Leads(n, s, acts, t, did, allowed) && SaysCredited(t, did) && IsReversed(n, t, did)
  {
    hide Inv, Leads, DoStripe;
    var first, s1 := [], s;
    if SaysCredited(s, did) {
      Stay(n, s, did, allowed);
    } else if Open(s, did) {
      first, s1 := AnnounceOpen(n, s, did, allowed);
    } else {
      var ev :| ev in allowed && ev !in s.processed;
      first, s1 := AnnounceReopened(n, s, did, allowed, ev);
    }
    LeadsKeepsInv(n, s, first, s1, did, allowed);
    var second;
    second, t := ReverseNow(n, s1, did, allowed);
    Join(n, s, first, s1, second, t, did, allowed);
    acts := first + second;
  }

  /** For a refunded row new successes alone decide: its money is back, and the row
      stays away from 'credited' exactly when every allowed id is recorded. */
  lemma RefundedStaysIff(n: Names, ledger: L.Ledger, s: State, did: string, allowed: set<string>)
    requires Distinct(n) && Reachable(n, ledger, s) && did in s.deposits && s.deposits[did].status.Refunded?
    ensures IsReversed(n, s, did)
    ensures AlwaysHeld(n, s, did, allowed) <==> allowed <= s.processed
  {
    hide Inv, AlwaysHeld, Reachable;
    ReachableInv(n, ledger, s);
    RefundedIsReversed(n, s, did);
    CreditedIsHeldIff(n, ledger, s, did, allowed);
  }

  lemma RefundedIsReversed(n: Names, s: State, did: string)
    requires Inv(n, s) && did in s.deposits && s.deposits[did].status.Refunded?
    ensures IsReversed(n, s, did)
  {
    About(n, s, did);
  }

  // ----- after a refund the account's net stays zero

  ghost predicate NeverHolds(n: Names, s: State, did: string, allowed: set<string>) {
    forall acts :: ValidRun(n, s, acts) && From(n, s, acts, did, allowed) ==> !Holds(n, Exec(n, s, acts), did)
  }

  /** From any reachable state the account's net from this deposit stays zero, if and
      only if the money was taken back already, or nothing is left that could credit it. */
  lemma NetStaysZeroIff(n: Names, ledger: L.Ledger, s: State, did: string, allowed: set<string>)
    requires Distinct(n) && Reachable(n, ledger, s) && did in s.deposits
    ensures NeverHolds(n, s, did, allowed) <==> IsReversed(n, s, did) || Shut(s, did, allowed)
  {
    ReachableInv(n, ledger, s);
    hide Inv;
    if IsReversed(n, s, did) {
      forall acts | ValidRun(n, s, acts) && From(n, s, acts, did, allowed) ensures !Holds(n, Exec(n, s, acts), did) {
        ReversedStays(n, s, acts, did);
      }
    } else if Shut(s, did, allowed) {
      forall acts | ValidRun(n, s, acts) && From(n, s, acts, did, allowed) ensures !Holds(n, Exec(n, s, acts), did) {
        ShutRun(n, s, acts, did, allowed);
      }
    } else if IsCredited(s, did) {
      Stay(n, s, did, allowed);
      assert ValidRun(n, s, []) && From(n, s, [], did, allowed) && Exec(n, s, []) == s;
    } else {
      var acts, t := CreditSomehow(n, s, did, allowed);
      hide ValidRun, Exec;
      assert ValidRun(n, s, acts) && From(n, s, acts, did, allowed) && Exec(n, s, acts) == t;
    }
  }

  /** A refund delivery in flight that read this row as `seen`, with nothing to reverse. */
  predicate Holding(s: State, q: nat, ev: string, seen: Snapshot) {
    q in s.refunds && s.refunds[q] == Read(ev, Some(seen)) && !seen.status.Credited? && seen.did in s.deposits
  }

  /** What a refund is worth at the moment it is recorded, however long after its
      lookup. If the row was read as succeeded it is failed now, whatever it says by
      then; otherwise it is left as it is. The account's net stays zero from there if
      and only if the money was taken back already, or the deposit is not credited and
      no worker has it listed, no unrecorded success can come, and the row was read as
      succeeded or is closed anyway. */
  lemma RecordedRefundIff(n: Names, ledger: L.Ledger, s: State, q: nat, ev: string, seen: Snapshot, allowed: set<string>)
    requires Distinct(n) && Reachable(n, ledger, s) && Holding(s, q, ev, seen) && ev !in s.processed
    ensures RefundEnabled(s, q, Record)
    ensures NeverHolds(n, DoRefund(n, s, q, Record), seen.did, allowed) <==>
            IsReversed(n, s, seen.did) ||
            (&& !IsCredited(s, seen.did) && Unlisted(s, seen.did) && allowed <= s.processed + {ev}
             && (seen.status.Succeeded? || !Open(s, seen.did)))
  {
    hide NeverHolds, Reachable, L.Tagged;
    var did, s' := seen.did, DoRefund(n, s, q, Record);
    Extend(n, ledger, s, Refunding(q, Record));
    assert s'.ledger == s.ledger && s'.credits == s.credits && s'.processed == s.processed + {ev};
    assert did in s'.deposits && (Open(s', did) <==> Open(s, did) && !seen.status.Succeeded?);
    hide DoRefund;
    NetStaysZeroIff(n, ledger, s', did, allowed);
  }

  /** A delivery that did reverse keeps the net at zero for good. */
  lemma RecordedReversalHolds(n: Names, ledger: L.Ledger, s: State, q: nat, allowed: set<string>)
    requires Distinct(n) && Reachable(n, ledger, s) && q in s.refunds && s.refunds[q].Reversed?
    ensures RefundEnabled(s, q, Record)
    ensures NeverHolds(n, DoRefund(n, s, q, Record), s.refunds[q].seen.did, allowed)
  {
    hide NeverHolds, Reachable, L.Tagged, Inv;
    ReachableInv(n, ledger, s);
    RefundFacts(n, s, q);
    var did, s' := s.refunds[q].seen.did, DoRefund(n, s, q, Record);
    Extend(n, ledger, s, Refunding(q, Record));
    assert s'.ledger == s.ledger && did in s'.deposits;
    NetStaysZeroIff(n, ledger, s', did, allowed);
  }

  /** The tables after a refund delivery that is recorded at once. */
  function RefundRecorded(s: State, did: string, ev: string): State
    requires did in s.deposits
  {
    Recorded(s, Read(ev, Some(SnapshotOf(s, did))))
  }

  lemma RefundIsReachable(n: Names, ledger: L.Ledger, s: State, did: string, pi: string, q: nat, ev: string)
    requires Reachable(n, ledger, s) && Owns(s, did, pi) && q !in s.refunds && !s.deposits[did].status.Credited?
    ensures Reachable(n, ledger, RefundRecorded(s, did, ev))
  {
    hide Reachable;
    var task := Read(ev, Some(SnapshotOf(s, did)));
    var s1 := s.(refunds := s.refunds[q := task]);
    Extend(n, ledger, s, Refunding(q, Receive(ev, pi, Some(did))));
    Extend(n, ledger, s1, Refunding(q, Record));
    DroppedTask(s, Recorded(s1, task), q, task);
  }

  // ----- runs that break them

  /** Names as required exist: ids that start with 'd', reversals with 'r'. */
  lemma NamesExist() returns (n: Names)
    ensures Distinct(n) && n.isId("d")
  {
    n := Names((d: string) => "r" + d, (d: string) => d != "" && d[0] == 'd');
    forall d, e | n.isId(d) && n.isId(e) && n.reversal(d) == n.reversal(e) ensures d == e {
      assert d == ("r" + d)[1..] && e == ("r" + e)[1..];
    }
  }

  function Fresh(): L.Ledger {
    L.Ledger({Lower(L.GENESIS), Lower("a")}, [], map[])
  }

  const Paid := Deposit("a", 50, Succeeded, Some("p"), None, None)

  /** One deposit, confirmed by Stripe. */
  function Confirmed(did: string): State {
    Initial(Fresh()).(deposits := map[did := Paid], processed := {"e1"})
  }

  /** A deposit just created. */
  function Inserted(did: string): State {
    Initial(Fresh()).(deposits := map[did := Deposit("a", 50, Pending, None, None, None)])
  }

  lemma InsertedIsReachable(n: Names, did: string)
    requires Distinct(n) && n.isId(did)
    ensures Reachable(n, Fresh(), Inserted(did))
  {
    var s0 := Initial(Fresh());
    assert ValidRun(n, s0, []) && Exec(n, s0, []) == s0;
    Extend(n, Fresh(), s0, Row(Insert(did, "a", 50)));
    assert DoRow(n, s0, Insert(did, "a", 50)) == Inserted(did);
  }

  lemma WaitingIsReachable(n: Names, did: string)
    requires Distinct(n) && n.isId(did)
    ensures Reachable(n, Fresh(), Waiting(did))
  {
    InsertedIsReachable(n, did);
    Extend(n, Fresh(), Inserted(did), Row(Attach(did, "p")));
    assert DoRow(n, Inserted(did), Attach(did, "p")).deposits == Waiting(did).deposits;
  }

  lemma ConfirmedIsReachable(n: Names, did: string)
    requires Distinct(n) && n.isId(did)
    ensures Reachable(n, Fresh(), Confirmed(did))
  {
    WaitingIsReachable(n, did);
    Extend(n, Fresh(), Waiting(did), Stripe("e1", PaymentSucceeded, "p"));
    assert DoStripe(Waiting(did), "e1", PaymentSucceeded, "p").deposits == Confirmed(did).deposits;
  }

  function Seen(did: string): Snapshot {
    Snapshot(did, "a", 50, Succeeded)
  }

  /** ... and listed by a worker. */
  function ListedBy(did: string): State {
    Confirmed(did).(credits := map[0 := Listed(Seen(did))])
  }

  lemma ListedIsReachable(n: Names, did: string)
    requires Distinct(n) && n.isId(did)
    ensures Reachable(n, Fresh(), ListedBy(did))
  {
    ConfirmedIsReachable(n, did);
    Extend(n, Fresh(), Confirmed(did), Work(0, List(did)));
  }

  function Posted(did: string): L.Ledger {
    L.AddPair(Fresh(), Lower(L.GENESIS), Lower("a"), 50, did, 7)
  }

  /** A first posting under a reference, between known accounts. */
  lemma FirstPost(l: L.Ledger, from: string, to: string, reference: string, uuid: L.TransactionId)
    requires Lower(from) in l.accounts && Lower(to) in l.accounts && L.Tagged(l.entries, reference) == []
    ensures var after := L.AddPair(l, Lower(from), Lower(to), 50, reference, uuid);
            && L.Apply(l, L.Post(from, to, 50, reference), uuid) == (after, L.Posted(uuid))
            && L.Tagged(after.entries, reference) != []
            && forall u :: u != reference ==> L.Tagged(after.entries, u) == L.Tagged(l.entries, u)
  {
    L.AppendPair(l.entries, Lower(from), Lower(to), 50, reference, uuid);
    hide L.Tagged;
  }

  lemma LedgerPosts(n: Names, did: string)
    requires Distinct(n) && n.isId(did)
    ensures L.Apply(Fresh(), L.DepositCall("a", 50, did), 7) == (Posted(did), L.Posted(7))
    ensures L.Tagged(Posted(did).entries, did) != [] && L.Tagged(Posted(did).entries, n.reversal(did)) == []
  {
    NothingTagged(did);
    NothingTagged(n.reversal(did));
    hide L.Apply, L.Tagged, Lower;
    FirstPost(Fresh(), L.GENESIS, "a", did, 7);
  }

  /** ... and credited, with its one event. */
  function CreditedOnce(did: string): State {
    Confirmed(did).(ledger := Posted(did),
                    deposits := map[did := Paid.(status := Credited, txn := Some(7))],
                    outbox := map[did := [DepositCredited(did, "a", 50, 7)]])
  }

  lemma CreditedIsReachable(n: Names, did: string)
    requires Distinct(n) && n.isId(did)
    ensures Reachable(n, Fresh(), CreditedOnce(did))
  {
    var s0 := ListedBy(did);
    ListedIsReachable(n, did);
    LedgerPosts(n, did);
    hide L.Apply;
    Extend(n, Fresh(), s0, Work(0, AskLedger(7)));
    var s1 := Confirmed(did).(ledger := Posted(did), credits := map[0 := Told(Seen(did), 7)]);
    assert s0.credits[0 := Told(Seen(did), 7)] == s1.credits;
    Extend(n, Fresh(), s1, Work(0, MarkCredited));
    assert EventsOf(s1, did) + [DepositCredited(did, "a", 50, 7)] == [DepositCredited(did, "a", 50, 7)];
    assert DoWork(s1, 0, MarkCredited).deposits == CreditedOnce(did).deposits;
    assert DoWork(s1, 0, MarkCredited).outbox == CreditedOnce(did).outbox;
  }

  /** One announcement fails: a second, late success event announces the credit twice. */
  lemma AnnouncedTwice(n: Names, did: string) returns (s: State)
    requires Distinct(n) && n.isId(did)
    ensures Reachable(n, Fresh(), s) && |EventsOf(s, did)| == 2
  {
    hide Inv, Reachable, L.Apply, L.Tagged;
    CreditedIsReachable(n, did);
    ReachableInv(n, Fresh(), CreditedOnce(did));
    var acts;
    acts, s := AnnounceReopened(n, CreditedOnce(did), did, {"e2"}, "e2");
    Arrive(n, Fresh(), CreditedOnce(did), acts, s, did, {"e2"});
  }

  lemma Arrive(n: Names, ledger: L.Ledger, s: State, acts: seq<Action>, t: State, did: string, allowed: set<string>)
    requires Reachable(n, ledger, s) && Leads(n, s, acts, t, did, allowed)
    ensures Reachable(n, ledger, t)
  {
    hide Reachable;
    Continue(n, ledger, s, acts);
  }

  /** No credit after a refund fails: a worker had the deposit listed already. */
  lemma CreditedAfterRefund(n: Names, did: string) returns (s: State)
    requires Distinct(n) && n.isId(did)
    ensures Reachable(n, Fresh(), s)
    ensures did in s.deposits && s.deposits[did].status.Failed? && Holds(n, s, did)
  {
    hide Reachable, L.Apply, L.Tagged;
    ListedIsReachable(n, did);
    LedgerPosts(n, did);
    RefundIsReachable(n, Fresh(), ListedBy(did), did, "p", 0, "e3");
    var s0 := RefundRecorded(ListedBy(did), did, "e3");
    Extend(n, Fresh(), s0, Work(0, AskLedger(7)));
    s := DoWork(s0, 0, AskLedger(7));
  }

  /** A deposit with its intent, not confirmed yet. */
  function Waiting(did: string): State {
    Initial(Fresh()).(deposits := map[did := Paid.(status := Pending)])
  }

  /** The same, confirmed by a poll, which records no event id. */
  function Polled(did: string): State {
    Initial(Fresh()).(deposits := map[did := Paid])
  }

  lemma PolledIsReachable(n: Names, did: string)
    requires Distinct(n) && n.isId(did)
    ensures Reachable(n, Fresh(), Polled(did))
  {
    WaitingIsReachable(n, did);
    Extend(n, Fresh(), Waiting(did), Row(PollSucceeded("p")));
    assert SetPendingByIntent(Waiting(did), "p", Succeeded).deposits == Polled(did).deposits;
  }

  /** It fails even with no worker around: the poll came first, the refund closed the
      row, and then the original success event arrives for the first time. */
  lemma CreditedAfterDelayedSuccess(n: Names, did: string) returns (closed: State, s: State)
    requires Distinct(n) && n.isId(did)
    ensures Reachable(n, Fresh(), closed) && Shut(closed, did, {}) && closed.deposits[did].status.Failed?
    ensures Reachable(n, Fresh(), s) && Holds(n, s, did) && "e3" in s.processed
  {
    hide Inv, Reachable, L.Apply;
    PolledIsReachable(n, did);
    RefundIsReachable(n, Fresh(), Polled(did), did, "p", 0, "e3");
    closed := RefundRecorded(Polled(did), did, "e3");
    ReachableInv(n, Fresh(), closed);
    NotReversed(n, closed, did);
    var acts;
    acts, s := AnnounceReopened(n, closed, did, {"e1"}, "e1");
    Arrive(n, Fresh(), closed, acts, s, did, {"e1"});
  }

  /** It fails if the refund was read while the row was pending: it is recorded and
      ignored, and the success that follows credits what was refunded. */
  lemma CreditedAfterIgnoredRefund(n: Names, did: string) returns (s: State)
    requires Distinct(n) && n.isId(did)
    ensures Reachable(n, Fresh(), s) && Holds(n, s, did) && "e3" in s.processed
  {
    hide Inv, Reachable, L.Apply;
    WaitingIsReachable(n, did);
    RefundIsReachable(n, Fresh(), Waiting(did), did, "p", 0, "e3");
    var s0 := RefundRecorded(Waiting(did), did, "e3");
    ReachableInv(n, Fresh(), s0);
    NotReversed(n, s0, did);
    var acts;
    acts, s := AnnounceReopened(n, s0, did, {"e1"}, "e1");
    Arrive(n, Fresh(), s0, acts, s, did, {"e1"});
  }

  /** It fails if the credit comes between the refund's lookup and its record: the row
      was succeeded, with no worker around, when the refund read it; then a worker
      listed, credited and announced it; and the refund fails the credited row. */
  lemma CreditedWhileRefunding(n: Names, did: string) returns (read: State, s: State)
    requires Distinct(n) && n.isId(did)
    ensures Reachable(n, Fresh(), read) && Holding(read, 0, "e3", Seen(did))
    ensures !IsCredited(read, did) && Unlisted(read, did)
    ensures Reachable(n, Fresh(), s) && Holds(n, s, did) && "e3" in s.processed
    ensures did in s.deposits && s.deposits[did].status.Failed? && |EventsOf(s, did)| == 1
  {
    hide Inv, Reachable, L.Apply, L.Tagged;
    ConfirmedIsReachable(n, did);
    LedgerPosts(n, did);
    Extend(n, Fresh(), Confirmed(did), Refunding(0, Receive("e3", "p", Some(did))));
    read := Confirmed(did).(refunds := map[0 := Read("e3", Some(Seen(did)))]);
    Extend(n, Fresh(), read, Work(0, List(did)));
    var s1 := read.(credits := map[0 := Listed(Seen(did))]);
    Extend(n, Fresh(), s1, Work(0, AskLedger(7)));
    var s2 := read.(ledger := Posted(did), credits := map[0 := Told(Seen(did), 7)]);
    assert s1.credits[0 := Told(Seen(did), 7)] == s2.credits;
    Extend(n, Fresh(), s2, Work(0, MarkCredited));
    var s3 := DoWork(s2, 0, MarkCredited);
    Extend(n, Fresh(), s3, Refunding(0, Record));
    s := DoRefund(n, s3, 0, Record);
    NothingTagged(did);
  }

  lemma NothingTagged(did: string)
    ensures L.Tagged(Fresh().entries, did) == []
  {
  }

  /** It fails even for a deposit that never had an intent when it was given up: the
      intent is attached late, and its success brings the row back. */
  lemma CreditedAfterAbandoned(n: Names, did: string) returns (closed: State, s: State)
    requires Distinct(n) && n.isId(did)
    ensures Reachable(n, Fresh(), closed) && did in closed.deposits
    ensures closed.deposits[did].status.Failed? && closed.deposits[did].intent.None?
    ensures Reachable(n, Fresh(), s) && Holds(n, s, did)
  {
    hide Inv, Reachable, L.Apply;
    InsertedIsReachable(n, did);
    Extend(n, Fresh(), Inserted(did), Row(Orphaned(did)));
    closed := DoRow(n, Inserted(did), Orphaned(did));
    ReachableInv(n, Fresh(), closed);
    NothingTagged(did);
    NotReversed(n, closed, did);
    var acts;
    acts, s := AnnounceReopened(n, closed, did, {"e1"}, "e1");
    Arrive(n, Fresh(), closed, acts, s, did, {"e1"});
  }

  /** Credited, then refunded: the money is back with the genesis account. */
  function RefundedOnce(n: Names, did: string): State {
    CreditedOnce(did).(ledger := Returned(n, did),
                       deposits := map[did := Paid.(status := Refunded, txn := Some(7))],
                       processed := {"e1", "e3"})
  }

  function Returned(n: Names, did: string): L.Ledger {
    L.AddPair(Posted(did), Lower("a"), Lower(L.GENESIS), 50, n.reversal(did), 8)
  }

  lemma LedgerReturns(n: Names, did: string)
    requires Distinct(n) && n.isId(did)
    ensures L.Apply(Posted(did), L.ReverseCall("a", 50, n.reversal(did)), 8) == (Returned(n, did), L.Posted(8))
    ensures L.Tagged(Returned(n, did).entries, n.reversal(did)) != []
  {
    hide L.Apply, L.Tagged, Lower;
    LedgerPosts(n, did);
    FirstPost(Posted(did), "a", L.GENESIS, n.reversal(did), 8);
  }

  lemma RefundedIsReachable(n: Names, did: string)
    requires Distinct(n) && n.isId(did)
    ensures Reachable(n, Fresh(), RefundedOnce(n, did))
  {
    hide Reachable, L.Apply, L.Tagged;
    var s0 := CreditedOnce(did);
    CreditedIsReachable(n, did);
    LedgerReturns(n, did);
    var seen := Snapshot(did, "a", 50, Credited);
    Extend(n, Fresh(), s0, Refunding(0, Receive("e3", "p", Some(did))));
    var s1 := s0.(refunds := map[0 := Read("e3", Some(seen))]);
    Extend(n, Fresh(), s1, Refunding(0, Reverse(8)));
    var s2 := s0.(ledger := Returned(n, did), refunds := map[0 := Reversed("e3", seen)]);
    assert s1.refunds[0 := Reversed("e3", seen)] == s2.refunds;
    Extend(n, Fresh(), s2, Refunding(0, Record));
    assert Recorded(s2, s2.refunds[0]).deposits == RefundedOnce(n, did).deposits;
    assert WithoutRefund(Recorded(s2, s2.refunds[0]), 0) == RefundedOnce(n, did);
  }

  /** Credited means held fails: a late success makes a refunded row credited again,
      announces it again, and the account holds nothing. */
  lemma CreditedYetReversed(n: Names, did: string) returns (s: State)
    requires Distinct(n) && n.isId(did)
    ensures Reachable(n, Fresh(), s)
    ensures SaysCredited(s, did) && IsReversed(n, s, did) && |EventsOf(s, did)| == 2
  {
    hide Inv, Reachable, L.Apply, L.Tagged;
    RefundedIsReachable(n, did);
    ReachableInv(n, Fresh(), RefundedOnce(n, did));
    LedgerReturns(n, did);
    var acts;
    acts, s := AnnounceReopened(n, RefundedOnce(n, did), did, {"e2"}, "e2");
    Arrive(n, Fresh(), RefundedOnce(n, did), acts, s, did, {"e2"});
  }
}
