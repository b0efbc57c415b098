/** What the ledger promises over whole runs: proved of the atomic ledger, then
    carried to every interleaving by LedgerMachine.InterleavingsAreAtomic. */
module LedgerSafety {
  import opened Options
  import opened Order
  import opened LedgerSpec
  import M = LedgerMachine

  // ----- one call

  /** Cache minus log: what rebuildBalance is there to repair. */
  function Drift(l: Ledger, r: Row): int {
    Cached(l.cache, r) - Balance(l.entries, r)
  }

  predicate Rebuilds(ev: Event, r: Row) {
    ev.Did? && ev.call.Rebuild? && Lower(ev.call.account) == r && ev.reply.Rebuilt?
  }

  /** This event posted a new pair out of `r` without a funds check. */
  predicate ReversesFrom(ev: Event, r: Row) {
    PostsNew(ev) && ev.call.Post? && Lower(ev.call.from) == r
  }

  /** This event put a new pair into the log. */
  predicate PostsNew(ev: Event) {
    ev.Did? && !ev.call.Rebuild? && ev.reply == Posted(ev.uuid)
  }

  /** The three things a step can do to the log and the cache. */
  lemma StepCases(l: Ledger, ev: Event, l': Ledger)
    requires AtomicStep(l, ev, l')
    ensures PostsNew(ev) ==>
              && var c := ev.call;
                 var from := Lower(c.from);
                 && c.amount > 0
                 && l' == AddPair(l, from, Lower(c.to), c.amount, c.reference, ev.uuid)
                 && (c.Transfer? ==> Balance(l.entries, from) >= c.amount)
                 && (c.Post? && c.reference != "" ==> Tagged(l.entries, c.reference) == [])
    ensures !PostsNew(ev) ==> l'.entries == l.entries
    ensures !PostsNew(ev) ==>
              l'.cache == if ev.Did? && ev.reply.Rebuilt?
                          then l.cache[Lower(ev.call.account) := Balance(l.entries, Lower(ev.call.account))] else l.cache
    ensures ev.Did? && ev.call.Post? && ev.reply.Posted? && !PostsNew(ev) ==>
              ev.call.reference != "" && Find(l.entries, ev.call.reference) == Some(ev.reply.txn)
  {
    if ev.Did? && ev.call.Post? && ev.call.reference != "" && Find(l.entries, ev.call.reference).Some? {
      assert UsesTxn(l.entries, Find(l.entries, ev.call.reference).value);
    }
  }

  lemma PairKeepsDrift(l: Ledger, from: Row, to: Row, amount: int, reference: string, txn: TransactionId, r: Row)
    ensures var l' := AddPair(l, from, to, amount, reference, txn);
            Total(l'.entries) == Total(l.entries) && l.entries <= l'.entries && Drift(l', r) == Drift(l, r)
  {
    AppendPair(l.entries, from, to, amount, reference, txn);
  }

  /** Every step keeps the log's total, extends the log, and leaves each row's
      drift alone, except a rebuild, which sets its own row's drift to zero. */
  lemma StepAccounts(l: Ledger, ev: Event, l': Ledger, r: Row)
    requires AtomicStep(l, ev, l')
    ensures Total(l'.entries) == Total(l.entries)
    ensures l.entries <= l'.entries
    ensures Drift(l', r) == if Rebuilds(ev, r) then 0 else Drift(l, r)
  {
    StepCases(l, ev, l');
    if PostsNew(ev) {
      var c := ev.call;
      PairKeepsDrift(l, Lower(c.from), Lower(c.to), c.amount, c.reference, ev.uuid, r);
    }
  }

  /** A step takes money out of a row only if the money is there, or without
      looking, when it is a reversal (or the row is the genesis account). */
  lemma StepDebits(l: Ledger, ev: Event, l': Ledger, r: Row)
    requires AtomicStep(l, ev, l') && r != Lower(GENESIS)
    ensures Balance(l'.entries, r) >= (if ReversesFrom(ev, r) then Balance(l.entries, r) - ev.call.amount
                                       else if Balance(l.entries, r) < 0 then Balance(l.entries, r) else 0)
    ensures ReversesFrom(ev, r) ==> ev.call.amount > 0
  {
    StepCases(l, ev, l');
    if PostsNew(ev) {
      var c := ev.call;
      AppendPair(l.entries, Lower(c.from), Lower(c.to), c.amount, c.reference, ev.uuid);
    }
  }

  // ----- whole runs

  function ReversedOut(evs: seq<Event>, r: Row): int {
    if evs == [] then 0
    else ReversedOut(Earlier(evs), r) + if ReversesFrom(Latest(evs), r) then Latest(evs).call.amount else 0
  }

  predicate Rebuilt(evs: seq<Event>, r: Row) {
    exists k :: 0 <= k < |evs| && Rebuilds(evs[k], r)
  }

  lemma RebuiltUnfolds(evs: seq<Event>, r: Row)
    requires evs != []
    ensures Rebuilt(evs, r) <==> Rebuilt(Earlier(evs), r) || Rebuilds(Latest(evs), r)
  {
    if Rebuilds(Latest(evs), r) { assert Rebuilds(evs[|evs| - 1], r); }
    if Rebuilt(Earlier(evs), r) {
      var k :| 0 <= k < |Earlier(evs)| && Rebuilds(Earlier(evs)[k], r);
      assert Rebuilds(evs[k], r);
    }
    if Rebuilt(evs, r) {
      var k :| 0 <= k < |evs| && Rebuilds(evs[k], r);
      assert k < |evs| - 1 ==> Earlier(evs)[k] == evs[k];
    }
  }

  lemma {:induction false} RunAccounts(l0: Ledger, evs: seq<Event>, l: Ledger, r: Row)
    requires AtomicRun(l0, evs, l)
    ensures Total(l.entries) == Total(l0.entries)
    ensures l0.entries <= l.entries
    ensures Drift(l, r) == if Rebuilt(evs, r) then 0 else Drift(l0, r)
  {
    if evs != [] {
      var mid :| AtomicRun(l0, Earlier(evs), mid) && AtomicStep(mid, Latest(evs), l);
      RunAccounts(l0, Earlier(evs), mid, r);
      StepAccounts(mid, Latest(evs), l, r);
      RebuiltUnfolds(evs, r);
    }
  }

  lemma {:induction false} RunDebits(l0: Ledger, evs: seq<Event>, l: Ledger, r: Row)
    requires AtomicRun(l0, evs, l) && r != Lower(GENESIS)
    requires Balance(l0.entries, r) >= 0
    ensures ReversedOut(evs, r) >= 0
    ensures Balance(l.entries, r) + ReversedOut(evs, r) >= 0
  {
    if evs != [] {
      var mid :| AtomicRun(l0, Earlier(evs), mid) && AtomicStep(mid, Latest(evs), l);
      RunDebits(l0, Earlier(evs), mid, r);
      StepDebits(mid, Latest(evs), l, r);
    }
  }

  // ----- one pair per reference

  predicate PostsTo(ev: Event, reference: string) {
    ev.Did? && ev.call.Post? && ev.call.reference == reference
  }

  predicate TransfersTo(ev: Event, reference: string) {
    ev.Did? && ev.call.Transfer? && ev.call.reference == reference
  }

  /** The log carries nothing for `reference` and no call was answered OK, or it
      carries exactly the pair of one of these calls and every OK answer names it. */
  ghost predicate OnePair(evs: seq<Event>, l: Ledger, reference: string) {
    || (Tagged(l.entries, reference) == []
        && forall k :: 0 <= k < |evs| && PostsTo(evs[k], reference) ==> !evs[k].reply.Posted?)
    || exists k :: 0 <= k < |evs| && PostsTo(evs[k], reference) && IsThePair(evs, l, reference, evs[k])
  }

  predicate IsThePair(evs: seq<Event>, l: Ledger, reference: string, ev: Event)
    requires PostsTo(ev, reference)
  {
    && Tagged(l.entries, reference) == Pair(Lower(ev.call.from), Lower(ev.call.to), ev.call.amount, reference, ev.uuid)
    && forall k :: 0 <= k < |evs| && PostsTo(evs[k], reference) && evs[k].reply.Posted? ==> evs[k].reply == Posted(ev.uuid)
  }

  /** What one step adds to the entries carrying `reference`. */
  lemma StepTags(l: Ledger, ev: Event, l': Ledger, reference: string)
    requires AtomicStep(l, ev, l')
    ensures Tagged(l'.entries, reference) ==
            Tagged(l.entries, reference) +
            if PostsNew(ev) && ev.call.reference == reference
            then Pair(Lower(ev.call.from), Lower(ev.call.to), ev.call.amount, reference, ev.uuid) else []
  {
    StepCases(l, ev, l');
    if PostsNew(ev) {
      var c := ev.call;
      AppendPair(l.entries, Lower(c.from), Lower(c.to), c.amount, c.reference, ev.uuid);
    }
  }

  lemma FirstPair(evs: seq<Event>, l: Ledger, ev: Event, l': Ledger, reference: string)
    requires reference != "" && !TransfersTo(ev, reference) && AtomicStep(l, ev, l')
    requires Tagged(l.entries, reference) == []
    requires forall k :: 0 <= k < |evs| && PostsTo(evs[k], reference) ==> !evs[k].reply.Posted?
    ensures OnePair(evs + [ev], l', reference)
  {
    StepTags(l, ev, l', reference);
    StepCases(l, ev, l');
    var evs' := evs + [ev];
    assert evs'[|evs|] == ev;
    if PostsTo(ev, reference) && ev.reply.Posted? {
      assert PostsNew(ev);
      assert IsThePair(evs', l', reference, ev);
    }
  }

  lemma LaterReplies(evs: seq<Event>, l: Ledger, ev: Event, l': Ledger, reference: string, first: Event)
    requires reference != "" && !TransfersTo(ev, reference) && AtomicStep(l, ev, l')
    requires PostsTo(first, reference) && IsThePair(evs, l, reference, first)
    ensures IsThePair(evs + [ev], l', reference, first)
  {
    StepTags(l, ev, l', reference);
    StepCases(l, ev, l');
    assert Tagged(l.entries, reference)[0].txn == first.uuid;
  }

  lemma StepKeepsOnePair(evs: seq<Event>, l: Ledger, ev: Event, l': Ledger, reference: string)
    requires reference != "" && !TransfersTo(ev, reference)
    requires OnePair(evs, l, reference) && AtomicStep(l, ev, l')
    ensures OnePair(evs + [ev], l', reference)
  {
    if Tagged(l.entries, reference) == [] {
      FirstPair(evs, l, ev, l', reference);
    } else {
      var k :| 0 <= k < |evs| && PostsTo(evs[k], reference) && IsThePair(evs, l, reference, evs[k]);
      LaterReplies(evs, l, ev, l', reference, evs[k]);
      assert (evs + [ev])[k] == evs[k];
    }
  }

  lemma {:induction false} RunKeepsOnePair(l0: Ledger, evs: seq<Event>, l: Ledger, reference: string)
    requires AtomicRun(l0, evs, l) && reference != "" && Tagged(l0.entries, reference) == []
    requires forall k :: 0 <= k < |evs| ==> !TransfersTo(evs[k], reference)
    ensures OnePair(evs, l, reference)
  {
    if evs != [] {
      var mid :| AtomicRun(l0, Earlier(evs), mid) && AtomicStep(mid, Latest(evs), l);
      RunKeepsOnePair(l0, Earlier(evs), mid, reference);
      StepKeepsOnePair(Earlier(evs), mid, Latest(evs), l, reference);
      assert Earlier(evs) + [Latest(evs)] == evs;
    }
  }

  // ----- every interleaving

  /** Main result. However the statements of any number of calls interleave, the
      log nets to zero, the cache agrees with the log, and a customer account is
      overdrawn by at most what was reversed out of it. */
  lemma BooksBalance(cfg: M.Config, l0: Ledger, acts: seq<M.Action>, r: Row)
    requires l0.entries == [] && l0.cache == map[]
    requires M.ValidRun(cfg, M.Initial(l0), acts)
    ensures var s := M.Exec(cfg, M.Initial(l0), acts);
            && Total(s.db.entries) == 0
            && Cached(s.db.cache, r) == Balance(s.db.entries, r)
            && (r != Lower(GENESIS) ==> Balance(s.db.entries, r) + ReversedOut(s.history, r) >= 0)
            && (r != Lower(GENESIS) && (forall k :: 0 <= k < |s.history| ==> !ReversesFrom(s.history[k], r)) ==>
                  Balance(s.db.entries, r) >= 0)
  {
    M.InterleavingsAreAtomic(cfg, l0, acts);
    var s := M.Exec(cfg, M.Initial(l0), acts);
    RunAccounts(l0, s.history, s.db, r);
    if r != Lower(GENESIS) { RunDebits(l0, s.history, s.db, r); }
    if forall k :: 0 <= k < |s.history| ==> !ReversesFrom(s.history[k], r) { NothingReversed(s.history, r); }
  }

  lemma {:induction false} NothingReversed(evs: seq<Event>, r: Row)
    requires forall k :: 0 <= k < |evs| ==> !ReversesFrom(evs[k], r)
    ensures ReversedOut(evs, r) == 0
  {
    if evs != [] {
      forall k | 0 <= k < |Earlier(evs)| ensures !ReversesFrom(Earlier(evs)[k], r) { assert Earlier(evs)[k] == evs[k]; }
      NothingReversed(Earlier(evs), r);
      assert Latest(evs) == evs[|evs| - 1];
    }
  }

  /** Main result. From a cache that is wrong anywhere, once some rebuildBalance
      of `r` has answered, the cache of `r` agrees with the log for good; the
      error of a row nobody rebuilt stays exactly what it was. */
  lemma RebuildRepairs(cfg: M.Config, l0: Ledger, acts: seq<M.Action>, r: Row)
    requires M.ValidRun(cfg, M.Initial(l0), acts)
    ensures var s := M.Exec(cfg, M.Initial(l0), acts);
            Drift(s.db, r) == if Rebuilt(s.history, r) then 0 else Drift(l0, r)
  {
    M.InterleavingsAreAtomic(cfg, l0, acts);
    var s := M.Exec(cfg, M.Initial(l0), acts);
    RunAccounts(l0, s.history, s.db, r);
  }

  /** Main result. Any number of concurrent deposit or reverseDeposit calls
      sharing one reference leave no pair or one, and every OK reply names it. */
  lemma OnePairPerReference(cfg: M.Config, l0: Ledger, acts: seq<M.Action>, reference: string)
    requires M.ValidRun(cfg, M.Initial(l0), acts)
    requires reference != "" && !cfg.transferRef(reference) && Tagged(l0.entries, reference) == []
    ensures var s := M.Exec(cfg, M.Initial(l0), acts);
            OnePair(s.history, s.db, reference)
  {
    M.RunKeepsInv(cfg, l0, M.Initial(l0), acts);
    var s := M.Exec(cfg, M.Initial(l0), acts);
    forall k | 0 <= k < |s.history| ensures !TransfersTo(s.history[k], reference) {
      if s.history[k].Did? { assert M.TxnOk(cfg, s.db, s.txns[s.history[k].id]); }
    }
    RunKeepsOnePair(l0, s.history, s.db, reference);
  }
}
