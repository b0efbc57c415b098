# The money path of the bank, modelled and proved in Dafny

The bank moves money through five services. ledger-svc keeps an append-only
double-entry log; transfers-svc runs two sagas over it (transfers between
accounts, and deposits paid through Stripe) and publishes their outcomes through
a transactional outbox; fraud-svc gates transfers; notifications-svc mails
customers from the published events. This project models those parts as state
machines over their SQL statements and remote calls, with crashes, lost replies,
failed writes, redeliveries and concurrency as steps that may happen anywhere,
and proves what they promise over every run. Beside the machines stand the
services' own operations as Dafny classes and methods, each proved to be a step or
a run of its machine and to have the effect its contract spells out.

`dafny verify dfyconfig.toml` checks everything.

| file | content |
|---|---|
| `Order.dfy`, `Finite.dfy` | byte-wise string order, lower-casing; finite sets never use everything up |
| `LedgerSpec.dfy`, `LedgerService.dfy` | the ledger, one call at a time; the code that does it |
| `LedgerMachine.dfy`, `LedgerProgress.dfy`, `LedgerSafety.dfy` | its transactions statement by statement: atomicity, no deadlock, the books |
| `TransferSaga.dfy`, `TransferSafety.dfy`, `TransferTiming.dfy`, `TransferProgress.dfy`, `TransferService.dfy` | the transfer saga with a clock; its invariant; safe exactly when the timing is right; what a request can still get; the code |
| `DepositSaga.dfy`, `DepositSafety.dfy`, `DepositFutures.dfy`, `DepositRaces.dfy`, `DepositService.dfy` | the deposit saga; what it promises about money; what a deposit can still do; four promises it breaks, and exactly when; the code |
| `Outbox.dfy`, `OutboxProgress.dfy`, `EndToEnd.dfy` | the relay; no row is stuck; from a transfer's outcome to the topic |
| `Notifications.dfy`, `NotificationConsumer.dfy` | the barrier; the consumer and its retry loop |
| `DatabaseRetry.dfy` | the bounded retry around database calls |
| `History.dfy`, `HistoryWalk.dfy` | exact pages from limited sources; following the cursor |
| `Iban.dfy`, `IbanChecks.dfy`, `IbanSwaps.dfy` | IBANs; what the MOD 97-10 check of ISO 7064 catches, and what it misses |
| `Fraud.dfy`, `FraudOverlap.dfy` | the rule loop and its sliding windows; any number of checks at once |

## What was found

Some properties one might expect of the code do not hold as they stand. Each is
stated with a run or an input that breaks it and the exact condition under which
it holds. For the deposit path, `allowed` stands for the event ids under which
Stripe may still deliver payment_intent.succeeded for the deposit's payment intent,
attached already or attached later; the conditions hold for every deposit and over
all continuations, whatever else happens in them.

- A transfer can be recorded as failed although its money moves, if the
  reconciliation threshold is shorter than what a live request may still do.
  `TransferTiming.SafeIffTimely`: every run is safe if and only if
  2 * gap + 2 * callTimeout <= staleAfter. With the shipped two minutes and five
  seconds this leaves a request 55 s of pause before each call
  (`TransferTiming.ShippedDefaults`).
- DepositCredited can be published more than once: the webhook writers are
  unguarded, so a success event with a new id returns a credited, failed or refunded
  row to 'succeeded' (`DepositRaces.AnnouncedTwice`). A deposit is announced at most m
  times if and only if the events already out, one more if the row is still open,
  and one for every allowed id not recorded yet come to at most m
  (`DepositRaces.AnnouncementsIff`, `DepositRaces.LateSuccessRepublishesIff`). The money
  is still credited once.
- A deposit closed before its credit, say because it was refunded, can still be
  credited. An uncredited deposit is never credited if and only if its row is closed,
  no worker has it listed, and every allowed id is recorded already
  (`DepositRaces.NeverCreditedIff`). Three runs break the promise: a worker had listed the
  deposit (`DepositRaces.CreditedAfterRefund`); a poll confirmed it, the refund closed
  it, and the original success event arrives only then
  (`DepositRaces.CreditedAfterDelayedSuccess`); the deposit was given up as abandoned, its
  intent was attached late, and the payment succeeds
  (`DepositRaces.CreditedAfterAbandoned`).
- A row that says 'credited' need not mean that the account holds the amount: a
  success event with a new id makes a refunded row credited again, and announces it
  again, with the money gone (`DepositRaces.CreditedYetReversed`). A refunded row stays
  away from 'credited' if and only if every allowed id is recorded
  (`DepositRaces.RefundedStaysIff`); over all rows, also those whose reversal is posted but not
  recorded yet, `DepositRaces.CreditedIsHeldIff`.
- A recorded refund does not always leave the account's net at zero. The row is looked
  up first and the refund recorded later, with workers free to act in between. At the
  moment it is recorded, the net stays zero from there if and only if the money was
  taken back already, or the deposit is not credited, no worker has it listed, every
  allowed id is recorded, and the row was read as succeeded or is closed by now
  (`DepositRaces.RecordedRefundIff`). Besides the runs above: the credit lands between the
  lookup and the record, which then fails a credited row
  (`DepositRaces.CreditedWhileRefunding`); or the row was pending when it was read, so the
  refund is recorded and ignored, and the success that follows credits it
  (`DepositRaces.CreditedAfterIgnoredRefund`).
- Velocity limits can be exceeded when checks of one account overlap, because nothing
  locks the account. For every set of enabled rules: if every approved check misses at
  most m of what it should have seen, a bound on every window holds in every run if and
  only if it is at least the threshold plus m (`FraudOverlap.OverlapBoundIff`); the
  threshold itself holds if and only if m is 0 (`FraudOverlap.PlainBoundIff`). The one
  exception are rule sets that object to a first check of the smallest amount that
  counts: they let nothing through that counts. The other rules do not help, since
  their queries can be made before there is anything to see.
- An accepted Irish IBAN need not be the one `Generate` makes of its parts: check
  digits 00, 01 and 99 are accepted too (`IbanChecks.CanonicalIff`). Outside Ireland some
  single wrong characters and some swaps go unnoticed (`IbanChecks.OtherCountriesCanCollide`,
  `IbanSwaps.LetterAndDigitCanSwap`, `IbanSwaps.EndsCanSwap`); which ones is exactly what
  `IbanChecks.SubstitutionIsDetected` and `IbanChecks.TranspositionIsDetected` leave over.

## Assumptions, by name

- `LedgerMachine.ReferencesPartitioned`, `TransferSaga.OtherEnabled`,
  `DepositSaga.Distinct`, `DepositSaga.OtherEnabled`: transfer ids, deposit ids and
  reversal references never collide, and `reversalReference` is injective.
- A commit that reports an error has rolled back, in ledger-svc and transfers-svc
  (services/transfers-svc/transfer.go:392-403). notifications-svc is modelled
  without this assumption: its writes may report an error and still be applied.
- `TransferSaga.Timely` and the bounds in `TransferSaga.CallEnabled` and
  `TransferSaga.ServeEnabled`: a server does not finish a call after its deadline, and a
  live request pauses at most `gap` before each call.
- Account ids are UUID text, canonical up to letter case.
- `Notifications.Consistent`: one event id names one event; there is one consumer.
- Fraud rules do not change. `Fraud.Serialized` (checks one after another) is assumed
  only for the plain window bounds; `FraudOverlap` does without it.
- `History.UniqueKeys`, `History.NoSelfTransfers`: ids are unique across the three
  tables, and a transfer has two different parties (`TransferTiming.TransfersAreSafe`).

## Model

| member | source | states |
|---|---|---|
| Order.LessIsStrictTotalOrder | services/ledger-svc/ledger.go:357-360 | the order in which rows are locked is a strict total order, so "lower first" is well defined |
| Order.LessIsLexicographic | services/ledger-svc/ledger.go:357-360 | it is the order of the text: one id comes first exactly if it is a proper prefix or has the smaller character at the first difference |
| LedgerSpec.AppendPair | services/ledger-svc/ledger.go:397-419 | posting a pair leaves the log's total alone, shifts exactly two balances, and shows up under its own reference only |
| LedgerSpec.ApplyTags | services/ledger-svc/ledger.go:510-604 | a ledger call adds entries under at most its own reference, and then exactly its own pair |
| LedgerService.Database.GetBalance | services/ledger-svc/ledger.go:32-48 | an answer exactly for a known account, whatever the letter case; while cache and log agree it is what the account's entries add up to |
| LedgerService.Database.ApplyBalanceDelta | services/ledger-svc/ledger.go:632-644 | the cached balance of one row moves by the delta, from 0 if there was none, and every other row stays |
| LedgerService.Database.SumEntries | services/ledger-svc/ledger.go:385-392 | the loop's sum is the account's balance in the log |
| LedgerService.Database.LockBoth | services/ledger-svc/ledger.go:357-383 | locks in ascending order and reports the first missing row in that order |
| LedgerService.Database.ExecuteTransfer | services/ledger-svc/ledger.go:343-426 | does what the atomic ledger does, spelled out on the tables: invalid amount first; then the missing party, or of two missing ones the one locked first; then insufficient funds, exactly if the log holds too little; otherwise the debit and credit entries and both cache rows move |
| LedgerService.Database.PostUncheckedTransfer | services/ledger-svc/ledger.go:510-604 | does what the atomic ledger does, spelled out on the tables: a known reference returns its transaction and posts nothing; otherwise a missing row is refused and everything else posts its two entries, whatever the balance |
| LedgerService.Database.Deposit | services/ledger-svc/ledger.go:457-459 | the unchecked posting out of the genesis account |
| LedgerService.Database.ReverseDeposit | services/ledger-svc/ledger.go:473-475 | the unchecked posting back into the genesis account |
| LedgerService.Database.GetTransactionByReference | services/ledger-svc/ledger.go:612-624 | an answer exactly when some entry carries the reference, and then the transaction of the first such entry |
| LedgerService.FindIsFirst | services/ledger-svc/ledger.go:612-624 | reading the first matching entry is the same as filtering the log by reference |
| LedgerService.Database.RebuildBalance | services/ledger-svc/ledger.go:230-269 | replaces one cache row by the log's sum and returns it; no other row moves |
| LedgerMachine.CommitIsAtomic | services/ledger-svc/ledger.go:343-426 | at its commit, a transaction's private writes and reply are those of the atomic call on the tables committed at that moment, so a funds check passed earlier still holds |
| LedgerMachine.StepKeepsInv | services/ledger-svc/ledger.go:510-604 | every statement of every transaction keeps: disjoint locks, reads still true under the locks, private writes as expected |
| LedgerMachine.InterleavingsAreAtomic | services/ledger-svc/ledger.go:343-426 | every interleaving of any number of transfers, postings and rebuilds leaves the tables and replies of a one-at-a-time run |
| LedgerProgress.NeverDeadlocked | services/ledger-svc/ledger.go:357-381 | in every reachable state with an unfinished transaction, some transaction can execute its next statement (advisory hashes may collide, transfers may cross or go to oneself) |
| LedgerProgress.EveryoneCanFinish | services/ledger-svc/ledger.go:529-566 | from every reachable state all running transactions can be driven to their replies |
| LedgerProgress.NoRunDeadlocks | services/ledger-svc/ledger.go:357-381 | the same, said of whole runs |
| LedgerSafety.BooksBalance | services/ledger-svc/ledger.go:24-48 | over every interleaving the log sums to zero, the cache equals the log, and no customer account is below minus what was reversed out of it (not below zero if nothing was) |
| LedgerSafety.RebuildRepairs | services/ledger-svc/ledger.go:230-269 | from an arbitrarily wrong cache, a rebuilt row is right for good and the error of any other row is unchanged |
| LedgerSafety.OnePairPerReference | services/ledger-svc/ledger.go:492-545 | any number of concurrent postings under one reference leave at most one pair, and every OK reply names it |
| TransferSaga.AboutKeepsInv | services/transfers-svc/transfer.go:608-696 | a step that touches one transfer and leaves it and its owner in order keeps the whole system in order |
| TransferSafety.InsertKeepsInv | services/transfers-svc/transfer.go:209-234 | the INSERT under the unique key keeps one row per key, whoever wins the race |
| TransferSafety.ReplayKeepsInv | services/transfers-svc/transfer.go:366-378 | a replayed key keeps the invariant: its row is reported only to a request with that row's parameters |
| TransferProgress.ReplayAnswers | services/transfers-svc/transfer.go:366-378 | a replay is answered with the existing transfer if and only if sender, amount and resolved recipient are the row's; it ends the request and touches no table |
| TransferProgress.RepeatGetsItsTransfer | services/transfers-svc/transfer.go:160-175 | from every reachable state, a new request with the key of an existing row can be driven to its end, answered with that row exactly if it asks for the same transfer; nothing is moved, scored or announced |
| TransferProgress.TakenKeyLosesTheRace | services/transfers-svc/transfer.go:209-234 | an INSERT that meets its key taken writes nothing and sends the request to the winner's row |
| TransferProgress.LoserGetsTheWinner | services/transfers-svc/transfer.go:222-234 | such a request can be driven to its end in the same way, answered with the winner's row |
| TransferProgress.NewTransferCanComplete | services/transfers-svc/http.go:97-219 | from every reachable state, a request with an unused key, two known parties and enough funds can be carried to a completed row, one approval, the pair in the log, the event and the answer |
| TransferSafety.FraudReplyKeepsInv | services/transfers-svc/transfer.go:737-769 | an approval opens settlement, a rejection closes the transfer, both on a row no worker has touched |
| TransferSafety.LedgerReplyIsJustified | services/transfers-svc/transfer.go:408-454 | a definite ledger answer arrives while the row is still pending, and says what the log says |
| TransferSafety.WorkerIsJustified | services/transfers-svc/reconcile.go:90-147 | what the ledger tells the worker about a stale row is its final outcome |
| TransferSafety.StepKeepsInv | services/transfers-svc/http.go:97-219 | every step of requests, calls, workers, crashes and time keeps the invariant, given the timing condition |
| TransferSafety.RunKeepsInv | services/transfers-svc/http.go:97-219 | so does every run |
| TransferTiming.TransfersAreSafe | services/transfers-svc/transfer.go:408-454 | in every reachable state: a positive amount between two different accounts; completed means its one pair under the recorded transaction, failed or rejected means no entry, a pair only after one recorded approval, one matching event or none while pending |
| TransferTiming.OneKeyOneTransfer | services/transfers-svc/transfer.go:160-249 | all answers to one idempotency key are the same transfer for the same parameters, scored at most once, executed at most once |
| TransferTiming.FailedYetMoved | services/transfers-svc/transfer.go:559-587 | with a shorter threshold, a run in which the worker fails a transfer whose ledger call then commits |
| TransferTiming.SafeIffTimely | services/transfers-svc/transfer.go:559-587 | all of the above in every run, if and only if the threshold covers both calls and the pauses before them |
| TransferTiming.ShippedDefaults | services/transfers-svc/main.go:28 | for the shipped constants the condition is a pause of at most 55 s before each call |
| TransferService.Service.MarkTransfer | services/transfers-svc/transfer.go:471-557 | status and outbox event change together, for that row only |
| TransferService.Service.MarkTransferIfPending | services/transfers-svc/transfer.go:608-696 | the same behind the guard; reports whether it was the one to resolve the row |
| TransferService.Service.CheckTransferFraud | services/transfers-svc/transfer.go:737-769 | a run of the machine; an approval opens settlement, a rejection writes row and event, silence writes nothing, and fraud-svc's own row is recorded whenever it answers |
| TransferService.Service.SettleTransfer | services/transfers-svc/transfer.go:408-454 | a run of the machine; by the ledger's tables before the call, an answered call closes the row with account_not_found if a party is unknown, insufficient_funds if the sender's balance is too small, and otherwise as completed, with its two entries in the log; an internal error closes it with ledger_internal_error; the event says the same; a lost or missing answer leaves row and outbox untouched, whether or not the ledger executed |
| TransferService.Service.GetStalePending | services/transfers-svc/transfer.go:566-587 | lists exactly the pending rows older than the threshold, each once |
| TransferService.Service.ReconcileTransfer | services/transfers-svc/reconcile.go:90-147 | a run of the machine that closes the row as completed under the logged transaction, or as failed with timeout_unresolved if the log has no entry for it, with the event; or leaves it when the ledger cannot be asked |
| TransferService.Service.ReconcileOnce | services/transfers-svc/reconcile.go:72-81 | a run of the machine after which every row pending for longer than the threshold that the ledger answered for is closed in that way and no other row changed |
| DepositSaga.StatusesKeepInv | services/transfers-svc/webhook.go:332-358 | the unguarded status writers cannot break what is known about the money |
| DepositSaga.PostTags | services/ledger-svc/ledger.go:492-545 | posting under a reference yields the one pair, old or new, and an OK reply names it |
| DepositSaga.AskKeepsInv | services/transfers-svc/deposit_reconcile.go:83-133 | overlapping credit attempts keep at most one credit |
| DepositSaga.ReverseKeepsInv | services/transfers-svc/webhook.go:207-265 | repeated refund deliveries keep at most one reversal, after its credit |
| DepositSaga.StepKeepsInv | services/transfers-svc/webhook.go:116-136 | every webhook, worker, poll, crash and other ledger call keeps the invariant |
| DepositSafety.DepositsMoveOnce | services/transfers-svc/webhook.go:207-265 | over every run a deposit has at most one credit pair and one reversal pair, the second only after the first; its account holds its amount or nothing and no third account is touched; a credited row and every published event name the posted credit (which may since have been reversed), and a refunded row has its reversal |
| DepositFutures.RunKeepsBudget | services/transfers-svc/deposit.go:172-216 | over every run, events out plus one if the row is open plus one per allowed success id not recorded yet never grows |
| DepositFutures.SpendBudget | services/transfers-svc/deposit_reconcile.go:83-133 | and from every state some run turns all of it into published events |
| DepositRaces.AnnouncementsIff | services/transfers-svc/deposit.go:172-216 | from any reachable state and over all continuations, at most m DepositCredited, if and only if that sum is at most m |
| DepositRaces.LateSuccessRepublishesIff | services/transfers-svc/webhook.go:332-344 | for a closed row in any status, a success delivery adds no announcement if and only if its event id was already recorded |
| DepositRaces.AnnouncedTwice | services/transfers-svc/webhook.go:332-344 | a run that publishes two DepositCredited for one deposit |
| DepositRaces.NeverCreditedIff | services/transfers-svc/webhook.go:243-245 | from any reachable state and over all continuations, an uncredited deposit, with or without an intent yet, is never credited, if and only if its row is closed, no worker has it listed, and every success id that may still be delivered is recorded already |
| DepositRaces.LateSuccessCreditsIff | services/transfers-svc/webhook.go:332-344 | a success delivery leaves a deposit that nothing could credit in that state, if and only if its event id was already recorded |
| DepositRaces.CreditedAfterRefund | services/transfers-svc/webhook.go:243-245 | a run in which a refund closes a deposit and a worker that had listed it still credits it |
| DepositRaces.CreditedAfterDelayedSuccess | services/transfers-svc/webhook.go:332-344 | a run in which a poll confirms, a refund closes, no worker is around, and the first delivery of the success event still leads to a credit |
| DepositRaces.CreditedAfterAbandoned | services/transfers-svc/deposit.go:149-153 | a run in which a deposit is failed as abandoned, its intent attached afterwards, and its success still leads to a credit |
| DepositRaces.CreditedIsHeldIff | services/transfers-svc/webhook.go:207-251 | from any reachable state, 'credited' is said only while the account holds the amount, if and only if the row is neither credited nor open and no unrecorded success can come |
| DepositRaces.RefundedStaysIff | services/transfers-svc/webhook.go:332-344 | a refunded row has its reversal, and never says 'credited' again if and only if every success id that may still be delivered is recorded |
| DepositRaces.CreditedYetReversed | services/transfers-svc/webhook.go:332-344 | a run that ends with the row credited, the money reversed and two events out |
| DepositRaces.NetStaysZeroIff | services/transfers-svc/webhook.go:207-251 | from any reachable state the account's net from the deposit stays zero, if and only if the money was taken back or nothing is left that could credit it |
| DepositRaces.RecordedRefundIff | services/transfers-svc/webhook.go:213-251 | at the record of a delivery in flight, however long after its lookup, the account's net stays zero from there, if and only if it was reversed, or the deposit is uncredited and unlisted, no unrecorded success can come, and the row was read as succeeded or is closed |
| DepositRaces.RecordedReversalHolds | services/transfers-svc/webhook.go:226-241 | a delivery that reversed keeps the net at zero for good |
| DepositRaces.CreditedWhileRefunding | services/transfers-svc/webhook.go:291-311 | a run in which the credit lands between a refund's lookup and its record, and the record fails the credited, announced row |
| DepositRaces.CreditedAfterIgnoredRefund | services/transfers-svc/webhook.go:247-250 | a run in which the refund of a pending deposit is recorded and ignored, and the deposit credited afterwards |
| DepositService.Service.CreateDeposit | services/transfers-svc/deposit.go:103-158 | refuses exactly the amounts outside 50..1000000, then exactly the inactive accounts, without a trace; otherwise a pending row, with the intent exactly if Stripe answered |
| DepositService.Service.ProcessStripeEvent | services/transfers-svc/webhook.go:116-185 | a step of the machine; the event id is recorded, and its first delivery makes exactly the rows of its intent succeeded, or failed with the reason given; a redelivery changes no row |
| DepositService.Service.MarkCreditedIfSucceeded | services/transfers-svc/deposit.go:172-216 | exactly from 'succeeded', the row becomes credited under the transaction and its DepositCredited is added; nothing else changes |
| DepositService.Service.RefundCredited | services/transfers-svc/webhook.go:226-241 | a run of the machine; refunded and recorded exactly if the ledger posts the reversal, otherwise neither the row nor the dedup record changes, so a redelivery starts over |
| DepositService.Service.ProcessChargeRefunded | services/transfers-svc/webhook.go:207-251 | a run of the machine; by the row found: reversed then refunded, failed as refunded before credit, or recorded and left alone |
| DepositService.Service.CreditDeposit | services/transfers-svc/deposit_reconcile.go:83-133 | a run of the machine; the row is credited under the ledger's transaction, with one more event, exactly if the ledger is reached and posts or had posted the credit |
| DepositService.Service.CreditSucceededDeposits | services/transfers-svc/deposit_reconcile.go:66-75 | a run of the machine; every succeeded deposit is decided by the ledger as it was before the pass, and no other row or event changes |
| DepositService.Service.ReconcilePending | services/transfers-svc/deposit_reconcile.go:153-186 | a run of the machine; succeeded or canceled is written to pending rows only, any other answer writes nothing |
| DepositService.Service.FailIfOrphaned | services/transfers-svc/deposit.go:354-364 | fails exactly the rows that are pending and never got an intent |
| Outbox.FirstIds | pkg/outbox/relay.go:124-133 | the claim query: the least unlocked unpublished ids, ascending, up to the limit |
| Outbox.StepKeepsInv | pkg/outbox/relay.go:116-224 | every claim, write, mark, commit, failure, crash and cleanup keeps batches disjoint and the topic complete |
| Outbox.NothingIsLost | pkg/outbox/relay.go:160-224 | over every run a committed row is still unpublished in the table or in the topic, cleanup deletes only rows in the topic, and every message comes from a committed row |
| Outbox.FaultFreeIsExactlyOnce | pkg/outbox/relay.go:160-224 | without failures each row goes out at most once, and exactly once when published, however many relays overlap |
| OutboxProgress.EveryRowCanGoOut | pkg/outbox/relay.go:116-224 | for every fixed batch size, from every state with the invariant, a committed row can be brought into the topic by passes of that size without any further failure |
| OutboxProgress.NoRowIsStuck | pkg/outbox/relay.go:116-224 | the same after any run, whatever failed in it |
| Outbox.Table.InsertEvent | pkg/outbox/outbox.go:84-95 | adds the one row, unpublished, as the machine's insert step |
| Outbox.Table.CleanupPublished | pkg/outbox/cleanup.go:47-56 | deletes exactly the expired published rows |
| Outbox.Table.PublishLoop | pkg/outbox/relay.go:160-212 | publishes a prefix of the batch up to the first failure and marks exactly what it published and could mark |
| Outbox.Table.RelayBatch | pkg/outbox/relay.go:116-224 | a whole pass is a run of the machine, whatever fails in it |
| EndToEnd.ClosesWrites | services/transfers-svc/transfer.go:471-557 | each saga step adds one event of the transfer it closes, or none |
| EndToEnd.TopicTellsTheTruth | services/transfers-svc/transfer.go:811-853 | over every run, a TransferCompleted in the topic names a transfer whose pair is in the ledger with those parties, amount and transaction; Failed or Rejected names one that moved nothing |
| EndToEnd.EveryOutcomeIsAnnounced | pkg/outbox/relay.go:160-224 | every closed transfer has exactly one outbox event, waiting or in the topic; a pending one has none |
| Notifications.ClosedIsFinal | services/notifications-svc/contacts.go:197-235 | once an event is closed it stays closed and no email for it goes out again, through every redelivery, failed write and crash |
| Notifications.CommittedIsAccountedFor | services/notifications-svc/kafka.go:736-839 | an offset is committed only if its message was dead-lettered or its event closed; an event its handler closed had every resolved party mailed, and says sent exactly if there was one |
| NotificationConsumer.Consumer.ClaimEvent | services/notifications-svc/contacts.go:197-210 | inserts 'processing' where there is no row and otherwise changes nothing; claims exactly if the event is not closed |
| NotificationConsumer.Consumer.FinishEvent | services/notifications-svc/contacts.go:229-235 | sets the status of an existing row and never inserts one |
| NotificationConsumer.Consumer.MarkEventProcessed | services/notifications-svc/contacts.go:145-151 | inserts the status where there is no row and never overwrites one |
| NotificationConsumer.Consumer.MailParties | services/notifications-svc/kafka.go:885-933 | a run of the machine; emails go to the resolved parties in order up to and including the one whose send fails, and an error is reported exactly if there is one |
| NotificationConsumer.Consumer.HandleOnce | services/notifications-svc/kafka.go:885-1060 | a run of the machine; fails exactly on unreadable bytes, a failed claim, or, for an event not closed yet, a failed lookup, send or finish; barrier row and emails are those of that path |
| NotificationConsumer.Consumer.HandleWithRetry | services/notifications-svc/kafka.go:736-839 | a run of the machine of at most 155 handler runs, each ending as the world makes it end; dead-lettered exactly if the last one failed; emails, barrier row and commit follow |
| RetryPolicy.RetryDelays | services/notifications-svc/kafka.go:684-690 | the backoff is 0.5, 1, 2, 4 and then always 8 seconds |
| RetryPolicy.OneMore | services/notifications-svc/kafka.go:756-808 | an outage costs a wait of two seconds and goes round again while five minutes are not used up, whatever the attempt; any other error costs the backoff and goes round again up to the fifth |
| RetryPolicy.AtMost155Runs | services/notifications-svc/kafka.go:756-808 | no sequence of outcomes and durations lets the loop run the handler more than 155 times |
| RetryPolicy.Exactly155IsPossible | services/notifications-svc/kafka.go:56-96 | and 155 is reached |
| DatabaseRetry.Retry | pkg/pgha/retry.go:55-109 | makes exactly the calls the policy allows: each call but the last failed as unavailable, standby or timed out and nobody cancelled; the result is success, a fatal error, giving up after two minutes or a cancellation, each exactly when the last call says so |
| DatabaseRetry.StopsInTime | pkg/pgha/retry.go:16-37 | at most 29 calls; the last starts within the budget, give or take one oversleep, and ends one attempt timeout later |
| DatabaseRetry.NeverRepeatsFatal | pkg/pgha/retry.go:84-86 | every error followed by another call was unavailable, standby or an attempt timeout |
| DatabaseRetry.Exactly29IsPossible | pkg/pgha/retry.go:16-37 | and 29 is reached |
| History.TrimmedTop | services/transfers-svc/history.go:101-105 | one extra row tells exactly whether there is more |
| History.MergeIsExact | services/transfers-svc/history.go:164-189 | the newest rows of a union are among the separately limited results |
| History.MoreIsExact | services/transfers-svc/history.go:245-249 | pool overflow or a source with more, if and only if a visible row is left |
| History.TransferQueryIsTop | services/transfers-svc/transfer.go:277-305 | the two limited branches, united and limited again, are the newest visible transfers |
| History.TransferHistoryPage | services/transfers-svc/transfer.go:315-351 | at most limit rows of the account's transfers (sent, or received and completed) past the cursor, latest created_at first and larger id first among equals, each ahead of every such row left out; and whether one was left out |
| History.DepositHistoryPage | services/transfers-svc/history.go:71-106 | at most limit rows of the account's deposits past the cursor, latest created_at first and larger id first among equals, each ahead of every such row left out; and whether one was left out |
| History.WithdrawalHistoryPage | services/transfers-svc/history.go:127-162 | at most limit rows of the account's withdrawals past the cursor, latest created_at first and larger id first among equals, each ahead of every such row left out; and whether one was left out |
| History.OperationHistoryPage | services/transfers-svc/history.go:190-250 | at most limit rows of the three kinds together, merged from three limited sources past the cursor, latest created_at first and larger id first among equals, each ahead of every such row left out; and whether one was left out |
| HistoryWalk.WalkDescends | services/transfers-svc/http.go:432-458 | whatever happens to the tables between pages, created_at descends over the whole walk, and the id among equals, so no row comes twice |
| HistoryWalk.StableRowsAreSeenOnce | services/transfers-svc/http.go:432-458 | a row visible throughout a finished walk is seen exactly once |
| HistoryWalk.WalkEnds | services/transfers-svc/http.go:453-458 | if only finitely many rows ever lie past the first cursor, the walk ends within the pages they can fill |
| Iban.LettersToDigits | pkg/iban/iban.go:168-182 | fails exactly on characters that are neither letter nor digit |
| Iban.ExpandIsNum | pkg/iban/iban.go:153-182 | the decimal number of the expanded text is the weighted number of the characters |
| Iban.Mod97Remainder | pkg/iban/iban.go:153-163 | the remainder of that number, or an error for bad or empty text |
| Iban.Validate | pkg/iban/iban.go:74-123 | each verdict exactly when its check is the first to fail: length, country, check digits, characters, then the Irish layout position by position, then the checksum |
| Iban.Generate | pkg/iban/iban.go:42-66 | succeeds exactly on well-formed parts |
| Iban.Format | pkg/iban/iban.go:132-146 | every fifth character of the result is a space and the others are the normal form, in order and complete |
| Iban.GroupedIsSpaced | pkg/iban/iban.go:132-146 | the same of the blocks of four, for every text |
| Iban.NormalizeMeans | pkg/iban/iban.go:126-128 | the normal form drops spaces, upper-cases letters and keeps everything else, in order |
| Iban.FormatRoundTrip | pkg/iban/iban.go:126-146 | normalizing a formatted text gives its normal form back, and formatting is idempotent |
| IbanChecks.SubstitutionIsDetected | pkg/iban/iban.go:74-123 | two accepted IBANs of one length that differ in one character are both not Irish, and differ by a letter against a digit in the BBAN |
| IbanChecks.TranspositionIsDetected | pkg/iban/iban.go:74-123 | two accepted IBANs that differ by one swap of unequal neighbours are both not Irish, and the swap mixes letter and digit in the BBAN or crosses from check digits to BBAN |
| IbanChecks.OtherCountriesCanCollide | pkg/iban/iban.go:94-111 | without the Irish layout two accepted IBANs can differ in one character |
| IbanSwaps.LetterAndDigitCanSwap | pkg/iban/iban.go:168-182 | and by a swapped letter and digit |
| IbanSwaps.EndsCanSwap | pkg/iban/iban.go:113-121 | and by a swapped last check digit and first BBAN digit, when the number has 97 digits |
| IbanChecks.GeneratedIsAccepted | pkg/iban/iban.go:42-66 | what Generate returns is in normal form and accepted |
| IbanChecks.AcceptedCheckDigits | pkg/iban/iban.go:113-121 | exactly which check digits are accepted for given parts |
| IbanChecks.CanonicalIff | pkg/iban/iban.go:57-65 | an accepted Irish IBAN is the generated one if and only if its check digits are not 00, 01 or 99 |
| IbanChecks.TwinsExist | pkg/iban/iban.go:113-121 | a BBAN accepted with two different check digits |
| IbanChecks.AccountNumbersGiveDistinctIbans | services/accounts-svc/accounts.go:201-214 | under one bank code, equal IBANs come from equal account numbers |
| IbanChecks.IbanShowsAccountNumber | services/accounts-svc/accounts.go:201-214 | the IBAN of an account is IE, two check digits, the bank code, 0000 and the ten digits of the account number |
| Fraud.Service.CheckTransfer | services/fraud-svc/fraud.go:31-114 | each decision exactly when: amount over the threshold; else one more check than the count allows in its window; else the window's sum with this amount over its threshold; an error for the first rule reached without a window; else approval. A decision is recorded with the approval flag, an error is not |
| Fraud.Service.CountRecentApproved | services/fraud-svc/fraud.go:138-146 | the number of approved checks in the window |
| Fraud.Service.SumRecentApproved | services/fraud-svc/fraud.go:148-156 | their total |
| Fraud.DecisionIsUnique | services/fraud-svc/fraud.go:12-17 | a decision names exactly one rule: no two decisions fit the same history |
| Fraud.DecisionMeans | services/fraud-svc/fraud.go:45-98 | the rule predicate that the windows and the overlapping checks rest on means those conditions |
| Fraud.QueriesMean | services/fraud-svc/fraud.go:138-156 | count and sum grow by exactly the approved checks of that account at or after the window's start |
| Fraud.EveryWindowCount | services/fraud-svc/fraud.go:45-98 | every interval of the window's length, wherever it starts, holds at most threshold approved checks |
| Fraud.EveryWindowSum | services/fraud-svc/fraud.go:45-98 | and at most the threshold sum |
| FraudOverlap.VerdictIsDecision | services/fraud-svc/fraud.go:45-98 | with both queries seeing the same rows, an overlapping check decides as checkTransfer does on them |
| FraudOverlap.RunKeepsOk | services/fraud-svc/fraud.go:31-114 | over every interleaving of begins, reads, commits and aborts, each approved row passed every rule on what its queries saw |
| FraudOverlap.ApprovedWithinAmount | services/fraud-svc/fraud.go:84-88 | over every interleaving, no approved check is over the amount threshold |
| FraudOverlap.EveryWindowExceedsByAtMost | services/fraud-svc/fraud.go:138-156 | if every approved check misses at most m, every window of the rule's length holds at most the threshold plus m |
| FraudOverlap.OverlapReaches | services/fraud-svc/fraud.go:31-114 | for every passable rule set and every m, a run in which checks miss at most m and a window holds the threshold plus m |
| FraudOverlap.OverlapBoundIff | services/fraud-svc/fraud.go:31-114 | for every rule set, a bound on every window holds over all such runs, if and only if it is at least the threshold plus m, or at least 0 where the rules let nothing through that counts |
| FraudOverlap.PlainBoundIff | services/fraud-svc/fraud.go:31-114 | for every rule set, the threshold itself holds over all such runs, if and only if m is 0 or the rules let nothing through that counts |
| FraudOverlap.WholeViewIsSerialized | services/fraud-svc/fraud.go:31-114 | checks that saw everything before them form a serialized history |

## Left out

- getHistory and getBalanceHistory of ledger-svc, account status changes, withdrawals as a saga: they would add easier members of the same kinds.
- Gateway, tokens, WebSockets, HTTP and gRPC encoding, migrations, configuration and main functions.
- Tracing, logging and metrics: no effect on state.
- Postgres, Patroni and replica lag: only atomic commit, row locks, SKIP LOCKED and advisory locks are modelled; later history pages read from a replica may lag behind.
- Cryptography and codecs: random ids, MD5 and protobuf appear as distinctness assumptions.
- Email text and SMTP; Stripe beyond "an event, a status or an error".
- int64 overflow and clock precision: integers are unbounded and time is a number.
- Text outside ASCII in IBANs: upper-casing is modelled on ASCII letters.
- Direction and counterparty labels of history entries, and the decoding of malformed cursors.
- The order in which reconciliation worklists are processed (ORDER BY updated_at): the proofs hold for any order.
- createTransfer as one method: its steps are steps of the TransferSaga machine, because what matters about it is what other requests do in between.
- TransferService.Service.CheckTransferFraud: run without interference; what others do in between is covered by the machine, not by the method.
- DepositService.Service.ProcessChargeRefunded: run without interference, for the same reason.
- Changes of fraud rules over time.
