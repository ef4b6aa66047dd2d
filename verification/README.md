# Points ledger, redemption and webhook ingestion: a verified model

A model, in Dafny 4.11, of the part of the loyalty service that moves points: the append-only ledger and its
cached balances, two-phase redemption, webhook ingestion with its backfill, administrative allocation, earning
rules, history pages and the balance chart. The theorems are about every input, every reachable state, or
every interleaving of transactions.

`dafny verify dfyconfig.toml` checks the whole project.

## How the model is built

**Values.** `Schema` has one datatype per row type, and `Db` is the whole database. What the services compute is
written as specification functions on `Db`, with the branches, the constants and the order of checks of the
source: `Ledger.Append` and `Reverse`, `Redeeming.Reserve`, `Fulfil` and `Compensate`, `Webhook.Capture`,
`Process`, `Replay`, `Backfill` and `PostWebhook`, `Allocation.Redeem`, `AllocateOne` and `AllocateReward`.

**The services themselves.** `Service.Store` is a class whose fields are the tables and whose methods update them
in place, statement by statement, as the source does: loops with counters, early returns, and rollback as a
restore of what the transaction began with. Each method's postcondition equates the new tables and the result
with the specification function applied to the old tables, and every method that owns its transactions keeps the
class invariant `Valid`.

**Concurrency.** Each transaction is also a list of SQL statements (`Programs`), run under READ COMMITTED
(`Statements`): a statement sees the committed database overlaid with its own transaction's writes, takes row or
unique-key locks kept to the end, waits while another transaction holds one, and writes the balance as an
absolute value computed from what was read earlier. `System` is the transition system over any number of open
transactions: opening, unlocked reads that decide what comes next, single statements, conditional statements that
affect no row, commit, rollback, an owner abandoning its redemption, a crash of everything, and edits of users,
rules and the catalogue, in any order. The road to the theorems is:

1. `Stability`: nothing another transaction commits can change what a transaction's statements so far would do,
   because of the locks it holds.
2. `Programs`: a program run to its end, statement by statement, is one atomic step.
3. `Safety` and `Reachable`: hence every commit is its atomic steps applied to the committed database as it stands
   at the commit, and one invariant (`SysInv`, with `Atoms.Valid` for the tables) holds in every reachable state.
4. `Progress`, `SoloPlans` and `Agreement`: the converse. A step that succeeds can be run statement by statement; so
   in any reachable state with nothing else open, some run of a transaction commits exactly when its specification
   function succeeds, and every run that commits leaves what the function says.
5. `Guarantees`, `Requests`, `Replaying`, `Deadlock`: what that means for runs.

`Redeeming`, `Webhook` and `Atoms` prove that each step keeps the invariant; `Shapes`, `Honest` and `Filed` are three
more invariants of runs; the remaining modules prove laws of single operations and of sequences of calls.

**Answers.** What each operation writes and what it answers is stated a second time, of the tables and of the fields of
the input alone: `Columns` (the ledger and redemptions, column by column), `Answers` (capture, processing, the route),
`Tallies` (the backfill's list and counters), `Refusals` (a whole redemption), `Campaigns` (allocations run more than
once) and `Chronology` (history, by creation time) prove the specification functions against statements that name
none of them, with the constants written out.

**Time.** What can still become of an event depends on a clock that only goes forward. `Calls` therefore takes the
system between requests: whole webhook requests, backfills, edits and any other commits, each at an instant no earlier
than the one before, from any reachable state. `Creditable` and `Crediting` decide exactly which event keys such a
sequence can still credit, `Collisions` which it never can.

Ownership of the second phase of a redemption is derived, not assumed: committing a claim makes its caller the one
owner of that redemption, an owner may issue the fulfilment write once, and once fulfilment has failed it may only
compensate. There is no sweeper, and after a crash a redemption may stay RESERVED for good.

## Where the code and its documentation part ways

The model follows the code. Each of these is stated and proved.

- The comment on `InsufficientPointsError` says a caller may catch it and go on with the same transaction. The
  ledger row has been inserted by then, so committing that transaction would leave the cached balance wrong by
  exactly the refused amount (`Ledger.RefusalMustRollBack`).
- The comment on `resolveDeliveryKey` says the `unparsed:` prefix cannot collide with a real event id. Nothing
  excludes it, and an event that does collide is answered 400 and lost (`Collisions.CollidingEventIsLost`).
- The status code contract says a 400 means permanently invalid. An event dated more than an hour ahead is not: sent
  first when it happens, it is credited (`Collisions.FirstRequestCreditsExactly`). Sent too early it is rejected, and
  then its key is spent: the same event sent again in time is answered 400 from the stored rejection
  (`Collisions.UntimelyEventSpendsItsKey`, `Witnesses.EarlyEventIsLost`).
- A delivery left RECEIVED or FAILED is described as awaiting its retry, and an UNMATCHED one as awaiting a backfill.
  That holds only for a while. A key can still be credited exactly when nothing is stored under it, or it has been
  credited, or what is stored is an acceptable event at most ninety days old, not priced at nothing or less, in a
  delivery that is not REJECTED and, if parked, can be released (`Crediting.KeyIsCreditableExactly`).
- A parked delivery can be released unless another one blocks it. The schema puts no bound on a rule's points, and a
  backfill is all or nothing: one timely event on its list that a rule prices at nothing or less makes the whole
  backfill fail (`Parking.BackfillGoesThroughExactly`), and every filter that selects a delivery selects those of the
  same user and activity type with it.
- The comment on the response's `duplicate` flag says it means no points moved just now. A retry of a delivery
  that was stored but never credited is flagged and credits (`Ingestion.DuplicateMayStillCredit` says exactly when,
  `Witnesses.FlaggedRetryCredits` gives one).
- A page of size zero reports that it is the last one whatever remains (`History.PageIsPrefix`). The HTTP route
  does not allow that size; the service function does.
- Without the schema's ordered-window check, the overlap comparison reports an overlap no instant witnesses
  (`Earning.EmptyWindowOverlapsNothing` gives one, `Earning.OverlapIsIntersection` the exact condition).
- An allocation whose fulfilment fails leaves the user the price as a gift, and one whose answer cannot be recorded
  takes the credit back although the reservation stands (`Allocation.AllocationNets`). A refused key has used up
  its credit: run again when the user can pay, it is the user who pays (`Allocation.RerunNets` says exactly when,
  `Witnesses.RetriedGiftIsPaidFor` gives one).

## Model

| member | source | states |
|---|---|---|
| Service.Store.LockBalance | packages/api/src/modules/ledger/ledger.service.ts:190-210 | materialises a zero row at most once and returns the balance; fails exactly for a user that does not exist, and then changes nothing |
| Service.Store.AppendEntry | packages/api/src/modules/ledger/ledger.service.ts:248-362 | the statements in order (lock, claim, check, move) leave exactly the tables and the result of the specification `Append`, including the inserted row a refusal leaves behind; a success keeps the class invariant |
| Service.Store.ReverseEntry | packages/api/src/modules/ledger/ledger.service.ts:381-414 | looks the row up and appends its mirror; unknown rows are refused |
| Service.Store.FindRedemptionByKey | packages/api/src/modules/redemption/redemption.service.ts:340-348 | finds the one redemption holding a user's key, or that there is none |
| Service.Store.ClaimIdempotencyKey | packages/api/src/modules/redemption/redemption.service.ts:121-204 | counts one or two inserts, one if the key is held; the holder wins if there is one, else one row is inserted, and only if both inserts met a vanished rival is the claim refused with nothing changed |
| Service.Store.Reserve | packages/api/src/modules/redemption/redemption.service.ts:222-337 | phase one as coded (replay, reward, claim, lock, stock, debit) is the specification `Reserve` |
| Service.Store.Compensate | packages/api/src/modules/redemption/redemption.service.ts:398-420 | the conditional FAILED write, the refund and the unit are the specification `Compensate` |
| Service.Store.Redeem | packages/api/src/modules/redemption/redemption.service.ts:439-502 | both phases with their separate transactions are the specification `Redeem`, a key that two vanishing rivals keep from being claimed included; a throw in one rolls back only that one; the class invariant always holds afterwards |
| Service.Store.CaptureDelivery | packages/api/src/modules/webhook/webhook.service.ts:111-157 | one row per partner and key; a repeat only counts an attempt and reports the stored status |
| Service.Store.ProcessDelivery | packages/api/src/modules/webhook/webhook.service.ts:184-333 | accept, touch, freshness, user, rule, credit, in that order, is the specification `Process` |
| Service.Store.BackfillUnmatched | packages/api/src/modules/webhook/webhook.service.ts:436-491 | the claiming loop with its counters is the specification `Backfill` |
| Service.Store.PostWebhook | packages/api/src/modules/webhook/webhook.routes.ts:134-220 | capture, process and the FAILED write as three transactions are the specification `PostWebhook`, and keep the class invariant whatever is answered |
| Service.Store.AllocateReward | packages/api/src/modules/dev/allocation.service.ts:68-153 | the loop over users is the specification `AllocateReward`, one outcome per user in order, and keeps the class invariant |
| Service.Store.AllocateOne | packages/api/src/modules/dev/allocation.service.ts:93-149 | credit, redeem, and take the credit back if that throws for whatever reason, a key that cannot be claimed included; keeps the class invariant |
| Sparkline.BuildSeries | packages/web/src/components/BalanceSparkline.tsx:44-64 | one point per entry in chronological order after an opening point, each entry moving the balance by its own delta, ending at the current balance; nothing for no entries |
| Earning.FindOverlappingRules | packages/api/src/modules/earning/earning.service.ts:60-84 | reports every clashing pair of active rules once, in order, and nothing else; empty exactly when no two rules clash |
| Earning.OverlapIsIntersection | packages/api/src/modules/earning/earning.service.ts:39-44 | two windows share an instant if and only if the comparison holds and neither window is empty |
| Earning.NoClashIsUnambiguous | packages/api/prisma/migrations/20260906143710_init_domain_model/migration.sql:224-240 | on ordered windows, no clash if and only if at most one active rule applies to any activity type at any instant |
| Earning.ResolveIgnoresRowOrder | packages/api/src/modules/earning/rule.service.ts:38-60 | the rule resolved does not depend on row order |
| Earning.AddingRulesKeepsPrices | packages/api/src/modules/earning/rule.service.ts:38-60 | adding rules that clash with nothing never changes a price that exists |
| Ledger.AppendKeepsLedger | packages/api/src/modules/ledger/ledger.service.ts:248-362 | every successful append keeps distinct ids and keys, sound labels, reversals of earlier rows, balances equal to sums, and the floor |
| Ledger.AppendTwiceIsOnce | packages/api/src/modules/ledger/ledger.service.ts:275-330 | repeating an append under its key moves nothing and answers with the first row |
| Ledger.AppendReportsTheTruth | packages/api/src/modules/ledger/ledger.service.ts:300-362 | the balance a successful append returns is the balance now, the row it names exists and holds the key, and `duplicate` means exactly that nothing was added |
| Columns.AppendDecides | packages/api/src/modules/ledger/ledger.service.ts:190-350 | exactly when an append reports an unknown user, an illegal amount, a repeat, a taken id, a dangling reference or a spend beyond the balance, and when it adds a row |
| Columns.AppendWrites | packages/api/src/modules/ledger/ledger.service.ts:275-362 | a repeat names the row recorded first and leaves every row and balance; otherwise one row is added with every column as asked for, dated now, and its user's balance with it |
| Ledger.RefusedOnlyWhenOverdrawn | packages/api/src/modules/ledger/ledger.service.ts:332-350 | a well-formed append of a new key is refused if and only if it is a spend the balance does not cover; a credit or a correction never is |
| Ledger.RefusalMustRollBack | packages/api/src/modules/ledger/ledger.service.ts:42-65 | after a refusal the uncommitted tables drift, and reconciliation names exactly that user and that amount |
| Ledger.ReversalGuardNeverFires | packages/api/prisma/migrations/20260906143710_init_domain_model/migration.sql:118-124 | the unique index on `reverses_id` decides nothing the dedupe key has not decided |
| Ledger.ReverseShape | packages/api/src/modules/ledger/ledger.service.ts:381-414 | reversing a row not reversed before always lands, with a mirror row and the balance moved back, whatever the debt |
| Columns.ReverseWrites | packages/api/src/modules/ledger/ledger.service.ts:381-414 | a reversal is refused only for an unknown row; the first adds the row's mirror, column by column; any later one changes nothing and says so |
| Ledger.ReconcileFindsExactlyTheDrifted | packages/api/src/modules/ledger/ledger.service.ts:594-609 | reconciliation names exactly the users whose balance differs from their ledger sum, one row each, so it is empty if and only if every balance there could be is right |
| Reversals.ChainsAreDisjoint | packages/api/src/modules/ledger/ledger.service.ts:381-414 | reversal chains are acyclic and never meet: each row is reversed at most once, by a later row of the same user with the negated delta |
| Reversals.BalanceIsWhatStands | packages/api/src/modules/ledger/ledger.service.ts:381-414 | a balance is the sum of the original rows whose reversal chain has odd length |
| Redeeming.ReserveShape | packages/api/src/modules/redemption/redemption.service.ts:222-337 | a reservation that succeeds adds one row at its snapshot, one debit of its cost and takes one unit if limited, and only when key, balance and stock allowed it |
| Columns.ReserveWrites | packages/api/src/modules/redemption/redemption.service.ts:222-337 | what a reservation writes and answers, column by column: its row at the reward's price and name, its debit, its unit, the balance |
| Columns.CompensateWrites | packages/api/src/modules/redemption/redemption.service.ts:398-420 | what a compensation writes, column by column, and that a settled row is left alone |
| Refusals.RedeemDecides | packages/api/src/modules/redemption/redemption.service.ts:222-502 | exactly why a redemption under a new key throws: unknown reward, inactive, unclaimable key, out of stock, too few points, an answer that could not be recorded; and except for the last nothing has changed |
| Refusals.RedeemWrites | packages/api/src/modules/redemption/redemption.service.ts:439-502 | what a redemption that is paid for leaves in every table and answers, when fulfilled, when refused, and when its answer could not be recorded |
| Refusals.RedeemReplays | packages/api/src/modules/redemption/redemption.service.ts:241-247 | a used key is answered from its redemption and the balance as they are, and changes nothing, whatever became of the reward |
| Refusals.StrangersCannotRedeem | packages/api/src/modules/redemption/redemption.service.ts:121-145 | a user the service does not know breaks the claim's foreign key, and nothing changes |
| Redeeming.ReserveKeepsRedemptions | packages/api/src/modules/redemption/redemption.service.ts:222-337 | a reservation keeps every redemption accounted for, claims unique, and units conserved |
| Redeeming.CompensateKeepsRedemptions | packages/api/src/modules/redemption/redemption.service.ts:398-420 | a compensation keeps the same, moving its redemption to FAILED with its debit reversed and its unit returned |
| Redeeming.CompensateTwiceIsOnce | packages/api/src/modules/redemption/redemption.service.ts:398-420 | compensating again refunds nothing and returns no unit |
| Webhook.KeyHolderIsOwnCredit | packages/api/src/modules/webhook/webhook.service.ts:298-332 | a ledger row already holding a delivery's dedupe key is that delivery's own credit, at the right price |
| Atoms.AdmissibleStable | packages/api/src/modules/redemption/redemption.service.ts:241-277 | what a transaction learned by reads without a lock stays true however the database evolves |
| Atoms.StepKeepsValid | packages/api/prisma/schema.prisma:160-430 | every step any transaction can commit keeps the whole invariant and only lets the database evolve forwards |
| Stability.StmtStable | packages/api/src/modules/ledger/ledger.service.ts:163-189 | a statement that could run still can, with the same effect, after commits that touch none of the locks it and its predecessors took |
| Stability.RunStable | packages/api/src/modules/ledger/ledger.service.ts:212-247 | so a whole run of statements would give the same work against the database as it is now |
| Stability.CommitUndisturbs | packages/api/src/modules/ledger/ledger.service.ts:21-36 | committing writes covered by one's own locks disturbs nobody holding other locks |
| Progress.ProgramRunsIffStepSucceeds | packages/api/src/modules/ledger/ledger.service.ts:248-362 | from any point of a transaction its next step's statements can all run if and only if the step succeeds on what the transaction sees, and then they achieve exactly it, the absolute balance write included |
| Safety.DoneIsSteps | packages/api/src/modules/webhook/webhook.service.ts:436-491 | several programs in one transaction are their steps in order on the committed database |
| Reachable.CommitIsAtomic | packages/api/src/modules/ledger/ledger.service.ts:212-247 | at every commit of every run, the database becomes the transaction's steps applied to it as it stands |
| Reachable.ActionKeeps | packages/api/src/modules/redemption/redemption.service.ts:222-502 | every action of the concurrent system keeps its invariant |
| Agreement.ReserveAgrees | packages/api/src/modules/redemption/redemption.service.ts:222-337 | in any idle reachable state, some run of the phase-one transaction commits if and only if `Reserve` succeeds, and every such run leaves the database `Reserve` says |
| Agreement.CompensateAgrees | packages/api/src/modules/redemption/redemption.service.ts:398-420 | the same for the owner's compensation, the no-op included |
| Agreement.FulfilAgrees | packages/api/src/modules/redemption/redemption.service.ts:475-479 | the same for the owner's FULFILLED write, which can always be run |
| Agreement.CaptureAgrees | packages/api/src/modules/webhook/webhook.service.ts:111-157 | the same for capture, the repeat included |
| Agreement.ProcessAgrees | packages/api/src/modules/webhook/webhook.service.ts:184-333 | the same for processing |
| Agreement.FailAgrees | packages/api/src/modules/webhook/webhook.routes.ts:191-206 | the same for the FAILED write of the route |
| Agreement.BackfillAgrees | packages/api/src/modules/webhook/webhook.service.ts:436-491 | the same for a whole backfill over a list of candidates |
| Agreement.AppendAgrees | packages/api/src/modules/ledger/ledger.service.ts:248-362 | the same for an operator's append and for the correction of a credit |
| Agreement.RolledBackKeyCanBeClaimed | packages/api/src/modules/redemption/redemption.service.ts:170-204 | rolling back a claim restores the database and frees its key, whoever else is open: once the others have ended, a payable request with the key has a run that commits, and then holds the key |
| LostUpdate.WithoutTheLockAnUpdateIsLost | packages/api/src/modules/webhook/webhook.routes.ts:168-184 | two appends that both read before either wrote would leave the cache off by exactly the first delta |
| LostUpdate.OneBalanceHolder | packages/api/src/modules/ledger/ledger.service.ts:190-210 | in no reachable state do two transactions hold one balance |
| Guarantees.BalancesNeverDrift | packages/api/src/modules/ledger/ledger.service.ts:594-609 | in every reachable state reconciliation is empty and every balance is the sum of its rows |
| Guarantees.BalancesHaveAFloor | packages/api/src/modules/ledger/ledger.service.ts:332-350 | a balance is never below what corrections alone took away; a user never clawed back is never negative |
| Guarantees.RedeemNeverCommitsBelowZero | packages/api/src/modules/ledger/ledger.service.ts:332-350 | in any run, the commit of a reservation leaves its user's balance lower by the price and not negative |
| Guarantees.BalancesAreWhatStands | packages/api/src/modules/ledger/ledger.service.ts:381-414 | in every reachable state each balance is what its odd reversal chains leave standing |
| Guarantees.RedemptionsAlwaysAccounted | packages/api/src/modules/redemption/redemption.service.ts:222-502 | in every reachable state, crashes included, a redemption has exactly one debit of minus its snapshot, is FAILED exactly when that is reversed, once, and its rows sum to minus the cost or to zero |
| Guarantees.SettledForGood | packages/api/src/modules/redemption/redemption.service.ts:398-502 | a terminal status and the snapshots never change again |
| Guarantees.StockIsConserved | packages/api/src/modules/redemption/redemption.service.ts:303-311 | from the moment a limited reward is added, its stock plus the redemptions holding a unit is the initial stock, never negative; unlimited stays unlimited |
| Guarantees.KeyClaimedOnce | packages/api/src/modules/redemption/redemption.service.ts:121-204 | once a claim on a key has committed no other claim on it ever can |
| Requests.EveryCallClaimsOrReplays | packages/api/src/modules/redemption/redemption.service.ts:121-277 | in any run, a call opened for a user and a key that comes to commit either commits the claim of that very key, or answers from the redemption that holds it, with its price and name snapshots, and changes nothing; if it had to wait for the key, the whole row it answers from is the row as it stands at its commit |
| Requests.ClaimsAreInsertedAtMostTwice | packages/api/src/modules/redemption/redemption.service.ts:121-204 | the guard on the number of inserts keeps every claim about to be inserted a first or a second one, in every reachable state |
| Guarantees.RollbackLeavesNoTrace | packages/api/src/modules/redemption/redemption.service.ts:170-204 | rolling back restores the database exactly and frees every lock |
| Guarantees.FulfilmentNeverOverwrites | packages/api/src/modules/redemption/redemption.service.ts:475-479 | the unconditional FULFILLED write always meets a RESERVED row nobody else is settling |
| Guarantees.CreditedAtMostOnce | packages/api/src/modules/webhook/webhook.service.ts:298-332 | in every reachable state each partner event has at most one EARN row |
| Guarantees.ProcessedMeansCredited | packages/api/src/modules/webhook/webhook.service.ts:298-332 | a PROCESSED delivery has an EARN row under its own key, for the points of the rule that row names, whose window contains the event |
| Deadlock.WaitsUpwards | packages/api/src/modules/ledger/ledger.service.ts:21-36 | whoever waits for a lock holds only locks of lower rank, balances being re-entrant |
| Deadlock.NoCircleIsReachable | packages/api/src/modules/ledger/ledger.service.ts:21-36 | no run reaches a circle of waiting reserve, compensate, process, append and fulfil transactions |
| Deadlock.NeverDeadlocked | packages/api/src/modules/ledger/ledger.service.ts:21-36 | in every reachable state without a backfill, some open transaction is not waiting |
| Honest.RejectedMeansUnacceptable | packages/api/src/modules/webhook/webhook.service.ts:243-255 | in every run whose events are fresh when priced, only unacceptable bodies are ever REJECTED |
| Replaying.EarnedIsWorth | packages/api/src/modules/webhook/webhook.service.ts:184-333 | in such a run, once nothing that can be priced is waiting, a user's earned points are the sum over distinct events of the points in force when each happened |
| Replaying.OrderDoesNotMatter | packages/api/src/modules/webhook/webhook.service.ts:413-491 | two histories of the same events ending with the same users and rules earned the same, so park-then-backfill equals having had the rule or the user from the start |
| Ingestion.OutcomeIsDecided | packages/api/src/modules/webhook/webhook.service.ts:200-333 | exactly when processing a stored delivery fails, rejects, parks for either reason, or credits |
| Ingestion.ProcessCreditsExactly | packages/api/src/modules/webhook/webhook.service.ts:184-333 | processing adds one ledger row exactly when the event can be credited at that instant and has not been |
| Ingestion.ProcessTouchesOne | packages/api/src/modules/webhook/webhook.service.ts:184-378 | processing writes the status its outcome names and touches no other delivery |
| Answers.ProcessDecides | packages/api/src/modules/webhook/webhook.service.ts:184-333 | exactly which events are rejected, parked for either reason, refused by the ledger or processed, said of the event's fields, the ninety days, the hour and the rules in force |
| Answers.ProcessedAnswers | packages/api/src/modules/webhook/webhook.service.ts:298-332 | a processed event is answered with the points of the rule in force, its user's balance as it is now, and the id of the ledger row that is its credit, which is new exactly when it says so |
| Answers.ProcessWrites | packages/api/src/modules/webhook/webhook.service.ts:184-378 | every column of the delivery's row after its processing, and that nothing else changes unless it is credited |
| Answers.CaptureWrites | packages/api/src/modules/webhook/webhook.service.ts:79-157 | which key a body is stored under; a new one is stored as it came, a known one only counted, and the answer says which and in what status |
| Answers.RouteMirrors | packages/api/src/modules/webhook/webhook.routes.ts:150-175 | a repeat of a settled delivery is answered 200, 202 or 400 from its status, flagged, and only counted |
| Answers.RouteProcesses | packages/api/src/modules/webhook/webhook.routes.ts:134-280 | any other request is processed and answered 400 or 202 with its outcome, flagged exactly if its key had been stored before; on an error its delivery is FAILED |
| Answers.RouteReportsTheCredit | packages/api/src/modules/webhook/webhook.routes.ts:261-280 | the points, balance and transaction in the response are the rule's, the user's now, and the event's own ledger row |
| Ingestion.ProcessKeepsValid | packages/api/src/modules/webhook/webhook.service.ts:184-333 | processing keeps the whole invariant |
| Ingestion.RetryCreditsNothingNew | packages/api/src/modules/webhook/webhook.routes.ts:191-206 | a credited delivery whose status was overwritten, processed again, moves nothing and is PROCESSED again |
| Ingestion.RouteTellsWhatIsStored | packages/api/src/modules/webhook/webhook.routes.ts:134-259 | a success names a delivery whose stored terminal status the code reflects; an error after capture leaves it FAILED and the ledger untouched |
| Ingestion.PostWebhookKeepsValid | packages/api/src/modules/webhook/webhook.routes.ts:134-220 | the route keeps the whole invariant, whatever it answers |
| Ingestion.DuplicateMayStillCredit | packages/api/src/modules/webhook/webhook.routes.ts:261-271 | a flagged success adds a ledger row if and only if, before the call, the key was stored in no terminal status and the event stored there was acceptable, fresh, priced above nothing and not yet credited |
| Ingestion.OutageThenRetry | packages/api/src/modules/webhook/webhook.routes.ts:159-206 | so any good event whose first processing failed is flagged and credited on its retry |
| Witnesses.FlaggedRetryCredits | packages/api/src/modules/webhook/webhook.routes.ts:261-271 | a concrete database and event on which that happens |
| Filed.ParkedIsFiled | packages/api/src/modules/webhook/webhook.service.ts:232-281 | in every reachable state an UNMATCHED delivery holds an acceptable event and carries the user and the activity type of that event, so the backfill filters find it |
| Calls.CallKeepsSound | packages/api/src/modules/webhook/webhook.routes.ts:134-220 | every whole call keeps the table invariant and that one |
| Creditable.HopeWasThere | packages/api/src/modules/webhook/webhook.service.ts:184-333 | no sequence of calls credits a stored key that had been beyond crediting before it: neither a retry, nor a backfill, nor an edit brings hope back |
| Creditable.UnblockedIsReleasable | packages/api/src/modules/webhook/webhook.service.ts:436-491 | where nothing parked with it is priced at nothing or less, a stored event is payable if and only if it is acceptable, not worthless, at most ninety days old and not REJECTED |
| Crediting.KeyIsCreditableExactly | packages/api/src/modules/webhook/webhook.service.ts:184-333 | from any reachable state and instant, some sequence of whole calls at clocks that never go back credits a key if and only if nothing is stored under it, or it has been credited, or what is stored is acceptable, not worthless, at most ninety days old, not REJECTED, and if parked has an instant left at which it is accepted and nothing blocking it is |
| Collisions.UntimelyEventSpendsItsKey | packages/api/src/modules/webhook/webhook.routes.ts:240-259 | an event first sent when too old or dated more than an hour ahead has spent its key: after any sequence of calls every request under it, a timely resend included, is answered 400, moves nothing, and the key is uncredited |
| Collisions.FirstRequestCreditsExactly | packages/api/src/modules/webhook/webhook.service.ts:243-332 | the first request under a key credits an acceptable event if and only if it is timely then, its user is known and a rule gives it points |
| Witnesses.EarlyEventIsLost | packages/api/src/modules/webhook/webhook.routes.ts:240-259 | a concrete event that is lost by being sent two hours early, and credited if sent only when it happens |
| Collisions.CollidingEventIsLost | packages/api/src/modules/webhook/webhook.service.ts:79-95 | garbage first, then the event whose id is its made-up key: the event is answered 400, nothing is credited, and no sequence of calls ever credits the key |
| Ingestion.BackfillAccountsForEveryCandidate | packages/api/src/modules/webhook/webhook.service.ts:447-490 | when a backfill returns, examined is the sum of the four counters, every claimed delivery is PROCESSED, UNMATCHED or REJECTED, and nothing outside the filter changed, even if the candidate list was stale |
| Tallies.CandidatesWait | packages/api/src/modules/webhook/webhook.service.ts:447-456 | the candidates are exactly the waiting deliveries of the user asked for, if one is, and of the type asked for, if one is, each once, longest waiting first |
| Tallies.BackfillCounts | packages/api/src/modules/webhook/webhook.service.ts:458-490 | each counter is the number of listed deliveries that were waiting and now are PROCESSED, UNMATCHED, REJECTED, or that were not waiting |
| Tallies.ClaimedRowsEndWell | packages/api/src/modules/webhook/webhook.service.ts:466-488 | every column of a claimed delivery's row when the backfill returns |
| Tallies.FilterIsRequired | packages/api/src/modules/webhook/webhook.service.ts:440-445 | a backfill is refused for want of a filter exactly when it names neither a user nor a type |
| Tallies.ReplayErrs | packages/api/src/modules/webhook/webhook.service.ts:431-434 | the only error a backfill of stored deliveries can fail with is the ledger's refusal of a worthless credit |
| Parking.BackfillGoesThroughExactly | packages/api/src/modules/webhook/webhook.service.ts:431-490 | a backfill goes through if and only if its filter names something and selects no waiting event that is accepted now, of a known user, and priced at nothing or less |
| Parking.ReplayPlaces | packages/api/src/modules/webhook/webhook.service.ts:466-488 | each delivery a backfill claimed ends REJECTED exactly when its event is not accepted at that instant, PROCESSED exactly when it is and can be priced, UNMATCHED exactly when it is and cannot |
| Parking.ReplayCreditsOwn | packages/api/src/modules/webhook/webhook.service.ts:466-488 | a backfill credits only keys of deliveries it claimed, which it leaves PROCESSED |
| Parking.BackfillDrains | packages/api/src/modules/webhook/webhook.service.ts:466-488 | with fresh events, a claimed delivery ends PROCESSED exactly when its event can be priced now and REJECTED exactly when its body is unacceptable |
| Ingestion.ReplayKeepsValid | packages/api/src/modules/webhook/webhook.service.ts:466-488 | a backfill that returns keeps the whole invariant |
| Contention.AttemptDecided | packages/api/src/modules/redemption/redemption.service.ts:222-337 | a fresh request on a reward on sale succeeds if and only if the balance covers it and a unit is left |
| Contention.RefusalReasons | packages/api/src/modules/redemption/redemption.service.ts:256-325 | exactly when a fresh request is refused as unknown reward, inactive, out of stock, or unaffordable, stock being asked about before points |
| Contention.ExactlyTheAffordableWin | packages/api/src/modules/redemption/redemption.service.ts:222-337 | of any sequence of fresh attempts by one user exactly min(N, balance / cost, stock) commit, taking exactly what they paid for, and the refused leave nothing |
| Allocation.AllocationNets | packages/api/src/modules/dev/allocation.service.ts:86-150 | under a fresh key the rows caused sum to zero when allocated, zero when refused or when the key cannot be claimed, the cost when fulfilment fails, and minus the cost when the answer cannot be recorded; the redemption, the unit and the outcome in each case; nobody else's balance moves |
| Allocation.OutcomeTellsWhatIsStored | packages/api/src/modules/redemption/redemption.service.ts:359-374 | what a redemption answers (status, snapshots, reference, reason, balance) is what is stored then, and it is a replay exactly when the key was taken before |
| Allocation.RedeemKeepsValid | packages/api/src/modules/redemption/redemption.service.ts:439-502 | a redemption, however it ends, keeps the whole invariant |
| Allocation.AllocateOneKeepsValid | packages/api/src/modules/dev/allocation.service.ts:86-150 | one user's turn keeps it too, whatever its key went through before |
| Allocation.CrashedRunResumes | packages/api/src/modules/dev/allocation.service.ts:100-110 | running again after stopping between credit and redemption does exactly what the first run would have done |
| Allocation.RerunMovesNothing | packages/api/src/modules/dev/allocation.service.ts:86-150 | re-running a key whose redemption committed adds no row and moves no point and no unit |
| Allocation.RerunNets | packages/api/src/modules/dev/allocation.service.ts:86-150 | running a key again that holds its credit and no redemption, however the second run ends: over both runs its rows net to minus the price if and only if the request is granted and either delivered after its credit had been taken back or left unrecorded, to the price if and only if it is granted, fulfilment is refused and the credit stands, and to nothing otherwise; with the exact net if the price changed |
| Allocation.RefusedThenRetriedIsPaidByTheUser | packages/api/src/modules/dev/allocation.service.ts:93-149 | a key refused while the reward was unavailable, run again once it is available, costs the user the price |
| Witnesses.RetriedGiftIsPaidFor | packages/api/src/modules/dev/allocation.service.ts:93-149 | a concrete shop where that costs a user 50 of their 100 points |
| Allocation.AllocationConservesBalances | packages/api/src/modules/dev/allocation.service.ts:86-153 | over a list of users and a third party that delivers, no balance changes and as many units leave as users were given one |
| Campaigns.KeysDependOnBoth | packages/api/src/modules/dev/allocation.service.ts:86-89 | the per-user key differs for two allocation keys and for two users, and for user ids without its separator both can be read back from it |
| Campaigns.RunGives | packages/api/src/modules/dev/allocation.service.ts:68-153 | a run under new keys reports each user in order, as given exactly if a redemption of theirs under the run's key and their id is FULFILLED, and takes exactly the units it has given or holds, whatever the third party does |
| Campaigns.AnotherKeyGivesAgain | packages/api/src/modules/dev/allocation.service.ts:68-153 | a second run under another key is a new gift: every user it reports as given has a redemption that was not there before, next to the first run's, and the units of both runs have left |
| Campaigns.SameKeyAgainGivesNothing | packages/api/src/modules/dev/allocation.service.ts:86-150 | the same run again, to any users it reported as given, adds no row and no redemption, takes no unit and moves no balance, and reports them as given |
| Campaigns.AllocationCredits | packages/api/src/modules/dev/allocation.service.ts:97-110 | the credit an allocation begins with, column by column |
| Campaigns.UnknownUserStops | packages/api/src/modules/dev/allocation.service.ts:100-110 | a turn of a user the service does not know throws at its credit and changes nothing |
| Campaigns.OnlyUnknownRewardsAreRefused | packages/api/src/modules/dev/allocation.service.ts:68-77 | an allocation is refused as a whole exactly for an unknown reward, and changes nothing then |
| History.PrecedesIsStrictTotalOrder | packages/api/src/modules/ledger/ledger.service.ts:519-545 | the cursor comparison is a strict total order in both directions |
| History.RowsAreTheSelection | packages/api/src/modules/ledger/ledger.service.ts:543-562 | a page query's rows are exactly the selected ones, each once, strictly in order |
| History.PageIsPrefix | packages/api/src/modules/ledger/ledger.service.ts:546-571 | a page is the first `limit` rows, and it ends the walk if and only if nothing is left or nothing was asked for |
| History.WalkIsFaithful | packages/api/src/modules/ledger/ledger.service.ts:480-571 | over a ledger growing between pages, a walk never repeats an entry, is strictly ordered, and if it ends has returned every matching entry there at its start |
| History.WalkEnds | packages/api/src/modules/ledger/ledger.service.ts:500-571 | with nothing appended, a walk asking for at least one entry a page ends |
| History.OldestIsNewestReversed | packages/api/src/modules/ledger/ledger.service.ts:519-571 | the oldest-first walk is the newest-first walk reversed, for all page sizes and type filters |
| Chronology.PageReadsInTime | packages/api/src/modules/ledger/ledger.service.ts:500-571 | a page is strictly newest or oldest first by creation time, ids breaking ties by their first differing character; it holds only entries asked for and beyond the cursor, and what it leaves out lies beyond all it holds |
| Chronology.WalkReadsInTime | packages/api/src/modules/ledger/ledger.service.ts:480-571 | so does a whole walk, from page to page, while the ledger grows |
| Chronology.ChartRunsForward | packages/web/src/components/BalanceSparkline.tsx:44-64 | the points of a chart of a newest-first walk never go back in time |
| Cursors.CursorRoundTrips | packages/api/src/modules/ledger/ledger.service.ts:461-477 | a cursor reads back as its key if and only if the id is not empty and has no separator |
| Cursors.TextWalkIsWalk | packages/api/src/modules/ledger/ledger.service.ts:500-571 | walking by cursor text is walking by key, over ids without the separator |
| Cursors.ReadableExactly | packages/api/src/modules/ledger/ledger.service.ts:465-477 | exactly which texts read as a cursor, and as which: a timestamp, the separator and an id, neither empty, anything after a second separator ignored |
| Cursors.GarbageStartsOver | packages/api/src/modules/ledger/ledger.service.ts:452-477 | every other text lists from the beginning |
| Sparkline.PointsAccumulate | packages/web/src/components/BalanceSparkline.tsx:44-64 | on any prefix each point is the opening balance plus the entries up to it |
| Sparkline.CompleteChartIsTheLedger | packages/web/src/components/BalanceSparkline.tsx:44-64 | on a complete walk the chart is the prefix sums of the ledger from zero |

## Left out

- Deadlock.NeverDeadlocked: excludes backfills, which hold many balance locks in one transaction and can deadlock with each other.
- Guarantees.ProcessedMeansCredited: the converse is false, since a failed concurrent attempt may overwrite the status of a credited delivery with FAILED; `Ingestion.RetryCreditsNothingNew` says what a retry then does.
- Replaying.EarnedIsWorth: requires events to be fresh when priced, because freshness is measured against the present and a late backfill rejects; and two deliveries under one key with different bodies are one event, the first.
- Crediting.KeyIsCreditableExactly: takes the calls one after another with no request in flight, and a backfill to read one clock; requests in flight are in the transition system, where the safety theorems hold of any clocks.
- Contention.ExactlyTheAffordableWin: takes the attempts one after another, each committed or rolled back; that concurrent commits are such steps is `Reachable.CommitIsAtomic`.
- Agreement.RolledBackKeyCanBeClaimed: lets the other open transactions end first, since they may hold the balance or the reward the claim needs.
- Service.Store.ClaimIdempotencyKey: a rival transaction that commits between two of its statements appears in the transition system, not in the class, where rivals only vanish.
- Deactivating a rule, which frees its window for another, is not a transition: in runs rules are only added.
- Reversals made by operators are only of credits; the code reverses a debit only inside `compensate`, and so does the model.
- Liveness: a redemption whose caller died stays RESERVED, as the repository's notes say (NOTES.md:176-182).
- Statement and transaction timeouts are rollbacks; 32-bit column overflow is not modelled, integers are unbounded.
- Allocation.CrashedRunResumes: takes the price and everything else as unchanged between the two runs; `Allocation.RerunNets` covers a later run in any state and at any price.
- Descriptions, metadata, error texts and timestamps of processing.
- JSON parsing and schema validation: a body arrives as an event or as what is wrong with it. The digest in a fallback key is part of the body. A body with a literal NUL byte is refused before it is captured and never appears.
- Signatures, sessions, passwords, rate limits, HTTP envelopes, logging, the user interface, seed data.
- Base64url and the printing and parsing of ISO timestamps are taken as bijections; text comparison is by character code.
- Fulfilment itself is a choice: a reference, a refusal, or an answer that could not be recorded. So is whether two rivals for a key vanish.
- Listing candidates and users: the results of the two list queries are parameters.
