# Verified model of the Zeko Ethereum gateway

The gateway accepts settlement and bridge proof jobs over HTTP, lets one worker
prove, sign and broadcast them, and lets one indexer follow an Ethereum chain
that may reorganize. All three share one PostgreSQL database, and any of them
may crash between two transactions. This project models that database as a
state machine, proves what holds in every reachable state, and models the
algorithms beside it: the block and deposit index, the undo log, the Base58
address codec, the RPC budget, the deposit log join and the deposit batch.

`dafny verify dfyconfig.toml` checks everything.

## Layout

| module | what it holds |
|---|---|
| `Common`, `Deposits`, `ActionLog` | shared value types, the deposit table, the table of outer actions |
| `Ledger`, `UndoOrders` | virtual accounts, the undo log, receipt application, rollback, and the orders in which a rollback may restore |
| `Chain` | the remote hash-linked chain, the block table, one indexer pass |
| `Gateway` | the tables, and every transaction as a function from tables to tables |
| `Runs` | the system: tables, actors' memory, the outside world, 39 kinds of step, runs |
| `Tables`, `RecoveryPass`, `Sending`, `IndexingPass` | the same transactions as the program makes them: classes whose methods update their fields statement by statement, proved against `Gateway` and against runs |
| `Quiet`, `Safety` | what an HTTP or worker step may do; one live job at a time in Finalized mode |
| `OneWriter`, `WriterHistory`, `Threshold`, `OrphanedPredecessor` | exactly when one live job holds in either mode, told from the history of the run, and two runs in which it does not |
| `Ownership`, `Promises` | one paid proof request, one signed transaction, fenced generations, terminal jobs |
| `Custody`, `Reservations` | the outer-writer row: who gets it and when, how long it is kept, and what is admitted under it |
| `LifeCycle`, `Approvals` | which transaction moves a job from which status to which, and approval over whole runs |
| `Pool`, `ReplayedCommand` | the pool of pending commands over whole runs, and a run that leaves a command behind |
| `Admission` | what a job is admitted against, one job for one idempotency key, when a failure ends a job |
| `Core` | the invariant behind replay, kept by every step in either mode |
| `Checkpoints` | the checkpoint that receipts leave in the outer account |
| `Replaying`, `Recovery` | crash-tolerant exactly-once replay of accepted events and what a rollback leaves of it, in either mode; growing finality |
| `ActionRuns`, `MovedSettlement` | exactly when the action rows are those of the replayed events, and a run in which they are not |
| `Reachability` | a reachable open gateway, and when a confirmation threshold reverses |
| `Base58`, `RpcBudget`, `DepositJoin`, `DepositBatch` | the four algorithms beside the database |

## How runs are modelled

Each SQL transaction is one atomic step. A crash needs no step: an actor that
makes no further move has crashed, and a restarted worker or indexer begins a
new claim or a new pass (`StepAbortTick` ends a pass anywhere). What an actor
remembers across steps (its generation, a sealed intent, signed bytes it has
read back) stays available to it for ever, so a delayed worker may act
arbitrarily late.

A step whose guard fails changes nothing. `RollbackAfter` in the model is the
whole rollback transaction. `Chain.BlockIndex` shows when the indexer calls it,
and `IndexingPass` proves that each of its passes, failed or not, is a run of
the indexer's first steps; `RecoveryPass` does the same for recovery.

The environment is arbitrary except for these assumptions:

* Identifiers drawn at random are never drawn twice (`FreshIntent`, new job ids).
* Two jobs never sign the same transaction, because its nonce is taken from the chain (`FreshSignature`).
* A block hash commits to height, parent and deposit logs (`World`), and a deposit nonce is not reused along one chain (`Sound`).
* The node does not contradict what a pass has already indexed: the final events in Finalized mode, those of canonical blocks in Confirmations mode (`Firm`). Such a transaction is not mined in a second block (`MinedOnce`), and its receipt is that of its event (`ReceiptTruthful`). In Confirmations mode this excludes a reorganization that the node adopts in the middle of a pass, after the pass has indexed its blocks and before it has read events and receipts; the program does not guard against one, and reorganizations between passes are not restricted.
* Log indices are unique in a block (`LogIndexFree`); a receipt is final exactly when its block is flagged so, which both follow from the pass's own boundary (`Reachability.FlagIsFinality`); and a final success has its accepted event indexed (`ReceiptTruthful`).

Requests are typed and written back before they are stored
(api/src/main.rs:84-92), so no client can mark a job as recovered or give a
plain job a submission; `Possible` says so, and it is a fact about the program
rather than an assumption.

Hashes, keys and field elements are integers that are only compared. Public
values, proofs and signatures are opaque.

## Findings

* One live job at a time is a Finalized-mode property. In Confirmations mode it fails in two ways, and each has a run from empty tables that ends open with two live jobs: a confirmed settlement is found not final again after the head falls (`Threshold.TwoLiveByReconciling`), and a signed successor orphaned by a rollback is left outside the writer row when the gateway opens, with nothing reconciled (`OrphanedPredecessor.TwoLiveByOpening`). `OneWriter.StrayIff` and `OneWriter.StrayEndsIff` say exactly which steps put a signed job outside the row and which deal with it; from these `WriterHistory.OpensOverTwoIff` and `WriterHistory.OneLiveIff` give the exact condition over the history of a run, and `Reachability.ThresholdReversesIff` says when a threshold reverses.
* The action rows of a bridge follow the chain; those of a settlement do not. A settlement mined again in another block keeps the row of its first inclusion (api/src/indexer.rs:1286-1287), so the row is not served and a later rollback misses it: `MovedSettlement.MovedRowStays` is a run in which that happens, `ActionRuns.ActionsRightIff` the exact condition, and `ActionRuns.ActionRowsAreTheLog` shows that it never happens in Finalized mode.
* The undo log is exact when applications happened in block order (`Ledger.RollbackIsReplay`, `Ledger.HistoryIsReplay`). Out of order it would not be (`Ledger.OutOfOrderRollbackDiffers`), but no run gets there: the order holds in every reachable state of either mode (`Recovery.OrderAlwaysHolds`), so every rollback of a run is a replay of what stays (`Recovery.RunRollbackIsReplay`), in whichever order the query returns the tied rows of one settlement (`Recovery.RunUndoesInAnyOrder`).
* An idempotent replay of a command can leave it in the pool for ever. Applying a receipt takes the command out, and a later transaction confirms the job (api/src/indexer.rs:1299, 965-981); a replay between the two finds the job open and puts the command back (api/src/graphql.rs:241-251). `ReplayedCommand.ConfirmedStaysPending` is such a run in Finalized mode, and `Pool.LeftBehindIff` the exact condition.
* The settlement path of the outer account writes both its states, so its window is not "the newest five states": `Ledger.SettlementWindow` says exactly when it is, and `Ledger.SettlementRepeatsState` shows an ordinary settlement for which it is not. The bridge path's always is (`Ledger.BridgeWindowIsNewest`).
* `ensure_parent` never succeeds after it has rolled back: the ancestor it finds lies below the parent whose hash differed. A successful call has changed nothing (`Chain.BlockIndex.EnsureParent`).
* Decoding an address and encoding it again gives the same address exactly when its x coordinate is below 2^255 (`Base58.AddressRebuilt`); the address of 2^255 itself decodes and is lost (`Base58.HighCoordinateIsLost`).
* `api/README.md` speaks of pending commands removed with finality; the code also removes them on cancellation, permanent failure, a final revert and for unsigned orphans. `Custody.CommandsOutliveDoubt` covers all of these.

## Model

| member | source | states |
|---|---|---|
| `Safety.AtMostOneLiveJob` | api/src/outer_writer.rs:161-221 | Finalized mode, every run: whenever the gateway is open, any two live jobs are the same job, and it holds the writer row |
| `Safety.StepKeepsInv` | api/src/indexer.rs:62-87 | Finalized mode: each of the 39 steps keeps the invariant behind it: a live job is attached, or is an orphan whose transaction is in a final event still to be replayed |
| `Safety.RollbackSafe` | api/src/indexer.rs:291-521 | the rollback transaction, which reorgs settlements without a block filter, keeps the invariant whenever the finality guard let it through |
| `Safety.RecoveryAttaches` | api/src/indexer.rs:827-983 | once every final event is applied, no orphan is left outside the writer |
| `Safety.ReconcileSafe` | api/src/indexer.rs:1042-1191 | reconciling a receipt neither revives, duplicates nor loses an applied job |
| `WriterHistory.OneLiveIff` | api/src/outer_writer.rs:161-221 | either mode, every run from empty tables: at most one job is live whenever the gateway is open, exactly when no step clashes with the history: no receipt of a confirmed job is found not final while open, and the gateway is not opened while a job is astray, in either case beside the writer's own open job or another that is astray; astray means that an earlier step orphaned it and none since ended it |
| `WriterHistory.OpensOverTwoIff` | api/src/indexer.rs:62-87 | either mode: the gateway opens over two live jobs exactly when some earlier step orphaned a job outside the writer row, none since ended it, and the writer's own job is open or another job is astray |
| `WriterHistory.StrayIsAstray` | api/src/indexer.rs:458-493 | either mode, every run: a job is signed, open and outside the writer row exactly when some step orphaned it and none since ended it |
| `WriterHistory.StepKeepsOneLiveIff` | api/src/indexer.rs:62-87 | either mode, after any run: each of the 39 steps keeps the rule exactly when it does not clash with the history of the run |
| `OneWriter.StrayIff` | api/src/indexer.rs:458-493 | either mode: a signed job comes to be open outside the writer row exactly when a rollback or a reconciliation puts a finished job in doubt that has left the row |
| `OneWriter.StrayEndsIff` | api/src/indexer.rs:1115-1136 | either mode: it stops being open there exactly when a rollback deletes it, recovery confirms it from its event, or reconciliation finds its receipt final, except that a reorged job's final success is left to recovery; no HTTP or worker step does it, and being picked for a retry does not |
| `WriterHistory.FinalizedNeverClashes` | api/src/indexer.rs:268-289 | in Finalized mode no step of any run clashes |
| `Threshold.TwoLiveByReconciling` | api/src/indexer.rs:1167-1188 | a Confirmations run from empty tables that ends open with two live jobs, because the head fell below the threshold of a confirmed settlement |
| `OrphanedPredecessor.TwoLiveByOpening` | api/src/indexer.rs:458-474 | a Confirmations run from empty tables that ends open with two live jobs although nothing was reconciled after the reorganization: a retried settlement, and the signed successor it orphaned |
| `Reachability.ReconcileKeepsOneWriterIff` | api/src/indexer.rs:1167-1188 | exactly when reconciling one row keeps every live job attached, in either mode |
| `Reachability.ThresholdReversesIff` | api/src/indexer.rs:1854-1865 | a block final under one head is not final under a lower one exactly when the threshold lies between them |
| `Reachability.FlagIsFinality` | api/src/indexer.rs:149-195 | the test on receipts and the flag on blocks agree, in either mode |
| `Quiet.TransactIsQuiet` | api/src/main.rs:2282-2354 | every HTTP or worker step: jobs only evolve forward, hashes stay unique, a new job is attached in the step that inserts it, and the writer is only taken from released jobs |
| `Core.StepKeepsCore` | api/src/indexer.rs:62-87 | each of the 39 steps keeps, in either mode, the invariant behind replay: hashes unique, recovered rows tied to indexed events, references to own rows only, configured accounts only, finality downward closed, and what the position in a pass says |
| `Replaying.StepKeepsBook` | api/src/indexer.rs:827-983 | each of the 39 steps keeps, in either mode, the ledger equal to the applications in force, and these equal to an ascending gapless list of indexed events |
| `Recovery.ExactlyOnceReplay` | api/src/indexer.rs:859-981 | either mode, every run: accounts equal the replay of an ascending list of indexed events from the initial accounts, with no earlier canonical event skipped, and the fee payer's nonce has moved by the number of settlements in it |
| `Recovery.OrderAlwaysHolds` | api/src/indexer.rs:827-857 | either mode, every run: the applications in force are in block order, and the undo log represents exactly them |
| `Recovery.RunRollbackIsReplay` | api/src/indexer.rs:291-348 | either mode, every run: a rollback leaves exactly the replay of the events at or below the ancestor, in accounts, undo log and nonce |
| `Recovery.RunUndoesInAnyOrder` | api/src/indexer.rs:320-343 | either mode, every run: whichever of these orders the query returns, the rollback leaves the same accounts |
| `Recovery.RollbackUndoesNothing` | api/src/indexer.rs:268-289 | Finalized mode, every run: a rollback leaves accounts and account history untouched |
| `Recovery.InterruptionsDoNotMatter` | api/src/indexer.rs:862-877 | two runs over the same final events, stopped and restarted anywhere, end recovery with the same log and accounts in Finalized mode; in Confirmations mode with the same log exactly when the same events that are no longer final stay applied, and then with the same accounts |
| `Recovery.PrefixThenFull` | api/src/indexer.rs:862-877 | either mode: from one state, while the chain stands still, any number of abandoned recoveries before a complete one and a single complete one end with the same log and the same accounts |
| `Recovery.SameConfirmed` | api/src/indexer.rs:880-981 | Finalized mode: and with the same confirmed transactions |
| `Recovery.PassAbsorbsAll` | api/src/indexer.rs:827-857 | after recovery the replayed events are the final ones, and none other in Finalized mode |
| `Recovery.RunGrowsFinality` | api/src/indexer.rs:149-195 | Finalized mode, every run: finalized (number, hash) pairs are never lost or replaced |
| `Core.ReconcileAppliesNothing` | api/src/indexer.rs:1137-1167 | either mode: reconciliation finds every final receipt already applied, so only ordered recovery applies |
| `Replaying.AscendingUnique` | api/src/indexer.rs:851-852 | chain order determines the list of events, so the replay order is the same for every interruption |
| `ActionRuns.ActionRowsAreTheLog` | api/src/graphql.rs:351-358 | Finalized mode, every run: the action rows are exactly those of the replayed events, and every one is served |
| `ActionRuns.InterruptionsSameRows` | api/src/indexer.rs:862-877 | Finalized mode: two runs over the same final events end recovery with the same action rows |
| `ActionRuns.ActionsRightIff` | api/src/indexer.rs:1278-1298 | either mode: the rows are right all through a run exactly when it never applies a settlement whose stored row shows another inclusion |
| `ActionLog.ShowsOneMore` | api/src/indexer.rs:1425-1456 | a table that shows some receipts shows one more after it is written exactly when no older inclusion of a settlement is in the way; a bridge is never in the way of itself |
| `ActionLog.RollbackShows` | api/src/indexer.rs:356-362 | a right table stays right through a rollback to any ancestor |
| `ActionLog.BridgeRows` | api/src/indexer.rs:1406-1457 | whatever the table held, a bridge has one row for each action, numbered on from its length before and chained from its state before |
| `MovedSettlement.MovedRowStays` | api/src/indexer.rs:1278-1298 | a Confirmations run from empty tables after which the settlement of block 12 is applied, its row says block 10 and is not served, and a rollback of block 12 undoes the accounts but not the row |
| `Ledger.RollbackIsReplay` | api/src/indexer.rs:320-348 | rollback equals replaying only the applications at or below the ancestor, for any history applied in block order, several jobs a block, one or two accounts a job |
| `Ledger.HistoryIsReplay` | api/src/indexer.rs:1776-1799 | after any sequence of applications, repetitions, refusals and rollbacks in block order the accounts are those of replaying what is in force |
| `Ledger.OutOfOrderRollbackDiffers` | api/src/indexer.rs:320-343 | the block order is needed: a concrete history, which no run produces, in which undoing both applications leaves the wrong account |
| `Ledger.RestoreUndoesOne` | api/src/indexer.rs:1611-1660 | one application is undone by restoring its own pre-images, in either order of its rows, also when it touched one account twice |
| `UndoOrders.AnyUndoIsReplay` | api/src/indexer.rs:320-343 | every order that sorts the rows by block and application, however it places the tied rows of one job, restores the replay of what stays |
| `UndoOrders.NewestFirstIsSorted` | api/src/indexer.rs:320-326 | the order the model fixes is one of these |
| `Ledger.NonceCountsSettlements` | api/src/indexer.rs:1727-1774 | replaying moves a fee payer's nonce by the number of its settlements and leaves the set of accounts alone |
| `Ledger.RollbackNonce` | api/src/indexer.rs:1707-1725 | after a rollback the nonce counts exactly the settlements that remain |
| `Ledger.RecordedMeansApplied` | api/src/indexer.rs:1223-1232 | a job has history exactly when it is among the applications in force |
| `Ledger.SettlementChanges` | api/src/indexer.rs:1611-1660 | a settlement puts the proved fields into the outer account in their order, makes its last state the newest action, moves only the payer's nonce on, and leaves every other account and column alone |
| `Ledger.SettlementAcceptedIff` | api/src/indexer.rs:1707-1774 | a first receipt is accepted exactly for known accounts and the payer's next nonce |
| `Ledger.BridgeChanges` | api/src/indexer.rs:1661-1705 | a bridge makes its last state the newest action and changes nothing else of the account |
| `Ledger.BridgeAcceptedIff` | api/src/indexer.rs:1661-1705 | a first bridge receipt is accepted exactly when it has actions and starts from the newest stored state |
| `Checkpoints.SettlementIsCheckpoint` | api/src/indexer.rs:1193-1319 | after a first settlement receipt the outer account matches the checkpoint of that receipt, and its command is out of the pool |
| `Checkpoints.AccountIsLastCheckpoint` | api/src/outer_writer.rs:255-288 | either mode, every run: the outer account shows the state the last replayed settlement proved and the action the last event left newest, so the chain's checkpoint is the one reservations are compared with |
| `Ledger.BridgeWindowIsNewest` | api/src/indexer.rs:1661-1705 | the bridge path keeps the newest five action states, newest first |
| `Ledger.SettlementWindow` | api/src/indexer.rs:1641-1657 | for any stored window, the settlement path keeps the newest five of the trace with both of its states; that is the newest five with the new state alone exactly when there are four older states and the newest four equal the starting state |
| `Ledger.SettlementRepeatsState` | api/src/indexer.rs:1641-1657 | a settlement that starts from the newest of five states: the window repeats it and loses the fifth newest |
| `Ledger.VirtualLedger.ApplySettlement` | api/src/indexer.rs:1193-1319 | the settlement transaction on the accounts, with the same errors, no effect on failure, and none for a job with history |
| `Ledger.VirtualLedger.ApplyBridge` | api/src/indexer.rs:1321-1460 | the bridge transaction on the outer account, likewise |
| `Ledger.VirtualLedger.RollbackAfter` | api/src/indexer.rs:320-348 | the undo loop restores exactly the replay of what stays |
| `Chain.BlockIndex.IndexBlocks` | api/src/indexer.rs:89-207 | after success exactly the heights from the configured start to the head are canonical, or every height from a surviving old row to the head, none of them dropped that agrees with the node; they are the remote head's ancestors, the flags are the finality boundary, and in Finalized mode finality only grew |
| `IndexingPass.PassIsRun` | api/src/indexer.rs:89-207 | whatever a pass did to the block table, failed or not, a run of as many rollback, insert and boundary steps does, ending in the phase that follows |
| `IndexingPass.IndexTick` | api/src/indexer.rs:62-87 | an indexer tick's first part beside the run that follows it |
| `IndexingPass.BoundaryIsReceiptTest` | api/src/indexer.rs:149-195 | the height a pass flags through is where the test on receipts begins to fail |
| `Chain.BlockIndex.CommonAncestor` | api/src/indexer.rs:246-266 | terminates at the greatest height at which both chains agree, or just below the indexed range |
| `Chain.BlockIndex.EnsureParent` | api/src/indexer.rs:209-244 | success means the parent matches and nothing was changed |
| `Chain.BlockIndex.RollbackCanonicalChain` | api/src/indexer.rs:268-289 | refused exactly when a finalized row would be undone, otherwise removes exactly the rows above the ancestor |
| `Chain.BlockIndex.IndexDeposits` | api/src/indexer.rs:546-627 | a block and all its deposits are committed together or not at all |
| `Chain.BlockIndex.AdvanceFinality` | api/src/indexer.rs:140-195 | finality is set through the boundary, never below an earlier one, and never on a conflicting hash |
| `Chain.IndexedBlockAgrees` | api/src/indexer.rs:546-625 | non-removed deposit rows are exactly the deposits of canonical blocks after indexing one more |
| `Chain.RollbackKeepsDeposits` | api/src/indexer.rs:363-369 | and after a rollback, so that re-inclusion under the same nonce is right too |
| `Chain.AgreementGoesDown` | api/src/indexer.rs:246-266 | agreement with the remote chain is downward closed |
| `Chain.HeadDecidesAll` | api/src/indexer.rs:137-147 | comparing the head's hash decides agreement at every indexed height |
| `Chain.RowsAreAncestors` | api/src/indexer.rs:523-544 | parent-linked rows are the ancestors of any row above them |
| `Promises.RequestedOnce` | api/src/submission.rs:142-165 | every run: no job is sent to the prover twice, and each call's job still holds the intent it was sealed under |
| `Promises.RequestIsOwnAnswer` | api/src/submission.rs:167-193 | every run: a stored request id is the one answer to that job's own call |
| `Promises.OnlyOwnAnswerResolves` | api/src/submission.rs:167-193 | a request in doubt is resolved only by the prover's answer to its own intent |
| `Promises.UnresolvedIsParked` | api/src/main.rs:2302-2308 | a job in doubt cannot be claimed, cancelled or sealed again |
| `Promises.TerminalForever` | api/src/main.rs:2019-2043 | a job that ended unsigned is never touched again by anyone, in any continuation |
| `Promises.CancelledForever` | api/src/main.rs:2019-2043 | a cancelled job stays rejected and released in any continuation, and was never and is never sent to the prover or to the chain |
| `LifeCycle.StatusMoves` | api/src/main.rs:2370-2580 | no HTTP or worker transaction moves a row along anything but the listed edges, each with the status, generation, intent and digest it must have found; only an approval raises the approval flag |
| `LifeCycle.IndexerMoves` | api/src/indexer.rs:428-493 | no indexer transaction moves a row along anything but its own edges, and none touches intent or approval |
| `LifeCycle.RestartOutcome` | api/src/submission.rs:120-140 | a restart, row by row: in doubt goes to the queue, a broadcast without stored bytes to submitted, other work back to approved exactly if it was approved, and nothing else changes |
| `LifeCycle.ClaimIff` | api/src/main.rs:2282-2354 | a claim is the next generation of a job that is queued or approved, due, not in doubt, not behind another's reservation, and alone but for bridges; and nothing otherwise |
| `LifeCycle.RetryWaits` | api/src/submission.rs:309-352 | a failed job that will be tried again is not claimed before its delay is over |
| `LifeCycle.RetryIff` | api/src/indexer.rs:308-319 | a rollback retries nothing exactly when it orphans no receipt of our own, and else the earliest by height and then age |
| `LifeCycle.OnlyRetryGoesOn` | api/src/indexer.rs:455-474 | beside a retried settlement every other one is finished or reorged |
| `LifeCycle.RollbackReindexes` | api/src/indexer.rs:379-402 | a rollback closes the gateway, keeps the writer, marks exactly the events above the ancestor as removed, and lets each of them be indexed again |
| `Approvals.ApprovedIff` | api/src/main.rs:1926-2018 | the approval flag of a row goes up exactly by an approval of the digest it has then, and never down |
| `Approvals.ApprovedWasApproved` | api/src/submission.rs:120-140 | either mode, every run: through failures, restarts and rollbacks a job stands approved only after an operator approved the digest it had then |
| `Approvals.NoUnapprovedProof` | api/src/main.rs:2376-2480 | where approval is required, every job that any run sent to the prover had been approved in it |
| `Promises.RunPersists` | api/src/submission.rs:205-275 | every run: an admitted job is never deleted, its generation never goes back, and its intent, request and signed bytes are write-once |
| `Promises.SameBytesEveryTime` | api/src/submission.rs:213-263 | every run: a job's broadcasts carry identical bytes, those stored in its row |
| `Promises.StoredBeforeBroadcast` | api/src/submission.rs:229-263 | nothing is broadcast that was not stored before the step |
| `Promises.HashIsStoredHash` | api/src/indexer.rs:475-493 | every run: a transaction hash of an admitted job is the hash of its stored bytes |
| `Promises.SendRestoresHash` | api/src/submission.rs:213-228 | resuming after a rollback restores the hash and refuses a new signature |
| `Promises.StaleIsInert` | api/src/main.rs:2786-2799 | a write of a superseded generation changes no table |
| `Promises.FencedForever` | api/src/submission.rs:120-140 | and stays without effect for the rest of every run |
| `Promises.ClaimFences` | api/src/main.rs:2335-2350 | claims and crash recovery move the generation on by one, and recovery leaves nothing in progress |
| `Ownership.StepKeepsBase` | api/src/main.rs:2370-2580 | the invariant behind these, kept by each step in either mode |
| `Custody.HeldUntilReleased` | api/src/outer_writer.rs:176-190 | every run: an attached job keeps the whole writer row, whatever the time, until its outcome is known |
| `Custody.DetachOnlyReleased` | api/src/outer_writer.rs:176-190 | no step detaches a job whose outcome is open |
| `Custody.CommandsOutliveDoubt` | api/src/indexer.rs:494-500 | a pending command disappears only if its job is then released or recorded in account history |
| `Pool.PoolAfterRollback` | api/src/indexer.rs:494-517 | after a rollback a command is pending exactly if it was and its job is no unsigned orphan, or its job is the retried settlement and carries a submission |
| `Pool.RetryIsPooled` | api/src/indexer.rs:475-517 | in any state: the settlement that a rollback retries is open again, keeps what was paid for and signed, and is pending again if it is a command |
| `Pool.PendingIsWaiting` | api/src/graphql.rs:241-251 | either mode, every run: no pending command belongs to a job that failed, was cancelled, reverted or dropped as an orphan |
| `Pool.WaitingIsPending` | api/README.md:92-96 | Finalized mode, every run: a command whose job is neither decided, applied nor orphaned is pending |
| `Pool.LeftBehindIff` | api/src/indexer.rs:965-981 | either mode: a confirmed job's command is left in the pool exactly when recovery finds it there as it confirms the job |
| `ReplayedCommand.ConfirmedStaysPending` | api/src/graphql.rs:241-251 | a Finalized run from empty tables that ends with a confirmed job whose command is pending, because its request was repeated between application and confirmation |
| `Custody.TokensIncrease` | api/src/outer_writer.rs:283-300 | every run: tokens of successive ownerships strictly increase |
| `Custody.SupersededForever` | api/src/outer_writer.rs:143-146 | every run: a token that lost the row never matches again |
| `Custody.SupersededIsPowerless` | api/src/outer_writer.rs:475-495 | it can neither renew nor admit a job, and releasing it leaves another's reservation alone |
| `Custody.ExpiredIsPowerless` | api/src/outer_writer.rs:509-523 | a lapsed lease has no power either |
| `Custody.RenewedLeaseLasts` | api/src/outer_writer.rs:345-373 | while it prepares, a lease can be renewed exactly as long as the lock would leave it in place, and renewed it survives the lock for that long |
| `Reservations.LockIff` | api/src/outer_writer.rs:161-192 | the lock is refused exactly while replaying, vacates a lapsed row but not its number, and else changes nothing |
| `Reservations.ReacquireIff` | api/src/outer_writer.rs:269-280 | a row in force is prolonged exactly for its own client before a job is attached, and nobody else is given it |
| `Reservations.AcquireIff` | api/src/outer_writer.rs:281-300 | a vacant row is given out exactly when no job is open and the checkpoint is current, under the next number; the refusals in their order |
| `Reservations.LeaseIsExclusive` | api/src/outer_writer.rs:255-304 | every run: while a client's unattached lease is kept in time and not released, no other client's acquire succeeds and its own token stays current |
| `Reservations.PreparationSucceeds` | api/src/outer_writer.rs:475-524 | a client that comes back within its lease with a request for the checkpoint it reserved is admitted |
| `Reservations.SettlementAdmittedIff` | api/src/outer_writer.rs:475-524 | exactly when a new settlement is admitted, the row it becomes, and the writer it holds |
| `Reservations.BridgeAdmittedIff` | api/src/outer_writer.rs:526-565 | exactly when a new bridge job is admitted, and the row it takes |
| `Reservations.CommandAdmittedIff` | api/src/graphql.rs:177-258 | exactly when a new command is admitted, and that it is pending then |
| `Reservations.RepeatedIff` | api/src/graphql.rs:179-195 | a repeated request is answered from its first job exactly when it asks for the same, and changes nothing but that an open command is pending again |
| `Admission.CreatedAgainstCurrentState` | api/src/outer_writer.rs:475-565 | a job enters only when open, with no other live job, bound to the outer account as it stands, and a settlement only under the current unexpired token of a reservation of that very checkpoint |
| `Admission.SentAgainstCurrentState` | api/src/graphql.rs:196-236 | a command moreover only for the configured accounts and the payer's next nonce |
| `Admission.OneJobPerKey` | api/src/graphql.rs:179-195 | every run: no later retry of an admitted key makes another job, and none succeeds with another payload |
| `Admission.SentIsPooled` | api/src/graphql.rs:237-258 | a submitted or replayed command ends up in the pool if its job is open, and is never put back otherwise |
| `Admission.PoolableIffOpen` | api/src/graphql.rs:247-251 | the pool condition is exactly that the job's outcome is open |
| `Admission.FailureEndsIff` | api/src/submission.rs:309-352 | a failure ends an open job exactly when it is unsigned, has no request in doubt, and the error is not worth a retry |
| `Tables.GatewayDb.Lock` | api/src/outer_writer.rs:161-192 | refused while replaying; clears the row exactly when the lease lapsed or the owner is released |
| `Tables.GatewayDb.Acquire` | api/src/outer_writer.rs:255-304 | the acquire transaction, with its errors and no trace on failure |
| `Tables.GatewayDb.Release` | api/src/outer_writer.rs:398-423 | the release transaction |
| `Tables.GatewayDb.CreateJob` | api/src/main.rs:1797-1822 | idempotent insert and attachment in one transaction |
| `Tables.GatewayDb.SendZkapp` | api/src/graphql.rs:177-258 | idempotent admission, account checks and the conditional pool insert in one transaction |
| `Tables.GatewayDb.RecoverInterrupted` | api/src/submission.rs:120-140 | the restart update, row by row |
| `Tables.GatewayDb.ClaimJob` | api/src/main.rs:2282-2354 | claims the oldest claimable job and starts its next generation, or claims none because none is claimable once the lock has cleaned up |
| `Tables.GatewayDb.Oldest` | api/src/main.rs:2301-2330 | the claim query: none exactly when nothing is claimable, otherwise an oldest one |
| `Tables.GatewayDb.BeginSend` | api/src/submission.rs:213-232 | the first transaction of a send; hands back earlier signed bytes |
| `Tables.GatewayDb.EarliestOrphan` | api/src/indexer.rs:308-319 | the retry choice: none exactly when there is no candidate, otherwise one of the earliest |
| `Tables.GatewayDb.RollbackAfter` | api/src/indexer.rs:291-521 | the rollback, statement after statement, equals the one-pass specification |
| `Tables.StatementsAreOnePass` | api/src/indexer.rs:428-493 | the four job statements compose to one case split per row |
| `RecoveryPass.RecoverGatewayState` | api/src/indexer.rs:859-983 | the recovery loop is a run of the state machine, wherever it stops |
| `RecoveryPass.ReconcileRow` | api/src/indexer.rs:1081-1189 | one reconciled row: application first, then the status |
| `RecoveryPass.WriteActions` | api/src/indexer.rs:1406-1457 | the inserts of a receipt, row by row, are the one update of the specification |
| `RecoveryPass.FindOwner` | api/src/indexer.rs:885-893 | the owner query: none exactly when no job carries the hash, otherwise an oldest one |
| `Sending.Node.BroadcastSubmission` | api/src/ethereum.rs:1230-1270 | sends the given bytes exactly when they match their hash and the node says it has not seen it; an already seen transaction succeeds without a send, and a send succeeds only if accepted or then seen |
| `Sending.SubmitPrepared` | api/src/submission.rs:256-273 | the end of a send is a run: what the node was handed is what the run broadcast, and only then is the job submitted |
| `Reachability.OpenWithLiveJob` | api/src/indexer.rs:62-87 | an open gateway with a live job is reachable |
| `Base58.EncodeBytes` | api/src/explorer.rs:1277-1302 | the carry loops compute the Base58 text of a byte string |
| `Base58.DecodeText` | api/src/explorer.rs:1304-1326 | the carry loops compute the bytes of a text, or refuse it |
| `Base58.Sweep` | api/src/explorer.rs:1282-1287 | one pass multiplies and adds exactly, with the carry always below the factor (256, or 58) and products within 32 bits |
| `Base58.DecodeEncoded` | api/src/explorer.rs:1277-1326 | decoding an encoded byte string gives it back, leading zeros included |
| `Base58.EncodeDecoded` | api/src/explorer.rs:1304-1326 | a text decodes exactly when its characters are in the alphabet, and encoding the result gives the text back |
| `Base58.TranslationBack` | api/src/explorer.rs:1277-1326 | changing base and back is the identity, from either side |
| `Base58.CheckEncodeDecoded` | api/src/explorer.rs:1250-1267 | a versioned payload is read from exactly one text, its own encoding |
| `Base58.AddressRoundTrip` | api/src/explorer.rs:1211-1248 | every 32-byte packed address survives the trip |
| `Base58.AddressLayout` | api/src/explorer.rs:1211-1225 | an address is the Base58Check text of version 203 over two ones, the coordinate reversed without its top bit, and the parity |
| `Base58.AddressRebuilt` | api/src/explorer.rs:1227-1248 | the other direction holds exactly when x is below 2^255 |
| `Base58.HighCoordinateIsLost` | api/src/explorer.rs:1227-1248 | the address of coordinate 2^255 decodes and is not rebuilt, under any checksum |
| `Base58.PackedAddressToBase58` | api/src/explorer.rs:1211-1225 | the printer |
| `Base58.PackedAddressFromBase58` | api/src/explorer.rs:1227-1248 | the parser |
| `RpcBudget.RateHolds` | api/src/rpc.rs:286-300 | any interleaving of clones: requests granted within w seconds cost at most rate * w plus the last one's cost |
| `RpcBudget.CooldownHolds` | api/src/rpc.rs:302-305 | after a cooldown nothing is granted before it has passed (Retry-After, section 10.2.3 of RFC 9110) |
| `RpcBudget.CooldownOnlyDelays` | api/src/rpc.rs:302-305 | a cooldown grants nothing and allows nothing that was not allowed |
| `RpcBudget.GrantedWhenDue` | api/src/rpc.rs:286-300 | any interleaving of clones: a request is granted as soon as every earlier grant has earned its cost and every cooldown has passed |
| `RpcBudget.SharedBudget.TryPace` | api/src/rpc.rs:286-300 | one turn under the lock |
| `RpcBudget.SharedBudget.Execute` | api/src/rpc.rs:323-434 | with other clones taking turns before each reading of the clock and while a request is in flight, the whole call is one run of the shared budget and each send has a grant of its own at its cost; reads are sent at most max_retries + 1 times, anything else at most once, and unavailability is reported exactly when every permitted read failed transiently |
| `DepositJoin.BridgeDepositLogs` | api/src/ethereum.rs:681-847 | succeeds exactly when the three event streams correspond, and then gives the joined deposits in order |
| `DepositJoin.EachTokenIdentified` | api/src/ethereum.rs:786-812 | each token deposit has exactly one identity event, which repeats its fields |
| `DepositJoin.EachIdentityUsed` | api/src/ethereum.rs:841-846 | each identity event belongs to exactly one token deposit |
| `DepositJoin.RegistryExactly` | api/src/ethereum.rs:741-783 | a deposit is reported in its own position, as RegistryV2 exactly where a refining event exists |
| `DepositJoin.JoinedFields` | api/src/ethereum.rs:812-840 | every reported deposit has its own event's fields and place; ether has no identity, and a token's amount is its Zeko amount |
| `DepositJoin.OnlyFairEvents` | api/src/ethereum.rs:700-783 | one event that names no asset, has another encoding or no commitment, repeats no base event, is incomplete, or differs in its two amounts makes the whole block be refused |
| `DepositBatch.CanonicalDepositBatch` | api/src/main.rs:870-1023 | succeeds exactly when the unbridged deposits are complete, final, provable and chained from checkpoint to current state, and describes precisely those in order: token, amounts, recipient and timeout of each, no identity for ether with its amount in wei, and the registry identity of a token |
| `DepositBatch.BatchWasEmitted` | api/src/main.rs:887-906 | every batched deposit was emitted by exactly one final canonical block |
| `DepositBatch.BindReceipt` | api/src/indexer.rs:1350-1382 | a receipt binds exactly its nonces, or nothing |
| `DepositBatch.BoundRows` | api/src/indexer.rs:1350-1382 | each deposit of the receipt gets the job, the next sequence number and the state its action left; no other row changes |
| `DepositBatch.SequencesAreBijective` | api/src/indexer.rs:1350-1361 | nonces map by an order-preserving bijection onto (length_before, length_after] |
| `DepositBatch.RebindingIsIdempotent` | api/src/indexer.rs:1362-1382 | applying a receipt again after a crash changes nothing |
| `DepositBatch.QueuedBatchBindsIff` | api/src/main.rs:823-840 | whatever is indexed, rolled back, freed, queued for any job or confirmed for any job between queueing a batch and confirming it, its receipt maps onto its deposits exactly when all of them are on the chain and none is taken over; and never onto others |
| `DepositBatch.FreeUnlessTaken` | api/src/main.rs:784-803 | a deposit stays this job's to bind unless another job's queueing or receipt took it and neither a rollback nor this job's own queueing has freed it since |

## Left out

* HTTP routing, authentication, JSON and SQL text, environment parsing and logging.
* SP1, Pickles, Keccak, SHA-256, Poseidon, Merkle roots and receipt decoding; the contracts.
* Advisory locks, connection loss and retries of database calls; one indexer and one worker at a time is assumed where the program elects them.
* Columns that no modelled decision reads: error texts and classes, timestamps other than creation and retry times, gas, confirmation counts, cycle counts, approval limits, the block columns of account rows.
* The hydration of a queued settlement's input before its preflight (api/src/main.rs:2408-2420), which adds Ethereum context to the stored input.
* The data column of action rows, which is written with the row and never decides anything; inner-action leaves and explorer tables, except the accepted events that recovery reads.
* The unique partial indexes on active jobs: they only refuse more than the model does, and they stand in the way of none of the runs above, in which no two active jobs are of one kind.
* The synchronization columns of deposits. Bindings are cleared by a rollback in `DepositBatch` only: `Chain` follows the removed flag.
* The write of the outer key back to the configuration when a settlement is applied: admitted and recovered settlements name that very key (`Core.JobsConfigured`).
* Local mock submission; execute-only mode only as the terminal status `Executed`.
* Which jobs a reconciliation pass polls: the model lets it reconcile any job with a hash in a pollable status.
* More than one accepted event in one transaction.
* Error-text classification: failures arrive as retryable or not.
* The jitter and ceiling of RPC backoff: a delay is any non-negative number; that a waiting request is eventually granted is not claimed.
* The time of an application orders it among those of its block: two transactions that start at the very same instant are not considered.
* The moment of reading the fee payer's nonce for a recovered settlement, which is a query of its own before the application transaction (api/src/indexer.rs:1012-1020); here it is read in the step that inserts the row or applies the receipt. Only the indexer changes accounts.
* Hex text around packed addresses.
* Quotes, approval limits, withdrawal proofs, status labels, cursors and the two user interfaces.
- RpcBudget.SharedBudget.Execute: does not model the semaphore on concurrent requests, because it only makes a clone wait longer before its turn.
