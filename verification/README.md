# Wallet-session gateway: verified model

A gateway opens, lends out and closes paid sessions on a blockchain through a node whose answers can be lost. It must never act twice on a transaction whose outcome it does not know, never stake more than its budget, and never lend one session to two callers. It has to keep this up across crashes, while openers, closers, the treasury, the reconciler, borrowers and node restarts interleave at every `await`.

The project models that protocol and the components it relies on, and proves what they promise for every run or every input.

| file | what it holds |
|---|---|
| `Options.dfy`, `SessionRows.dfy`, `Protocol.dfy` | rows, operations, policy, node replies; the protocol as a state machine with one step per await-free segment, plus a crash-and-start step |
| `Sessions.dfy` | the `Sessions` object: fields updated in place, each method proved to be the corresponding step |
| `WalletSafety.dfy` | at most one unresolved wallet transaction; submissions start alone; no operation id is sent twice |
| `Leases.dfy`, `LeasedModel.dfy` | lease exclusivity, exits of `acquire`, the model of a lease, restart exclusion |
| `UncertainOutcome.dfy`, `StaleBorrower.dfy` | when a row may leave an uncertain state; the exact hole and a concrete run through it |
| `CloseOutcome.dfy`, `WithdrawalOutcome.dfy` | what may become of a close or a withdrawal after it was handed to the node, and that none is sent twice without a reason |
| `PoolCaps.dfy` | the session caps at opening, over whole runs, and the exact hole |
| `ProviderPolicy.dfy`, `Admittance.dfy` | which providers are opened, confirmed and leased; what may begin during maintenance, within one opening, and in a scan |
| `AnswersRecorded.dfy`, `RecordsKept.dfy` | what answers leave on record, and when records disappear or change their meaning |
| `ReconcilePasses.dfy` | the guarded reconcile passes linearize |
| `StaleWrites.dfy` | the passes without a compare, `bind` and recovery at the grain of their awaits: when they are atomic, and exactly when a stale write keeps the wallet bound |
| `Identity.dfy` | which row ever carried which chain id |
| `Exposure.dfy` | true exposure against the budget, with the chain as part of the state and the node's answers as assumptions |
| `GatewayAndNode.dfy` | gateway, node and chain as one machine, in which those assumptions are derived |
| `ExposureOverrun.dfy`, `OverrunRuns.dfy` | how the budget is exceeded when a precaution is missing: for all states, and as three runs from an empty start |
| `Openers.dfy` | one opener task per model |
| `NodeJournal.dfy`, `GatewayProgress.dfy`, `JournalEvidence.dfy` | the node's operation journal under failing writes and crashes, and what the gateway may conclude from it |
| `Supervisor.dfy`, `RestartOperations.dfy` | the helper: rating rollback, at-most-once restarts |
| `Stake.dfy` | stake rounding |
| `Sse.dfy`, `SseRoundTrip.dfy`, `SseSplits.dfy` | the event-stream decoder, the round trip from payloads to events, and exactly which streams it decodes independently of the split |
| `JsonTree.dfy` | the JSON bound |
| `Rebalancing.dfy`, `WalletScan.dfy`, `Admission.dfy` | pool rebalancing, the paged wallet scan, request admission |

How to read the model:

- A step starts when an awaited reply arrives and runs to the next `await`. Replies are parameters, so the node may answer anything, fail, or be cut off. Time is a parameter too.
- A method of `Sessions` states `View() == <step>(old(View()), ...)`. The theorems are about those steps and runs of them. The table below lists the methods that hold a loop or a decision; the straight-line segments (replies and confirmations, release, invalidate, the restart task) are proved against their steps in the same way.
- In the source, `bind`, the third reconcile pass, the sweep's error handler and the recovery of operations write back a row or operation read before an await, without a compare. In the protocol machine each of them is one step. `StaleWrites.dfy` splits them at their awaits; when every write-back finds its row as it was read, such a run is a run of the protocol machine (`StaleWrites.CurrentRunIsAtomic`). `rebalance` inside `acquire` is a separate draining step just before the scan.
- The hypotheses of the for-all theorems are met by reachable states: `GatewayAndNode.BegunIsSound` starts such runs, and those of `OverrunRuns` and `StaleBorrower` go through the states that the theorems speak about.
- File writes of the helper and the node may fail before or after the file is replaced, and the process may die on either side.

## Where the code does less than promised

Each of these is stated as a lemma with a concrete run, next to the exact condition under which the promise holds.

- A `close_pending` row can be forgotten. A borrower that listed the row as open before the close writes its old copy back as `quarantined` when its read fails (`gateway/sessions.py:325`), and the session is then closed a second time (`StaleBorrower.SecondCloseSent`). Without a borrower that remembers the row the promise holds (`UncertainOutcome.NothingSentWhileUndecided`); with one it can always fail (`UncertainOutcome.RememberedRowEscapes`).
- An accepted close can be sent again. A failed GET is labelled `not_submitted` (`gateway/node.py:146`), and the handler around a close takes the label of its confirming read for the label of the close (`gateway/sessions.py:629-636`): the row goes back to `draining` although the node had answered with a transaction, and a second close is sent (`CloseOutcome.LostConfirmationRepeats` from every such state, `CloseOutcome.AcceptedCloseSentTwice` from an empty store). Apart from that read and from a borrower's old copy, two closes of one session always have evidence about the first between them (`CloseOutcome.NoSecondCloseUndecided`).
- The pool caps can be exceeded. A borrower that listed a session before it ended brings it back as `quarantined` when its read fails (`gateway/sessions.py:325-326`), and meanwhile its place may have been given away (`PoolCaps.CapExceeded`: three live sessions of a model whose cap is two). Such a revival adds exactly one live row (`PoolCaps.RevivalAddsOne`); without revivals and adopted sessions the caps hold in every run under a constant policy (`PoolCaps.CapsHold`).
- Two wallet transactions can be unresolved at once. The third reconcile pass, or the sweep's error handler, still holds its copy of an uncertain opening when that opening is bound and another one is submitted; its error write (`gateway/sessions.py:807-808`, `gateway/sessions.py:883-887`) then brings the old uncertain row back (`StaleWrites.TwoUnresolved`, from an empty store). Recovery can do the same to a withdrawal (`gateway/sessions.py:96-98`). Such a write keeps the bound if and only if nothing else is unresolved at that moment, and keeps it in every continuation if and only if, besides, the lock holder neither awaits another item's outcome nor is between its check and its submission (`StaleWrites.RevivalKeepsIff`, `StaleWrites.BoundSurvivesIff`). The late writes of `bind` and the decisions of the third pass never break it (`StaleWrites.DecisionHarmless`), so under that condition the bound holds in every interleaving (`StaleWrites.FineRunKeeps`).
- The budget can be exceeded in three ways, each for want of one precaution.
  - A failed confirming GET after an open is labelled `not_submitted` (`gateway/node.py:146`), so a live session is recorded as failed.
  - The third reconcile pass (`gateway/sessions.py:802`) fails an uncertain opening once the opens listed so far reverted, while the node may still be serving the operation and broadcast another one.
  - `bind` looks for the chain id among live rows only (`gateway/sessions.py:693`), and the sweep collects candidates in the same way (`gateway/sessions.py:825`). An uncertain opening can therefore be bound to a session of an earlier opening on the same bid that has already closed; it is recorded as closed while its own open may still land. A truthful answer that the gateway accepts for a bind is about the operation's own session if and only if no row of another operation, closed ones and deleted ones included, ever carried the chain id (`GatewayAndNode.BindIsOwnIff`).

  With failed confirming reads counted as unknown, the third pass waiting for a completed journal, and binds refused when another operation's row ever carried the chain id, the budget holds in every run of gateway, node and chain (`GatewayAndNode.JointExposureWithinBudget`). Without any one of the three, every sound state of the kind described leads to a run whose exposure grows by the full limit of the next admitted open (`ExposureOverrun.LostReadOverruns`, `ExposureOverrun.RunningJournalOverruns`, `ExposureOverrun.WrongBindOverruns`), and three runs from an empty start reach 16 under a budget of 10 (`OverrunRuns.LostConfirmationOverruns`, `OverrunRuns.EarlyReceiptsOverrun`, `OverrunRuns.WrongBindOverrun`).
- A record that the helper serves for an opening lists every open that is ever broadcast if and only if it is completed (`JournalEvidence.ConclusiveIffCompleted`), so reverted receipts decide nothing before that (`JournalEvidence.RunningIsNot`).
- A rating change that starts while an older one is pending with a different rating in place overwrites the saved rating (`SupervisorFiles.ConsistentIffSafe`, `SupervisorFiles.UncommittedRatingSurvives`).
- A helper restart that succeeded is answered as failed if its success record could not be written (`RestartOperations.SuccessForgotten`).
- The event-stream decoder normalises its buffer again with every chunk, so a stream with CR CR LF can decode differently depending on the split (`Sse.DoneDependsOnSplit`). It is independent of the split, for every meaning of its frames, if and only if it has no CR CR LF up to its last complete frame and no blank line in the making after it (`SseSplits.IndependentIffStable`).
- The rate window lives in memory; whatever the limits, a restart allows a full window again at once (`Admission.RestartForgetsWindow`).

## Model

| member | source | states |
|---|---|---|
| SessionRows.ReadTransactionState | gateway/sessions.py:720-735 | the receipt loop: unknown on no or malformed hashes, succeeded on any mined success, failed only if every receipt reverted, pending otherwise |
| WalletSafety.AtMostOneUnresolved | gateway/sessions.py:401-416 | in every reachable state rows in opening, open_unknown, closing, close_pending and withdrawals in submitting, uncertain, pending number at most one in total |
| WalletSafety.SubmitsAlone | gateway/sessions.py:418-547 | from any reachable state a step either sends nothing or sends one call while no other row or withdrawal is unresolved |
| WalletSafety.StepKeepsWalletInv | gateway/sessions.py:598-643 | every step of every task keeps the wallet invariant, including what the lock holder's own copy of a row may overwrite |
| Leases.ExactlyOneOwner | gateway/sessions.py:270-333 | in every reachable state each id in active has exactly one owning task, active holds nothing else, and waiting counts the callers inside acquire |
| Leases.VerifyKeeps | gateway/sessions.py:287-333 | a returned lease is owned by the caller, open, of an enabled model, by a provider that is not denied and, with an allowlist, listed, and outlives the request; every other exit gives back exactly the caller's reservation and its place in the queue |
| LeasedModel.LeaseIsOfModel | gateway/sessions.py:282-314 | in every run in which no row id stands for two models, the leased row is of the model the caller asked for |
| Leases.RestartExcludes | gateway/sessions.py:1109-1141 | while the helper request of a graceful restart is outstanding, the restart holds the lock and no task holds a reservation or lease |
| Leases.CloseSparesReserved | gateway/sessions.py:603-606 | a step takes up a close only if no task has the session reserved or leased at that instant |
| Leases.SeenEmptyStaysEmpty | gateway/sessions.py:1114-1117 | once a draining restart has seen active empty it stays empty until maintenance is cleared, over any run |
| UncertainOutcome.LeavesIffEvidence | gateway/sessions.py:747-808 | a row left open_unknown or close_pending, which no borrower remembers, leaves that state in a step if and only if the step carries evidence about it |
| UncertainOutcome.NothingSentWhileUndecided | gateway/sessions.py:601-602 | over any run without evidence the row stays uncertain and no open, close or withdrawal at all is sent, whatever closes, ticks, restarts and crashes happen |
| UncertainOutcome.RememberedRowEscapes | gateway/sessions.py:316-327 | the borrower condition is exact: whenever a borrower remembers the row, some run without evidence takes it out of its uncertain state |
| StaleBorrower.SecondCloseSent | gateway/sessions.py:284-327 | from an empty store, a concrete run sends two closes for one session with nothing learnt about the first |
| StaleBorrower.PendingCloseForgotten | gateway/sessions.py:325-326 | the two steps of that run that replace the pending close, and that neither carries evidence |
| CloseOutcome.LeavesIffDecided | gateway/sessions.py:617-641 | from the moment a close is handed to the node its row leaves closing and close_pending in a step if and only if the step is a not_submitted answer, a chain answer that shows it closed, a completed silent journal, reverted close transactions, or a failed read by a borrower with an old copy; otherwise no close of it is sent, through cancellations, restarts and crashes |
| CloseOutcome.DecidedAs | gateway/sessions.py:629-648 | what the deciding step makes of the row: closed if the chain says so, quarantined by a borrower, and otherwise draining |
| CloseOutcome.SendsIff | gateway/sessions.py:609-617 | a close is sent if and only if the chain, read just before, shows this session as running and nothing else is unresolved; one shown as closed is recorded so |
| CloseOutcome.NoSecondCloseUndecided | gateway/sessions.py:601-602 | in every run, two closes of one session among the calls have a deciding step between them |
| CloseOutcome.LostConfirmationRepeats | gateway/node.py:146-160 | from every state whose close was answered and is being read back, a lost read leads to a second close of that session |
| CloseOutcome.AcceptedCloseSentTwice | gateway/sessions.py:617-636 | from an empty store, a run in which a close answered with a transaction is sent again |
| WithdrawalOutcome.LeavesIffDecided | gateway/sessions.py:895-927 | a withdrawal leaves submitting, uncertain and pending in a step if and only if the step is its answer with a transaction id or not_submitted, a completed journal with status 200 or without a submission, or conclusive receipts of all its transactions |
| WithdrawalOutcome.SettledAs | gateway/sessions.py:897-922 | it succeeds if the answer, the journal status or a mined success says so, and fails on other evidence |
| WithdrawalOutcome.SendsIff | gateway/sessions.py:929-959 | a withdrawal is stored and sent if and only if one is due, every earlier one is settled and no session row is being opened or closed |
| WithdrawalOutcome.NothingSentWhileOwed | gateway/sessions.py:924-928 | over any run without such evidence it stays owed and nothing at all is sent, crashes and pruning included |
| WithdrawalOutcome.NothingFollowsUndecided | gateway/sessions.py:949-990 | in every run, whatever is sent after a withdrawal, a second one included, is sent after evidence about it |
| PoolCaps.ChecksCaps | gateway/sessions.py:428-435 | for any policy an open passes the store check if and only if the model is enabled, the store holds fewer live rows than the total cap and fewer of the model than its cap, and no wallet transaction is unresolved |
| PoolCaps.CapsHold | gateway/sessions.py:430-434 | under a constant policy, without adopted sessions and revivals, the live rows of the store stay within the total cap and within each model's cap in every run |
| PoolCaps.RevivalAddsOne | gateway/sessions.py:317-327 | a borrower's write-back of an ended row adds exactly one live row, so the caps survive it exactly if there was room |
| PoolCaps.CapExceeded | gateway/sessions.py:325-326 | from an empty store, a run to three live sessions of a model whose cap is two |
| ProviderPolicy.SubmitsIff | gateway/sessions.py:447-500 | after the quote an open is stored and sent, with the largest stake that three limits allow, if and only if the estimate fits, there is gas, the policy is unchanged and admits it, and the provider is not denied and, with an allowlist, listed |
| ProviderPolicy.OpensAllowedOnly | gateway/models.py:53-59 | whichever step sends an open, its row's provider is not denied and, with an allowlist, listed at that instant |
| ProviderPolicy.ConfirmsAs | gateway/sessions.py:510-528 | a confirmed session is open or closed as the chain says if policy, model and provider still allow it, and draining otherwise |
| ProviderPolicy.GrantsIff | gateway/sessions.py:287-314 | a reserved row is leased if and only if the chain confirms it as running beyond the request, it is still open, and model and provider are allowed |
| ProviderPolicy.SkipsWith | gateway/sessions.py:290-327 | what a refused row becomes: quarantined on a failed read or another session's answer, closed or draining by the chain's word, and untouched if it is no longer open |
| ProviderPolicy.QuitsIff | gateway/sessions.py:303-324 | the borrower gives up if and only if it was cancelled or turned away, or policy or maintenance forbid the lease |
| Admittance.MaintenanceStops | gateway/sessions.py:1109-1117 | while maintenance lasts no open is sent, and at most one call in all, by the task that already held the wallet lock |
| Admittance.ThreeTriesAtMost | gateway/sessions.py:420 | one opening asks the node for a session at most three times before it gives up the lock |
| Admittance.RetriesIff | gateway/sessions.py:529-547 | it tries again if and only if the provider declined, it was not the third attempt, and the policy still admits the model |
| Admittance.WaitingBounded | gateway/sessions.py:272-274 | never more than 64 callers wait, over any run |
| Admittance.TakesFirst | gateway/sessions.py:282-286 | a scan reserves the first listed session of the model that was open and is nobody's |
| Admittance.TakesNone | gateway/sessions.py:334-346 | a scan that finds none reserves nothing; the caller waits, or leaves if it gives up or an opening is uncertain |
| Admittance.PassesIff | gateway/sessions.py:278-281 | a pass goes on only if neither paused nor in maintenance and the model is enabled |
| AnswersRecorded.FailuresCount | gateway/sessions.py:117-122 | every failed or mismatching read of a session counts as one more failure of its row and puts it off by 2 to 256 seconds |
| AnswersRecorded.WaitDoubles | gateway/sessions.py:120 | each further failure doubles the wait up to 256 seconds |
| AnswersRecorded.TruthTaken | gateway/sessions.py:772-795 | a good chain answer of the second pass sets stake and end, closes what is closed, and reopens uncertain and quarantined sessions only |
| AnswersRecorded.JournalTaken | gateway/sessions.py:747-768 | the first pass takes over transactions and session id of the journal and gives up or retries only on a silent one |
| AnswersRecorded.BindsIff | gateway/sessions.py:690-718 | a bind is accepted if and only if the opening is uncertain, no live row manages the chain id, the session is the wallet's with the row's bid, model and provider, and its opening time fits |
| AnswersRecorded.AdoptsIff | gateway/sessions.py:848-868 | the sweep adopts a running session of the wallet as orphaned if and only if no live row manages it |
| AnswersRecorded.FailureKeepsHashes | gateway/sessions.py:529-540 | the transactions listed by a failed open, close or withdrawal are on record afterwards |
| AnswersRecorded.CloseIsFiled | gateway/sessions.py:613-618 | whichever step sends a close, its operation id is on record with the row, in state closing |
| RecordsKept.DisappearsIff | gateway/store.py:60-73 | a row or operation disappears in a step if and only if the step prunes it and it ended before the cutoff |
| RecordsKept.ReportedIff | gateway/sessions.py:77-104 | a restart is reported as succeeded if and only if the helper finished it, as failed if and only if it was given up, and as interrupted after a crash otherwise |
| RecordsKept.NeverReportedEarly | gateway/sessions.py:80-93 | over any run no restart is reported as succeeded that the helper did not finish |
| RecordsKept.SubmissionsAttended | gateway/sessions.py:73-76 | in every run a row is in opening or closing only while the task that submitted it awaits the node, crashes included |
| RecordsKept.CrashLeaves | gateway/sessions.py:68-76 | a new process turns interrupted submissions into uncertain ones and leaves all other rows, the policy and what was sent as they are |
| RecordsKept.TakenUpIff | gateway/sessions.py:598-608 | a close is taken up if and only if its session has not ended, has no close under way, is in nobody's hands and is known to the chain; one in somebody's hands is kept as one to be closed |
| RecordsKept.IntentKept | gateway/sessions.py:662-665 | a session to be closed stays one through every step but those of its own close, the chain's word that it closed, and writes of copies taken before |
| ReconcilePasses.TruthPassLinearizes | gateway/sessions.py:772-798 | an interleaved second pass, with other tasks running before the chain's answer and before the receipts, ends where one atomic step among the same tasks ends |
| ReconcilePasses.NeverOverwrites | gateway/sessions.py:749-798 | the guarded passes change nothing but a row that still equals the value read, and its state only out of doubt or to closed |
| StaleWrites.CurrentRunIsAtomic | gateway/sessions.py:799-808 | a run with the reads and write-backs of pass 3, of the sweep's error handler and of `bind` separated, in which every write-back finds its row as it was read, takes the gateway through a run of the protocol machine |
| StaleWrites.RevivalKeepsIff | gateway/sessions.py:883-887 | an unresolved row or withdrawal that is written back keeps "at most one unresolved" if and only if nothing else is unresolved, and keeps the wallet invariant if and only if the lock holder is not concerned either |
| StaleWrites.BoundSurvivesIff | gateway/sessions.py:807-808 | after a stale error write of an uncertain row every continuation has at most one unresolved transaction if and only if the write was permitted |
| StaleWrites.FineRunKeeps | gateway/sessions.py:77-104 | with pass 3, sweep, bind and recovery interleaved at their awaits, at most one transaction is unresolved in every run whose reviving writes are permitted; late binds and decisions need no condition |
| StaleWrites.TwoUnresolved | gateway/sessions.py:799-808 | from an empty store, a run in which pass 3 loses a receipt read after its opening was bound and another was submitted leaves two openings unresolved |
| Exposure.ExposureWithinBudget | gateway/sessions.py:427-497 | over any run of gateway and chain steps that are `Honest`, chain-live stakes, possible opens, held and withdrawable amounts together never exceed the fixed budget; which real steps are honest is the matter of `GatewayAndNode` |
| Exposure.FreshWorld | gateway/sessions.py:457-467 | a fresh gateway whose wallet is within the budget satisfies the invariant of that theorem |
| Exposure.CheckWithin | gateway/sessions.py:427-435 | at the store check nothing may still open and the listed stakes cover every live stake on the chain |
| Exposure.ConfirmingReadDecides | gateway/sessions.py:510-538 | after a failed confirming read of a live session its row still covers the stake if and only if the failure counts as unknown |
| GatewayAndNode.JointExposureWithinBudget | gateway/sessions.py:427-497 | gateway, node and chain from an empty start: with failed confirming reads counted as unknown, pass 3 waiting for a completed journal, and binds only to chain ids that no other operation's row ever carried, the exposure stays within the fixed budget in every run |
| GatewayAndNode.StepIsHonest | gateway/node.py:84-88 | with the three precautions, what the exposure theorem assumes about journal, receipts, not_submitted answers, session reads and binds follows from what node and chain do |
| GatewayAndNode.AnswerIsOwn | gateway/sessions.py:549-569 | a truthful answer about a chain id that passes the identity check of a row is about the session that the row's own operation opened |
| GatewayAndNode.BindIsOwnIff | gateway/sessions.py:690-718 | for a truthful answer that `bind` accepts in a sound state, the session was opened by this very operation if and only if no row of another operation ever carried its chain id |
| Identity.StepKnown | gateway/sessions.py:507-509 | over every step, each stored row, each borrower's copy and the lock holder's copy of a row carries only a chain id on record for that row, and a row without one is being opened, uncertain or failed |
| Identity.StepFrame | gateway/sessions.py:690-716 | a step puts at most one new row and chain id together: the answer to an open, the journal of an uncertain opening, a bind or an adoption |
| GatewayAndNode.ReceiptsAreHonest | gateway/sessions.py:799-808 | when pass 3 fails a row whose transactions come from a completed journal, the operation opened nothing and never will |
| GatewayAndNode.DeadNeverOpens | deploy/native/gateway_progress.go:40-46 | an operation that is over and whose broadcast opens all reverted has no session and gets none |
| ExposureOverrun.LostReadOverruns | gateway/node.py:146-160 | from any sound state confirming a live session, a read lost as not_submitted and one more admitted open bring the exposure up by that open's limit; if only the budget bounds it, the budget is exceeded exactly if live stakes exceed listed ones |
| ExposureOverrun.RunningJournalOverruns | gateway/sessions.py:799-808 | from any sound state in which the listed opens of a still served operation reverted, pass 3, a retry of the node and one more admitted open bring the exposure up by that open's limit |
| ExposureOverrun.WrongBindOverruns | gateway/sessions.py:690-718 | from any sound state in which `bind` accepts a closed session for an opening that may still land, the bind and one more admitted open bring the exposure up by that open's limit while the bound row is closed |
| ExposureOverrun.OneMoreOpen | gateway/sessions.py:427-503 | a preflight that is admitted runs through to the submission and adds exactly its limit to the exposure |
| OverrunRuns.LostConfirmationOverruns | gateway/node.py:146-160 | from an empty start, a run with the code's classification of reads reaches an exposure of 16 under a budget of 10 |
| OverrunRuns.EarlyReceiptsOverrun | gateway/sessions.py:759-808 | from an empty start, with reads counted as unknown, a run through pass 1 and pass 3 on an uncompleted journal does the same |
| OverrunRuns.WrongBindOverrun | gateway/sessions.py:818-887 | from an empty start, with both other precautions taken, a run in which a second opening is bound to the first one's closed session and then lands reaches 16 under a budget of 10 |
| Openers.AtMostOneOpener | gateway/sessions.py:206-254 | in every run two unfinished openers of one model are the same task, and it is the registered one |
| Openers.NoStaleEntry | gateway/sessions.py:248-253 | once all callbacks ran, the dictionary holds exactly the unfinished openers |
| Openers.OnlyFinishedLeave | gateway/sessions.py:372-374 | an entry is removed only when its own task is done, never a newer one |
| Openers.CallbackAfterReplacement | gateway/sessions.py:248-251 | a reachable run in which a completion callback finds a newer opener, which stays |
| Openers.Opener.StartOpen | gateway/sessions.py:345-357 | callers get the registered task, and a new one is registered only where none was |
| Openers.Opener.Finished | gateway/sessions.py:248-251 | the callback's effect on dictionary and task |
| Openers.Opener.LeaveWait | gateway/sessions.py:372-374 | the waiter's effect on the dictionary |
| NodeJournal.SilentMeansNeverSent | deploy/native/gateway_progress.go:32-67 | a file that is completed and not submitted: nothing but approvals of that operation was ever broadcast or will be, across failed writes and crashes |
| NodeJournal.CompletedListsAllSent | deploy/native/gateway_progress.go:61-63 | a completed file of an operation that builds without sending lists every transaction it ever sent or will send |
| NodeJournal.OverStaysOver | deploy/native/gateway_progress.go:40-42 | an operation id whose file exists and that nothing serves is never executed again |
| NodeJournal.BuildKeeps | deploy/patch_node.py:110-120 | the order attempt, build, build failure, record keeps every possible broadcast announced in the record |
| NodeJournal.AcceptsIff | deploy/native/gateway_progress.go:32-46 | an operation id is accepted if and only if it was never used and its file could be created and written |
| NodeJournal.TryLeaves | deploy/native/gateway_progress.go:58-60 | an announcement that could not be stored is taken back and nothing is built; a stored one is in memory and on disk |
| NodeJournal.BuildLeaves | deploy/patch_node.py:110-120 | what a builder returned is appended; after its failure the announcement is withdrawn if and only if nothing of the kind is recorded and the operation builds without sending |
| NodeJournal.NameAndEndLeave | deploy/native/gateway_progress.go:64-67 | session id and final status are on record, and a finished request is no longer served |
| NodeJournal.FailedAttemptErasesIff | deploy/native/gateway_progress.go:80-87 | a failed build erases the announcement of an earlier attempt exactly when nothing of its own kind was recorded |
| NodeJournal.ApprovalAfterOpenErases | deploy/native/gateway_progress.go:80-87 | an approval retried after a recorded open would make the journal deny the open, so the order of attempts matters |
| GatewayProgressObject.CheckGatewayStake | deploy/native/gateway_progress.go:68-71 | with a limit, an accepted amount is within it and a refused one above it; a limit of zero or less refuses everything |
| GatewayProgressObject.GatewayProgress.BeginGatewayOperation | deploy/native/gateway_progress.go:32-46 | an id gets a record only if its file could be created exclusively and stored |
| GatewayProgressObject.GatewayProgress.Persist | deploy/native/gateway_progress.go:47-56 | the file afterwards for each way the copy can end; nothing is written without an operation id |
| GatewayProgressObject.GatewayProgress.Attempt | deploy/native/gateway_progress.go:58-60 | the announcement is kept exactly when it was stored, while the file may already show it |
| GatewayProgressObject.GatewayProgress.Record | deploy/native/gateway_progress.go:61-63 | memory lists the transaction whether or not the copy succeeded |
| GatewayProgressObject.GatewayProgress.BuildFailure | deploy/native/gateway_progress.go:83-87 | the loop withdraws the announcement only if nothing of that kind is recorded |
| GatewayProgressObject.GatewayProgress.Finish | deploy/native/gateway_progress.go:67-67 | the record is completed in memory, and on disk if the copy got through |
| JournalEvidence.JournalNeverDiscards | gateway/sessions.py:749-771 | if the journal makes the gateway fail an uncertain opening or retry a close, that operation broadcast no such transaction and never will |
| JournalEvidence.RevertedIsConclusive | gateway/sessions.py:799-808 | for a completed journal every open ever broadcast is among those whose receipt reverted |
| JournalEvidence.ConclusiveIffCompleted | gateway/sessions.py:756-808 | a record served for an opening lists every open that any run giving it ever broadcasts if and only if it is completed |
| JournalEvidence.ServedMaySend | deploy/patch_node.py:110-120 | from any state, a served open may still broadcast any open transaction |
| JournalEvidence.RunningIsNot | gateway/sessions.py:802-806 | a run in which all recorded opens reverted and the node then broadcasts another one |
| SupervisorFiles.RollbackIsCrashConsistent | node_helper/app.py:112-139 | after any run of requests, failed starts and kills in which each rating change starts safely, a start that gets through leaves exactly the last committed rating, or the default if none was ever committed |
| SupervisorFiles.ConsistentIffSafe | node_helper/app.py:115-119 | a rating change is crash consistent for every fate if and only if no older change is pending with another rating in place |
| SupervisorFiles.CommitsOnlyWhenReady | node_helper/app.py:120-138 | a restart changes the committed rating only when the mark is removed after readiness, and to the requested one |
| SupervisorFiles.ReturnsIff | node_helper/app.py:112-139 | a restart is reported as done if and only if all writes got through, the node became ready and the mark was removed; then the rating asked for is in place |
| SupervisorFiles.MarkGoesOnlyWhenReady | node_helper/app.py:124-138 | the mark of a pending change goes only when the node was ready, with the new rating or with the saved one back in place |
| SupervisorFiles.FailedChangeIsTakenBack | node_helper/app.py:125-137 | after a bounce that failed the rating before the change is in place again if it could be written |
| SupervisorFiles.StartupRestores | node_helper/app.py:225-235 | interrupted recovery stays recoverable, and a finished one restores the committed rating |
| SupervisorFiles.FirstStart | node_helper/app.py:230-233 | the same from an empty directory, where the first start that gets through leaves the default |
| SupervisorFiles.GentleRunsAreSafe | node_helper/app.py:39-51 | kills anywhere never make a later change unsafe; only three kinds of reported write errors do |
| SupervisorFiles.UncommittedRatingSurvives | node_helper/app.py:116-119 | a run after which recovery leaves a rating that was never committed |
| SupervisorFiles.Supervisor.Replace | node_helper/app.py:39-51 | the file after an atomic write that may fail or be killed on either side of the replacement |
| SupervisorFiles.Supervisor.RestartNode | node_helper/app.py:112-139 | files and ending of a restart for every combination of failures and kills |
| SupervisorFiles.Supervisor.Lifespan | node_helper/app.py:225-235 | files and ending of the startup recovery |
| RestartOperations.RunsAtMostOnce | node_helper/app.py:314-349 | no operation id runs the supervisor twice, whatever is retried and wherever the helper dies |
| RestartOperations.RunsIff | node_helper/app.py:321-335 | an identified request runs the supervisor if and only if its id is new and its record was written first |
| RestartOperations.EndsOnRecord | node_helper/app.py:334-345 | a run whose record could be written is on record as succeeded with its result, failed or interrupted, as it ended |
| RestartOperations.ReplayIff | node_helper/app.py:321-330 | a repeated request gets the stored result exactly when the one run succeeded with the same fingerprint and its success record was kept; another fingerprint is always refused |
| RestartOperations.SuccessForgotten | node_helper/app.py:334-348 | a run whose supervisor succeeded and whose repeat is answered as already attempted |
| RestartOperations.RestartEndpoint.Begin | node_helper/app.py:318-333 | which reply a known id gets, and that the supervisor is called only after the record is stored |
| RestartOperations.RestartEndpoint.Finish | node_helper/app.py:334-348 | the record after success, failure or cancellation with its writes failing or being killed |
| Stake.GatewaySessionStake | deploy/native/gateway_stake.go:12-27 | refuses missing or non-positive inputs and durations below 300; otherwise exactly the stakes from the result upward keep the duration after one basis point of growth |
| Stake.ExactStake | deploy/native/gateway_stake_test.go:17-27 | a stake yields the duration through both floor divisions after that growth if and only if it is at least the rounded-up quotient |
| Stake.SmallerGrowthCovered | deploy/native/gateway_stake_test.go:18-26 | every supply up to one basis point above the quoted one is covered |
| Stake.Estimate | gateway/node.py:296-305 | the gateway's estimate is the same stake, refuses only a zero budget, and is zero for a zero price or supply, which the node refuses |
| SseRoundTrip.RoundTrip | gateway/transport.py:157-189 | payload texts sent as one data line each, then [DONE], arrive once and in order followed by the closing event, under every split into chunks that fit, and what follows [DONE] is not looked at |
| SseRoundTrip.BadTextEnds | gateway/transport.py:181-187 | a text that the parser refuses ends the stream with its code after everything before it was delivered |
| SseRoundTrip.LinesMean | gateway/transport.py:170-175 | several data lines of one event arrive as the one value whose lines they are |
| SseRoundTrip.IgnoredFrame | gateway/transport.py:171-173 | an event without a data line changes nothing |
| SseRoundTrip.SpacesIgnored | gateway/transport.py:170 | the number of spaces after the colon does not matter |
| Sse.ChunkIndependence | gateway/transport.py:163-190 | for any split of a stream without CR CR LF the decoder gives the events and the end of the whole-stream reading, or a prefix of them and too-large when the stream exceeds a limit |
| Sse.SameForAnySplit | gateway/transport.py:166-172 | two splits of one stream within the limits give equal events and ends |
| Sse.DoneIsLast | gateway/transport.py:180-182 | the closing event is emitted last, and exactly when the stream ends normally, for any split of any stream |
| Sse.DecidedWithinLimits | gateway/transport.py:160-166 | what is not cut off was decided by chunks that together do not exceed the limit, none of them larger than the buffer |
| Sse.CrushIdempotentIff | gateway/transport.py:172-172 | normalising line ends twice equals once if and only if the stream has no CR CR LF |
| Sse.SplitMatters | gateway/transport.py:172-174 | for any text followed by CR CR LF LF the event read depends on the split |
| Sse.DoneDependsOnSplit | gateway/transport.py:172-182 | one such stream ends normally under one split and not under another |
| SseSplits.IndependentIffStable | gateway/transport.py:163-190 | a stream is decoded like the whole-stream reading under every split and every meaning of its frames if and only if it is stable, a condition on the normalised stream |
| SseSplits.StableIsIndependent | gateway/transport.py:166-174 | stable streams may contain CR CR LF after their last frame and still decode the same |
| SseSplits.UnstableDepends | gateway/transport.py:172-174 | for every other stream, a split under which the decoder reports other frames |
| Sse.ChatEvents | gateway/transport.py:163-190 | the two loops compute the decoding that the round trip, the split theorems and the closing-event law speak about |
| JsonTree.ValidJsonTree | gateway/transport.py:12-27 | the stack loop terminates on every tree and accepts exactly what the recursive definition accepts |
| JsonTree.AcceptsIff | gateway/transport.py:17-26 | that definition is depth at most 64 together with clean scalars and keys everywhere |
| JsonTree.PopPush | gateway/transport.py:15-26 | replacing the popped value by its children keeps what remains to be decided |
| Rebalancing.RespectsCaps | gateway/sessions.py:159-179 | afterwards the open rows respect the total and per-model caps, and each is of an enabled model and by a provider that is not denied and, with an allowlist, listed |
| Rebalancing.DrainsOnlyWhenFull | gateway/sessions.py:168-176 | a row of an enabled model by an allowed provider is drained only if what stays uses up one of the caps |
| Rebalancing.LeasedDrainsOnlyWhenLeasedFill | gateway/sessions.py:162-176 | a leased eligible row is drained only if leased rows alone use up one of the caps |
| Rebalancing.OlderStay | gateway/sessions.py:162 | an allowed row is drained while another of its model stays only if that one is leased, or is as free and at least as old |
| Rebalancing.Idempotent | gateway/sessions.py:159-179 | a second run changes nothing, for any order of equally old rows |
| WalletScan.ScanMissesNothing | gateway/sessions.py:810-875 | with arrivals and failed reads anywhere, everything listed when a pass starts was examined when the offset returns to 0 |
| WalletScan.PassEnds | gateway/sessions.py:871-875 | with fewer than a page of arrivals per cycle the rest shrinks and the pass ends within that many cycles |
| WalletScan.FloodedPassNeverEnds | gateway/sessions.py:871-875 | with a page of arrivals before every cycle it never ends |
| WalletScan.Sweeper.SweepWallet | gateway/sessions.py:810-876 | one cycle examines the whole page and moves or resets the offset |
| Admission.WindowBounded | gateway/app.py:490-496 | any closed 60-second window of one process admits at most the configured number of requests |
| Admission.AdmitsIff | gateway/app.py:490-496 | in every reachable state a request is admitted if and only if fewer than the limit were admitted within the last minute of this process and fewer than the limit are in flight |
| Admission.InFlightExact | gateway/app.py:493-517 | the counter equals admitted minus cleaned-up requests and stays within the concurrency limit |
| Admission.PassesAtMostOnce | gateway/app.py:541-560 | two passes of one idempotency key are more than thirty days apart, across restarts and pruning |
| Admission.LedgerStepKeeps | gateway/store.py:60-73 | claiming, concluding, pruning and restarting keep each pass on record or past its retention |
| Admission.RestartForgetsWindow | gateway/app.py:490-496 | for all positive limits and every instant, a run that admits a full window, restarts and admits a second full window at that instant |
| Admission.Gate.Admit | gateway/app.py:490-496 | the pruning loop, which reads the clock before every removal, and both limits decide admission as the sliding window does at the last reading |
| Admission.Gate.ClaimKey | gateway/app.py:541-560 | a key passes exactly if it has no record, and is on record afterwards |
| SessionsObject.Sessions.RequireClearWallet | gateway/sessions.py:401-416 | true exactly when no other row and no withdrawal is unresolved |
| SessionsObject.Sessions.OpenCheck | gateway/sessions.py:427-435 | refines the store check of an opening |
| SessionsObject.Sessions.OpenSubmit | gateway/sessions.py:454-503 | refines the budget check, the durable intent and the submission |
| SessionsObject.Sessions.OpenFailed | gateway/sessions.py:531-543 | refines the error handler of an opening, with its two retries |
| SessionsObject.Sessions.CloseCheck | gateway/sessions.py:672-684 | refines the decision whether to close at all |
| SessionsObject.Sessions.CloseRead | gateway/sessions.py:609-620 | refines the first read and the submission of a close |
| SessionsObject.Sessions.TreasuryResolve | gateway/sessions.py:895-928 | refines the resolution of one earlier withdrawal |
| SessionsObject.Sessions.TreasurySubmit | gateway/sessions.py:942-959 | refines the submission of a withdrawal |
| SessionsObject.Sessions.ReconcileJournal | gateway/sessions.py:749-771 | refines the first reconcile pass on one row |
| SessionsObject.Sessions.ReconcileTruth | gateway/sessions.py:772-798 | refines the second reconcile pass on one row |
| SessionsObject.Sessions.ReconcileReceipts | gateway/sessions.py:799-808 | refines the third reconcile pass on one row |
| SessionsObject.Sessions.Bind | gateway/sessions.py:686-718 | refines binding a session to an uncertain opening |
| SessionsObject.Sessions.Scan | gateway/sessions.py:284-287 | refines the scan over the listed rows up to the next reservation |
| SessionsObject.Sessions.JudgeRow | gateway/sessions.py:290-327 | refines what the answers about a reserved row mean |
| SessionsObject.Sessions.AcquireVerify | gateway/sessions.py:288-333 | refines the segment after those answers |
| SessionsObject.Sessions.Rebalance | gateway/sessions.py:159-179 | the sorted loop drains exactly the rows about which the rebalancing theorems speak |
| SessionsObject.Sessions.RecoverRows | gateway/sessions.py:73-76 | the first recovery loop turns exactly the interrupted submissions into uncertain ones |
| SessionsObject.Sessions.RecoverOps | gateway/sessions.py:77-104 | the second recovery loop settles or marks every interrupted operation |
| SessionsObject.Sessions.Recover | gateway/sessions.py:68-104 | a new process over the surviving store is the crash-and-start step |

## Left out

- Identifiers are natural numbers: hash syntax, case folding and alias resolution are not modelled, and a row's model is looked up by its id.
- Error texts, `last_error`, provider cooldown, the back-off of failed openings, the event log and the estimate of day-locked stake: no protocol decision of this model depends on them.
- `tick`, `schedule_close` and the `closing` set: their effects appear as draining and close steps that may happen at any time.
- The trivial segments of treasury listing, sweep notes and adoption, pruning, policy changes and the restart timeout are steps of the machine without a method of their own.
- The wait for an opener inside `acquire`, deadlines and queue times: whether a waiting caller gives up is arbitrary, and no liveness is claimed.
- The wallet lock of the node and requests without an operation id are reduced to per-operation journals.
- Integer amounts only; the normalisation of rating weights and its floating-point arithmetic are not modelled.
- Parsing and validation of an event's JSON payload are a parameter of the decoder; `strict_json` duplicates and integer lengths are not modelled.
- Loss of a rename or an unlink by a power failure after the call returned: a crash ends the process, not the machine.
- HTTP clients, routing, authentication, the dashboard, packaging and the database engine.
- WalletSafety.AtMostOneUnresolved: speaks of runs in which `bind`, the third reconcile pass, the sweep's error handler and recovery are single steps; what happens when they are interleaved is stated in `StaleWrites`.
- Exposure.ExposureWithinBudget: assumes a fixed budget setting and `Honest` steps, that is, final journal, receipt and `not_submitted` answers, answers that pass an identity check being about the operation's own session, a failed confirming read counted as unknown, and adopted rows under ids that are no operation's.
- GatewayAndNode.JointExposureWithinBudget: derives what an answer tells about whose session it is, and the finality of journal, receipts and `not_submitted` answers; it assumes truthful chain answers about the chain id asked for, sessions opened through this gateway only, a node that names a session only after its open landed, one session per operation, a fixed budget setting, message-only refusals given before the open is tried, receipts that report what was mined, ids never used before for new operations and adopted rows, and passes that are single steps.
- CloseOutcome.NoSecondCloseUndecided: speaks of runs in which the passes are single steps; a late write of `bind` is a further way in which a pending close can be replaced.
- WithdrawalOutcome.LeavesIffDecided: recovery of operations is one step; a late write of it is treated in `StaleWrites`.
- PoolCaps.CapsHold: assumes a constant policy and no adopted session, since a lowered cap and an adoption may leave more live rows than the caps allow.
- SseRoundTrip.RoundTrip: payload texts are single lines that neither start with a space nor end with a CR, and every chunk fits into the buffer beside an incomplete event.
- NodeJournal.SilentMeansNeverSent: assumes that approvals precede the first attempt at the mutation and that one request keeps one sending mode.
- LeasedModel.LeaseIsOfModel: assumes that no row id is reused for another model.
- Admission.WindowBounded: holds within one process, because the window is not stored.
- SseSplits.IndependentIffStable: counts empty chunks as chunks, and streams within the buffer limit.
- SessionsObject.Sessions.Bind: read and write-back are one step; the interleaved form is in `StaleWrites`.
- SessionsObject.Sessions.ReconcileReceipts: read and write-back are one step; the interleaved form is in `StaleWrites`.
- SessionsObject.Sessions.RecoverOps: the loop is one step; the interleaved form, for the wallet bound, is in `StaleWrites`.
- SessionsObject.Sessions.Recover: start and recovery are one step; the interleaved form, for the wallet bound, is in `StaleWrites`.
- StaleWrites.CurrentRunIsAtomic: recovery is not interleaved there, because a partly recovered store is no state of the protocol machine.
- WalletScan.Sweeper.SweepWallet: what is done with each examined entry is a step of the protocol, not of this class.
