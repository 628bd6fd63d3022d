# Verified models of the durable protocols

This project models the protocols that the server and the browser worker run on top of one small record
store, and the in-memory structures beside them, and proves what they keep over every run. Nothing here
runs the original program.

`dafny verify dfyconfig.toml` checks everything.

## How it is built

A protocol is a state machine: `Next(state, event)` answers the state after one step, or `None` when the
event cannot happen there. One step is one call to the store, to Docker, to Google or to another outside
party, with the code up to the next `await`. Calls are processes with a program counter, so a run
interleaves any number of them exactly where the source awaits; a store call may also throw without effect
(`Throw`) or after its write went through (`Lose`, in the telephone protocol `Commit`), and the clock moves
freely. `Runs` has the facts used everywhere: an inductive invariant holds at the end of every run, and runs
compose. Random identifiers are fresh, hashes are injective, encryption is
invertible; what Docker, Chromium, Google or the telephone provider answers is arbitrary.

Beside each protocol there is a class with the methods of the source (`ComputerService`, `GoogleService`,
`ActionService`, `DeferredService`, `VoiceService`, `BrowserService`): loops, branches, swaps on named
fields, `try` and `finally` as in the source, with other calls running at every await. Each object keeps the
history of its run. `Grew` in the contract of a method says that this history only got longer and that the
call itself appears in the new part only with steps of its own program and with errors it was handed; `At`
says where its program stood before and where it stands after. So every theorem about runs holds for them.
What a method answers, and what it leaves in the record, is pinned by its course: ghost results that number
the steps it took in this history, with the state each of them found. The contract says in the fields of
those states, and in the answers of the outside party, which branch was taken and why, so a call that
fails, refuses or goes another way has seen what the source requires for that, or was thrown an error.
(`Moment`, `Seen` and `Left` in the service classes; `ComputerCourses` for the computer.)
`RecordStore`, `TenantScans`, `RateLimit` and `DownloadWorker` are classes proved against functions, and
`StoreProtocols` shows that the claim, swaps and inserts of the protocols are statements of that store.

| file | what it holds |
|---|---|
| `Runs` | runs of a step function; histories of calls that do not disturb each other |
| `ComputerLease`, `ComputerSafety`, `ComputerExclusion`, `ComputerReceipts`, `ComputerResults`, `ComputerSweeps`, `ComputerBacklog`, `ComputerCourses`, `ComputerService` | the computer lease, Stop, command receipts, and the sweep that interrupts them |
| `GoogleCredentials`, `GoogleService` | connect, callback, refresh and disconnect on one credential |
| `ActionApproval`, `ActionOutcomes`, `ActionFinality`, `ActionWitnesses`, `ActionService` | one action: propose, edit, retry, decide, reconcile, cancel, force-cancel, the expiry sweeps and crash recovery |
| `DeferredActions`, `DeferredFinality`, `DeferredService` | signers, the window to cancel, the execution round and the purge |
| `VoiceCalls`, `VoiceService` | the Idempotency-Key reservation |
| `Downloads`, `DownloadWorker` | journal, PDF and metadata files, with a log of every state a crash can leave |
| `RecordStore`, `StoreProtocols`, `Paging`, `OwnerPrefix`, `TenantStore`, `TenantScans` | the store, the protocols' swaps on it, keyset paging, LIKE prefixes, and the tenant-scoped store |
| `BrowserQueue`, `BrowserSafety`, `BrowserProgress`, `BrowserService` | promise-chain queues and session capacity |
| `RateLimit`, `RateLimitBound`, `RateLimitEviction` | the fixed-window limiter, its bound, and what evictions do to it |
| `Network` | public addresses |

## What turned out not to hold

Each of these is stated with the condition under which the property does hold.

- A receipt left running by a dead command is not always interrupted: a listing without a limit of its own
  answers with the 1000 newest rows, and behind as many newer receipts no sweep and no Stop ever sees it.
  `RunningForEverExactly` is the exact condition, `ForgottenReceiptIsReachable` a run, and the contract of
  `Commands` says what a sweep does decide. The same cap keeps a scheduled deferred action from ever running:
  `CrowdedActionNeverRuns`.
- A released lease whose command was being stopped need not have its stop confirmed: when the last store
  call of `stop` fails after the confirmation, the handler clears `stopConfirmed` on a lease the finished
  command may already have released. `ReleasedLeaseIsQuiet` has the exact condition, attempt by attempt;
  `OnlyItsHandlerOverturns` says when an attempt meets it, `UndoneStopIsReachable` that one can.
- `Store.claim` does not compare the hash that `decide` checked, so an edit between the two runs unreviewed:
  `WhatRanWasReviewed` and `EditBetweenReadAndClaimRuns`.
- An action can execute more than once: after a failure that was recorded, and after an operator reconciled an
  unknown outcome as not executed. `RunsOnceButForFailures` is the bound, `DisprovedOutcomeRunsTwice` reaches
  it; `RunsAgainExactly` is the exact condition for one execution more. While nobody reconciles it so, an
  unknown outcome without a decide at work stays closed: `OnlyADisproofReopensUnknown`.
- No status is final by itself. The outcome of a decide overwrites whatever is stored by then, a cancelled or
  reopened review included (`LateOutcomeOverwritesACancel`), and the swap of `retry` guards the status alone,
  so a retry that read an earlier, certain failure reopens a later one of uncertain outcome
  (`StaleRetryReopensDoubt`). `FinalExactly` is the exact condition.
- A cancelled deferred action can run: `decide` writes back the record it read without a guard, so a signature
  read before the cancel and saved after it brings the action back. `RunsAgainExactly` in `DeferredFinality`
  is the exact condition, `LateSignatureRunsACancelledAction` reaches it; late signatures and purges are also
  what a second run takes: `RunsOnceButForLateWrites`.
- One Idempotency-Key can dial twice: a provider call whose answer is lost counts as failed, and its
  reservation is removed. `AnotherAttemptExactly` and `WhatMayFollowACall` say when a key can be tried again,
  `LostAnswerDialsTwice` places two calls; `AnsweredCallIsTheLast` is what holds once an answer arrived.
- A disconnect whose write goes through and then fails erases the Google tokens and revokes nothing:
  `DisconnectRevokesWhatItErased`.
- `prefix.toString("ascii")` clears the top bit of each byte, so bytes that do not spell `%PDF-` can pass:
  `HeaderIsLiteral` and `HeaderIgnoresTopBits`.
- A failing `stat` counts as a missing file in recovery, which then marks a published download as failed:
  `RecoverySettles` says exactly when; captures go on to work beside it (`RecoveryIsComplete`).
- A row whose stamp goes back behind the cursor is read twice by a walk over pages:
  `RestampedBehindTheCursorIsReadTwice`.
- Tenant ids with two dashes in a row can be registered, but their prefix is refused by the validator:
  `SlugIsScannable`. One such tenant makes `scan` fall back to the rows of every tenant and makes the status
  scans throw (`TenantScopedStore.Scan`, `TenantScopedStore.ScanByStatusWithTenant`).
- `scanByStatusWithTenant` cuts at the limit before it looks at the status, and answers with every tenant's
  rows when no registered tenant has a match: the postconditions of `ScanByStatusWithTenant`.
- The limiter's bound depends on no open window being evicted: `AtMostTwiceTheLimit` says so key by key,
  `UncrowdedExactly` when nothing is evicted at all, `EvictionBreaksEveryBound` that there is no bound otherwise.
- The timer's sweep can change a verdict: a key whose window expired keeps its old place in the map unless the
  sweep removed it, so where open windows are evicted the sweep decides whose. `SweepsChangeNothing` has the
  condition, `SweepChangesAVerdict` a history.
- A limit of 0 lets one attempt through: `Limit` in `RateLimitBound`.
- `create("create", ...)` would wait for itself; the server only passes validated UUIDs:
  `CreateNamedCreateLocksUp`.

## Model

| member | source | states |
|---|---|---|
| `ComputerExclusion.ReleasedLeaseIsQuiet` | apps/server/src/computer.ts:410-447 | in every reachable state a lease with expiry 0 has its executor done and no Stop in flight, no command or file operation works under its token, and a stop asked for is confirmed exactly unless the handler of that very attempt took its confirmation back |
| `ComputerExclusion.OnlyItsHandlerOverturns` | apps/server/src/computer.ts:630-647 | a confirmation is taken back only by the failure handler of the attempt that made it, while that confirmation stands |
| `ComputerExclusion.TakeoverFindsNobody` | apps/server/src/computer.ts:381-409 | whoever acquires a released lease finds no command, no file operation and no Stop at work under it, whether or not the claim is told of its success |
| `ComputerExclusion.UndoneStopIsReachable` | apps/server/src/computer.ts:630-647 | a run in which the rollback of a confirmed Stop unconfirms an already released lease |
| `ComputerExclusion.OldHolderIsFenced` | apps/server/src/computer.ts:418-447 | a call holding a token that is no longer installed cannot change the lease by any step, failing ones included |
| `ComputerExclusion.ReplacedTokenNeverReturns` | apps/server/src/computer.ts:384-394 | once replaced, a token is never in the lease again in any continuation |
| `ComputerExclusion.OneStopInFlight` | apps/server/src/computer.ts:588-604 | at most one Stop attempt, explicit or by timeout cleanup, is in flight for a token |
| `ComputerExclusion.OnlyItsAttemptEndsAStop` | apps/server/src/computer.ts:630-647 | the in-flight flag is cleared only by the call that holds exactly that token and attempt |
| `ComputerExclusion.StaleSnapshotNeverWins` | apps/server/src/computer.ts:588-604 | a Stop or cleanup that succeeds in marking the lease found no attempt in flight, however old its snapshot |
| `ComputerExclusion.MutualExclusion` | apps/server/src/computer.ts:393-438 | while no lease reaches its expiry, two calls are in their critical sections together only when one is a command and the other the Stop that is stopping it |
| `ComputerReceipts.ExecAtMostOncePerOperation` | apps/server/src/computer.ts:668-712 | over all runs and retries `docker exec` starts at most once per operation id, after the receipt was saved, and a receipt that says it ran means it did |
| `ComputerReceipts.DecidedReceiptIsFinal` | apps/server/src/computer.ts:606-621 | a receipt leaves `running` once; interrupted by Stop or expiry it never becomes succeeded, failed or timed out |
| `ComputerReceipts.ReturnedReceiptIsDecided` | apps/server/src/computer.ts:788-816 | a call that saved a receipt and returned left it decided |
| `ComputerResults.ReceiptsTellTheResult` | apps/server/src/computer.ts:729-816 | over every run a receipt that a Stop, a sweep or a refusal interrupted says interrupted; any other decided one says succeeded, failed, timed out or interrupted exactly as exit code, timeout and interruption of the recorded Docker result ask for |
| `ComputerResults.ResultIsTheAnswer` | apps/server/src/computer.ts:710-740 | the recorded result of a command is what Docker answered to it, once, and is never replaced |
| `ComputerService.Computer.Acquire` | apps/server/src/computer.ts:381-409 | acquire is refused exactly if the lease it read is live at its clock check or was replaced by its claim, or a call failed; otherwise its own fresh lease of three minutes is in the record |
| `ComputerService.Computer.Leave` | apps/server/src/computer.ts:417-437 | the finally block marks the executor of a command done, gives up a lease nobody stops, then one whose stop is confirmed, each on its own token only, and ends as its operation did unless one of these calls failed |
| `ComputerService.Computer.Operate` | apps/server/src/computer.ts:410-438 | a start or file operation acquires its lease, and goes through the finally block however Docker ended |
| `ComputerService.Computer.Stop` | apps/server/src/computer.ts:577-651 | a lapsed lease is acquired first, and a live one refused exactly if busy with another operation or Stop; a stop that returns has decided every receipt its listing answered with, stopped Docker, confirmed and released; one that got its attempt onto the lease and does not return was failed by Docker or the store, and has taken the attempt back unless that failed too |
| `ComputerService.Computer.Execute` | apps/server/src/computer.ts:658-820 | the command runs exactly if its receipt is new and its lease, read again, is still active; a lost client's cleanup marks, stops, and confirms or undoes; the receipt gets the status its result asks for unless it was interrupted; the lease is given up however it ended; a returned receipt is decided as `ReceiptsTellTheResult` says, and the operation id has started Docker at most once |
| `ComputerService.Computer.Commands` | apps/server/src/computer.ts:448-470 | by protocol steps only, a sweep that returns leaves decided what was decided when it listed and what the listing answered with, so every receipt there was at its start if there are at most 1000; unless it read after its start a lease that was still to expire |
| `ComputerSweeps.RunningForEverExactly` | apps/server/src/db.ts:74-92 | in every reachable state a running receipt can still be decided if and only if fewer than 1000 receipts are newer in the order of a listing, or its command, a sweep or a Stop is at work on it |
| `ComputerSweeps.NewestIsAPage` | apps/server/src/db.ts:74-92 | the receipts a sweep sees are exactly the first page of 1000 in the order of the query |
| `ComputerBacklog.ForgottenReceiptIsReachable` | apps/server/src/computer.ts:448-470 | a run that leaves a receipt running in every continuation, behind 1000 newer ones |
| `GoogleCredentials.StoredFollowsItsConnect` | apps/server/src/google-auth.ts:77-93 | tokens are stored only as the very next credential change after the connect that issued the state, so each connect stores at most once and disconnect defeats every pending consent |
| `GoogleCredentials.CredentialIsConsistent` | apps/server/src/google-auth.ts:94-120 | secret and connection id are both there or both absent, and the secret carries the record's connection |
| `GoogleCredentials.GoneConnectionNeverReturns` | apps/server/src/google-auth.ts:246-275 | a replaced or disconnected connection never comes back, whatever refreshes are in flight in whatever processes |
| `GoogleCredentials.DisconnectRevokesWhatItErased` | apps/server/src/google-auth.ts:276-292 | a disconnect that takes effect empties the record and goes on to revoke exactly the tokens it erased, or nothing if the write failed after it went through |
| `GoogleCredentials.CarriedRefreshTokenIsLive` | apps/server/src/google-auth.ts:216-229 | a sign-in stores the refresh token it was granted, or else the one live at that very moment if it is of the same account |
| `GoogleCredentials.OneRefreshPerConnection` | apps/server/src/google-auth.ts:239-244 | each server process has at most one refresh of a connection under way |
| `GoogleCredentials.EveryRefreshIsUnderWay` | apps/server/src/google-auth.ts:239-244 | whoever joins a refresh waits for a call of the same process that is still at it: no entry is left behind, however refreshes end |
| `GoogleCredentials.EveryConnectionIsAccountedFor` | apps/server/src/google-auth.ts:94-120 | the live connection is that of the last stored sign-in since the last disconnect, and each disconnect erased the one then live |
| `GoogleService.GoogleAuth.RotateGeneration` | apps/server/src/google-auth.ts:94-120 | the retry loop ends once others stop changing the record, and then the record is the handed-back one with the new generation, emptied on disconnect |
| `GoogleService.GoogleAuth.Connect` | apps/server/src/google-auth.ts:121-163 | a connect has put its generation into the record and saved a state that carries it and expires in ten minutes; it fails only if a call it awaited fails |
| `GoogleService.GoogleAuth.Callback` | apps/server/src/google-auth.ts:179-232 | a callback succeeds exactly if its state was pending and in time, the record had its generation before and at the swap, and Google granted; then the record has exactly the granted tokens, with the refresh token carried over within one account only; unless a call failed |
| `GoogleService.GoogleAuth.Save` | apps/server/src/google-auth.ts:77-93 | a successful save is the last change of the record, consumes the generation of its state and leaves these tokens and their connection |
| `GoogleService.GoogleAuth.AccessToken` | apps/server/src/google-auth.ts:233-275 | the record is read, and its token answered with exactly if it is of the expected connection and has more than a minute left at the decision; otherwise a refresh of this process is joined, or made: Google's token is answered with, and stored with its new expiry, exactly if the record still has the connection; no tokens, another connection, no refresh token, a refusal or a thrown call are the only ways to fail |
| `GoogleService.GoogleAuth.Disconnect` | apps/server/src/google-auth.ts:276-295 | what it sends to revocation is what its own disconnect erased from the record; it fails only if a call it awaited fails |
| `ActionApproval.ApprovalsAreConserved` | apps/server/src/actions.ts:232-306 | through every writer of the record: approvals + denials + cancellations + open reviews overwritten by a late outcome + (1 while open or expired) = 1 + retries, and executions are at most the approvals |
| `ActionApproval.RunsOnceButForFailures` | apps/server/src/engine/routes.ts:106-141 | an action executes once, and once more at most for each recorded failure and each unknown outcome reconciled as not executed |
| `ActionApproval.WhatRanWasReviewed` | apps/server/src/actions.ts:241-306 | what ran is what was reviewed when the content did not change between the read and the claim, and in any case if and only if the hashes agree or name the same data, one as proposed and one as edited |
| `ActionOutcomes.EveryOutcomeHasItsCause` | apps/server/src/actions.ts:367-397 | over every run a record reads succeeded, failed, failed with doubt or unknown only after a provider answer that says so, or an operator's word, or an execution given up on; expired only from its expiry on; denied, cancelled and executing only after that was decided |
| `ActionWitnesses.EditBetweenReadAndClaimRuns` | apps/server/src/db.ts:324-336 | a run in which an edit after the hash check is executed unreviewed |
| `ActionFinality.FinalExactly` | apps/server/src/actions.ts:397 | in every reachable state the record never changes and never executes again if and only if it succeeded, expired, was cancelled, or failed uncertainly with no retry at its swap, and every decide at work is about to save just what is stored |
| `ActionFinality.RunsAgainExactly` | apps/server/src/actions.ts:119-146 | in every reachable state the action can execute again if and only if a claimed execution has still to start, or a claim is in time and the review is open, can be reopened, or can be once a decide at work has recorded its outcome |
| `ActionFinality.OnlyADisproofReopensUnknown` | apps/server/src/engine/routes.ts:106-141 | an unknown outcome without a decide at work neither changes nor executes again, but for an operator's word that it was executed, until one declares it not executed |
| `ActionWitnesses.DisprovedOutcomeRunsTwice` | apps/server/src/engine/routes.ts:127-141 | a run with no failure and one such declaration that executes twice, so the bound is reached |
| `ActionWitnesses.LateOutcomeOverwritesACancel` | apps/server/src/engine/routes.ts:222-239 | a run in which a cancelled action later reads succeeded |
| `ActionFinality.DoubtIsReopenedByStaleRetriesOnly` | apps/server/src/actions.ts:129-143 | one step brings an uncertain failure back to review if and only if it is the swap of a retry that read an earlier failure |
| `ActionWitnesses.StaleRetryReopensDoubt` | apps/server/src/actions.ts:136-143 | a run in which such a stale retry reopens the uncertain failure |
| `ActionService.Actions.Edit` | apps/server/src/actions.ts:88-116 | an edit succeeds exactly if the review was open with the expected hash when read and at its swap, unless a call failed, and replaces its data and hash together, and nothing else |
| `ActionService.Actions.Retry` | apps/server/src/actions.ts:119-146 | a retry succeeds exactly if it read a failure or denial without doubt and found the same status at its swap, unless a call failed, and reopens what it found |
| `ActionService.Actions.Propose` | apps/server/src/actions.ts:153-230 | a keyed proposal is stored exactly if its last step found nothing; otherwise what is there stays; it fails only if a call fails |
| `ActionService.Actions.Decide` | apps/server/src/actions.ts:232-397 | from the record, the task, the clock, the gates and the claim it met follows whether a decision is an error, is answered with what is there, expires the review, denies it or executes it; an execution that returned was recorded as succeeded, unknown, failed or failed with doubt exactly as the provider answered; it was approved with the given hash reviewed, within the bound on executions |
| `ActionService.Actions.Reconcile` | apps/server/src/engine/routes.ts:106-141 | a reconcile succeeds exactly if it found the outcome unknown when reading and at its swap, unless a call failed, and made it succeeded or failed, without doubt |
| `ActionService.Actions.Cancel` | apps/server/src/engine/routes.ts:176-239 | a cancel succeeds exactly if it found an open review twice, and cancelled it; a forced one an execution, whose outcome it made unknown; unless a call failed |
| `ActionService.Actions.Expire` | apps/server/src/engine/worker.ts:205-224 | the sweep closes a review exactly if it read it open and past its expiry and the swap found it so |
| `DeferredActions.RunsAreSignedAndRipe` | apps/server/src/actions-deferred.ts:59-111 | each run is of a record that some decide made, signed by at least the needed number of different people, and starts only when the whole window has passed since that decide |
| `DeferredActions.RunsOnceButForLateWrites` | apps/server/src/engine/service.ts:505-536 | runs and cancellations together are at most 1, plus one for each signature saved over a record no longer collecting and for each purge of the record |
| `DeferredFinality.RunsAgainExactly` | apps/server/src/actions-deferred.ts:89-140 | in every reachable state the action can run again before its record is purged if and only if the record is absent, collecting, or scheduled and in reach of a listing of 1000, a tick has claimed it, or a signature is about to be saved; so a cancel is final exactly without the last two |
| `DeferredFinality.CrowdedActionNeverRuns` | apps/server/src/actions-deferred.ts:130-140 | a run that leaves a scheduled action, cancelled by nobody, behind 1000 newer records, from where it never runs |
| `DeferredFinality.LateSignatureRunsACancelledAction` | apps/server/src/actions-deferred.ts:59-86 | a run in which a signature saved after a successful cancel makes the action run |
| `DeferredService.Deferred.Decide` | apps/server/src/actions-deferred.ts:59-86 | a decide fails exactly for another owner, a record no longer collecting, or a user who signed, unless a call failed; otherwise it saved the record it had read with this user as the last of different signers, scheduled one window ahead exactly if the signers are enough |
| `DeferredService.Deferred.Cancel` | apps/server/src/actions-deferred.ts:89-95 | a cancel succeeds exactly if its user had signed the action of its owner and it was open, with the same status at the swap, unless a call failed, and marked it cancelled, and nothing else |
| `DeferredService.Deferred.Tick` | apps/server/src/actions-deferred.ts:98-111 | a round runs exactly the record that was due and in reach of a listing and still scheduled twice; it saves executed if the run ended well, and failed if it did not or that saving failed; no run is before its record was due |
| `VoiceCalls.OneCallPerKey` | apps/server/src/voice-routes.ts:119-181 | attempts under one key never overlap, at most one answer ever arrives, and calls placed are at most one more than answers lost |
| `VoiceCalls.AnotherAttemptExactly` | apps/server/src/voice-routes.ts:155-158 | the provider can be asked again under a key if and only if its reservation is gone, or the request that made it is still dialling or about to remove it |
| `VoiceCalls.AnsweredCallIsTheLast` | apps/server/src/voice-routes.ts:160-181 | after an answer arrived the provider is never asked again, even when saving its record failed |
| `VoiceCalls.WhatMayFollowACall` | packages/integrations/src/vapi.ts:106-122 | another attempt can follow a provider call exactly unless its answer arrived, a removal unless it fails, and a request that dies in either not at all |
| `VoiceCalls.LostAnswerDialsTwice` | packages/integrations/src/vapi.ts:117-122 | a run that places two calls under one key after a lost answer |
| `VoiceService.Calls.PostCall` | apps/server/src/voice-routes.ts:119-181 | a request that finds the key taken answers with a replay exactly if the record it reads is there and not pending, and with in progress otherwise; one that reserved it reports a placed call exactly if its provider call answered and its save went through, and removes its reservation if it did not; an answered call is the one and the last, a lost answer leaves one more call unaccounted for |
| `VoiceService.Calls.Refresh` | apps/server/src/voice-routes.ts:183-207 | only a call that has not ended is asked for, and exactly an answer of the provider is saved |
| `Downloads.GuaranteeIsRely` | apps/worker/src/downloads.ts:56-154 | what one capture does to the shared directory is what every other capture relies on, so captures compose |
| `Downloads.RecoverySettles` | apps/worker/src/downloads.ts:30-52 | after recovery nothing is pending and each journalled download is published or failed, both exactly when it was before or its metadata could not be looked up; an entry goes exactly if it was pending for a download seen to be published, and else keeps all but its status; PDFs and metadata are untouched |
| `Downloads.RecoveryIsIdempotent` | apps/worker/src/downloads.ts:30-52 | a second recovery changes nothing |
| `Downloads.RecoveryIsComplete` | apps/worker/src/downloads.ts:30-52 | whatever could not be looked up, recovery keeps visible metadata backed by a complete PDF and the journal readable, so later captures keep their guarantees |
| `Downloads.RemovalNeedsNoMetadata` | apps/worker/src/downloads.ts:138-150 | removing the PDF, as the failure handler does, keeps metadata backed if and only if the metadata is not visible |
| `Downloads.FlattenJoins` | apps/worker/src/downloads.ts:103-123 | the bytes of a stream are those of its chunks in order, however it is cut |
| `Downloads.HeaderIsLiteral` | apps/worker/src/downloads.ts:124-128 | the header test means the five bytes spell `%PDF-` exactly when all of them are below 128 |
| `Downloads.NewestFirstSorts` | apps/worker/src/downloads.ts:51 | the failure list is a permutation ordered newest first |
| `DownloadWorker.CapturePdfDownload` | apps/worker/src/downloads.ts:54-154 | with other captures interleaved and any file operation failing, every state left behind keeps metadata backed by complete PDFs and this download not both published and failed; without failures it imports if and only if the limit was not reached, the stream is whole, has at most 10485760 bytes and begins with `%PDF-` up to the top bits, and each other case has its code; undisturbed it keeps the hundred newest failures, its own reason among them or older than all of them |
| `DownloadWorker.Pipe` | apps/worker/src/downloads.ts:103-123 | whatever the chunking, the file, the byte count and the five-byte prefix are those of the whole stream, never above 10 MiB |
| `DownloadWorker.Publish` | apps/worker/src/downloads.ts:129-137 | metadata becomes visible only beside its complete PDF, and a failure to clear the journal leaves both |
| `DownloadWorker.ForgetOldFailures` | apps/worker/src/downloads.ts:146-149 | only failures go, and what stays are the hundred newest |
| `DownloadWorker.ReadDownloadFailures` | apps/worker/src/downloads.ts:30-52 | with other captures at work: every listed entry was read, those read as failed are answered, each once and nothing else, newest first, and none of them is pending |
| `DownloadWorker.RecoverDownloads` | apps/worker/src/downloads.ts:30-52 | every state a crashed recovery leaves recovers to the same files as the first would have; a finished one left exactly those |
| `RecordStore.SwapHitsExactly` | apps/server/src/db.ts:146-158 | a swap hits if and only if the row has every expected field, takes over each field of the patch, keeps the others, and touches no other row |
| `RecordStore.ClaimHitsExactly` | apps/server/src/db.ts:324-336 | a claim hits if and only if the action is under review, in time, and its task, if it names one, open for an execution; it sets the status alone |
| `RecordStore.ReadsWhatWasWritten` | apps/server/src/db.ts:132-145 | a put is what a get reads, a take hands over what was there, a removal and a take leave nothing, and other rows stay |
| `RecordStore.OneSwapWins` | apps/server/src/db.ts:146-158 | of two swaps from the same reading, the second fails once the first changed a guarded field |
| `RecordStore.ClaimWinsOnce` | apps/server/src/db.ts:324-336 | a claim that succeeds found the action open and in time, and the next claim finds nothing |
| `RecordStore.FirstInsertWins` | apps/server/src/db.ts:159-169 | an insert hits exactly where there was no row, stores what it was given and touches no other; a second insert of the key misses |
| `RecordStore.TakenOnce` | apps/server/src/db.ts:343-349 | what one take handed out no later take hands out again |
| `RecordStore.UpdateNeedsItsConnection` | apps/server/src/db.ts:353-359 | an update of the secret hits exactly the record that still has the connection, and changes the secret alone |
| `RecordStore.StaleUpdateChangesNothing` | apps/server/src/db.ts:353-359 | once a swap has changed the connection, an update for the old one changes nothing |
| `StoreProtocols.ClaimIsTheProtocols` | apps/server/src/db.ts:324-336 | on a row that represents the protocol's action the store's claim hits exactly what the protocol calls claimable, and leaves the row of the claimed action |
| `StoreProtocols.SwapIsTheProtocols` | apps/server/src/db.ts:146-158 | likewise for every swap that guards the status or the status and the hash |
| `StoreProtocols.LeaseSwapIsTheProtocols` | apps/server/src/db.ts:146-158 | likewise for every swap of the computer lease, whatever fields it names |
| `StoreProtocols.CredentialSwapIsTheProtocols` | apps/server/src/db.ts:146-158 | likewise for every swap of the Google credential, whatever fields it names |
| `StoreProtocols.CredentialWritesAreTheProtocols` | apps/server/src/db.ts:353-359 | the insert of the credential and the update of its secret are the protocol's |
| `StoreProtocols.DeferredSwapIsTheProtocols` | apps/server/src/actions-deferred.ts:144-170 | the claim and the cancellation of a deferred action are the protocol's |
| `StoreProtocols.DeferredPutsAreTheProtocols` | apps/server/src/actions-deferred.ts:59-111 | so are the puts of a signature and of the outcome of a run |
| `StoreProtocols.CallWritesAreTheProtocols` | apps/server/src/voice-routes.ts:119-181 | the reservation of a call, its removal and its record are the protocol's |
| `RecordStore.Store.CompareAndSwap` | apps/server/src/db.ts:146-158 | the update applies exactly when the record contains the expectation, and merges the patch |
| `RecordStore.Store.Claim` | apps/server/src/db.ts:324-336 | the claim applies exactly to an open, unexpired action whose task of the same owner allows it |
| `RecordStore.Store.InsertIfAbsent` | apps/server/src/db.ts:159-169 | the insert is the store step that `FirstInsertWins` speaks about |
| `RecordStore.Store.Take` | apps/server/src/db.ts:343-349 | the take is the store step that `TakenOnce` speaks about |
| `RecordStore.Store.UpdateCredential` | apps/server/src/db.ts:353-359 | the update is the store step that `UpdateNeedsItsConnection` speaks about |
| `Paging.ListPaged` | apps/server/src/db.ts:93-120 | a page is the first rows after the cursor in order, and stops short only when nothing is left |
| `Paging.Walk` | apps/server/src/db.ts:93-120 | with stamps that never go back for a row, following cursors ends; under concurrent writes no row is read twice, every row untouched during the walk is read, and every row read stood in the table |
| `Paging.WalkStatic` | apps/server/src/db.ts:93-120 | on a table nobody writes, the pages concatenate to what one query without a limit answers |
| `Paging.OneOrder` | apps/server/src/db.ts:107 | the order of the query leaves one listing of a set of rows |
| `Paging.RestampedBehindTheCursorIsReadTwice` | apps/server/src/db.ts:132-138 | in every walk, a row that was read and is restamped behind the cursor is read a second time, so stamps per row have to grow |
| `OwnerPrefix.EscapeIsExact` | apps/server/src/db.ts:227 | the escaped pattern selects exactly the owners that start with the prefix if and only if the prefix has no backslash |
| `OwnerPrefix.AcceptedIsExact` | apps/server/src/db.ts:215-232 | so it does for every prefix the validator accepts |
| `OwnerPrefix.PeelUndoesCompose` | apps/server/src/db-tenant.ts:267-270 | peeling recovers the owner exactly for tenant ids without a colon |
| `OwnerPrefix.WhenKeysCollide` | apps/server/src/db-tenant.ts:15-19 | two tenants can own one composed key exactly when they are the same or one continues the other past a colon |
| `TenantStore.TenantHasItsOwnStore` | apps/server/src/db-tenant.ts:15-73 | every keyed operation answers, and changes the tenant's rows, as on a store of its own, the task lookup of claim included |
| `TenantStore.OtherTenantsUnchanged` | apps/server/src/db-tenant.ts:15-73 | and changes nothing any other tenant sees |
| `TenantStore.HistoriesAreIsolated` | apps/server/src/db-tenant.ts:15-73 | over any history, each tenant's answers and final rows are those of its own calls alone |
| `TenantStore.ColonsBreakIsolation` | apps/server/src/db-tenant.ts:259-266 | with a colon in a tenant id the isolation is false |
| `TenantScans.TenantScopedStore.CompareAndSwap` | apps/server/src/db-tenant.ts:45-53 | the composed call is a swap in the tenant's own store and invisible to all other tenants |
| `TenantScans.TenantScopedStore.Claim` | apps/server/src/db-tenant.ts:59-61 | likewise for claim |
| `TenantScans.RoomForAll` | apps/server/src/db.ts:215-232 | a scan whose prefix has no more rows than the limit misses none |
| `TenantScans.TenantScopedStore.Scan` | apps/server/src/db-tenant.ts:128-156 | the scan visits stored rows of registered tenants, each once, and all of them when it answers with fewer than the limit; a refused prefix opens it to every tenant |
| `TenantScans.TenantScopedStore.ScanByStatusWithTenant` | apps/server/src/db-tenant.ts:170-205 | rows with a wanted status, each once, each leading back to its stored key, and all of a tenant's when its rows fit the limit |
| `TenantScans.TagTraces` | apps/server/src/db-tenant.ts:191-204 | an answered tenant and owner recompose to the stored key, but for a key that starts with a colon and whose tenant was read off it |
| `TenantScans.SlugIsScannable` | apps/server/src/admin-tenants.ts:137 | a registrable tenant id can be scanned exactly when it has no two dashes in a row |
| `BrowserSafety.OneAtATimeInOrder` | apps/worker/src/browser.ts:65-74 | calls of one key run one at a time, in call order, whether or not earlier ones fail |
| `BrowserSafety.IdleLeavesNoEntry` | apps/worker/src/browser.ts:65-74 | the map holds a key only while a call of that key is not through |
| `BrowserSafety.CapacityIsNeverExceeded` | apps/worker/src/browser.ts:152-166 | at every await running sessions are within the limit and known, and profiles never pass twenty or the number on disk |
| `BrowserProgress.NothingLocksUp` | apps/worker/src/browser.ts:296-301 | from every reachable state all calls can be run to their end, and then the map is empty |
| `BrowserProgress.WorkShrinks` | apps/worker/src/browser.ts:65-74 | every step that is not a new call leaves less to do, so no schedule runs forever |
| `BrowserProgress.CreateNamedCreateLocksUp` | apps/worker/src/browser.ts:298-299 | creating a session named like the creation queue would wait for itself |
| `BrowserService.Manager.CreateSession` | apps/worker/src/browser.ts:152-288 | a running session is navigated; one more is launched exactly below both limits, and stays exactly if it could be set up, withdrawn otherwise; creating leaves the bounds intact, and when it returns the session runs |
| `BrowserService.Manager.UseSession` | apps/worker/src/browser.ts:300-330 | an operation is tried exactly if its session runs, succeeds exactly if it goes well, and leaves it running and known |
| `BrowserService.Manager.CloseSession` | apps/worker/src/browser.ts:137-151 | a close fails exactly for an unknown session or when closing the browser does, and otherwise leaves it known and not running |
| `BrowserService.Manager.Leave` | apps/worker/src/browser.ts:69-73 | the entry goes unless a later call took it over, and is gone once its key is idle |
| `RateLimit.CapacityIsNeverExceeded` | apps/server/src/rate-limit.ts:54-82 | through every history of attempts, sweeps and resets the map holds each key once and never more keys than its capacity, one where none is configured |
| `RateLimit.RateLimiter.Take` | apps/server/src/rate-limit.ts:54-65 | take computes the specified table and verdict |
| `RateLimit.RateLimiter.Prune` | apps/server/src/rate-limit.ts:72-82 | prune computes the specified table |
| `RateLimit.RateLimiter.Sweep` | apps/server/src/rate-limit.ts:28-34 | the timer sweep removes exactly the closed windows |
| `RateLimitBound.KeysAreIndependent` | apps/server/src/rate-limit.ts:54-82 | in every history that evicts and resets no open window of a key, that key gets the verdicts of a limiter of its own |
| `RateLimitEviction.IndependentExactly` | apps/server/src/rate-limit.ts:54-82 | asked at any moment and however often, the limiter answers a key as one of its own if and only if no open window of that key was evicted or reset |
| `RateLimitEviction.UncrowdedExactly` | apps/server/src/rate-limit.ts:72-82 | without resets no open window of any key is evicted if and only if no attempt opens a window while as many windows are open as there is room for |
| `RateLimitBound.RetryAfterIsExact` | apps/server/src/rate-limit.ts:57-62 | after a refusal, and through any sweeps, refused attempts and attempts of other keys that spare the window, the next attempt is allowed exactly from the announced moment on |
| `RateLimitBound.AtMostTwiceTheLimit` | apps/server/src/rate-limit.ts:54-65 | any interval of one window length has at most twice the limit of allowed takes for a key none of whose open windows is evicted or reset, however many keys come and go |
| `RateLimitEviction.EvictionBreaksEveryBound` | apps/server/src/rate-limit.ts:77-81 | with evictions there is no bound: for every limit and window, two keys that evict each other are allowed any number of takes at one moment |
| `RateLimitBound.TwiceTheLimitHappens` | apps/server/src/rate-limit.ts:57-63 | for every limit, window and room the limiter itself reaches that bound |
| `RateLimitEviction.SweepsChangeNothing` | apps/server/src/rate-limit.ts:28-34 | while no attempt opens a window without room for it beside the open ones, the timer sweep changes no verdict; and whether that is so does not depend on the sweeps |
| `RateLimitEviction.SweepChangesAVerdict` | apps/server/src/rate-limit.ts:28-34 | a history with evictions in which the sweep turns an allowed take into a refusal |
| `Network.Public4IsOutsideReserved` | apps/worker/src/network.ts:8-24 | on 32-bit addresses the verdict is the complement of a list of CIDR blocks |
| `Network.Public6IsGlobalUncarved` | apps/worker/src/network.ts:35-43 | on 128-bit addresses it is 2000::/3 without four carved blocks, and the last two clauses add nothing |
| `Network.SpellingDoesNotMatter` | apps/worker/src/network.ts:26-34 | every spelling in hexadecimal words, with or without "::" and in either case, gets the verdict of its eight words (section 2.2 of RFC 4291) |
| `Network.SpellingsOfPublicAddresses` | apps/worker/src/network.ts:26-43 | from text to blocks: such a spelling is public exactly if the 128-bit number of its eight words is in 2000::/3 and in none of the carved blocks |
| `Network.DottedTextIsRefused` | apps/worker/src/network.ts:26 | text with a dotted tail or a zone is refused, whatever its address |
| `Network.Select` | apps/worker/src/network.ts:93-97 | nothing unless every address is public, then the first IPv4 address, or the first of all |

## Left out

- HTTP routing, schemas, user interface, scripts, audits and backups: no protocol of their own.
- Docker, Chromium, Google and the telephone provider are steps with an arbitrary result. Calls placed although
  their answer was lost are counted for the telephone provider alone.
- A store call that takes effect and then throws is a step of every protocol on the store; the methods of the
  service classes meet it in the other calls, and themselves throw only without effect.
- A command that still runs inside the container after its Docker client was lost: the protocol tracks the
  executor, and the cleanup stop that the source issues for it.
- Leases written before `stopAttempt` existed: every lease here has the field.
- One clock for all processes of a run; `now()` of the database and of the server are not told apart.
- `Store.transaction` and row-level security: BEGIN goes through a pool and a process-wide flag, so there is
  no atomicity to claim.
- `scanByStatusWithCursor`, `purgeOlderThan`, `select` and `rawQuery`: the first pages by a truncated
  timestamp, the others bypass the tenant key by design.
- `count`, `scanByStatus` and the fallback for stores without `scanByOwnerPrefix`: easy members beside the ones modelled.
- `compareAndSwap` and `Contains` are modelled on flat records; nested containment is not.
- Paging.Walk: takes it that the stamps of one row never go back, which a transaction's start time does not promise.
- StoreProtocols.SwapIsTheProtocols: on flat rows; the swap that also guards the expiry compares its text, which is not modelled there.
- RecordStore.Store.List: answers with the rows a listing query orders and cuts; the order and the limit are modelled in `Paging`.
- The `deferred` branch of `ActionService.decide`, which the application does not configure; `run` of a deferred
  action is abstract, and the in-memory store beside the persistent one is not modelled.
- DeferredActions.RunsOnceButForLateWrites: lets a purge come at any time, although the source purges by the age of the record.
- The activity, audit and notification records written beside an action, and the task that a reconcile moves on.
- `propose` without a key, which stores under a fresh id.
- The number of PDF downloads per session, which is checked against a listing read at another moment; the
  100 ms monitor is an arbitrary bit; file names and the error texts.
- DownloadWorker.Disk.Rename: fails only without effect; after one that took effect and then reported an error the
  failure handler would remove the PDF under visible metadata (`RemovalNeedsNoMetadata`).
- The hundred receipts that `commands` answers with, newest start first.
- Losing power between a write and its reaching the disk: a crash here ends the process, not the machine.
- Downloads.RecoverySettles: a partial PDF that an interrupted transfer leaves behind is not removed by recovery, nor here.
- Closing the whole browser manager, which closes sessions beside their queues.
- Parsing addresses (`isIP`) and resolving names; IPv4 is modelled on its four numbers, and an IPv6 address with a
  dotted tail, such as `2606:4700::1.2.3.4`, is refused as in the source and gets no number here.
- GoogleService.GoogleAuth.AccessToken: a call that joins a refresh ends waiting for it.
- The task worker, the kernel and outbound messaging are not part of this model.
