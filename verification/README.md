# The revision-fenced durable stack

One compare-and-swap record store and the protocols that rest on it: the effect journal
in front of billable and irreversible provider calls, MCP tasks, document jobs with their
executor, asynchronous runtime and dispatcher, the durable document cache, artifacts and
reserved outputs with the stack of outputs derived from a source, and the two output
paginators. Each protocol has to stay correct while several workers interleave, lose
swaps, crash between awaits and restart. This project states what that means and proves
it for every interleaving.

## How a protocol is modelled

Each protocol has two sides.

* **Values and theorems** (`Effects`, `McpTasks`, `DocumentJobs`, `Dispatcher`,
  `DocumentCache`, `Artifacts`, `OutputStack`, `Reservations`, `OutputStores`). The records
  of one task, job, entry or source, together with a history the code cannot see: which calls
  really began, what really reached the provider and what it answered, which registrations
  ever succeeded. A datatype `Action` lists the atomic steps, `Enabled` says when a worker may
  take one, `Next` what it does. Every step keeps an invariant, every step *grows* the state
  in a two-state order, and theorems quantify over all schedules (`seq<Event>`) of any number
  of workers; a crash is a worker that takes no further step.
* **The code** (`McpTaskRuntime`, `DocumentJobRepository`, `DocumentExecutor`,
  `DocumentAsyncRuntime`, `DocumentCacheRepository`, `ArtifactRepository`, `DocumentOutput`
  with the functions of `OutputRecovery`, and the classes in the files above). Classes with
  the methods of the source, retry loops included. Before each store or provider call stands
  `Interfere`, of which a method learns only the rely relation that the theorems show any run
  of the other workers to satisfy; a write is possible only as an enabled step, so what is
  proved of every schedule holds of these methods stopped at any point. What providers, blob
  stores and ports answer, and what the clock reads, is arbitrary. Ghost results name the
  moments and the course a method's contract speaks of.

Record keys and digests are constructors, so distinct preimages are distinct keys.

## Where revisions are not enough

Records of the cache, of artifacts and of reservations are deleted, and revisions restart
at 1. A worker that read before a deletion can then swap on a revision that has come round
again. The models contain these stale steps. So three things the code means to keep it does
not keep in every run, and for each the steps that break it are named exactly:

* a cache tombstone is lifted in a run if and only if a sweep or an extension of that index
  is performed on it, and such an extension was prepared before a sweep
  (`DocumentCache.LiftingStep`, `DocumentCache.TombstoneHoldsExactly`; concrete runs in
  `DocumentCache.StaleSwapLiftsTombstone` and `DocumentCache.StaleSweepDropsLiveTombstone`);
* a revoked artifact is read as active again if and only if a verification of it is performed
  with metadata created at the same time as the record, which was then prepared before a
  removal, or it is put anew once it is gone (`Artifacts.RevivingStep`,
  `Artifacts.RevokedStaysRevokedExactly`). A stale write with metadata of another creation
  time does not revive the record but leaves one that every read refuses
  (`Artifacts.MalformingStep`). `Artifacts.StaleRewriteRevives` is a concrete run of each
  kind: the puts of one reserved operation all carry the creation time of its
  reservation;
* a reservation can be published without its own artifacts if and only if its publisher had
  reserved other terms before a sweep (`Reservations.PublishesUnplacedExactly`; a concrete run
  in `Reservations.PublishedUnplaced`). Where it was never swept, what stands behind it is
  what was reserved (`OutputStores.PublishedIsAsReserved`).

Elsewhere deletions and stale swaps of a record are counted as its disturbances, and fences
are stated for undisturbed records; a record that is never deleted is never disturbed.

## Other places where the code does less than one might expect

* `McpTaskRuntime.DurableMcpTaskRuntime.Cancel`: a cancel that loses its one swap to
  another write returns normally and is dropped. `McpTasks.CancelTakesEffectExactly` says
  when a request takes effect, `McpTasks.PollLeaseDropsCancel` is a run in which a reader's
  poll lease drops it.
* `Dispatcher.WakeupDuringLeaseIsDropped`: an enqueue during a lease succeeds without
  effect and the holder may still file the entry as idle. A wake-up takes effect exactly
  when the entry is not leased (`Dispatcher.WakeupHoldsUnlessLeased`).
* `DocumentJobs.CleanupFlagFalls`: `resultCleanupDone` can fall, exactly when two result
  references meet on one job; `DocumentJobs.CleanupFlagFallsWitness` is such a run.
* `ContentPages.MissedExactly`: the last page may fit and still not be given, exactly when
  the limit lies between its size and the larger size of the page one character shorter.
  It takes content of more than 100 000 characters (`ContentPages.ShortContentIsNeverMissed`,
  `ContentPages.LastPageIsMissed`).
* `ContentPages.ContinuationAccepted`: pages name continuations past offset 200 000 that
  are then refused (`ContentPages.DeadEndWitness`).
* `DocumentOutput.DurableDocumentOutputRuntime.CheckReady`: once both contents were read back,
  a second look that finds the output unavailable no longer matters; ready, not ready and
  broken off are each told apart exactly by what was observed, and
  `OutputRecovery.ReadyThoughUnavailable` is a recovery that ends ready after the output was
  deleted.
* `McpTaskRuntime.DurableMcpTaskRuntime.CallCancel`: after an acknowledged cancel call that
  returns normally the task carries its flag if and only if no journal write threw. When the
  settling one did, the flag stays unset in every further run of the other workers
  (`McpTasks.UnrecordedStaysLost`); `McpTasks.AcknowledgementIsLost` is a run that gets there.
* `DocumentJobs.StepLeavesResult`: a recorded result comes to be owed its cleanup exactly by
  the steps named there. One of them, a result recorded late by an attempt that lost its
  lease, can land behind an entry filed as idle (`Dispatcher.LateResultBehindIdleEntry`), so
  `Dispatcher.IdleMeansJobOver` holds of the moment the job was read and not for ever.
* Revocation of a source moves from none straight to deleted as well as through expired;
  it never moves back (`DocumentJobs.DispatchLattice`).

## Model

| member | source | states |
|---|---|---|
| DurableStore.EqualRevisionMeansUnchanged | src/core/durable-store.ts:48-95 | While a key is not deleted, over any sequence of store calls its revision never falls, and finding the revision that was read means finding the very record that was read. |
| DurableStore.RevisionIsSpentOnce | src/core/durable-store.ts:73-95 | After one compare-and-swap on a revision succeeds, no later one expecting that revision changes anything, whatever runs in between. |
| DurableStore.DeletionReopensRevisions | src/core/durable-store.ts:48-104 | Fencing ends with the record: a concrete run in which a deleted and recreated key carries an old revision with other contents. |
| DurableStore.InMemoryDurableRecordStore.Get | src/core/durable-store.ts:43-46 | Returns the stored record or null; an invalid key throws. |
| DurableStore.InMemoryDurableRecordStore.CreateIfAbsent | src/core/durable-store.ts:48-65 | Creates revision 1 or reports the existing record and changes nothing; invalid keys, sizes and times throw before the map is touched. |
| DurableStore.InMemoryDurableRecordStore.CompareAndSwap | src/core/durable-store.ts:67-95 | Replaces the value exactly when the stored revision is the expected one, keeping the creation time and counting the revision up by one; otherwise reports missing or the conflicting record unchanged. |
| DurableStore.InMemoryDurableRecordStore.DeleteIfRevision | src/core/durable-store.ts:97-104 | Deletes exactly when the revision matches. |
| Effects.StepKeepsInv | src/core/durable-effects.ts:58-117 | Every journal write and every beginning and end of a provider call keeps: at most one call open, at most one call ever begun behind an effect that is not a cancellation, a recorded success has a receipt and a call behind it. |
| Effects.OthersRunIsRely | src/core/durable-effects.ts:58-117 | Any number of steps of other workers leave a worker's own claim untouched, a settled effect frozen and an unrepeatable call unrepeated. |
| Effects.AtMostOneCall | src/core/durable-effects.ts:58-77 | Over every schedule of any number of workers with crashes, restarts and retries, the call behind a non-cancellation effect begins at most once. |
| Effects.CallsNeverOverlap | src/core/durable-effects.ts:58-117 | Over every schedule, calls behind one effect never overlap, cancellations included. |
| Effects.SettledIsFrozen | src/core/durable-effects.ts:67-91 | A settled effect keeps its record and its number of calls under every further schedule. |
| Effects.NoCallAfterSuccess | src/core/durable-effects.ts:67-117 | A recorded success really was a call, a recorded cancellation really was acknowledged and is over, and no call starts after either record. |
| Effects.DurableEffectJournal.ClaimEffect | src/core/durable-effects.ts:58-65 | The claim is granted to exactly the worker whose write created the record. |
| Effects.DurableEffectJournal.Transition | src/core/durable-effects.ts:67-77 | Whoever calls: a write replaces the record that stood at the caller's revision and nothing else; with nothing written, only others moved and the revision has moved on or the effect is already succeeded. For a worker entitled to the step it is exactly that one step. |
| Effects.DurableEffectJournal.RetryEffect | src/core/durable-effects.ts:79-117 | Only a cancellation that is uncertain or was explicitly not acknowledged is claimed again, by the one worker whose swap on the revision it saw succeeds; any other kind throws. |
| McpTasks.StepKeepsSlotInv | src/core/durable-mcp-tasks.ts:207-713 | Every write, journal step, delivery and poll keeps the task invariant: handle exactly when working, waiting or completed requires it, pending keys disjoint from used ones, every past input epoch current or answered with its keys used up, polls paced. |
| McpTasks.OthersTaskRunIsRely | src/core/durable-mcp-tasks.ts:207-713 | Any run of the other workers stays within the relation each method relies on before a store or provider call. |
| McpTasks.InputKeySentAtMostOnce | src/core/durable-mcp-tasks.ts:382-480 | Over every interleaving of update, get and cancel with any crashes, each input-request key reaches provider.update at most once. |
| McpTasks.OutcomesAreAnswers | src/core/durable-mcp-tasks.ts:671-689 | In every run a completed task carries result and billing of an answer "completed" given under a poll lease, a failed one the error of an answer "failed" or of a poll that threw unless its creation was in doubt, and a waiting one asks for exactly the requests of an answer that asked for input, less the keys used. |
| McpTasks.CreatedTaskFailsByAnswer | src/core/durable-mcp-tasks.ts:335-373 | Once its creation is on record a task fails in no run but by an answer "failed" or a poll that threw, whose error it shows. |
| McpTasks.UsedInputKeysOnlyGrow | src/core/durable-mcp-tasks.ts:449-470 | Pending keys are never used keys, used keys are listed once, and the used list only grows at its end along any run. |
| McpTasks.TerminalIsAbsorbing | src/core/durable-mcp-tasks.ts:483-507 | Completed, failed and cancelled keep status, result and error under any later run; identity, owner, credential, input, expiry and provider handle are frozen. |
| McpTasks.ProviderEvidence | src/core/durable-mcp-tasks.ts:245-327 | provider.create begins at most once per task, for the worker that created the record only; working, input_required and completed imply the handle of that one call; a creation receipt is on record only behind the handle; upstreamCancelled implies a cancelled task and a real acknowledgement; cancel calls never overlap. |
| McpTasks.PollsAreSpaced | src/core/durable-mcp-tasks.ts:335-364 | Of two provider polls, the one under the later lease was leased as many poll intervals after the other as there are leases between them, unless an accepted update came between, for any number of readers; no lease is polled twice. |
| McpTasks.CancelIsOver | src/core/durable-mcp-tasks.ts:542-581 | Once a cancellation is recorded as acknowledged no cancel call is open, none begins later, and the record stays, over every run. |
| McpTasks.CancelTakesEffectExactly | src/core/durable-mcp-tasks.ts:483-507 | In every run, a cancellation leaves the task cancelled if and only if the task was cancelled at the read, or unfinished at the read and at the swap still at the revision read or cancelled by then; it is dropped without an error if and only if the unfinished task has moved on and is not cancelled. |
| McpTasks.PollLeaseDropsCancel | src/core/durable-mcp-tasks.ts:497-507 | A concrete run: a poll lease taken between the read and the swap of a cancellation leaves the task working, and the cancellation returns normally. |
| McpTasks.UnrecordedStaysLost | src/core/durable-mcp-tasks.ts:542-581 | While the journal has not recorded an acknowledged cancel call the task does not carry the flag, and if the worker that made the call is gone it never will, over every run of the others. |
| McpTasks.AcknowledgementIsLost | src/core/durable-mcp-tasks.ts:542-581 | A concrete run that ends with the task cancelled, the call acknowledged, the journal write lost and the flag unset. |
| McpTaskRuntime.OneCreatePerIdempotencyKey | src/core/durable-mcp-tasks.ts:207-327 | Over all tasks and workers, one idempotency key of one caller has one task, and the provider is asked to create it at most once. |
| McpTaskRuntime.RepliesTellTheAnswers | src/core/durable-mcp-tasks.ts:170-191 | In every run the reply about a task shows a result, an error or requests only of an answer to a poll, less what was responded to, or the doubt about its creation. |
| McpTaskRuntime.DurableMcpTaskRuntime.BindIdempotencyKey | src/core/durable-mcp-tasks.ts:215-244 | A key is bound to the task of whoever created its record; a different input under the same key is refused. |
| McpTaskRuntime.DurableMcpTaskRuntime.Start | src/core/durable-mcp-tasks.ts:207-327 | A start is refused exactly for bad arguments or a key bound to another input; it reports a record it comes upon, if that is the caller's and for the same key and input, failing it first if its creation is unfinished; or it makes the record of the request and calls the provider, and a handle answered before anything overtook the record is written on it and reported. Only the worker that made the record claims its creation. |
| McpTaskRuntime.DurableMcpTaskRuntime.SaveProviderHandle | src/core/durable-mcp-tasks.ts:283-327 | The task leaves the record it was created with. Answered and not overtaken, the provider's handle stands on the next revision and, unless the receipt's write threw, the creation is settled behind it and reported; otherwise the task is reported as it stands after the attempt to fail it. |
| McpTaskRuntime.DurableMcpTaskRuntime.FailTaskUncertain | src/core/durable-mcp-tasks.ts:691-713 | On return the task is past the revision that was to be failed and the answer is what the caller is told of its current state. |
| McpTaskRuntime.DurableMcpTaskRuntime.Get | src/core/durable-mcp-tasks.ts:329-373 | A record that is over, waiting or not due is shown as read; otherwise the lease is taken or lost to a later revision, the provider polled under it, and if the lease is still the newest revision when the answer is filed, status, result, error and requests shown are those of that very answer; an answer overtaken is not filed and the task shown as it then is. Whatever is shown is a state the owned task had, and every refusal is the one the task and the caller call for. |
| McpTaskRuntime.DurableMcpTaskRuntime.PollLeased | src/core/durable-mcp-tasks.ts:346-373 | The lease revision is polled once, what came of it is on the history under it, and it is filed and shown unless the caller had aborted a poll that threw or a later revision has overtaken the lease. |
| McpTaskRuntime.DurableMcpTaskRuntime.Update | src/core/durable-mcp-tasks.ts:375-481 | Accepts exactly the responses that the task read asks for and that are not used up; a normal end means these were delivered in one call and are used up. Each other end has its cause: the task cannot be read, does not wait, wants none of the responses, or cannot be sent any; the delivery failed or another stands for other entries; or the task has moved on since it was read. |
| McpTaskRuntime.DurableMcpTaskRuntime.DeliverOnce | src/core/durable-mcp-tasks.ts:398-447 | True if and only if the provider got these entries for this epoch, from this worker, or, where a delivery was claimed before, from one whose receipt is for the same entries. |
| McpTaskRuntime.DurableMcpTaskRuntime.RecordAccepted | src/core/durable-mcp-tasks.ts:449-481 | The retry loop ends normally only when the accepted keys are on the used list, and otherwise only when the task has moved past the record it started from. |
| McpTaskRuntime.DurableMcpTaskRuntime.Cancel | src/core/durable-mcp-tasks.ts:483-581 | Returns normally exactly in two cases, told apart by the record read and the one found at the swap: the task is cancelled on return, with polling ended and the upstream request on it, or the task had moved past the revision read without being cancelled and the request was dropped. A cancellation that took effect asks the provider, unless there is nothing or no way to ask, the write before the call throws, or the journal entry found may not be asked for again. An error means that the task cannot be read, was finished otherwise, or that the acknowledgement is on the journal and could not be marked. |
| McpTaskRuntime.DurableMcpTaskRuntime.CallCancel | src/core/durable-mcp-tasks.ts:542-581 | After an acknowledged provider cancel that returns normally upstreamCancelled is set if and only if no journal write threw; when the settling one threw, the acknowledgement is in no record. A refused or failed call, or a journal write that throws, never raises an error. |
| McpTaskRuntime.DurableMcpTaskRuntime.MarkCancelled | src/core/durable-mcp-tasks.ts:629-651 | Sets upstreamCancelled only behind a settled cancellation, and on normal return it is set. |
| McpTaskRuntime.DurableMcpTaskRuntime.StopWaitingFor | src/core/durable-mcp-tasks.ts:583-600 | Writes the caller flag and nothing else on the very record read, or loses its swap silently to a record of a later revision and writes nothing; it fails exactly when the task cannot be read. |
| DocumentJobs.StepKeepsSlotInv | src/core/document-async-runtime.ts:241-399 | Every write of job, dispatch record and journal and every provider answer keeps: a completed job has its evidence, the recorded provider identifier is the one the provider gave, acknowledgement implies a settled cancellation, a revoked source implies a terminal job, a recorded result reference implies a terminal job or a begun write. |
| DocumentJobs.OthersJobRunIsRely | src/core/durable-document-jobs.ts:302-415 | Any run of the other workers stays within the relation each method relies on. |
| DocumentJobs.JobLifecycle | src/core/durable-document-jobs.ts:302-415 | With transitions, lazy expiry and source revocation interleaved: rank never falls, cancelled and expired are final, completed and failed can only expire and only at or after the expiry time, identity and expiry are frozen. |
| DocumentJobs.CompletionNeedsEveryReceipt | src/core/durable-document-executor.ts:74-107 | A completed job has every receipt of its driver, each call behind them was begun exactly once, and its result is the artifact write's receipt; one driven by the runtime also the provider's word that its task completed. |
| DocumentJobs.OutcomeIsTheProviders | src/core/document-async-runtime.ts:196-233 | In every run a job driven by the runtime has failed only if a poll of its submitted task answered failed, and has completed only if one answered completed with an acceptable envelope. |
| DocumentJobs.EachEffectBeginsAtMostOnce | src/core/document-async-runtime.ts:334-380 | Provider submission, paid call and artifact write each begin at most once per job over every schedule. |
| DocumentJobs.DispatchLattice | src/core/document-async-runtime.ts:389-399 | Under concurrent updates: source, policy and budget end are frozen, the provider identifier is written once and is the provider's own, cancel and acknowledgement flags never fall, revocation only gets stronger. |
| DocumentJobs.NoCompletionAfterStop | src/core/document-async-runtime.ts:241-277 | A job that is cancelled, or whose dispatch record says the source was revoked, and is not yet completed never completes later. |
| DocumentJobs.UpstreamCancelIsHonest | src/core/document-async-runtime.ts:302-315 | upstreamAcknowledged is on record only if a provider cancel really acknowledged; no cancel call is open then or starts later. |
| DocumentJobs.JobCallsNeverOverlap | src/core/durable-effects.ts:79-117 | Calls of one effect of one job never overlap. |
| DocumentJobs.CleanupFlagFalls | src/core/document-async-runtime.ts:293-297 | resultCleanupDone is the one flag that can fall: exactly when the cleanup of one reference is finished while the record names another. |
| DocumentJobs.CleanupFlagFallsWitness | src/core/document-async-runtime.ts:293-297 | A concrete run of one cancelled job, step by enabled step, in which a second reference is recorded and a late cleanup of the first clears the flag. |
| DocumentJobs.CleanupFlagSticksForOneReference | src/core/document-async-runtime.ts:286-297 | With one reference per job, as reservations give, the flag never falls over any sequence of writes. |
| DocumentJobs.StepLeavesResult | src/core/document-async-runtime.ts:129-144 | An ended job that owes no cleanup comes to owe one by exactly these steps: a result recorded late, the cleanup of another reference finished, the revocation of a completed job's source, and its expiry. |
| DocumentJobs.CleanupStaysDoneExactly | src/core/document-async-runtime.ts:280-299 | Over every run, an ended job that owes no cleanup never owes one if and only if nothing performs one of those steps. |
| DocumentJobs.LateResultIsOwed | src/core/document-async-runtime.ts:223-226 | A concrete run: a job cancelled while its result is being written owes nothing, and owes a cleanup once the writer records the result. |
| DocumentJobRepository.DurableDocumentJobRepository.CreateIfAbsent | src/core/durable-document-jobs.ts:240-300 | Returns the caller's own job for the same key and fingerprint, new or existing; anything else is refused. |
| DocumentJobRepository.DurableDocumentJobRepository.Get | src/core/durable-document-jobs.ts:302-333 | Returns the current record; if its time has come it is expired or cancelled. |
| DocumentJobRepository.DurableDocumentJobRepository.RevokeSource | src/core/durable-document-jobs.ts:344-357 | A normal return means the caller's job is terminal. |
| DocumentJobRepository.DurableDocumentJobRepository.Transition | src/core/durable-document-jobs.ts:359-415 | Moves the job from the very revision named, to the status and result named, before its expiry; or reports a record that moved on. |
| DocumentJobRepository.DurableDocumentJobRepository.BeginEffect | src/core/durable-document-jobs.ts:417-454 | Either this worker now holds the claim, or the recorded receipt is returned, or the effect is blocked; and only for the caller's job that was not terminal at a moment of the call. |
| DocumentJobRepository.DurableDocumentJobRepository.MarkEffect | src/core/durable-document-jobs.ts:456-521 | Records inflight, success or doubt for the claim this worker holds; success carries exactly the receipt given. |
| DocumentExecutor.DurableDocumentExecutor.RunEffect | src/core/durable-document-executor.ts:110-155 | Returning means the effect is on record as succeeded with the returned receipt, from this call or an earlier one. |
| DocumentExecutor.DurableDocumentExecutor.Execute | src/core/durable-document-executor.ts:44-108 | Returning a reference means the job is completed with it and all three receipts are on record. |
| DocumentAsyncRuntime.DocumentAsyncRuntime.Create | src/core/document-async-runtime.ts:100-126 | A normal return means job and dispatch record exist for the caller; a dispatch record this call created is made of the inspected source, the policy and the budget counted from the job's creation, and an existing one has only climbed its lattice. |
| DocumentAsyncRuntime.DocumentAsyncRuntime.Status | src/core/document-async-runtime.ts:129-144 | Truthful: the job's own status, a completed result backed by receipts, an acknowledgement some provider call gave, no result for a revoked source, no flag recorded before the call missing, and cleanup reported as pending exactly when the dispatch record read leaves a result that is neither cleaned up nor wanted. |
| DocumentAsyncRuntime.DocumentAsyncRuntime.Advance | src/core/document-async-runtime.ts:147-239 | An attempt that ends normally is idle if and only if the provider was not asked, and then the job is over; if it was over before, its cleanup was gone through and a cancellation asked for was carried out. Asked, with the source unchanged, it waits exactly on "still running" and leaves the job live from then on to the others and its deadline, marks failed or loses that race on "failed", marks completed or loses that race on an acceptable "completed", then with both receipts on record and the source unchanged again. |
| DocumentAsyncRuntime.DocumentAsyncRuntime.Cancel | src/core/document-async-runtime.ts:241-262 | Once it returns the job is terminal, the status shown is the job's and its cleanup was gone through; a job it shows as cancelled has the cancellation, and the upstream request if asked for, on its dispatch record, and that request was carried out. |
| DocumentAsyncRuntime.DocumentAsyncRuntime.RevokeSource | src/core/document-async-runtime.ts:265-277 | Returning means: job terminal, dispatch cancelled, revocation at least as strong as asked, no result shown, and its cleanup gone through. |
| DocumentAsyncRuntime.DocumentAsyncRuntime.ReconcileResultCleanup | src/core/document-async-runtime.ts:280-299 | A normal return says why nothing more is to be done (the job is live or its result wanted, already cleaned, or the port answered that it holds no reservation), that work on the result on record or reserved is pending, or that nothing was pending and its cleanup is on record. |
| DocumentAsyncRuntime.DocumentAsyncRuntime.ReconcileCancellation | src/core/document-async-runtime.ts:302-315 | Some(true) only with the acknowledgement on record and given by a provider call, Some(false) only if the provider refused; nothing is done only if a record it read asked for nothing. |
| DocumentAsyncRuntime.DocumentAsyncRuntime.AssertActive | src/core/document-async-runtime.ts:317-323 | True means: bound to this provider, before budget end and expiry, job live, and the dispatch record it read during the call not cancelled. |
| DocumentAsyncRuntime.DocumentAsyncRuntime.Expire | src/core/document-async-runtime.ts:325-332 | Returns the current job, terminal or still within its execution budget. |
| DocumentAsyncRuntime.DocumentAsyncRuntime.Effect | src/core/document-async-runtime.ts:334-380 | What it returns is what the journal holds: the receipt of a succeeded effect, or a settled acknowledgement. |
| DocumentAsyncRuntime.DocumentAsyncRuntime.ResumeFromEvidence | src/core/document-async-runtime.ts:352-371 | Another attempt's claim is settled only on durable proof of what its call returned. |
| DocumentAsyncRuntime.AnswerProvesCall | src/core/document-async-runtime.ts:352-371 | On a live job, a recorded answer proves the call behind it was begun, and a recorded identifier is the one the provider gave. |
| DocumentAsyncRuntime.DocumentAsyncRuntime.Submit | src/core/document-async-runtime.ts:185-199 | A returned identifier is the provider's answer to the one submission, and stands on the dispatch record before any receipt is written; bytes that are not the source's are never submitted. |
| DocumentAsyncRuntime.DocumentAsyncRuntime.Update | src/core/document-async-runtime.ts:389-399 | The swap loop ends normally with the mutation on the current record. |
| Dispatcher.AttemptsAreSpaced | src/core/document-async-dispatcher.ts:146-171 | After an attempt an entry is idle exactly when the job is finished; otherwise the next attempt is strictly later, within the backoff cap or the poll interval, and for a completed job exactly when its output expires. |
| Dispatcher.BackoffBounds | src/core/document-async-dispatcher.ts:155-158 | Backoff starts at the poll interval, never shrinks as failures mount, and is capped. |
| Dispatcher.FailuresMountAndDelaysDouble | src/core/document-async-dispatcher.ts:158-161 | In every run an entry carries the number of attempts in a row that threw, with no other outcome filed and no wake-up taking effect between, up to thirty; the next that throws is due the poll interval doubled as often, up to the cap, after it was judged. |
| Dispatcher.LeaseLasts | src/core/document-async-dispatcher.ts:138-141 | A lease stands unchanged against everything the others try before its time is up, and from then on, not earlier, anybody may lease the entry anew. |
| Dispatcher.StepKeepsSlotInv | src/core/document-async-dispatcher.ts:90-171 | Every enqueue, lease and completion keeps: idle exactly when the scan expiry is null, leases and completions by the same holder, failures at most thirty. |
| Dispatcher.IdleMeansFinished | src/core/document-async-dispatcher.ts:146-171 | In every run, idle is exactly "no scan finds it", is reached only for a finished job, and every other entry comes due. |
| Dispatcher.IdleMeansJobOver | src/core/document-async-dispatcher.ts:146-171 | An entry filed as idle on a truthful status is one whose job had ended for good, a completed one past its expiry, with any upstream cancellation asked for acknowledged, and whose dispatch record, when it was read, left no result to clean up; in every run from there on the job stays ended. |
| Dispatcher.LateResultBehindIdleEntry | src/core/document-async-runtime.ts:223-226 | A concrete run: an attempt that lost its lease inside the artifact write records its result after another attempt has truthfully filed the entry as idle; a result is left to clean up and the entry is never due again. |
| Dispatcher.OnlyTheHolderCompletes | src/core/document-async-dispatcher.ts:138-168 | A lease revision is completed only by its holder, at most once, and never after a later revision exists. |
| Dispatcher.EnqueueNeverDelaysOrSteals | src/core/document-async-dispatcher.ts:90-111 | Any number of enqueues by anyone never move an entry's eligibility later and never touch a lease. |
| Dispatcher.WakeupHoldsUnlessLeased | src/core/document-async-dispatcher.ts:98-108 | A wake-up leaves the entry scheduled by the time asked for if and only if it was not leased. |
| Dispatcher.WakeupDuringLeaseIsDropped | src/core/document-async-dispatcher.ts:98-108 | A concrete run in which an enqueue during a lease returns normally and the entry still goes idle. |
| Dispatcher.DocumentAsyncDispatcher.Options | src/core/document-async-dispatcher.ts:77-87 | Refuses exactly when an option that is given is out of its range, the lease and backoff ranges depending on the attempt timeout and poll interval in force; options left out take the documented defaults, each on its own. |
| Dispatcher.DocumentAsyncDispatcher.Enqueue | src/core/document-async-dispatcher.ts:90-111 | On normal return the entry is the caller's own and, unless leased, scheduled by the time asked for. |
| Dispatcher.DocumentAsyncDispatcher.Attempt | src/core/document-async-dispatcher.ts:130-168 | A record is left unclaimed only if it has moved since the scan, and a lease lost only to a later revision. A filed result is exactly what the outcome, the entry before the lease and the clock read twice make of it, on the lease revision this worker won: a throw adds a failure and the doubled delay, anything else clears the count. |
| Dispatcher.DocumentAsyncDispatcher.Consume | src/core/document-async-dispatcher.ts:125-170 | Goes through the page from where the drain is, in order, leaving out only what others take while it attempts a record, rejects exactly the malformed ones, and tallies what became of each; every record claimed is counted once as advanced or failed and once as rescheduled, idle or lost. |
| DocumentCache.TtlIsWithinBounds | src/core/document-cache-contract.ts:54-69 | A positive effective time to live ends by the operator's cap and by the source's absolute expiry. |
| DocumentCache.TtlIsTheLongestAllowed | src/core/document-cache-contract.ts:54-69 | The time to live is the longest that keeps to the one requested or the default, to the operator's cap and the configured source lifetime, and ends by the source's own expiry. |
| DocumentCache.StepKeepsWorldInv | src/core/durable-document-cache.ts:363-990 | Every store and blob step keeps: cores stand under their own key string and were committed, bindings name their own core and source and are within bounds, indexes list distinct bindings of their own source, at most 128. |
| DocumentCache.TombstoneHolds | src/core/durable-document-cache.ts:738-781 | A revoked index is unchanged by everything later unless it is swept or swapped by a worker whose read predates a sweep; without a sweep there is no such swap. |
| DocumentCache.LiftingStep | src/core/durable-document-cache.ts:634-690 | Of all steps enabled on a reachable tombstone, exactly a sweep and an extension of that index lift it, and such an extension was prepared before the record was last swept. |
| DocumentCache.TombstoneHoldsExactly | src/core/durable-document-cache.ts:738-781 | Over every run, a tombstone stands at every moment of what follows if and only if nothing that follows performs one of those two steps on it. |
| DocumentCache.RevocationsAreKept | src/core/durable-document-cache.ts:692-781 | A record just revoked is found expired by no sweep that scans up to that moment or while what was revoked would have lasted. |
| DocumentCache.FenceIsExactlyNoHit | src/core/durable-document-cache.ts:396-447 | The tombstone stands if and only if no core, binding and time to live make a lookup of that source hit or rebind. |
| DocumentCache.RevokedSourceDoesNotHit | src/core/durable-document-cache.ts:383-457 | After the tombstone, a lookup whose index read comes later neither hits nor rebinds while no lifting step is performed on it, whatever was in flight, and no index entry can be added on what is read then. |
| DocumentCache.RevokedSourceDoesNotHitUnswept | src/core/durable-document-cache.ts:383-457 | On an index record that is never swept the fence holds for good. |
| DocumentCache.StaleSwapLiftsTombstone | src/core/durable-document-cache.ts:634-690 | A concrete run: revisions restart after a sweep, and a worker holding an older read lifts a live tombstone. |
| DocumentCache.StaleSweepDropsLiveTombstone | src/core/durable-document-cache.ts:795-832 | A concrete run: a second sweep holding an old revision deletes a tombstone that has not expired. |
| DocumentCache.SweepDeletesWhatItScanned | src/core/durable-document-cache.ts:795-832 | If no other sweep deleted the index in between, what a sweep deletes is what it scanned, an expired record. |
| DocumentCache.CoresRefinePlainMap | src/core/durable-document-cache.ts:834-873 | After every run the core records hold exactly the plain map from key string to last commit. |
| DocumentCache.HitsReturnThePlainMap | src/core/durable-document-cache.ts:396-447 | Every hit or rebind returns the data of the last commit under its key string at the moment the core was read, unexpired at the lookup's time. |
| DocumentCache.LookupDecidesExactly | src/core/durable-document-cache.ts:399-468 | Over every run, whatever moments the three reads fall in: a lookup hits if and only if it read an unexpired core, an unrevoked binding that a commit or rebind made for the same key, scope, source identity and source version and whose time has not run out, and a live index of the source listing it; and so for rebind, revoked and ordinary. |
| DocumentCache.HitRecordsAreTheRequests | src/core/durable-document-cache.ts:402-423 | Of any three records at all a hit takes only a core, a binding and an index that carry the request's own key, scope, source and version. |
| DocumentCache.RevocationIsIsolated | src/core/durable-document-cache.ts:738-781 | The steps a revocation issues from an index record of any reachable world (the tombstone and the revocation of bindings listed there) change no decision of any lookup for another source, even on a shared core, in whatever world they are performed. |
| DocumentCache.IndexListsItsOwn | src/core/durable-document-cache.ts:634-690 | An index lists at most 128 distinct bindings, all of its own source. |
| DocumentCache.BindingsAreTimeBound | src/core/durable-document-cache.ts:491-556 | Every live binding ends with the very committed core it was made of or with the effective time to live of the request it was made for, whichever is first, so by the core's expiry, the operator cap and the source's expiry. |
| DocumentCache.OrdinaryCommitIsFenced | src/core/durable-document-cache.ts:963-987 | If the binding an ordinary commit looked up has been revoked or rewritten since, its compare-and-swap cannot succeed while that record lives. |
| DocumentCacheRepository.DurableDocumentCacheRepository.EnsureSourceIndex | src/core/durable-document-cache.ts:634-690 | True: at the end of the call the index lists the binding, carries no tombstone and lives at least as long; false: it carries one. It throws only if the store fails, every swap is lost, or the index is full. |
| DocumentCacheRepository.DurableDocumentCacheRepository.UpsertBindingFenced | src/core/durable-document-cache.ts:963-1003 | Writes only over the binding revision captured by the lookup, or accepts an equivalent live binding; refuses exactly when neither is there. |
| DocumentCacheRepository.DurableDocumentCacheRepository.CreateCoreIfMissing | src/core/durable-document-cache.ts:834-850 | Returns a committed core of the same key string: the given one, or one unexpired. |
| DocumentCacheRepository.DurableDocumentCacheRepository.LoadCoreData | src/core/durable-document-cache.ts:919-932 | Loaded bytes are the ones the core was made from; the load fails only if the store does or the blob is not there. |
| DocumentCacheRepository.DurableDocumentCacheRepository.Lookup | src/core/durable-document-cache.ts:363-464 | The three reads fall into the call and decide the answer: a hit exactly on an unexpired core with a live, listed binding of this key, scope, source and version, a rebind, a revocation or an ordinary miss with the binding's revision as its fence exactly in their cases. A cache error is answered only if the store failed, the core found cannot be loaded or is not original, the index is full, or every swap was lost. A hit returns a committed unexpired core's data and age, and none is given for a source fenced throughout. |
| DocumentCacheRepository.DurableDocumentCacheRepository.Commit | src/core/durable-document-cache.ts:467-603 | The answer is the execution's data whatever is stored. It writes no core but the one made of the execution, and that at most once; stored means that core, or unless it is a refresh one found live, was bound and listed until it or the request's own time to live ends, within every limit and unfenced. Nothing is stored only for a decision that stores nothing, without a time to live, for a source fenced or a fence passed at a moment of the call, or when storing failed. |
| DocumentCacheRepository.DurableDocumentCacheRepository.Process | src/core/durable-document-cache.ts:352-361 | A valid identity always gets an answer: the fresh execution's data, or data of a committed unexpired core on a hit decided as in Lookup. |
| DocumentCacheRepository.DurableDocumentCacheRepository.RevokeAllSourceBindings | src/core/durable-document-cache.ts:738-781 | Revoked: the source is fenced when the call returns unless its index was disturbed during it, and every binding the index listed was revoked or missing at a moment of the call. The only steps taken are the tombstone and the revocation of bindings the record read lists. |
| DocumentCacheRepository.DurableDocumentCacheRepository.RevokeBindingRecord | src/core/durable-document-cache.ts:692-711 | Revoked: the binding record carries the revocation when the call returns; missing: there is none; at most that one step was taken. |
| DocumentCacheRepository.DurableDocumentCacheRepository.RevokeSourceBinding | src/core/durable-document-cache.ts:713-735 | Revoked: the whole source is fenced, or the one binding carries the revocation. |
| DocumentCacheRepository.DurableDocumentCacheRepository.SweepOne | src/core/durable-document-cache.ts:804-830 | A removal deletes the record that stood at the revision the scan saw, after a core's blob was dropped; a record no longer at that revision is left alone, and no other step is taken. |
| DocumentCacheRepository.DurableDocumentCacheRepository.SweepExpiredPage | src/core/durable-document-cache.ts:794-832 | Goes through a page in order until a call throws; the steps taken are exactly those of the records gone through, a core's blob before its record, and the count is of the records deleted. |
| Artifacts.StepKeepsInv | src/core/durable-artifacts.ts:408-716 | Every put, rewrite and removal keeps the records well formed with their scan expiry, and lets undisturbed records only advance. |
| Artifacts.LifecycleOnlyAdvances | src/core/durable-artifacts.ts:484-620 | Over every run on an undisturbed record: status rank never falls and never moves sideways, verification only rises, owner, content, size, expiry and parentage are frozen. |
| Artifacts.RevivingStep | src/core/durable-artifacts.ts:484-620 | Of all steps enabled on a reachable revoked record exactly a verification of it with metadata created when the record was makes it read as active, and exactly such a change to a lower rank takes its status back; either was prepared before the record was last removed. |
| Artifacts.RevokedStaysRevokedExactly | src/core/durable-artifacts.ts:408-620 | Over every run, a reference not read as active is never read as active again if and only if nothing performs a verification with metadata as old as the record, nor puts it anew. |
| Artifacts.MalformingStep | src/core/durable-artifacts.ts:280-296 | Exactly a rewrite with metadata created at another time than the record turns a record that decodes into one whose every read throws, and it was prepared before a removal. |
| Artifacts.StaleRewriteRevives | src/core/durable-artifacts.ts:484-504 | A concrete run, each step enabled and each put at the creation time of its metadata: an old verification lands on a revoked record put again under the same reference, and revives it if both were put with one creation time, as saves of one reserved operation are; otherwise it leaves a record nobody can read. |
| Artifacts.RevokedStaysDiscoverable | src/core/durable-artifacts.ts:651-668 | In every run a revoked record has a scan expiry one past its last update, so the sweep can always find it. |
| Artifacts.OnlyPendingIsRemoved | src/core/durable-artifacts.ts:605-620 | Only a record marked for physical cleanup is removed by a worker that read it in this lifetime. |
| Artifacts.NeverRemovedIsAsPut | src/core/durable-artifacts.ts:408-482 | In every run a reference never removed holds the one artifact put under it: owner, content, size, expiry and parentage. |
| ArtifactRepository.DurableArtifactRepository.PutArtifact | src/core/durable-artifacts.ts:408-482 | Created with exactly the metadata made of the input, the bytes and the time of the put as its creation time, or exactly the same artifact was already there, whenever it was put; anything else throws. |
| ArtifactRepository.DurableArtifactRepository.MarkVerified | src/core/durable-artifacts.ts:484-504 | Verified only when the blob matches, on an active record of the caller. |
| ArtifactRepository.DurableArtifactRepository.ReadVerified | src/core/durable-artifacts.ts:506-547 | Bytes are returned exactly if they match size, limit and hash of a record that was the caller's, decodable, active, verified and at one revision on both sides of the blob read and unexpired on the first; everything else throws. |
| ArtifactRepository.DurableArtifactRepository.DeleteExplicit | src/core/durable-artifacts.ts:549-565 | Updated: the caller's record is logically deleted when the call returns; missing: there is none; a conflict or an error leaves a record there. |
| ArtifactRepository.DurableArtifactRepository.ExpireDueOne | src/core/durable-artifacts.ts:567-584 | Only an active record past its expiry is logically expired. |
| ArtifactRepository.DurableArtifactRepository.MarkCleanupPending | src/core/durable-artifacts.ts:586-603 | Only a logically revoked record is marked. |
| ArtifactRepository.DurableArtifactRepository.CleanupPending | src/core/durable-artifacts.ts:605-620 | Deleted or missing exactly when the record is gone on return. |
| ArtifactRepository.DurableArtifactRepository.SweepOne | src/core/durable-artifacts.ts:670-716 | A swept record was not active before its expiry, and a canonical one goes only after its source was seen to be gone. |
| OutputStack.StepKeepsSlotInv | src/core/durable-artifacts.ts:337-389 | Every step of registration, tombstone, acknowledgement and of the artifact records in the same store keeps the stored pointers a finite chain of distinct edges equal to registered minus acknowledged. |
| OutputStack.RegisteredIsReachableOrAcknowledged | src/core/durable-artifacts.ts:337-389 | In every run, walking the stored pointers from the head ends, repeats nothing, and meets exactly the registered edges that are not acknowledged. |
| OutputStack.NoRegistrationAfterTombstone | src/core/durable-artifacts.ts:337-375 | The tombstone stays and the set of registrations never grows after it. |
| OutputStack.EmptyTombstoneMeansAllDeleted | src/core/durable-artifacts.ts:358-389 | Once a tombstoned source has an empty list, the artifact record of every output ever registered for it, before or since, was absent at some moment of the run after its registration. |
| OutputStack.AcknowledgedWasDeleted | src/core/durable-artifacts.ts:377-389 | Every acknowledged registration had its output record absent at some moment of the run after it was registered. |
| OutputStack.OthersRunIsRely | src/core/durable-artifacts.ts:337-389 | Any run of the other workers leaves a worker's unpushed edge as it is. |
| ArtifactRepository.DurableArtifactRepository.RegisterExternalOutput | src/core/durable-artifacts.ts:337-355 | True: this call pushed the output on an unrevoked head. |
| ArtifactRepository.DurableArtifactRepository.NextRevokedExternalOutput | src/core/durable-artifacts.ts:358-375 | The source is tombstoned; null only when every registered output has been seen absent since its registration, otherwise a registered edge and its own output. |
| ArtifactRepository.DurableArtifactRepository.AcknowledgeRevokedExternalOutput | src/core/durable-artifacts.ts:377-389 | Pops exactly the edge named, when it was on top of a tombstoned head, and then it is acknowledged; otherwise it says which: the edge was not on top, its record is missing, or the head had moved on by the swap. |
| Reservations.StepKeepsInv | src/core/durable-document-output.ts:311-358 | Every reserve, publish, revoke and sweep lets an undisturbed reservation only advance. |
| Reservations.RevokedIsNeverPublished | src/core/durable-document-output.ts:329-358 | On a retained reservation fingerprint and expiry are frozen, both flags only rise, and one revoked unpublished never becomes published. |
| Reservations.NeverSweptIsUndisturbed | src/core/durable-document-output.ts:392-416 | A reservation that is never swept is never disturbed. |
| Reservations.PublishLosesToRevoke | src/core/durable-document-output.ts:344-358 | A publication prepared before a revocation loses its swap. |
| Reservations.WritesAreKept | src/core/durable-document-output.ts:329-358 | A revoked or published reservation is found by no sweep before its own expiry nor at the moment it was written. |
| Reservations.ReservationsKeepToTheirTerms | src/core/durable-document-output.ts:311-358 | In every run a reservation expires within the time to live, the source's own expiry and the authority's word of the save that made it, and one published and never swept had exactly the artifacts reserved in place. |
| Reservations.PublishesUnplacedExactly | src/core/durable-document-output.ts:344-358 | A publication leaves a reservation published without its own artifacts if and only if its publisher reserved other terms and nobody had published these, which takes a sweep in between. |
| Reservations.PublishedUnplaced | src/core/durable-document-output.ts:344-358 | A concrete run: a reservation expires and is swept, the operation is reserved for other contents, and the first save, past its clock check, publishes that. |
| OutputStores.RunKeepsStoresInv | src/core/durable-document-output.ts:137-166 | Any run on both stores keeps what publications left on record in the artifact store, and stays within what a worker relies on. |
| OutputStores.PublishedIsAsReserved | src/core/durable-document-output.ts:137-166 | In every run on both stores, behind a published reservation never swept stand the canonical output with the reserved content and external source and the source record it was made of, unless they were removed, and one with an external source is registered for it. |
| DocumentOutput.DurableDocumentOutputRuntime.Reserve | src/core/durable-document-output.ts:311-327 | Whoever reserves gets the first reservation of the operation, and only for the same fingerprint and caller; its expiry keeps to the limits of the save that made it. |
| DocumentOutput.DurableDocumentOutputRuntime.PublishIntent | src/core/durable-document-output.ts:344-358 | True: the reservation stands published and not revoked when the call returns. |
| DocumentOutput.DurableDocumentOutputRuntime.RevokeIntent | src/core/durable-document-output.ts:329-342 | True: the reservation is revoked when the call returns. |
| DocumentOutput.DurableDocumentOutputRuntime.Save | src/core/durable-document-output.ts:92-181 | Every successful save under one operation key returns the same reference, for the same fingerprint on an undisturbed reservation, which stood published and unrevoked during the call; none succeeds that starts after a revocation of a retained reservation. It leaves the caller's canonical record of this payload, derived from the external source given and made of a stored source record with the bytes, type and name given, expiring within the time to live, the source's expiry and the authority's of the save that reserved, not expired when published, and registered for the external source, which had no tombstone when the call started and for which the authority vouched, by these bytes before and again after registration; a replay finds the same where the reservation was never swept and neither artifact removed. |
| DocumentOutput.DurableDocumentOutputRuntime.Compensate | src/core/durable-document-output.ts:168-177 | Every reference a failed save may have written was gone at a moment of the call, or was not this save's, or was still there for the sweep. |
| DocumentOutput.DurableDocumentOutputRuntime.RecoverOperation | src/core/durable-document-output.ts:360-385 | Finds nothing exactly where nothing is reserved; ready if and only if the caller's reservation stood published, unrevoked and unexpired and what was observed is a ready course, not ready otherwise; it throws only on a cancellation, a bad key, another's reservation or something observed that threw. Ready means records with both reserved hashes were seen and both read back verified; with neither record removed the bytes have exactly the reserved hashes. |
| DocumentOutput.DurableDocumentOutputRuntime.CheckReady | src/core/durable-document-output.ts:367-382 | Ready exactly when both hashes matched, both blobs were read back verified and a second look was taken, whatever that look found; not ready exactly when the first look found the output unavailable or a hash differed; thrown exactly when something observed threw. Ready reads back the reserved contents. |
| OutputRecovery.ReadyThoughUnavailable | src/core/durable-document-output.ts:360-385 | A concrete recovery that reads both contents back, finds the output deleted on its second look, and is ready. |
| DocumentOutput.DurableDocumentOutputRuntime.ActiveOutput | src/core/durable-document-output.ts:435-454 | Its answer is the look at the moments it names: reservation, canonical record, external source and source record, with every cancellation and error. |
| OutputRecovery.LookSeesExactly | src/core/durable-document-output.ts:435-454 | A look finds an output if and only if its reservation was not revoked, it is the caller's canonical record, its external source was vouched for with no tombstone down, its source record is the caller's source artifact, both active, verified and unexpired, and nothing was cancelled. |
| OutputRecovery.TombstonedSourceHidesItsOutputs | src/core/durable-document-output.ts:418-444 | Over every run, no look that asks for an external source after its tombstone answers with an output stored as derived from it, whenever its record is read, unless that record was removed. |
| DocumentOutput.DurableDocumentOutputRuntime.Delete | src/core/durable-document-output.ts:233-281 | With a reservation: it is revoked, then output and source have their turn. Without: the canonical record is revoked, then its source goes before it. Nothing pending if and only if each was absent after its turn; an edge that led here is then noted as gone. |
| DocumentOutput.DurableDocumentOutputRuntime.RevokeExternalSource | src/core/durable-document-output.ts:283-294 | An answer means the source is tombstoned; nothing pending is reported only when every output ever registered for it has been absent at some moment since its registration. |
| DocumentOutput.DurableDocumentOutputRuntime.AssertExternalSource | src/core/durable-document-output.ts:418-433 | Answers the authority's answer if there was no tombstone on either side of it and its expiry lies ahead, that it is unavailable otherwise, and throws exactly when the caller had cancelled. |
| DocumentOutput.DurableDocumentOutputRuntime.SweepIntent | src/core/durable-document-output.ts:392-416 | Only a reservation scanned as expired is removed. |
| TextPages.Paginate | src/core/document-result-text.ts:32-91 | The page is the longest that fits, with the notes if any page fits with them, else without; out of range is refused; the limit is reported when nothing fits. |
| TextPages.ExactIsUnique | src/core/document-result-text.ts:32-91 | That specification has exactly one outcome. |
| TextPages.OutputLimitExactly | src/core/document-result-text.ts:74-83 | OUTPUT_LIMIT if and only if no admissible page fits even without notes. |
| TextPages.PagesMakeProgress | src/core/document-result-text.ts:55-72 | Every page is a slice of the projection at its offset, non-empty while content remains, and names where to go on. |
| TextPages.FollowingPagesReadsEverything | src/core/document-result-text.ts:32-91 | Following offsets ends within one request per character, is never refused as out of range, and the pages joined are the rest of the projection. |
| TextPages.EnoughRoomNeverRefused | src/core/document-result-text.ts:74-83 | An output limit computed from the request beforehand under which no page is ever refused. |
| TextPages.SizeIsLength | src/core/document-result-text.ts:56-71 | The size held against the limit is the number of UTF-16 code units of the response as written, field by field. |
| TextPages.NotesTellWhatIsMissing | src/core/document-result-text.ts:45-55 | A page carries at most three notes of a kind, each cut to its first 120 code points, or none if no page fits with them, and reports missing notes if and only if they are not all there in full. |
| ContentPages.Paginate | src/core/content-pagination.ts:25-82 | The search result cut back to a whole line; each refusal exactly in its case. |
| ContentPages.Search | src/core/content-pagination.ts:63-70 | Finds the whole room if it and one character less fit, otherwise the longest shorter page that fits. |
| ContentPages.ExactIsUnique | src/core/content-pagination.ts:25-82 | That specification has exactly one outcome. |
| ContentPages.LongestExceptMissedLastPage | src/core/content-pagination.ts:63-70 | The search result is the longest fit if and only if not (the last page fits and the page one character shorter does not). |
| ContentPages.MissedExactly | src/core/content-pagination.ts:47-70 | The last page is missed if and only if the limit lies between its size and that of the page one character shorter; some limit does if and only if the last character's offset is written longer than the character and the final flag together. |
| ContentPages.ShortContentIsNeverMissed | src/core/content-pagination.ts:47-70 | Content of at most 100 000 characters never misses its last page. |
| ContentPages.LastPageIsMissed | src/core/content-pagination.ts:63-70 | A concrete request: 100 002 characters of a truncated source with a limit of 100 017 fit whole, and the search stops short of them. |
| ContentPages.TrimmedStillFits | src/core/content-pagination.ts:74-81 | Newline trimming keeps at least floor(4n/5)+1 characters or everything, makes progress, ends in a newline and still fits, so the last check never fails. |
| ContentPages.PagesMakeProgress | src/core/content-pagination.ts:47-62 | Returned pages fit the limit, make progress, and are what their length and offset say. |
| ContentPages.PagesEndAtLines | src/core/content-pagination.ts:74-81 | A page is what the search found, cut after its last newline if that leaves at least four fifths, unless it reaches the end of the source. |
| ContentPages.PagesSayWhatTheyAre | src/core/content-pagination.ts:47-60 | A page is the slice of the source at its offset, names where to go on exactly if something follows, and is marked truncated if and only if the source was or the page is not the whole of it. |
| ContentPages.FollowingPagesReadsEverything | src/core/content-pagination.ts:25-82 | Following pages of unchanged content never reports a change, ends, joins to the whole rest if no page is refused, and is never out of range for content up to 200 001 characters. |
| ContentPages.ContinuationAccepted | src/core/content-pagination.ts:27-35 | The continuation a page names is accepted if and only if it is at most 200 000. |
| ContentPages.DeadEndWitness | src/core/content-pagination.ts:27-35 | A concrete page at offset 200 000 of 200 002 characters that names offset 200 001, which is then refused. |
| ContentPages.LongContentIsNeverFinished | src/core/content-pagination.ts:27-35 | A page at offset 200 000 that is not the last is a dead end. |
| JsonText.LongerTextCostsMore | src/core/document-result-text.ts:71 | A longer prefix of a text is strictly longer as JSON, by one to six characters a code point. |
| JsonText.EscapeIsReadBack | src/core/document-result-text.ts:71 | Every code point as it is written in JSON is read back as itself, takes the units counted for it, and leaves no bare quotation mark or control character. |

## Left out

- HTTP, workers, signing, provider adapters, configuration and routers: plumbing around the modelled objects.
- Zod parsing, JSON text and SHA-256: records are datatypes, digests and keys constructors; records that do not parse appear only where the code handles them (the dispatcher's scan page).
- AbortSignal, deadlines and timers: a flag and a clock that may read anything at any moment; the runtime's map of abort controllers is that flag.
- Error codes and messages: collapsed to the cases callers can tell apart in the model.
- Unbounded retry loops: cut off after `rounds` iterations with the outcome `Looping`, which from outside is a worker that has not returned; progress of these loops is not claimed.
- Key syntax and write-size limits inside the protocols: proved for the in-memory store, assumed met by the records the protocols write.
- scanExpired: the order and completeness of page walks are not modelled (the cursor compares code units, the sort uses locale order); pages are arbitrary lists of records the store once held.
- SQLite, D1 and R2 adapters: their implementations are not part of this model; they are taken to meet the in-memory contract.
- Blob contents and deletion: that an active record's blob exists is not claimed, because cleanup can race with it; a missing blob is a miss or an error.
- Payload cleanup markers of the cache: they only drive blob deletion.
- Injectivity of the colon-joined cache key: cache claims are over the key string, and over the record key made from it.
- Mutual exclusion of dispatcher attempts in time: lease expiry is computed from the drain's start, so two attempts may overlap; completion is fenced.
- Summing the counters of concurrent consumers of one drain, and the fairness cursor: each consumer's own tally is balanced.
- A revocation that lands in the middle of a recovery or a save: claims are about calls that start after it.
- readText, read and describe: slicing and projection of what the modelled reads return.
- Corpus, crawl and in-memory manager variants: easier copies of the same patterns.
- Uniqueness of random references and edge names: assumed, as a drawn name that was never used.
- TextPages.FollowingPagesReadsEverything: content length is taken to be a safe integer, as the length of every string of the language is.
- ContentPages.TrimmedStillFits: the product with 0.8 is taken exactly; for lengths up to 200 000 rounding does not change its floor.
- ArtifactRepository.DurableArtifactRepository.PutArtifact: removing the blob of a put that failed or collided is not modelled.
- DocumentOutput.DurableDocumentOutputRuntime.Save: that a save succeeds is not claimed; stores and authority may always fail, and the caller may cancel.
- DocumentAsyncRuntime.DocumentAsyncRuntime.Advance: that an attempt makes progress is not claimed; provider and ports may always fail.
- DocumentJobRepository.DurableDocumentJobRepository.Transition: asks for the receipts of a completion and, of the runtime, for the provider's word that its task failed, which the source's repository does not look at; its callers, the executor and the runtime, are shown to hold them.
- DocumentJobRepository.DurableDocumentJobRepository.MarkEffect: asks that the caller holds the claim or the finished call, where the source lets anybody with the revision transition; every caller modelled does, and `Effects.DurableEffectJournal.Transition` says what such a write does without that.
- ArtifactRepository.DurableArtifactRepository.AcknowledgeRevokedExternalOutput: asks that the edge's output has been noted as gone, where the source pops any edge on top of a tombstoned head; its one caller acknowledges only after a deletion with nothing pending, and is shown to have noted it.
- DocumentOutput.DurableDocumentOutputRuntime.PublishIntent: asks for the terms the publisher reserved, the artifacts it has stored for them and, with an external source, their registration, which the source does not pass along; its one caller is shown to hold both.
- Upper bounds of times and sizes at the largest safe integer: checked where the modelled operation refuses them, assumed of stored records.
- McpTaskRuntime.DurableMcpTaskRuntime.CallCancel: journal writes that throw are modelled where the source catches them, in the provider cancellation and for the receipt of a creation, as writes that did not happen; anywhere else a store that throws is a worker that stops there.
- Several external sources at once: an artifact repository object holds the head and edges of one source of one caller; other sources have other heads and edges in the same store.
- Truthfulness of the artifact port's recovery answer: a result called ready that the port never stored counts as an error.
