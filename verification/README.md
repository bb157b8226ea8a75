# PixiShelf: a verified model of its background work

PixiShelf runs its slow work (scans, imports, media derivation) in worker processes that share one PostgreSQL
database. This project models the code that decides who may do what and when, and proves what that code is relied on
for.

**The job queue.** Workers claim jobs per execution lane, hold a lease row, send heartbeats, publish domain writes under
a fence (job, worker, token, attempt), settle, are cancelled or paused from outside, and are recovered when their lease
runs out. Every operation is one transaction over the job table, the lease table and an append-only event table.
`QueueTables` has the data, `QueueOperations` and `JobCommands` each transaction as a function from the tables before to
the tables after, and `QueueRepository` and `JobCommandService` the program itself: objects whose methods change the
tables statement by statement, each proved equal to its transaction. `QueueSteps` lets anybody call anything with any
arguments and any clock readings, in any order; a clock that runs backwards is one of the runs. The only condition on
a step is that identifiers and tokens the program draws at random are new. `QueueInvariant`, `QueueRowMoves` and
`QueueStepsKeep` prove what every step keeps, `QueueLedger` replays the event trail, and `QueueTheorems`,
`JobCommandTheorems`, `PriorityAging` and `FenceHolding` hold the theorems. What each transaction promises is stated once
more without the transaction's own functions: `QueueColumns` says in the columns of the tables when a fence works, when a
job is due, what aging is worth and which job comes first, and `QueueContracts` and `ClaimContract` say in those words
exactly when a transaction succeeds, every column it leaves and every event it adds. The methods of the repository
ensure these promises beside the equality with their transaction.

**The dispatcher.** `DispatcherPort` puts the dispatcher in a world that may take any queue steps, let any time pass and
fail any call before or after its commit between two of its calls. `DispatcherControl` explains why the queue refuses a
settlement, `DispatcherTrace` why the tables that a settlement meets are the work of others alone, and `Dispatcher` has the
retry loop, the settlement loop that sets back its own counter, and the end of an execution.

**Self-contained parts.** `PngCrc`, `PngBursts` and `PngChunks` (animated PNG probe), `HexHamming`, `StableSorting` and
`KeyframeSelection` (representative frames), `JsonText`, `Permutations` and `AuditPreimage` (digest preimage),
`UriComponent` and `DerivedMedia` (media addresses), `WorkerLifecycle`, `WorkerSafety` and `WorkerProgress` (start,
heartbeats and shutdown as interleaved pieces), `KeyframeQueue` and `KeyframeDiscovery` (keyframe jobs), `MediaPaths` and
`DerivedTags` (derived tags).

Proofs hide definitions (`hide`) where only lemmas about them are used; nothing is assumed without proof.

## What turned out not to hold

Where a stated or expected property fails for some input, the code is kept as it is, a lemma gives the input, and another
says when the property does hold.

- A job waiting in the queue is never out of attempts, except after a resume: `resumeJobCommand` puts a job that paused on
  its last attempt back to PENDING, and no claim ever takes it (`StrandingHappens`, `StrandedIsForever`). A step strands a
  job if and only if it resumes that job and the job is paused with attempt equal to maxAttempts (`StrandingIsResuming`).
- The types of a job's events do not determine its status, because a priority change is logged as `job.queued` even on a
  paused job (`TypesAloneDoNotExplain`); types together with their data do (`TrailExplainsState`). Types alone tell the
  status, up to which of PENDING and RETRY_WAIT, at every point of a trail exactly when no priority was changed while the
  job was paused (`TypesTellExactly`), and wherever a job is paused they do part (`TypesPartAtPause`).
- The aging pass is limited to 200 jobs. When those are all unclaimable, a younger job can be claimed before an older one
  that the unlimited rule prefers: `LimitCanBite` enqueues such a queue from empty tables and claims. The two agree if and
  only if the limit does not bite, or the priorities stored before the pass already put the rule's choice first
  (`AgreesExactly`), because a pass whose limit bites reaches no candidate (`BittenRanksAreStored`).
- An executor that reports `paused` without having been asked brings the dispatcher down with the "remained RUNNING"
  error when its calls get through and nobody intervenes; one that is only paused on request never does
  (`CentralDispatcher.FinishExecution`, and `CentralDispatcher.SettleWithRetry` below it).
- An executor that reports `transactionally-finalized` without having started a finalization is believed: exactly then
  the end of the execution reports success with no call made and no finalization committed, and a job that was executing
  still is (`CentralDispatcher.FinishExecution`).
- If one dispatcher's `prepare` fails, another that was prepared is never stopped before the database is disconnected
  (`PreparedButNeverStopped`). At the disconnection every prepared dispatcher has stopped if and only if no `prepare`
  failed or none succeeded (`DisconnectExactly`); activated dispatchers always have (`DisconnectIsLast`).
- Chunk types are decoded as 7-bit text, so a PNG chunk whose type differs from `acTL` only in a high bit decides the
  answer (`DisguisedNamePasses`). The decoding is exact if and only if no byte has that bit (`PlainNamesAreExact`), so
  files with the letter-only types of the format are judged by their true names (`LetteredFilesAreJudgedByName`).
- The audit preimage is injective on inputs as their schemas hand them on, not as given: the schemas trim
  (`SameTextExactlyWhen`, `PaddingIsInvisible`).
- An address with an unescaped lone surrogate resolves, but the resolved path cannot be built into an address again
  (`LoneSurrogateResolves`); rebuilding works exactly for well-formed paths (`RebuildIsStable`).
- A path with a question mark can name a video for the program without being returned by the query that feeds it, so
  its artwork is tagged as an image (`QuestionMarkMistags`). The webp tag is right on every artwork; video and image are
  right on an artwork if and only if it has no video or has one the query returns (`TagsAreRightExactly`). A video is
  not returned if and only if its extension stands before a query that ends in no extension itself
  (`HiddenVideoExactly`).

## Model

| member | source | states |
|---|---|---|
| QueueRepository.PostgresQueueRepository.Claim | packages/pixishelf-job-runtime/src/queue-repository.ts:276-514 | statement by statement the claim transaction, and in columns (`ClaimContract.ClaimPromise`): a job is returned exactly when the lane is open and some job is due, or runs under a lease that has run out; it comes before every other such job, its row and lease row are written as named, and every other row is only recovered, skipped or aged |
| QueueRepository.PostgresQueueRepository.Heartbeat | packages/pixishelf-job-runtime/src/queue-repository.ts:516-563 | succeeds exactly under a working fence, moves the expiry of job row and lease row to the time it names, after which the fence works exactly until then; changes nothing else, and nothing at all when it fails |
| QueueRepository.PostgresQueueRepository.UpdateProgress | packages/pixishelf-job-runtime/src/queue-repository.ts:565-621 | succeeds exactly for 0 to 100 under a working fence, adding one event and nothing else |
| QueueRepository.PostgresQueueRepository.EnqueueChild | packages/pixishelf-job-runtime/src/queue-repository.ts:625-768 | succeeds exactly under a working fence, within the band and with a deadline it can meet; adds one waiting SYSTEM job with the columns asked for |
| QueueRepository.PostgresQueueRepository.LockOwnedExecution | packages/pixishelf-job-runtime/src/queue-repository.ts:1243-1289 | succeeds exactly when a live lease row and the job row both name the fence |
| QueueRepository.PostgresQueueRepository.TransitionOwnedJob | packages/pixishelf-job-runtime/src/queue-repository.ts:1174-1241 | under a working fence it ends the execution exactly in a status that admits it: every column of the row, the one event, the finalization under the token and the freed lane are stated, and otherwise nothing changes |
| QueueRepository.PostgresQueueRepository.Retry | packages/pixishelf-job-runtime/src/queue-repository.ts:824-842 | refused for the date exactly when it is past; else succeeds exactly while the fence works, the job is RUNNING and an attempt is left, and leaves it RETRY_WAIT and available at the date asked for |
| QueueRepository.PostgresQueueRepository.Pause | packages/pixishelf-job-runtime/src/queue-repository.ts:869-879 | succeeds exactly under a working fence on a PAUSING job, which is then PAUSED with its hold gone |
| QueueRepository.PostgresQueueRepository.Release | packages/pixishelf-job-runtime/src/queue-repository.ts:881-895 | succeeds exactly under a working fence on a RUNNING job, which then waits, available at once, with an attempt left |
| QueueRepository.PostgresQueueRepository.RequestCancellation | packages/pixishelf-job-runtime/src/queue-repository.ts:897-970 | ends a waiting or paused job, turns a running or pausing one to CANCELLING with its hold untouched, and is for nothing exactly when the job is absent, ended or CANCELLING; only that row changes |
| QueueRepository.PostgresQueueRepository.WithFencedExecutionTransaction | packages/pixishelf-job-runtime/src/queue-repository.ts:972-1127 | commits exactly when the fence works at all three readings, nothing throws, one finalizer counts and its end is admitted; then every write is published in order and the job ends as that call asked, and otherwise nothing changes |
| QueueRepository.PostgresQueueRepository.WithFencedMutationTransaction | packages/pixishelf-job-runtime/src/queue-repository.ts:1130-1143 | commits exactly when the job is RUNNING, the fence works before and after and nothing throws; then its writes are published in order under the token and nothing else changes |
| QueueRepository.PostgresQueueRepository.RecoverExpiredExecution | packages/pixishelf-job-runtime/src/queue-repository.ts:1297-1508 | finds something exactly when the lane is held under a lease that has run out; the job ends CANCELLED, PAUSED, RETRY_WAIT or FAILED by status and attempts, with both events, the lane is freed, and nothing else changes |
| QueueRepository.PostgresQueueRepository.SkipExpiredScheduledJobs | packages/pixishelf-job-runtime/src/queue-repository.ts:1510-1561 | skips exactly the waiting automatic jobs whose deadline or whose day has passed |
| QueueRepository.PostgresQueueRepository.AgeEligibleCandidates | packages/pixishelf-job-runtime/src/queue-repository.ts:1563-1641 | exactly the jobs with fewer than 200 eligible ones ahead of them get the priority their waiting is worth, one step per half hour down to the floor of their band |
| ClaimContract.ClaimKeepsPromise | packages/pixishelf-job-runtime/src/queue-repository.ts:276-514 | the promise of a claim in columns, for all tables and inputs: when it returns a job, which one, and what becomes of every row |
| QueueContracts.HeartbeatKeepsPromise | packages/pixishelf-job-runtime/src/queue-repository.ts:516-563 | a beat succeeds exactly under a working fence, and then the fence works exactly until the time it names |
| QueueContracts.SettlementKeepsPromise | packages/pixishelf-job-runtime/src/queue-repository.ts:774-895 | each settlement succeeds exactly in the status that admits it and ends the execution column by column as asked |
| QueueContracts.ExecutionKeepsPromise | packages/pixishelf-job-runtime/src/queue-repository.ts:972-1127 | when a fenced transaction commits, for every callback and every three clock readings, and what it then publishes and leaves |
| QueueContracts.MutationKeepsPromise | packages/pixishelf-job-runtime/src/queue-repository.ts:1130-1143 | when a mutation commits, and that it publishes its payloads in order |
| QueueContracts.CancellationKeepsPromise | packages/pixishelf-job-runtime/src/queue-repository.ts:897-970 | each of the three replies of a cancellation request exactly by the status met |
| QueueContracts.RecoveryKeepsPromise | packages/pixishelf-job-runtime/src/queue-repository.ts:1297-1508 | when recovery finds something, and what it makes of it |
| QueueContracts.SkippingKeepsPromise | packages/pixishelf-job-runtime/src/queue-repository.ts:1510-1561 | which jobs are skipped, and that they keep all but status and end |
| QueueColumns.FenceWorksExactly | packages/pixishelf-job-runtime/src/queue-repository.ts:1243-1289 | the lookup of the lease row and the guard on the job row together hold exactly when both rows carry the fence unexpired |
| QueueColumns.AgingIsOneStepPerHalfHour | packages/pixishelf-job-runtime/src/queue-repository.ts:1563-1641 | the aged priority is one less for each full half hour since creation, down to 0 or 100 |
| JobCommandService.CommandService.Enqueue | packages/pixishelf/services/background-task/job-command-service.ts:185-257 | succeeds exactly on what the schema admits and for no resolver job; adds one waiting job with the columns asked for, available at the time given or at once |
| JobCommandTheorems.ResolverJobIsCreated | packages/pixishelf/services/archive-intake/archive-intake-service.ts:383-401 | a resolver job is created waiting on its own lane, MANUAL or RETRY, priority 10, three attempts, available at once |
| JobCommandService.CommandService.Cancel | packages/pixishelf/services/background-task/job-command-service.ts:259-340 | refused only to jobs that ended otherwise, and to resolver and waiting audit-apply jobs that lack their binding; an idle job is cancelled at once, a job at work keeps holder, lease and fence and turns CANCELLING; no other row and no lease changes |
| JobCommandTheorems.CancelIsForGood | packages/pixishelf/services/background-task/job-command-service.ts:259-340 | after a successful cancellation the job is CANCELLING or CANCELLED in every later state, and cancelling again changes nothing |
| JobCommandService.CommandService.Pause | packages/pixishelf/services/background-task/job-command-service.ts:440-474 | refused only to jobs that ended or are being cancelled; a waiting job is paused at once, a running one keeps holder, lease and fence and turns PAUSING; no other row and no lease changes |
| JobCommandTheorems.PauseKeepsWorkersOff | packages/pixishelf/services/background-task/job-command-service.ts:440-474 | a job paused by the command is claimed by nobody in any run in which nobody resumes it |
| JobCommandTheorems.RequestNarrowsEnding | packages/pixishelf/services/background-task/job-command-service.ts:259-474 | after a cancel or pause command or a cancellation request of the queue its holder can settle exactly by cancelling, or by pausing if a pause was asked for |
| JobCommandService.CommandService.Resume | packages/pixishelf/services/background-task/job-command-service.ts:476-505 | succeeds exactly on paused jobs; the job waits again, available at once unless its deadline has passed, and is out of attempts exactly if it was |
| JobCommandTheorems.ResumeUndoesPause | packages/pixishelf/services/background-task/job-command-service.ts:440-505 | pausing and resuming a waiting job leaves it as it was but PENDING and available from now |
| JobCommandTheorems.ResumedIsServed | packages/pixishelf/services/background-task/job-command-service.ts:476-505 | a resumed job that the worker supports, with attempts left and its window open, makes a claim on its free lane succeed |
| JobCommandService.CommandService.Retry | packages/pixishelf/services/background-task/job-command-service.ts:507-617 | succeeds exactly on failed, cancelled and skipped jobs of the first definition; the ended job keeps all but its trail, and one waiting job is added with the same kind and budget, no attempt used and a priority in the manual band |
| JobCommandTheorems.RetryLeavesTheEnded | packages/pixishelf/services/background-task/job-command-service.ts:507-617 | whatever becomes of the retry, the job it retries keeps its end, publishes nothing more and shares no token with it |
| JobCommandService.CommandService.ChangePriority | packages/pixishelf/services/background-task/job-command-service.ts:619-650 | succeeds exactly on jobs neither at work nor ended, within the band of their trigger, and changes nothing but the two priorities |
| PriorityAging.PromotionOnlyHelps | packages/pixishelf/services/background-task/job-command-service.ts:619-650 | a lowered priority number keeps the job a candidate and ahead of every job it was ahead of, however long they have aged |
| PriorityAging.PromotedStaysFirst | packages/pixishelf/services/background-task/job-command-service.ts:619-650 | the job the plain rule picks is still picked after its promotion |
| QueueStepsKeep.StepKeeps | packages/pixishelf-job-runtime/src/queue-repository.ts:276-1641 | every transaction, with any arguments and clocks, keeps the invariant of rows, lanes and tokens, and lets each row change only as a job's history may |
| QueueTheorems.LaneExclusion | packages/pixishelf-job-runtime/src/queue-repository.ts:305-513 | in every reachable state a lane executes at most one job and has a lease row exactly when it does, with equal owner, worker, token and expiry |
| QueueTheorems.FencedHistory | packages/pixishelf-job-runtime/src/queue-repository.ts:972-1143 | in every run the effects of a job fall into contiguous blocks by token, in claim order, with a finalization only at the end of a block |
| QueueTheorems.StaleTokenIsInert | packages/pixishelf-job-runtime/src/queue-repository.ts:1243-1295 | nothing called with a token that no job carries any more changes anything |
| QueueTheorems.LostForever | packages/pixishelf-job-runtime/src/queue-repository.ts:1243-1295 | a worker that lost its token can do nothing, whatever happens before or after, although attempt numbers may repeat |
| QueueTheorems.FencedExecutionIsAllOrNothing | packages/pixishelf-job-runtime/src/queue-repository.ts:972-1127 | a fenced transaction commits only if its callback finalizes exactly once, publishes everything it wrote in order and the end last, and otherwise changes nothing |
| QueueTheorems.ClaimBudget | packages/pixishelf-job-runtime/src/queue-repository.ts:384-452 | attempts stay within the budget, executing jobs have begun one, and a job is claimed at most its first budget plus releases plus preserved attempts |
| QueueTheorems.StrandedOnlyByResume | packages/pixishelf-job-runtime/src/queue-repository.ts:1387-1389 | a waiting job without attempts left has a resumption in its trail with no claim after it |
| QueueTheorems.StrandingIsResuming | packages/pixishelf-job-runtime/src/queue-repository.ts:384-452 | a step strands a job if and only if it resumes that job, paused on its last attempt |
| QueueTheorems.ResumeStrandsExactly | packages/pixishelf/services/background-task/job-command-service.ts:476-505 | resuming strands a job if and only if it paused on its last attempt |
| QueueTheorems.StrandingHappens | packages/pixishelf/services/background-task/job-command-service.ts:476-505 | there is a run from empty tables that strands a job |
| QueueTheorems.StrandedIsForever | packages/pixishelf-job-runtime/src/queue-repository.ts:370-437 | a stranded job is never claimed again |
| QueueTheorems.TrailExplainsState | packages/pixishelf-job-runtime/src/queue-repository.ts:1653-1695 | replaying a job's events gives its status, and claims minus endings is one exactly while it executes |
| QueueTheorems.TypesAloneDoNotExplain | packages/pixishelf/services/background-task/job-command-service.ts:619-650 | two runs with the same event types leave a job waiting in one and paused in the other |
| QueueTheorems.TypesTellExactly | packages/pixishelf-job-runtime/src/queue-repository.ts:1653-1695 | in every run the replay of types alone agrees with the status class at every point of a trail exactly when no priority was changed while the job was paused |
| QueueTheorems.TypesPartAtPause | packages/pixishelf/services/background-task/job-command-service.ts:476-650 | at any paused job a resumption and a priority change leave equal types and different states |
| QueueTheorems.EndsAreFinal | packages/pixishelf-job-runtime/src/queue-repository.ts:897-970 | ended jobs stay as they ended, are never claimed again and publish nothing more, and CANCELLING can only become CANCELLED |
| QueueTheorems.HaltHoldsUntilResumed | packages/pixishelf-job-runtime/src/queue-repository.ts:897-970 | a pause or cancellation holds through any run until somebody resumes the job |
| QueueTheorems.PauseRequestDecides | packages/pixishelf-job-runtime/src/queue-repository.ts:1382-1389 | whatever step follows a committed pause request, the job stays pausing, pauses, or turns to cancellation |
| QueueTheorems.LiveHolderIsLeftAlone | packages/pixishelf-job-runtime/src/queue-repository.ts:305-359 | while a lease is live, a claim finds nothing and leaves the holder and its lease as they are |
| QueueTheorems.ExpiredHolderIsRecovered | packages/pixishelf-job-runtime/src/queue-repository.ts:1367-1428 | once the lease has expired, recovery always frees the lane: CANCELLING ends CANCELLED, PAUSING ends PAUSED, RUNNING waits for its next attempt from now or, without one, ends FAILED, with the two events |
| QueueTheorems.FreeLaneIsServed | packages/pixishelf-job-runtime/src/queue-repository.ts:305-513 | a claim on a lane that nobody holds under a live lease and that is not paused returns a job whenever one is due in its columns |
| PriorityAging.ClaimTakesTheLeast | packages/pixishelf-job-runtime/src/queue-repository.ts:361-437 | on the writer lane the job claimed is the first of all claimable jobs by fully aged priority, availability, creation and id, if at most 200 are eligible or one of the 200 best is claimable |
| PriorityAging.LeastInColumns | packages/pixishelf-job-runtime/src/queue-repository.ts:361-437 | under that condition the job claimed comes before every other due job by waiting, availability, creation and id, in columns |
| PriorityAging.LimitInColumns | packages/pixishelf-job-runtime/src/queue-repository.ts:1563-1641 | the condition in columns: at most 200 jobs age, or a due job has fewer than 200 ahead of it |
| PriorityAging.BoundedPassPicksTheLeast | packages/pixishelf-job-runtime/src/queue-repository.ts:1563-1641 | for any limit, a bounded aging pass and the plain rule pick the same candidate under that condition |
| PriorityAging.LimitCanBite | packages/pixishelf-job-runtime/src/queue-repository.ts:1563-1641 | without the condition they can differ: for every size from the limit on, a queue made by enqueue commands from empty tables in which the claim returns another job than the plain rule picks |
| PriorityAging.BittenRanksAreStored | packages/pixishelf-job-runtime/src/queue-repository.ts:1563-1641 | when the limit bites, aging reaches no candidate and the claim goes by stored priorities |
| PriorityAging.AgreesExactly | packages/pixishelf-job-runtime/src/queue-repository.ts:361-437 | the claim takes the job the plain rule picks if and only if the limit does not bite or the stored priorities already put that job first |
| PriorityAging.PolicyIsWeakerOnlyHere | packages/pixishelf-job-runtime/src/dispatch-window.ts:83-107 | `canClaim` admits what the SQL admits, and beyond it only MANUAL and RETRY jobs in 100 to 999 while the window is open |
| PriorityAging.ClaimHonoursWindow | packages/pixishelf-job-runtime/src/dispatch-window.ts:83-107 | every claimed job satisfies `canClaim` with the priority it was claimed at |
| FenceHolding.OwnedAllAlong | packages/pixishelf-job-runtime/src/queue-repository.ts:1243-1289 | a fence that works later, by a later clock, worked before: only its holder can extend it, and control requests have only become more urgent |
| FenceHolding.ClaimGivesFence | packages/pixishelf-job-runtime/src/queue-repository.ts:439-513 | what a claim returns is a working fence until the expiry it names |
| DispatcherPort.QueuePort.Settle | packages/pixishelf-worker/src/runtime-dispatcher-queue.ts:88-110 | each outcome kind reaches its own transition, and a transactionally finalized one is refused |
| DispatcherControl.ReadingIsUrgency | packages/pixishelf-worker/src/dispatcher.ts:625-637 | a control reading asks for exactly what the job's status presses for, so the directive only moves from CONTINUE to PAUSE to CANCEL |
| DispatcherControl.RefusalIsARequest | packages/pixishelf-worker/src/dispatcher.ts:483-504 | a settlement refused while the fence still works was overtaken by a request, and the next reading asks for another outcome |
| DispatcherControl.FinalControlFits | packages/pixishelf-worker/src/dispatcher.ts:639-647 | after normalization and the final control reading, a pause is only sent when asked for and a retry only when an attempt is left |
| DispatcherControl.SettlingHonoursRequests | packages/pixishelf-worker/src/dispatcher.ts:454-465 | a settlement that commits ends the execution as the request that committed before it demands |
| DispatcherControl.ClaimedAsExecuted | packages/pixishelf-worker/src/dispatcher.ts:366-408 | from a claim on, whatever others do, the tables, the token and the budget are as the end of the execution takes them to be |
| Dispatcher.CentralDispatcher.RaiseFatal | packages/pixishelf-worker/src/dispatcher.ts:606-613 | only the first fatal error is kept, and it stops the dispatcher |
| Dispatcher.CentralDispatcher.ReadControlWithRetry | packages/pixishelf-worker/src/dispatcher.ts:535-588 | the loop ends; tries after the first number less than the remaining lease divided by the delay; it ends with the first definite answer, and all that changes meanwhile is what others did |
| Dispatcher.CentralDispatcher.SettleWithRetry | packages/pixishelf-worker/src/dispatcher.ts:467-533 | the loop ends although it sets back its counter, after at most limit + 2 calls; with no faults it settles or the lease is gone; "remained RUNNING" is raised only for an unrequested pause or an unaffordable retry, and an unrequested pause does raise it |
| Dispatcher.CentralDispatcher.FinishExecution | packages/pixishelf-worker/src/dispatcher.ts:366-408 | a settlement that succeeds meets the tables as the world made them, and the row ends as a request that had committed demands or, still RUNNING, as reported: a thrown error FAILED, each reported kind its own status, a retry without attempts left FAILED, shutdown PENDING, cancel and pause requests CANCELLED and PAUSED; a failed or committed domain finalization is never followed by a second settlement; pausing only on request never ends in "remained RUNNING", and an unrequested pause of a job that stays RUNNING, with three plain turns, always does; success without a call and without a committed finalization is reported exactly when the executor claims a finalization it never started, and the job then stays as it was |
| PngCrc.CalculatePngCrc32 | packages/pixishelf/services/webp-animation-scan-service.ts:132-143 | the register loop's result, complemented, is the remainder of the message polynomial |
| PngCrc.CrcIsRemainder | packages/pixishelf/services/webp-animation-scan-service.ts:132-143 | the checksum is the only number whose complement is the polynomial remainder of section 3.4 of RFC 2083 |
| PngCrc.RemainderIsUnique | packages/pixishelf/services/webp-animation-scan-service.ts:132-143 | a polynomial has one quotient and one remainder by the generator |
| PngCrc.CrcIsAffine | packages/pixishelf/services/webp-animation-scan-service.ts:132-143 | on messages of one length the checksum of a sum is the sum of checksums up to the checksum of zero |
| PngBursts.BurstIsDetected | packages/pixishelf/services/webp-animation-scan-service.ts:132-143 | two messages of one length that can differ only within four consecutive bytes have equal checksums exactly when they are equal |
| PngChunks.DetectAnimatedPng | packages/pixishelf/services/webp-animation-scan-service.ts:72-130 | the chunk walk ends on every byte string with the verdict or error of `PngChunks.Probe` |
| PngChunks.WalkFindsDecider | packages/pixishelf/services/webp-animation-scan-service.ts:86-126 | over well-formed chunks the walk skips to the first acTL, IDAT or IEND and judges by it, whatever follows |
| PngChunks.AnimatedExactlyWhen | packages/pixishelf/services/webp-animation-scan-service.ts:72-130 | a file of chunks as in section 3.2 of RFC 2083 is animated exactly when that first chunk is a valid acTL with more than one frame |
| PngChunks.ProbeExactly | packages/pixishelf/services/webp-animation-scan-service.ts:86-126 | which of the answers and errors a file of chunks draws, each exactly, from its first acTL, IDAT or IEND |
| PngChunks.SignatureExactly | packages/pixishelf/services/webp-animation-scan-service.ts:75-80 | refused for its signature exactly without the eight bytes of section 3.1 of RFC 2083 |
| PngChunks.CutControlIsRefused | packages/pixishelf/services/webp-animation-scan-service.ts:98-108 | a file that ends inside its control chunk is refused for that |
| PngChunks.NumberIsBigEndian | packages/pixishelf/services/webp-animation-scan-service.ts:91 | four bytes are read as a number with the highest part first |
| PngChunks.PlainNamesAreExact | packages/pixishelf/services/webp-animation-scan-service.ts:93 | the decoding leaves a type name as it is if and only if no byte has its highest bit set |
| PngChunks.LetteredFilesAreJudgedByName | packages/pixishelf/services/webp-animation-scan-service.ts:72-130 | a file of chunks whose types are letters (section 3.2 of RFC 2083) is animated exactly when its first chunk of type acTL, IDAT or IEND, byte for byte, is a valid acTL with more than one frame |
| PngChunks.DisguisedNamePasses | packages/pixishelf/services/webp-animation-scan-service.ts:93 | a type that differs only in a high bit is taken for acTL |
| HexHamming.HammingDistanceHex | packages/pixishelf/services/video-keyframe-policy.ts:124-138 | the bit loop computes the Hamming distance of the two bit strings, infinite for unequal lengths or other characters |
| HexHamming.NibbleIs | packages/pixishelf/services/video-keyframe-policy.ts:128-130 | a digit stands for its place in the list of digits, in either case, and nothing else is one |
| StableSorting.SortIsStable | packages/pixishelf/services/video-keyframe-policy.ts:88-90 | elements that compare equal keep their order |
| KeyframeSelection.SelectRepresentativeKeyframes | packages/pixishelf/services/video-keyframe-policy.ts:82-122 | the bucket, pick and fill loops compute `KeyframeSelection.Selection` |
| KeyframeSelection.BucketIndexFits | packages/pixishelf/services/video-keyframe-policy.ts:91-95 | the computed bucket of a candidate is the one whose contiguous range holds it |
| KeyframeSelection.BucketsAreEven | packages/pixishelf/services/video-keyframe-policy.ts:91-95 | bucket sizes are the average rounded down or up |
| KeyframeSelection.BucketIsStretch | packages/pixishelf/services/video-keyframe-policy.ts:91-95 | a bucket is the stretch of candidates whose place times the target, divided by their number, is its own number |
| KeyframeSelection.BucketGivesItsBest | packages/pixishelf/services/video-keyframe-policy.ts:97-104 | a bucket adds the frame of highest score (sharpness less a twentieth of the distance from middle brightness) among those more than 6 bits from all earlier picks, and nothing exactly when it has none |
| KeyframeSelection.SelectionIsGreedy | packages/pixishelf/services/video-keyframe-policy.ts:82-122 | the frames are the picks of the buckets and then, one after the other, a candidate that may join and is further in time from all chosen than every other that may, or as far and better |
| KeyframeSelection.SelectionIsSound | packages/pixishelf/services/video-keyframe-policy.ts:82-122 | at most the target number, none twice, brightness 8 to 247 and sharpness from 4, in order of time, pairwise more than 6 bits apart |
| KeyframeSelection.SelectionIsMaximal | packages/pixishelf/services/video-keyframe-policy.ts:106-119 | when the selection is short, every usable candidate shares its index with a selected frame or is within 6 bits of one |
| JsonText.WriteReads | packages/pixishelf-job-contracts/src/audit-apply.ts:52-73 | what is written as JSON text (section 7 of RFC 8259) reads back as it was |
| JsonText.UnitForm | packages/pixishelf-job-contracts/src/audit-apply.ts:52-73 | how each unit of a string is escaped (section 7 of RFC 8259) |
| JsonText.ItemsForm | packages/pixishelf-job-contracts/src/audit-apply.ts:52-73 | an array is its items with commas between them and no space |
| AuditPreimage.CanonicalizeAuditApplyInputs | packages/pixishelf-job-contracts/src/audit-apply.ts:36-74 | the loop over the two sets reports the same first error, or the same text, as `AuditPreimage.Canonical` |
| AuditPreimage.AcceptsExactly | packages/pixishelf-job-contracts/src/audit-apply.ts:36-50 | accepted are exactly the inputs whose columns are within their limits, whose ordinals are a permutation of 0 to n-1 and whose trimmed item ids differ |
| AuditPreimage.RefusesExactly | packages/pixishelf-job-contracts/src/audit-apply.ts:36-50 | which error an input draws: run id, rows, a repetition, and a gap only when nothing repeats |
| AuditPreimage.RowExactly | packages/pixishelf-job-contracts/src/audit-apply.ts:7-26 | the limits of a row, column by column; a path is relative and no part of it between slashes of either kind is two dots |
| AuditPreimage.TrimTakesSpace | packages/pixishelf-job-contracts/src/audit-apply.ts:4 | trimming takes white space from both ends and stops at the first character that is none |
| AuditPreimage.TextForm | packages/pixishelf-job-contracts/src/audit-apply.ts:52-73 | the text itself: domain, trimmed run id and the rows in the order of their ordinals, sixteen columns each in their order |
| AuditPreimage.SameTextExactlyWhen | packages/pixishelf-job-contracts/src/audit-apply.ts:52-73 | two accepted inputs give the same text exactly when run id and rows are equal as parsed, in any order |
| AuditPreimage.OrderDoesNotMatter | packages/pixishelf-job-contracts/src/audit-apply.ts:39 | every permutation of the rows gives the same text |
| AuditPreimage.PaddingIsInvisible | packages/pixishelf-job-contracts/src/audit-apply.ts:37 | on unparsed input the text is not injective: leading space disappears |
| AuditPreimage.TextIsWellFormed | packages/pixishelf-job-contracts/src/audit-apply.ts:52-73 | the text has no lone surrogate, so encoding it before hashing loses nothing |
| UriComponent.EncodedDecodes | packages/pixishelf/lib/derived-media.ts:57-60 | what can be percent-encoded (section 2.1 of RFC 3986) decodes to what it was |
| UriComponent.EncodesExactly | packages/pixishelf/lib/derived-media.ts:57-60 | encoding fails exactly on text with a lone surrogate |
| UriComponent.AsciiForm | packages/pixishelf/lib/derived-media.ts:57-60 | unreserved ASCII characters are kept, the others written as a percent sign and two upper-case digits |
| UriComponent.EscapesAreShortest | packages/pixishelf/lib/derived-media.ts:93-99 | an escape that decodes is a character in as few bytes as UTF-8 has for it, and no half of a pair |
| DerivedMedia.NormalizesExactly | packages/pixishelf/lib/derived-media.ts:34-49 | accepted are exactly the paths of parts that are neither empty nor dots, without control characters, backslash and DEL |
| DerivedMedia.BuildsExactly | packages/pixishelf/lib/derived-media.ts:51-75 | an address can be built exactly for normal paths without lone surrogates |
| DerivedMedia.PlainForm | packages/pixishelf/lib/derived-media.ts:51-75 | a path that needs no encoding follows the public root as it is, and the time follows `?v=` |
| DerivedMedia.BuiltResolves | packages/pixishelf/lib/derived-media.ts:63-117 | a built address resolves to the kind, path and version it was built from |
| DerivedMedia.BuildIsInjective | packages/pixishelf/lib/derived-media.ts:63-75 | different arguments never give the same address |
| DerivedMedia.ResolvesExactly | packages/pixishelf/lib/derived-media.ts:82-117 | an address resolves to a kind and path exactly when its segments decode one by one to the parts of that path and none brings a separator of its own |
| DerivedMedia.ResolvedIsNormal | packages/pixishelf/lib/derived-media.ts:82-117 | every resolved path is one the normalizer accepts unchanged, below the root of its kind, without dot segments |
| DerivedMedia.RebuildIsStable | packages/pixishelf/lib/derived-media.ts:63-117 | a resolved address can be rebuilt to one that resolves the same exactly when its path has no lone surrogate |
| DerivedMedia.LoneSurrogateResolves | packages/pixishelf/lib/derived-media.ts:95-99 | an unescaped lone surrogate passes the parser and cannot be rebuilt |
| WorkerSafety.AlwaysOk | packages/pixishelf-worker/src/worker-application.ts:46-162 | the invariant of host, presence writes and application holds in every interleaving |
| WorkerSafety.ReadyWaitsForStartup | packages/pixishelf-worker/src/presence-readiness-gate.ts:13-18 | READY reaches the store only once the host is up, the preflight passed and every dispatcher is prepared |
| WorkerSafety.NoActivationWhileDraining | packages/pixishelf-worker/src/worker-application.ts:79-90 | no step activates a dispatcher once draining has begun |
| WorkerSafety.BeatsNeverOverlap | packages/pixishelf-job-runtime/src/heartbeat-loop.ts:40-82 | when the timer fires no beat is under way, and at most one beat write is in the chain |
| WorkerSafety.StoppingIsLast | packages/pixishelf-job-runtime/src/worker-host.ts:82-101 | STOPPING is the last status the store is asked for, and a host that shut down has asked for it |
| WorkerSafety.DisconnectIsLast | packages/pixishelf-worker/src/worker-application.ts:129-162 | the database is disconnected only after every activated dispatcher has stopped, and after the host has if it was started |
| WorkerSafety.DisconnectExactly | packages/pixishelf-worker/src/worker-application.ts:129-162 | at the disconnection every prepared dispatcher has stopped if and only if no preparation failed or none succeeded |
| WorkerSafety.SilenceAfterDisconnect | packages/pixishelf-worker/src/worker-application.ts:129-162 | no presence write is attempted after the disconnection |
| WorkerSafety.PreparedButNeverStopped | packages/pixishelf-worker/src/worker-application.ts:69-79 | a run in which one preparation fails and a prepared dispatcher is never stopped |
| WorkerProgress.NothingGetsStuck | packages/pixishelf-worker/src/worker-application.ts:46-162 | a worker in which nothing is outstanding has come through its start: it serves with READY asked for, every dispatcher prepared and activated and the next beat due, or its health server failed, or it was told to leave, and then it has disconnected unless a dispatcher failed to stop |
| WorkerProgress.BeatsReport | packages/pixishelf-job-runtime/src/worker-host.ts:46-65 | a beat asks for the status of the moment, a failed one degrades the worker, the next that gets through asks for READY again, and a stopping worker asks for nothing |
| KeyframeQueue.VideoKeyframeQueue.EnqueueVideoKeyframeJob | packages/pixishelf/services/video-keyframe-queue.ts:108-178 | answers with the one active job of the image, new only if there was none and never less urgent than before, or refuses exactly when there is none and no room; keeps all bounds |
| KeyframeQueue.RequestIsIdempotent | packages/pixishelf/services/video-keyframe-queue.ts:108-178 | a second request for an image is answered with the job of the first |
| KeyframeQueue.VideoKeyframeQueue.ClaimNextVideoKeyframeJob | packages/pixishelf/services/video-keyframe-queue.ts:474-520 | finds nothing exactly when something is at work, maintenance is, or nothing is due; else the job taken comes before every other due one and is then the only one at work; keeps all bounds |
| KeyframeQueue.VideoKeyframeQueue.RetryVideoKeyframeJob | packages/pixishelf/services/video-keyframe-queue.ts:568-618 | changes something only by putting back an ended job, as the one active job of its image with all attempts; refuses for room exactly when the queue is full; keeps all bounds |
| KeyframeQueue.ControlIsDecided | packages/pixishelf/services/video-keyframe-queue.ts:522-566 | what pause, resume and cancel make of a job at each stage, and that no other job changes |
| KeyframeQueue.ReportIsDecided | packages/pixishelf/services/video-keyframe-queue.ts:796-1036 | what a report makes of the job at each stage, and that it counts only for its own attempt |
| KeyframeQueue.QueueStaysBounded | packages/pixishelf/services/video-keyframe-queue.ts:108-178 | in every run at most 100 open generation jobs, at most 90 of them automatic, at most one per image, at most one job of either kind RUNNING or PAUSING |
| KeyframeQueue.ManualRequestsHaveRoom | packages/pixishelf/services/video-keyframe-queue.ts:145-161 | automatic jobs alone never keep a manual request out |
| KeyframeQueue.DeferralKeepsAttempt | packages/pixishelf/services/video-keyframe-queue.ts:401-427 | claiming and deferring a discovery job leaves its attempt count as it was |
| KeyframeDiscovery.ProcessDiscovery | packages/pixishelf/services/video-keyframe-queue.ts:230-449 | the loop over the images ends as `KeyframeDiscovery.Pass` says: complete, deferred with what to store, or given up |
| KeyframeDiscovery.NextPassContinues | packages/pixishelf/services/video-keyframe-queue.ts:401-427 | the next pass sees exactly the images after the last one counted |
| KeyframeDiscovery.EachImageCountedOnce | packages/pixishelf/services/video-keyframe-queue.ts:230-449 | over any number of deferrals and abandoned passes, the images that entered the counts, in order, are those before the ones that remain, each once, and the stored totals are the totals of what was found at them |
| KeyframeDiscovery.DiscoveryConserves | packages/pixishelf/services/video-keyframe-queue.ts:244-449 | over any number of deferrals and abandoned passes, discovered = filtered + current + matched + inaccessible, and matched = enqueued + reused outside preview |
| KeyframeDiscovery.TotalsAreNumbers | packages/pixishelf/services/video-keyframe-queue.ts:244-449 | each total is the number of images at which the pass found what the total is named after |
| KeyframeDiscovery.NewDiscoveryConserves | packages/pixishelf/services/video-keyframe-queue.ts:230-449 | when a new discovery job completes, the images counted are exactly the table, each once, and each total is the number of images at which the pass found just that |
| MediaPaths.QueryMatchesProgram | packages/pixishelf/services/media-derived-tag-service.ts:14-19 | without question marks the query returns exactly what the program takes for a video or WebP file |
| MediaPaths.HiddenVideoExactly | packages/pixishelf/services/media-derived-tag-service.ts:14-19 | a video is not returned exactly when its path has a query, a video extension stands before it, and the query ends in no extension itself |
| DerivedTags.LoadExpected | packages/pixishelf/services/media-derived-tag-service.ts:100-127 | the cursor-paged run finds the artworks of all rows of the query |
| DerivedTags.TagRelations.SyncTagRelations | packages/pixishelf/services/media-derived-tag-service.ts:184-228 | in batches, the page's relations become the expected ones, and the counts are of what changed |
| DerivedTags.SyncAllMediaDerivedTags | packages/pixishelf/services/media-derived-tag-service.ts:230-308 | afterwards each tag is on exactly the artworks it is expected on, and final = existing + added - removed = expected |
| DerivedTags.TagsMeanWhatTheySay | packages/pixishelf/services/media-derived-tag-service.ts:88-98 | without question marks: video = has a video, webp = has a WebP file, image = has no video |
| DerivedTags.TagsAreRightExactly | packages/pixishelf/services/media-derived-tag-service.ts:88-127 | webp is right for all images; video and image are right on an artwork if and only if it has no video or has one the query returns |
| DerivedTags.QuestionMarkMistags | packages/pixishelf/services/media-derived-tag-service.ts:14-19 | a question mark in a path makes an artwork with a video look like one without |

## Left out

- PostgreSQL: transactions are atomic steps; isolation levels, row-lock waiting, SKIP LOCKED, advisory-lock hashing and the dispatcher transaction lock are not modelled.
- Job columns that decide nothing: attempt, worker and progress on events, messages, results, error texts, heartbeatAt and startedAt; jobs with definitionVersion 0.
- EnqueueChild: requests without an idempotency key; with one, the program compares a stored child by its aged priority and raised budget, so a replay is not always recognised.
- Enqueue: the checks on the payload, one of which refuses a retired scan, and idempotency keys; the retention of finished jobs is left out too.
- Audit-apply and archive-intake rows that job commands and recovery update beside the job (what a cancellation finds there is one argument, and every refusal it draws from them one error), and `archive_resolve_queue_control` except its pause flag; of the services that create jobs besides `enqueueJob` only archive intake's resolver jobs are steps, without the checks on its own tables.
- The local calendar: the date, the open window and the ended window at a clock reading are arguments of a step.
- Domain callbacks are lists of writes, finalizer calls and throws; they do not touch the queue's own tables.
- FencedHistory: token history and first budget are kept in the model's rows; the program stores neither.
- ClaimTakesTheLeast: needs earlier claims to have read no later clock, because stored priorities keep what an earlier pass lowered; children are created with equal queue and effective priority, the default.
- Dispatcher: the claim loop, executor start, execution monitor, draining timers and logging; the retry loop is modelled around control readings, whose abort signal is never raised; executor, interruption and finalization results are arguments.
- Worker lifecycle and keyframe control are modelled on values: the pieces of `start`, `shutdown`, the host and the loop are functions of one state, since their asynchronous interleaving, not their fields, is the point; forced termination, the health server's failures after start and error texts are absent.
- Keyframe jobs: finalizing a cancelled job is one step where the program uses two transactions around file removal; staging rows, frames and files are absent.
- Keyframe selection, buckets and scores use exact numbers; floating-point rounding, candidate times and target counts are absent.
- Audit rows are typed values: the schemas' rejection of wrong JavaScript types is absent, their length, range and format rules are modelled.
- Addresses: decoding of plus signs and escapes in the query is an argument that keeps digits, minus signs and lower-case letters; date parsing is absent.
- Derived tags: tag rows, provenance, progress messages and cancellation; case folding of extensions is ASCII; other writers during a run are absent.
- PNG: WebP and GIF frame counts come from a library, and the batch scan around the probe only counts.
