# Verification of the transcription backend's core

A Dafny model of the stateful core of the backend, with proofs about it. Verify with
`dafny verify dfyconfig.toml`.

**The job lifecycle.** A job lives in a database row, a manifest and a folder of stage
files. `Jobs` and `Resume` hold the data and the pure rules (projection, drift, resume walk).
`Protocol` is the state machine: every SELECT, UPDATE, manifest replace, transcript write and
folder delete is one step of some process (creator, worker, run, cancel, watchdog, boot), in
any interleaving, with a crash or an aborted process between any two steps.
`ProtocolInvariant` proves the inductive invariant, `ProtocolTheorems` what it means for one
job, `SystemRun` and `Overtaking` what it means for all jobs over whole runs, and `SoloRun`
that a run nobody disturbs finishes. `CancelEffect` says exactly when a cancel of an active job
takes effect, `UploadsOnly` that only uploads can ever be done, and `Incidents` holds concrete
runs from the empty system in which something one might rely on does not hold. `Boot`, `RunJobs` and `JobStores` are the same code one
call at a time: `JobStore` is a class whose methods change the row and folder tables, and its
`RunJob`, which calls the chunker, is proved to be a run of the protocol. `ServiceCalls` says,
field by field, what the steps of each service call come to when it is left alone.

**The windowed transcriber.** `ChunkRecursion` is the split-on-out-of-memory recursion,
`Chunker` the window loop and its specification; `ChunkRequests` says what the adapter is asked
and what of its answers the transcript carries; `ChunkWindows`, `ChunkFloor`, `ChunkOrder`,
`ChunkCoverage`, `ChunkSplits` and `ChunkExact` prove windows, progress, cancels and cost, the
60 s floor, order, coverage, and exactness with and without splits.
The adapter is an arbitrary function of the call number and the request, so it may run out of
memory on one call and not on the next.

**The smaller cores.** `EventBuses` (drop-oldest event bus), `Vram` (reservation gate) and
`SettingsSlot` (settings that wait for a restart).

Where the code and its own prose differ, the model follows the code:

- The watchdog's prose names two statuses; its SELECT also takes `starting`
  (`app/jobs/queue.py:334-339`).
- The boot sweep's prose says a failed manifest stops the next reconcile from reverting the row;
  the stage `failed` projects to `queued`, so the next boot queues the job again
  (`app/jobs/manifest.py:77`; `Jobs.SweptJobIsQueuedAgain`).
- The prose of `run_job` says a claimed job moves on to `ingesting` at once; the ingest branch is
  entered only when its own source check is about to fail (`Resume.IngestBranchOnlyRaises`).
- A source path given to `create_job` goes into the row but not into the manifest
  (`app/jobs/service.py:66-90`): over every run such a job never gets a transcript and is never
  done (`UploadsOnly.PlainJobStaysBare`, `UploadsOnly.DoneMeansUploaded`), each of its runs fails
  (`UploadsOnly.PlainRunFails`), and the next boot clears the path from the row
  (`UploadsOnly.ReconcileClearsSourcePath`).
- The prose of `cancel` says the run ends cancelled at the next chunk boundary. That is so exactly
  when a run has registered and still has a look at its flag ahead of it
  (`CancelEffect.CancelTakesEffectIff`); `Incidents` has a cancel that comes too early and one
  that comes too late.
- A PATCH may send null for three settings the file must carry; the next boot then rejects the
  file and starts from defaults (`SettingsSlot.NullLosesEverything`).

## Model

| member | source | states |
|---|---|---|
| ChunkRecursion.CallsBounded | app/models/stt/chunker.py:286-303 | A chunk shorter than 60·2^d s costs at most 2^(d+1) − 1 adapter calls, whatever fails and whether or not it succeeds |
| ChunkRecursion.WindowCallsBounded | app/models/stt/chunker.py:75-79 | One window of at most 900 s costs at most 31 adapter calls |
| Stt.OutOfMemoryIff | app/models/stt/chunker.py:81-85 | What makes the chunker split: exactly a RuntimeError in whose text the three words stand somewhere, in capitals or not |
| ChunkRecursion.LeavesCoverChunk | app/models/stt/chunker.py:297-303 | When a chunk succeeds, the slices the adapter answered concatenate to exactly the chunk's samples |
| ChunkRecursion.LeavesPlaceSegments | app/models/stt/chunker.py:304-319 | The result is the leaves' own segments, in order, each moved by its leaf's absolute offset and by nothing else, at any depth |
| ChunkRecursion.LeavesGiveLanguageAndDuration | app/models/stt/chunker.py:314-319 | A chunk has its first leaf's language and probability, and the duration of all leaves together |
| ChunkRecursion.AskedAreTheCalls | app/models/stt/chunker.py:286-303 | The log of asked slices has one entry for each adapter call, numbered in order, and the leaves are the answered ones |
| ChunkRecursion.SlicesTrackLength | app/models/stt/chunker.py:297-303 | For every slice asked about, also in a recursion that fails, `chunk_s` is the slice length to within one sample, the slice is not empty, and a chunk shorter than 60·2^d s was split at most d times to get to it |
| ChunkRecursion.ShortSlicesSuffice | app/models/stt/chunker.py:286-303 | An adapter that runs out of memory only on slices longer than 60 s never fails a chunk |
| ChunkFloor.SixtySecondsSufficeIffNotAwkward | app/models/stt/chunker.py:286-303 | For every adapter that runs out of memory only from exactly 60 s on, a chunk gets through if and only if its length is not within 2^d − 1 samples below 60·2^d s |
| ChunkFloor.FileSurvivesIffNoAwkwardWindow | app/models/stt/chunker.py:188-207 | The same for the window loop over a whole file: it goes through for all such adapters if and only if no window has an awkward length |
| ChunkFloor.FullWindowsAreNotAwkward | app/models/stt/chunker.py:75-79 | A full 900 s window is never awkward, so only windows at the end of the file can be |
| ChunkRecursion.SixtySecondSliceFails | app/models/stt/chunker.py:286-303 | The concrete failing input: 1,919,999 samples, whose right half is exactly 60 s while `chunk_s` is below the floor |
| Chunker.WindowCountIsTotalChunks | app/models/stt/chunker.py:173-188 | The loop's condition holds for exactly `total_chunks` window starts |
| Chunker.AppendKept | app/models/stt/chunker.py:216-228 | The dedupe loop appends exactly the placed segments that do not begin before the previous window's end |
| Chunker.TranscribeWindows | app/models/stt/chunker.py:184-253 | The window loop, with early exits, computes the window-by-window fold |
| Chunker.TranscribeFile | app/models/stt/chunker.py:128-253 | Both paths, language detection included, compute the specified outcome, progress and call count |
| ChunkRequests.ChunkAsksStretches | app/models/stt/chunker.py:273-303 | Two adapters that agree on every stretch of a chunk, asked in its language and without the previous text, give the same run of the recursion |
| ChunkRequests.FileAsks | app/models/stt/chunker.py:132-207 | A file's outcome, progress and number of calls depend only on the adapter's answers in the language asked for or detected: about stretches of a long file without the previous text, about the whole of a short one with it |
| ChunkRequests.WindowIsTranscribed | app/models/stt/chunker.py:199-232 | Window k is the samples from k times 870 s on, 900 s or up to the end; its failure ends the scan, or its segments are taken over from its own start, but for those before the previous end |
| ChunkRequests.TranscriptFields | app/models/stt/chunker.py:160-171 | A finished transcript carries the job id, the file's duration, and the language asked for, answered or detected |
| ChunkRequests.ShortFile | app/models/stt/chunker.py:132-165 | A short file is one call, one progress event and the answer's segments one by one, or with the flag up nothing |
| ChunkRequests.FailureWasRaised | app/models/stt/chunker.py:286-294 | A failure is one that the adapter raised about a stretch of the audio, or the detection, unchanged |
| ChunkWindows.EverySampleInOneOrTwoWindows | app/models/stt/chunker.py:173-201 | Every sample lies in its own step's window and at most in the one before as well |
| ChunkWindows.WindowsInSamples | app/models/stt/chunker.py:173-201 | The starts, ends and number of the windows in samples |
| ChunkWindows.WindowedProgress | app/models/stt/chunker.py:234-244 | Progress is 1/n, 2/n, … in order without repetition, reaching n/n exactly when the run finishes |
| ChunkWindows.CancelStopsAtBoundary | app/models/stt/chunker.py:188-197 | A flag seen before window k ends the run cancelled with the calls and the k events made so far |
| ChunkWindows.CancelledRunNeverFinishes | app/models/stt/chunker.py:188-197 | Once the flag is set before window k no run finishes, and at most k windows were reported |
| ChunkWindows.WindowsCancelledIff | app/models/stt/chunker.py:188-207 | The window loop ends cancelled if and only if the flag is up at the start of a window the loop reaches |
| ChunkWindows.TranscriptionCancelledIff | app/models/stt/chunker.py:132-207 | The same for a file of any length, the short path and the language detection included |
| ChunkWindows.OnlyTheFlagCancels | app/models/stt/chunker.py:133-197 | Without the flag no path of the transcriber ends cancelled |
| ChunkWindows.FileCallsBounded | app/models/stt/chunker.py:182-207 | A long file costs at most 31 times `total_chunks` adapter calls, a short one at most one |
| ChunkWindows.ScanSucceeds | app/models/stt/chunker.py:188-207 | With an adapter that can take 60 s slices and no cancel the window loop never fails |
| ChunkOrder.ChunkOrdered | app/models/stt/chunker.py:297-319 | Whatever is split, a successful chunk of an orderly adapter is sorted, disjoint and inside its slice |
| ChunkOrder.TranscriptOrdered | app/models/stt/chunker.py:216-253 | For every pattern of failures that ends in success the whole transcript is sorted, pairwise disjoint and inside the file |
| ChunkCoverage.ChunkTiles | app/models/stt/chunker.py:297-319 | If every answer tiles its slice, a successful chunk tiles the whole chunk |
| ChunkCoverage.TranscriptCovers | app/models/stt/chunker.py:128-253 | With tiling answers of segments up to L ≤ 870 s the transcript starts at 0, has no gap above L and ends within L of the end of the file |
| ChunkSplits.ChunkHears | app/models/stt/chunker.py:286-319 | A chunk whose unsplit slices are answered with the utterances inside them brings exactly the utterances inside the chunk that no split cuts, whatever the pattern of splits |
| ChunkExact.StitchingIsExact | app/models/stt/chunker.py:188-232 | For every pattern of out-of-memory splits the run finishes and the transcript is, in order and with original times and text, every utterance cut neither by a window end nor by a split of the window that adds it, each exactly once |
| ChunkExact.UnsplitStitchingIsExact | app/models/stt/chunker.py:188-232 | If nothing runs out of memory there is one call a window and exactly the utterances cut by a window end are lost |
| ChunkExact.TranscriptIsExact | app/models/stt/chunker.py:128-253 | The same for a file of any length; a file of up to 30 minutes keeps every utterance |
| Jobs.UpdateStageIsCrashAtomic | app/jobs/manifest.py:196-251 | Wherever a stage update stops, reconcile leaves the nine columns equal to the projection of the old or the fully updated manifest; a completed update needs no healing; healing twice is healing once |
| Jobs.DriftIsColumnDifference | app/jobs/reconcile.py:123-145 | The nine-way comparison finds drift exactly when a projected column differs, a NULL summary list reading as the empty one |
| Jobs.UpdateStageProtectsFields | app/jobs/manifest.py:196-250 | A stage update sets stage, status and that stage's timestamp; of the other fields exactly those the patch carries change, field by field; and the row takes over every projected column |
| Jobs.RunStagesNeverQueue | app/jobs/manifest.py:47-77 | No stage a run records projects to a status a worker could claim, and only "done" projects to done |
| Jobs.StatusTellsStage | app/jobs/manifest.py:47-77 | Each status a stage can project to, read backwards: exactly the stages, with the options that were asked for, that project to it |
| Jobs.StatusClasses | app/jobs/cleanup.py:40 | Which statuses can still be queued, which are active and which are terminal |
| Jobs.NewJobReconciled | app/jobs/manifest.py:106-114 | Reconcile gives a new job's row its queued timestamp and an empty summary list, takes away the source it was created with, and leaves the rest unset |
| Jobs.HealFieldByField | app/jobs/reconcile.py:147-176 | A healed row repeats the manifest in nine columns and keeps its creation time, its original name and its error |
| Jobs.EndSurvivesOnlyWithoutManifest | app/jobs/reconcile.py:90-178 | A failed or cancelled row is still so after reconcile if and only if it has no manifest |
| Jobs.SweptJobIsQueuedAgain | app/jobs/interrupt.py:146-154 | The sweep's failed manifest makes the next reconcile queue the job again |
| Resume.ResumePointCases | app/jobs/resume.py:217-235 | The walk returns the first applicable stage whose output is missing, in the fixed order |
| Resume.NothingLeftIffOutputsComplete | app/jobs/resume.py:135-235 | Nothing, or only the derived "done", is left exactly when every applicable output is complete |
| Resume.AdvancingToDoneFinishes | app/jobs/interrupt.py:127-144 | Recording "done" on complete outputs leaves no resume point |
| Resume.IngestBranchOnlyRaises | app/jobs/orchestrator.py:215-237 | When the walk finds the source missing, the run's own source check fails on the same files |
| ProtocolInvariant.StepKeepsInv | app/jobs/orchestrator.py:201-364 | Every step of every process and of boot keeps the invariant, from any interleaving |
| ProtocolInvariant.RunKeepsInv | app/jobs/orchestrator.py:201-326 | Each atomic step of a run keeps the invariant while other processes stand anywhere |
| ProtocolInvariant.CancelKeepsInv | app/jobs/queue.py:218-306 | So does each statement of a cancel |
| ProtocolInvariant.ClaimKeepsInv | app/jobs/queue.py:106-128 | So does the claim, won or lost |
| ProtocolInvariant.CreateKeepsInv | app/jobs/service.py:66-123 | So do creation, its compensating delete and the upload that follows it |
| ProtocolInvariant.WatchKeepsInv | app/jobs/queue.py:329-345 | So do the watchdog's SELECT, its staleness check and its mark |
| ProtocolInvariant.BootKeepsInv | app/jobs/interrupt.py:95-161 | So do reconcile and every step of the sweep |
| ProtocolTheorems.CancelAndRunNeverShareJob | app/jobs/queue.py:240-268 | A run and a cancel that will remove the folder never hold the same job |
| ProtocolTheorems.ClaimIsFirst | app/jobs/queue.py:115-128 | A claim succeeds only on a job not claimed since the last boot, and the job then stays claimed |
| ProtocolTheorems.QueueStepsKeepTerminalRows | app/jobs/queue.py:73-80 | No step of enqueue, claim or cancel changes a done, failed or cancelled row |
| ProtocolTheorems.NoSecondTranscription | app/jobs/orchestrator.py:213-275 | Once a valid transcript exists no run stands before the adapter call or the transcript write |
| ProtocolTheorems.TranscriptIsNeverRewritten | app/jobs/orchestrator.py:270-275 | No step but a cancel's folder delete changes an existing transcript |
| ProtocolTheorems.DoneFolderIsNeverRemoved | app/jobs/cleanup.py:57-85 | While the manifest says "done" no step changes the folder |
| ProtocolTheorems.FlagNeedsRegisteredRun | app/jobs/queue.py:273-306 | A cancel of an active job raises a flag if and only if a run has registered; otherwise it changes nothing |
| CancelEffect.OnlyTwoLooks | app/jobs/orchestrator.py:248-316 | A run's next step depends on its flag only while it transcribes and before it records a "done" that was all that was missing |
| CancelEffect.FlaggedRunEnds | app/jobs/orchestrator.py:201-331 | A flagged run left alone ends, and ends with a cancelled row and the folder deleted if and only if a look at the flag lies ahead of where it stands |
| CancelEffect.LateFlagIsIgnored | app/jobs/orchestrator.py:260-300 | From the moment the transcriber has returned no look lies ahead: flagged or not, the run ends with row and manifest "done" |
| CancelEffect.CancelTakesEffectIff | app/jobs/queue.py:273-306 | In every state of the invariant, a cancel of an active job leads to the job's run ending cancelled if and only if a run has registered and a look at the flag lies ahead of it |
| Incidents.CancelCanComeTooEarly | app/jobs/queue.py:273-294 | A concrete run in which a cancel between claim and registration leaves the run unflagged |
| Incidents.CancelCanComeTooLate | app/jobs/orchestrator.py:260-283 | A concrete run in which a cancel raises the flag of a registered run and the job ends done |
| Incidents.WatchdogFailedJobEndsDone | app/jobs/queue.py:334-344 | A concrete run in which the watchdog fails a job and the job ends done |
| Incidents.CrashQueuesCancelledJob | app/jobs/cleanup.py:57-85 | A concrete run in which a crash in the middle of a cancel has the next boot queue the job again |
| ProtocolTheorems.FailedStaysIff | app/jobs/cleanup.py:88-102 | From a failed row any step leaves it failed if and only if it is not the row update of a stage update, a run's own cancel, a compensating delete, or a reconcile that finds a manifest |
| SystemRun.FailedLastsIff | app/jobs/manifest.py:225-250 | Through any stretch of any run, crashes and boots included, a failed row is failed if and only if none of those steps is taken |
| ProtocolTheorems.CrashUndoesCancel | app/jobs/reconcile.py:90-178 | A crash between a cancel's row update and its folder delete undoes the cancel: reconcile goes by the manifest and queues the job again |
| ProtocolTheorems.ReadyJobsAreNotActive | app/jobs/interrupt.py:89-161 | After boot no row is active and a second sweep changes nothing |
| SystemRun.RunKeepsSystemInv | app/main.py:205-240 | The invariant holds in every state of every run of all jobs, with any crashes and reboots |
| SystemRun.DoneIsAlwaysBacked | app/jobs/orchestrator.py:282-326 | In every state of every run a "done" manifest lies beside a valid transcript and a "done" row has such a manifest |
| SystemRun.JobHasOneOwner | app/jobs/queue.py:115-128 | In every state of every run a job has at most one run, and never a run and a folder-removing cancel |
| SystemRun.DoneFolderIsForever | app/jobs/orchestrator.py:282-326 | Once a manifest says "done", no step of the rest of any run, crashes and boots included, changes the job's folder |
| SystemRun.TranscriptLasts | app/jobs/resume.py:173-200 | A valid transcript stays as it is over any run until a cancel removes the folder |
| SystemRun.TranscribedOnceUnlessRemoved | app/jobs/orchestrator.py:213-275 | Over any run a job with a valid transcript comes before the adapter again only if its folder was removed in between |
| SystemRun.ClaimedOncePerBoot | app/jobs/queue.py:106-128 | Two successful claims of one job always have a crash between them |
| Overtaking.SelectTakesEarlier | app/jobs/queue.py:106-114 | While a job is queued a SELECT picks only jobs created before it |
| Overtaking.AheadShrinks | app/jobs/queue.py:106-128 | No step short of a crash puts a job in front of a queued one, and every claim of another job takes one away |
| Overtaking.OvertakingIsBounded | app/jobs/queue.py:106-128 | While a job stays queued the claims of other jobs number at most the unclaimed jobs in front of it |
| Overtaking.OnlyEarlierJobsOvertake | app/jobs/queue.py:106-180 | If no worker has already selected a job created later, the claims of other jobs number at most the unclaimed jobs created before it |
| Overtaking.FreshOvertakingIsBounded | app/jobs/queue.py:106-180 | Whatever workers were between SELECT and UPDATE: the claims whose SELECT comes after the job was queued number at most the unclaimed jobs created before it |
| SoloRun.UninterruptedRunFinishes | app/jobs/orchestrator.py:201-326 | From every state the invariant allows, a healthy claimed run left alone ends in at most twelve steps with row and manifest "done" and nothing to resume; it calls the adapter only if there was no transcript |
| SoloRun.EndedRunIsDone | app/jobs/orchestrator.py:201-364 | However long it is watched, a healthy run ends done |
| RunJobs.RunStoresIsARun | app/jobs/orchestrator.py:201-364 | A whole call of `run_job`, with both exception handlers and the finally block, is a run of the protocol from the claim to its end |
| RunJobs.RunSavesTranscript | app/jobs/orchestrator.py:260-300 | What a call saves is what the transcriber returned for the decoded audio, whole; manifest and row record its language and duration, and no other file or field changes |
| RunJobs.RunSavesNothingElse | app/jobs/orchestrator.py:282-289 | A call that does not get a transcript back leaves the saved one as it was, or deletes the folder |
| RunJobs.RunSavesUtterances | app/jobs/orchestrator.py:260-300 | From an adapter that hears the utterances, the saved transcript is those utterances but for the ones a window end or a split cuts, with the job's id, the file's duration and the answered or detected language |
| RunJobs.HealthyRunIsDone | app/jobs/orchestrator.py:238-326 | End to end: a healthy call ends done with nothing to resume, saves what the transcriber returned or keeps the transcript there was, and from an orderly adapter that is in order inside the file |
| RunJobs.RunEndsDoneIff | app/jobs/orchestrator.py:201-326 | Exactly when an undisturbed call ends done, and exactly when nothing is then left to resume: missing diarization or summaries are ignored after transcribing and leave the row "starting" otherwise |
| RunJobs.RunEndsCancelledIff | app/jobs/orchestrator.py:201-331 | A call ends with a cancelled row and the deleted folder if and only if manifest, source, transcript and resume point lead it to a place where the flag is up |
| RunJobs.RunEndsFailedIff | app/jobs/orchestrator.py:332-340 | A call fails its job if and only if it raises: no manifest, no source, or a transcriber that failed; the row then has the exception's text and nothing else changes |
| RunJobs.RunWithTranscript | app/jobs/orchestrator.py:302-326 | A call that finds the transcript records "done" and nothing else when the other outputs are there; once done, or while an output is missing, it changes nothing |
| UploadsOnly.StepKeepsBare | app/jobs/service.py:66-123 | No step of any process or of boot gives a job that was not uploaded a source, a transcript or a "done" |
| UploadsOnly.PlainJobStaysBare | app/jobs/service.py:66-90 | Over every run a job submitted without an upload never has a transcript, a "done" manifest or a "done" row |
| UploadsOnly.DoneMeansUploaded | app/jobs/service.py:126-180 | Whatever is done or has a transcript in any state of any run was submitted as an upload |
| UploadsOnly.ReconcileClearsSourcePath | app/jobs/reconcile.py:90-178 | Boot replaces the row's source path of such a job by the manifest's, which is none |
| UploadsOnly.PlainRunFails | app/jobs/orchestrator.py:215-237 | Every call of `run_job` on such a job marks it failed and changes nothing else |
| Boot.ReconcileIsIdempotent | app/jobs/reconcile.py:90-178 | A second reconcile heals no row, and every row with a manifest agrees with it on the nine columns |
| Boot.SweepDecides | app/jobs/interrupt.py:95-161 | An active row becomes done exactly when its manifest exists and every applicable output is complete: row and manifest say done and nothing is left to resume. Else row and manifest say failed with the interrupted error. Every other field and file stays |
| Boot.SweepDecidesAll | app/jobs/interrupt.py:89-161 | The same over all jobs at once; jobs that are not active stay as they were |
| Boot.BootLeavesNoActiveRow | app/jobs/interrupt.py:89-161 | After boot no row is starting, ingesting or transcribing, so a second sweep finds nothing |
| ServiceCalls.CreateAlone | app/jobs/service.py:66-123 | The steps of a creation: the row with what it was given, a manifest with id and queued time and nothing else; after a failure neither |
| ServiceCalls.UploadAlone | app/api/routes_jobs.py:183-229 | The steps of an upload: the manifest names the stored path as source and the dropped name as original name, the row is queued with that name and no path, and the folder has the source if it was not empty |
| ServiceCalls.EnqueueAlone | app/jobs/queue.py:73-80 | Created and queued rows become queued; all others stay |
| ServiceCalls.PullAlone | app/jobs/queue.py:106-128 | A SELECT finds exactly a queued row, and the UPDATE makes it starting and the worker its run |
| ServiceCalls.LostClaim | app/jobs/queue.py:115-128 | A worker whose job is no longer queued at the UPDATE changes nothing |
| ServiceCalls.CancelQueuedAlone | app/jobs/queue.py:228-268 | The four steps of a cancel of a queued job leave a cancelled row and what the delete leaves of the folder |
| ServiceCalls.CancelActiveAlone | app/jobs/queue.py:210-306 | A cancel of an ended job changes nothing, of an active one exactly the flag of its registered run |
| ServiceCalls.WatchAlone | app/jobs/queue.py:329-345 | A tick fails, as stalled, exactly a job that is starting, ingesting or transcribing and stale |
| ServiceCalls.WatchLooksAgain | app/jobs/cleanup.py:138-155 | Before the mark a job that has ended in the meantime or is not stale is let go |
| ServiceCalls.IngestAlone | app/jobs/orchestrator.py:215-237 | The run records the ingest stage exactly for an existing, non-empty source that is not a video link, else raises |
| ServiceCalls.BootAlone | app/main.py:205-240 | The steps of boot on one job, whatever way the sweep takes, come to what its own files decide |
| JobStores.SomeJobIsEarliest | app/jobs/queue.py:106-114 | A non-empty queue has a job no other queued job precedes |
| JobStores.JobStore.CreateJob | app/jobs/service.py:66-123 | A creation inserts a row and a manifest, each field stated, or after a failure leaves both tables as they were |
| JobStores.JobStore.Enqueue | app/jobs/queue.py:73-87 | Only uploading, created and queued rows become queued; the worker is woken either way |
| JobStores.JobStore.PullNext | app/jobs/queue.py:106-128 | Claims an earliest queued job and changes nothing else; returns none exactly when nothing is queued |
| JobStores.JobStore.Cancel | app/jobs/queue.py:218-306 | A queued job becomes cancelled and loses its folder, an active one has its flag raised if registered, anything else is left alone |
| JobStores.JobStore.CancelJob | app/jobs/cleanup.py:57-85 | Row first, folder second; nothing without a row |
| JobStores.JobStore.MarkFailed | app/jobs/cleanup.py:88-102 | Status and error of an existing row change, nothing else |
| JobStores.JobStore.MarkStale | app/jobs/cleanup.py:141-155 | A terminal row is never marked, a stale other row is failed as stalled |
| JobStores.JobStore.UpdateStage | app/jobs/manifest.py:196-251 | Manifest and row both take the advanced manifest; a missing manifest changes nothing |
| JobStores.JobStore.ReconcileAll | app/jobs/reconcile.py:69-178 | The folder loop heals exactly the drifted rows; it counts the folders, the rows it changed and the folders without a manifest |
| JobStores.JobStore.MarkInterruptedFailed | app/jobs/interrupt.py:89-161 | The sweep loop settles exactly the active jobs, counts them, and leaves in row and folder of each what its own files decide |
| JobStores.JobStore.Boot | app/main.py:205-240 | Reconcile then sweep: no active row is left, every job that was active says done or interrupted in row and manifest as its own files decide, everything else stays, and both counters are right |
| JobStores.JobStore.RunJob | app/jobs/orchestrator.py:84-364 | One call is a protocol run of its job, leaves every other job alone, always unregisters, and re-raises exactly when it fails the job |
| EventBuses.QueueIsRecentSuffix | app/jobs/progress.py:61-92 | A queue is the newest part, at most 32, of what was published since the subscription; what was read was read once and in order |
| EventBuses.LostIffCrowdedOut | app/jobs/progress.py:74-88 | An event is lost if and only if a newer one arrived while it and the 31 after it were all waiting unread |
| EventBuses.PromptReaderLosesNothing | app/jobs/progress.py:74-88 | A subscriber never 32 events behind loses nothing |
| EventBuses.EventBus.Subscribe | app/jobs/progress.py:43-47 | A fresh empty queue joins the end of the job's list and nothing else changes |
| EventBuses.EventBus.Unsubscribe | app/jobs/progress.py:49-59 | The queue leaves its job's list, the others keep their order, an emptied list is removed |
| EventBuses.EventBus.Publish | app/jobs/progress.py:61-94 | Every subscriber of the job gets the event; no other queue is touched |
| EventBuses.EventBus.QueueHoldsNewest | app/jobs/progress.py:40-94 | In every state of the bus a queue is the newest part of its job's events since it joined |
| Vram.PoolStaysUnderCeiling | app/models/manager.py:538-571 | Over any run of loads and unloads on a readable card the reservations stay below the budget plus one mebibyte |
| Vram.AdmitsIff | app/models/manager.py:538-559 | The gate on the readings' own numbers: no other model unless concurrent, and torch's allocation, the pool and the new model inside the fraction of the whole mebibytes there are |
| Vram.AdmittedFits | app/models/manager.py:549-571 | One admitted load keeps torch's allocation and the pool together below the budget plus one mebibyte although both measurements are truncated |
| Vram.RefusedDoesNotFit | app/models/manager.py:550-559 | A budget refusal means that torch's allocation, the pool and the model really exceed the budget |
| Vram.ExpectedIsFootprint | app/models/manager.py:185-189 | A model counts as half as much again as its file for speech recognition, a fifth more otherwise, nothing if its size is unknown |
| Vram.ProbeTruncates | app/models/vram.py:194-207 | Each figure of a probe is right to within the mebibyte that truncation hides; the pool counts as used and not as available |
| Vram.RoomOnCard | app/models/manager.py:553-559 | What a refusal reports as available is the rest of the budget, in whole mebibytes and never negative |
| Vram.CeilingIsAlmostReached | app/models/vram.py:196-207 | On every card with a budget of at least a mebibyte some run reserves to within four bytes of the ceiling, so the extra mebibyte is needed |
| Vram.OpenGateAdmitsAnything | app/models/manager.py:554-559 | Where less than a mebibyte is measured there is no bound at all |
| Vram.MapsAgree | app/models/manager.py:570-571 | The byte map and the record map have the same keys and sizes after every run |
| Vram.AtMostOneResident | app/models/manager.py:540-546 | With concurrent models off at most one category is resident |
| Vram.ModelManager.LoadModel | app/models/manager.py:511-591 | A load is refused, and changes nothing, or reserves its footprint in both maps; which refusal, and what each reports, is stated |
| Vram.ModelManager.UnloadModel | app/models/manager.py:593-607 | The category leaves both maps; a second unload changes nothing |
| Vram.ModelManager.UnloadAll | app/models/manager.py:609-612 | Both maps end empty |
| SettingsSlot.SlotHoldsLastMove | app/settings/service.py:182-223 | Over any sequence of patches, some with failing writes, the running directory never changes and the slot holds the settings of the last move |
| SettingsSlot.UpdateFieldByField | app/settings/service.py:182-223 | A patch field by field: what was sent replaces what was there, in the slot when the directory moves and in memory otherwise; the backend never changes |
| SettingsSlot.FileIsReadIff | app/settings/service.py:86-117 | A file is read exactly when neither settings in it lack a required field, and then field by field, an empty token as none |
| SettingsSlot.RestartInstallsLastMove | app/settings/service.py:226-269 | A restart installs the last patched directory that differed from the running one, or the running one |
| SettingsSlot.LoadRestoresIff | app/settings/service.py:86-117 | Reading the file back restores memory exactly when no required field is null and no token is empty |
| SettingsSlot.FileStaysLoadable | app/settings/service.py:182-223 | Patches that send no null keep the file loadable over any run |
| SettingsSlot.NullLosesEverything | app/main.py:98-138 | One written null makes the next boot start from defaults, the waiting directory lost |
| SettingsSlot.HotSwapSurvivesIff | app/settings/service.py:206-223 | An immediate change survives a restart exactly when nothing waits in the slot or the slot agrees with it |
| SettingsSlot.SecondMoveForgetsFirst | app/settings/service.py:189-204 | A second move leaves nothing of the first one in the slot |
| SettingsSlot.BootIsStable | app/main.py:98-172 | A second restart changes nothing |
| SettingsSlot.FileSaysMemoryIff | app/settings/service.py:182-223 | Over any run of a process from its boot, some writes failing: the file says what memory holds if and only if the boot left it so or a call has been written, and memory is what the written calls make of it |
| SettingsSlot.RestartGoesOn | app/settings/service.py:226-269 | In step or not, the next process starts from what memory held |
| SettingsSlot.SettingsService.ApplyUpdate | app/settings/service.py:150-223 | A failed write changes neither memory nor file; a written one leaves the file saying what memory holds |
| SettingsSlot.SettingsService.ApplyPending | app/settings/service.py:226-269 | The slot is installed and cleared in memory first; after a failed write the file still holds it |
| SettingsSlot.SettingsService.Start | app/main.py:98-172 | The boot of a new process, with the fall-back to defaults; the file is then in step if and only if it was missing, rejected, carried a waiting change, or had no empty token |

## Left out

- Timestamps are opaque strings; `updated_at`, the latest-timestamp rule, ETA and wall-clock staleness are not modelled, and the watchdog's staleness test is an arbitrary answer.
- JobStores.JobStore.RunJob: every clock reading and error text within one call is the same value, and the cancel flag is the one the run finds; the protocol itself lets both change at every step.
- JobStores.JobStore.PullNext: one call at a time; the lost race between SELECT and UPDATE is in the protocol.
- Vram.PoolStaysUnderCeiling: for cards read through the graphics driver only; on a machine without one the probe does not count the pool at all.
- ChunkExact.TranscriptIsExact: the reference adapter answers with the utterances lying wholly inside its slice; what a real recogniser makes of an utterance that a window end or a split cuts is not modelled.
- A recursive folder delete may leave any part of the folder; a transcript or manifest write is one atomic step; directory sync, temporary names and file-lock retries are not modelled.
- Enqueue is not offered while a job is uploading except to the upload itself, its only caller in the repository; repeated uploads to one job, the direct stage and stale-check endpoints are not modelled.
- External media files may change at any time between steps in `SystemRun`; within one call of `JobStores.JobStore.RunJob` they do not.
- Diarization and summaries have no producer in the repository; only their presence on disk is modelled. YouTube ingest raises before anything else and is part of the source check.
- Model loading and unloading inside `run_job`, the throttled `progress.json`, event publishing from the run and the bounded wait for a cancelled worker thread are left out.
- Floating point is exact real arithmetic; the voice-filter flag of every adapter call is constant and not a field; audio decoding happens before the model starts.
- The settings file's text encoding: a stored token is its clear text, except that an empty one reads back as none; the fields no PATCH can reach are kept to one.
- CancelEffect.CancelTakesEffectIff: the run is left alone after the cancel, and the folder delete removes at least the manifest; a delete that leaves it is in the protocol, and `ProtocolTheorems.CrashUndoesCancel` says what the next boot makes of it.
- SettingsSlot.SettingsService.Start: a boot whose own write of the settings file fails refuses to start and is not a step of the model.
- Job ids are fresh: the random or reserved id of a new job never equals an existing one.
- Idempotency keys, the GPU burn test that rewrites the settings file, model downloads and checksums, sockets, streaming responses, listing queries, migrations and the web client.
