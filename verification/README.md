# Verification of sealift's import and export core

sealift moves npm packages into a closed network.  On the open side it analyses a
project's dependencies, chooses versions and writes an archive; on the closed side
it verifies that archive, publishes its packages to Nexus and only then deletes it
from MinIO.  This project models the parts of that path whose correctness depends
on the order of many steps, and proves what they promise for every input, every
interleaving and every crash.

`dafny verify dfyconfig.toml` checks the whole project.

## How it is laid out

**The crash-safe import.**
`Records` holds an import's record and each change the store makes to it, with the
loops that change one in place; `RecordStore` the store whose writes happen whole
or not at all.  `Publishing` is one package's way into Nexus, `Attempts` one run
over an archive with its streamed progress, `ImportQueue` the worker around it, up
to the removal of the archive.  `Protocol` is the same protocol cut into atomic
steps, with the HTTP handlers, crashes between any two steps, and the sweep at
start.  What each step keeps is proved in four modules: `ProtocolSafety` and
`ProtocolTurns` whatever fails, `ProtocolWrites` while records are written,
`ProtocolQueue` while no store operation fails.  `ProtocolTheorems` states what
follows for whole runs, `ProtocolProgress` that every attempt ends whatever fails,
and `ProtocolSuccess` that a good archive can be brought all the way.

**The job queue and its event stream.**
`EventStream` is the trimmed history and the browser's fold of it, `EventFeed` the
bounded channels of subscribers, `JobQueue` the queue and the service's indexes,
one critical section at a time.  `JobRuns` interleaves handlers, the worker, the
goroutines that finalize a cancelled job, and readers; `JobRunSafety`,
`JobRunDeeds` and `JobRunIndex` prove the invariants, `JobRunTheorems` the results,
and `JobRunDirs` what becomes of a job's directory.
`JobRunStreams` follows a client through any number of connections to such a run.

**The archive.**
`ArchiveBounds` is the inflation budget in 64-bit arithmetic and the bounded
reader, `ArchiveWriter` the reproducible writer, `ArchiveVerifier` the streaming
verifier, `ArchiveManifest` the manifest's package list, and `ArchiveRoundTrip`
what the writer and the verifier owe each other.

**Smaller cores.**
`Tarball` compares and strips package tarballs (with `Visiting` for its walk),
`KeySet` is the cache of signing keys, `SemVer`, `Candidates` and `CandidateTasks` order
versions, choose the best candidate and order the resolution tasks.  `Sorting`,
`Paths` and `Wrappers` are shared helpers.

## What is assumed

- gzip, tar, JSON, YAML, hashes, integrity strings and version parsing are
  functions, held to round-trip laws that are written out where they are used
  (`ArchiveRoundTrip.Lawful`, `Tarball.Faithful`).  SHA-256 and SHA-512 sums stand
  for the bytes they are of: two contents with one sum are one content.
- One ETag stands for one content: the package list of a manifest and the packages of
  an archive are functions of the ETags they are read under (`Protocol.World`).
- A record write is atomic and durable, or did not happen; a working directory
  exists or does not.  MinIO and Nexus are maps whose calls take effect at once, or
  fail, or fail after taking effect.  Nobody but sealift writes to Nexus.
- The mutex of a store, of the queue and of the service makes each of their
  critical sections one step.  startMu makes the handler's check and creation one
  step with respect to other handlers.
- In `Protocol` the working copy of a tarball does not change between the checks and
  its upload; `Attempts` lets it change up to its last hash, and `Publishing` also
  between that hash and the upload.
- Who calls what with which answer (clocks, network replies, the bytes a reader
  gives at a time, which goroutine runs next) is a parameter of each step.

## What the proofs found

- A clean-up that fails after the end of an attempt is stored makes process abandon
  whatever attempt is then the latest.  If a retry was stored in between, that retry
  is ended as interrupted although it waits in an open queue and never ran
  (`ProtocolTheorems.FailedCleanUpEndsARetry`).  In no run does any other kind of step
  end a waiting attempt (`OnlyAbandonEndsAWaitingAttempt`), and attempts begin in the
  order they were submitted but for those ended so (`BeginsInTurn`).  What else the
  queue promises needs only that records are written (`NothingIsForgotten`).
- The response of the event stream ends behind the first end event of any job, and
  cancelling a queued job puts its end event into the running job's stream.  From then
  on the running job's client is cut off there, on every reconnection too, and loses
  the steps that follow (`JobRunStreams.CutOffByAnotherEnd`).  A client whose channel
  lost nothing, made before its job's own end, shows the full step list exactly when
  no step of the job stands behind an end event in its stream, where no report of the
  job repeats, and in general exactly when each step behind it had been given its last
  report before (`ReconnectingLosesNoStep`); earlier connections that lost nothing make
  no difference (`ReconnectingSettles`).
- The end of a job clears its history: a client that connects after it is given
  nothing, and one whose connection drops shortly before it keeps a partial list
  (`TooLateAConnection`).  Where an earlier connection had lost events, the steps not
  cut off come out right but perhaps in another order (`LossesAreMended`,
  `EventStream.AMissedStepMoves`).
- The browser picks events by directory id, which is unique only within a project and
  kind: it shows the job's own steps exactly when no other job's step carries that id
  (`JobRunStreams.OwnStepsOnly`), and two projects queueing in the same second break
  this (`TwoProjectsShareAName`).
- The stored list of an attempt equals its final report's list exactly when the
  reason of a failed publisher setup is at most 1,000 characters long: that one
  reason is cut when stored and returned whole (`Attempts.RunAttempt`).
- Cancelling a queued job and queueing another in the same second can leave the new
  job in the queue but unknown to its route, because the finalizer's last section
  deletes whatever its key names (`JobRunTheorems.ANewerJobLosesItsRoute`).
  `RoutedUnlessDropped` shows that no other step does this.
- A user who deletes the directory an analysis has just moved into place, together
  with a new analysis in the same second and Close, can take the first one's entry
  away before its finalizer looks (`JobRunTheorems.AFinalizerFindsNothing`).
- The inflation budget is exact for every positive limit, also where the framing of
  one entry overflows an int64 (`ArchiveBounds.StreamBoundIsExact`).
- Re-encoding can make a package.json longer than its own 16 MiB bound, so a
  stripped tarball is readable, and the same as its original, exactly when the
  rewritten package.json and tarball stay within the bounds
  (`Tarball.StrippedIsTheSame`, `Tarball.StripKeepsTheReport`).
- The key set's reply that the last fetch was under 30 seconds ago is never given:
  with no set held, that fetch failed and its own reason is the reply
  (`KeySet.LookedMeans`).
- A key set counts as fetched from the start of the lookup that fetched it, not from
  its arrival as a comment says; the model follows the code.

## Model

| member | source | states |
|---|---|---|
| `Records.Recount` | internal/store/imports/imports.go:394-407 | the counts stored with a report are those of its packages' states |
| `Records.CountsCover` | internal/importer/attempt.go:149-165 | the four counts of a list add up to its length |
| `Records.NoneFailedMeansAllIn` | internal/importer/attempt.go:149-165 | a list with nothing pending has no failure exactly when every package is published or present |
| `Records.SweepPackages` | internal/store/imports/sweep.go:64-69 | the loop fails exactly the pending packages as interrupted, touches no other, and reports whether there was one |
| `Records.SweepOneAttempt` | internal/store/imports/sweep.go:54-71 | one swept attempt is ended, final and recounted; it is reported changed exactly when it was unfinished or held a pending package |
| `Records.SweepRecord` | internal/store/imports/sweep.go:47-91 | the loop over the attempts leaves the swept record, says whether anything had to change, and counts the attempts it ended |
| `Records.EndUnfinishedRecord` | internal/store/imports/retry.go:53-77 | ending an unfinished attempt sets its outcome and reason and fails its pending packages; an ended one stays as it was |
| `Records.ChangeSound` | internal/store/imports/imports.go:370-392 | every change of a record keeps it sound (attempts numbered 1 to k, only the last unfinished, ended reports final and counted) and only moves it forward |
| `Records.HistoryIsSafe` | internal/store/imports/imports.go:239-355 | over any series of changes and sweeps, from any moment to any later one, no attempt is lost, renumbered or reopened, and an ended one never changes but for one gained removal |
| `Records.SweepSettles` | internal/store/imports/sweep.go:47-91 | after a sweep nothing is unfinished or pending, and a second sweep changes nothing |
| `Records.SweepMarksAtMostOne` | internal/store/imports/sweep.go:47-91 | a sound record has at most its latest attempt to end |
| `Records.SweepSpelledOut` | internal/store/imports/sweep.go:54-71 | what the sweep makes of each attempt: ended ones stay as they are; any other ends as interrupted, its report incomplete for that reason unless it had an outcome, and its pending packages, no others, fail as interrupted |
| `Records.EndingSpelledOut` | internal/store/imports/retry.go:53-77 | the outcome, reason and pending packages of an attempt abandoned or broken off, in full; all other attempts stay |
| `Records.RetrySpelledOut` | internal/store/imports/retry.go:18-37 | a retry is one empty queued attempt, numbered one further, behind all that were there |
| `RecordStore.Store.Write` | internal/store/imports/imports.go:446-472 | a write replaces one record whole or changes nothing, and a failure is remembered |
| `RecordStore.Store.Create` | internal/store/imports/imports.go:151-186 | a new record under a fresh key with one queued attempt, or nothing; nothing while no operation failed only if every key drawn was taken |
| `RecordStore.Store.BeginAttempt` | internal/store/imports/imports.go:239-261 | the working directory is made before the record says running; on failure the record is as it was |
| `RecordStore.Store.List` | internal/store/imports/imports.go:263-276 | the list and counts of the running attempt n, or no change at all |
| `RecordStore.Store.Check` | internal/store/imports/imports.go:278-290 | marks the running attempt n as checked, or changes nothing |
| `RecordStore.Store.PackageEnd` | internal/store/imports/imports.go:292-308 | sets package i of the running attempt n and recounts; a wrong n or i changes nothing |
| `RecordStore.Store.FinishAttempt` | internal/store/imports/imports.go:310-336 | stores the end of the running attempt and then removes its directory; it fails after storing exactly when that removal fails |
| `RecordStore.Store.StoreRemoval` | internal/store/imports/imports.go:338-355 | sets the removal of the ended attempt n and nothing else |
| `RecordStore.Store.RetryAttempt` | internal/store/imports/retry.go:18-37 | appends one queued attempt only to a record whose latest has ended |
| `RecordStore.Store.EndUnfinishedAttempt` | internal/store/imports/retry.go:53-77 | ends the latest attempt if it is unfinished, then removes the directory of that attempt |
| `RecordStore.Store.Sweep` | internal/store/imports/sweep.go:16-45 | every record is swept, or kept as it was where its write failed |
| `RecordStore.SweepAllIdempotent` | internal/store/imports/sweep.go:16-45 | a sweep of a swept store changes no record |
| `Publishing.FetchDigest` | internal/importer/publish.go:245-276 | whether Nexus holds the version, with which bytes, and whether the contents are the same, or a failure |
| `Publishing.PublishOne` | internal/importer/publish.go:135-195 | while no call failed and the context is not done, exactly one verdict is right for a file in order, and it is given: published if Nexus lacked the version; present without a note if it held the very bytes; present with the note if stripped with the same content; conflict if other content; a failure of Nexus only if its copy cannot be judged. Whatever fails, a result means what it says and no byte Nexus held is changed; if the file changes between its last hash and the upload, what reaches Nexus is what was sent, and published still means the package's own bytes |
| `Publishing.UploadAndReadBack` | internal/importer/publish.go:170-195 | sent once; published exactly when the package's own bytes can be read back, and always if they were sent and no call failed |
| `Publishing.VerdictsNeverFlip` | internal/importer/publish.go:135-195 | a package once published or present is never a conflict in a later attempt of the same archive |
| `Attempts.StoreResult` | internal/importer/attempt.go:221-225 | one more package handled moves the stored list from one handled prefix to the next, in one written record |
| `Attempts.PublishEach` | internal/importer/publish.go:83-106 | the packages are settled in turn, each reported and stored before the next; after an interrupt all unstarted ones form an interrupted suffix for which upload is not called |
| `Attempts.Publish` | internal/importer/attempt.go:211-249 | with no publisher every package fails for its reason; otherwise each is settled |
| `Attempts.HandledOutcome` | internal/importer/attempt.go:149-165 | a handled list is complete exactly when the checks passed and every package is in, refused only for a refusal, and never left pending |
| `Attempts.RunAttempt` | internal/importer/attempt.go:60-165 | the report is final and says what happened; in a run without a failed call, with the checks passed and the files in order, each verdict is the right one and the outcome is complete if and only if Nexus could take every package; while no store operation fails the run writes exactly the listing, the mark of a checked archive, and one record for each package, the m-th with the first m handled and the rest pending, and at the end the store holds the report's list with its reasons cut, equal to it exactly when the setup reason needs no cut |
| `Attempts.AllInIffWelcome` | internal/importer/publish.go:135-195 | where every verdict was the right one, all packages are in if and only if at the start Nexus lacked each or held it with the right content |
| `ImportQueue.CheckUnchanged` | internal/importer/service/imports.go:306-341 | no stop means both objects still carry the ETags the import recorded; while no call fails there is a stop exactly when one does not |
| `ImportQueue.CheckEveryPackageIn` | internal/importer/service/imports.go:372-382 | true exactly when the outcome is complete and every package is published or present |
| `ImportQueue.Remove` | internal/importer/service/removal.go:21-57 | nothing is deleted unless both objects were unchanged, nothing else is touched, and the manifest never goes before the archive; while no call fails both are gone if they were unchanged, and else neither; the removal told says which deletes were asked for and how they ended |
| `ImportQueue.ServiceRun` | internal/importer/service/imports.go:343-370 | a remover is handed back exactly when every package is in, and then Nexus holds the whole archive; when nothing goes wrong with an unchanged archive in order, exactly when Nexus could take every package |
| `ImportQueue.Queue.Submit` | internal/store/imports/queue.go:50-65 | the item goes to the end of an open queue and nowhere once it is closed |
| `ImportQueue.Queue.Next` | internal/store/imports/queue.go:84-105 | the oldest item, or none once the queue is closed |
| `ImportQueue.Queue.EndRun` | internal/store/imports/queue.go:149-182 | unless a store operation failed, the attempt ends with the run's report, or broken off after a panic; a remover then runs if there is one and what it did is what is stored; with no failed call on unchanged objects both are gone and the stored removal says so; an object is deleted only after the complete end is stored |
| `ImportQueue.Queue.Process` | internal/store/imports/queue.go:109-182 | when nothing goes wrong, a queued attempt of an unchanged archive in order ends complete with archive and manifest gone and the removal stored if Nexus could take every package, and else incomplete with both in place; whatever goes wrong, it is ended unless a store operation failed, Nexus only grew, and the archive is deleted only with a complete end stored and every package held |
| `ProtocolSafety.SafeStep` | internal/store/imports/queue.go:109-182 | every step of the whole protocol keeps the invariant: sound records true to Nexus, a worker whose claims hold, deletions backed by a complete end, running attempts with their files |
| `ProtocolTheorems.ReachableSafe` | internal/store/imports/queue.go:109-182 | the invariant holds in every reachable state, crashes between any two steps included |
| `ProtocolTheorems.RunKeeps` | internal/store/imports/imports.go:310-355 | from any moment of any run to any later one: no record lost, no ended attempt changed but for a gained removal, no byte of Nexus changed, no deletion forgotten |
| `ProtocolTheorems.NoArchiveLost` | internal/importer/service/removal.go:21-57 | once a remover has deleted an import's archive, one and the same attempt is from then on stored as ended complete with every package in, and Nexus holds each of them |
| `ProtocolTheorems.VerdictsAgree` | internal/importer/publish.go:135-195 | across all stored attempts of all imports of one archive, what one found in Nexus is no other's conflict |
| `ProtocolTheorems.RecordsAlwaysSound` | internal/store/imports/imports.go:239-391 | every stored record of every reachable state is sound, and a running attempt has its working directory |
| `ProtocolTurns.TurnsStep` | internal/store/imports/queue.go:50-182 | every step, whatever fails, keeps that pops follow the submissions import by import, that a pop took what was submitted or that has ended, and that a worker on an attempt has it running or can end no submitted one |
| `ProtocolWrites.KeptStep` | internal/store/imports/queue.go:109-182 | every step whose record writes succeed keeps that no unfinished attempt is forgotten, that only the worker's runs, and that what it popped has ended or is still its own |
| `ProtocolQueue.DisciplinedStep` | internal/store/imports/queue.go:50-182 | every step keeps, while no store operation has failed, the exact order of submission, with every item of the queue still waiting for its own attempt |
| `ProtocolTheorems.NothingIsForgotten` | internal/store/imports/queue.go:72-182 | in every run whose record writes succeed, crashes, failing reads and failing directory operations included: each unfinished attempt of a running service waits, is the worker's or its handler's; at most one runs, the worker's; each popped one has ended or is of the import the worker holds |
| `ProtocolTheorems.QueueKeepsItsOrder` | internal/store/imports/queue.go:50-105 | in every run, whatever fails: imports are popped in submission order, a pop took the attempt submitted or that one has ended, and a waiting attempt is still in the queue |
| `ProtocolTheorems.OnlyAbandonEndsAWaitingAttempt` | internal/store/imports/queue.go:109-182 | in every run, whatever fails, a step ends an attempt that waits in the queue if and only if it is a stored abandon by a worker that still holds the same import, whose own popped attempt is then an earlier, ended one |
| `ProtocolTheorems.BeginsInTurn` | internal/store/imports/queue.go:109-147 | the attempt a worker is about to begin is the one submitted at its turn if and only if that one has not ended |
| `ProtocolTheorems.EveryAttemptIsServed` | internal/store/imports/queue.go:50-182 | while up and with no store operation failed, attempts are popped in submission order, and those still to come are queued, in that order, each under its own item; every unfinished attempt waits, is held by the worker or is with its handler; one runs; each popped one is ended before the worker is free |
| `ProtocolTheorems.RestartLeavesNothingUnfinished` | internal/store/imports/sweep.go:16-91 | a start whose sweep met no failure, or any start while records are written, leaves no attempt unfinished and no package pending |
| `ProtocolTheorems.FailedCleanUpEndsARetry` | internal/store/imports/queue.go:166-173 | a run in which nothing fails but one removal of a working directory ends a retried attempt that never ran |
| `ProtocolProgress.NeverStuck` | internal/store/imports/queue.go:109-182 | a worker that holds an attempt can always take a step, whatever failed before |
| `ProtocolProgress.RankDrops` | internal/store/imports/queue.go:109-182 | every step of the worker, a failing one too, brings it nearer to the end of its attempt |
| `ProtocolProgress.EndsInTime` | internal/store/imports/queue.go:109-182 | whatever fails and whatever handlers do meanwhile, from any state on an attempt takes the worker no more steps than its rank, and then it is free |
| `ProtocolProgress.PoppedEndsInTime` | internal/store/imports/queue.go:109-182 | from its pop on that is 17 steps and four for each package of the manifest |
| `ProtocolSuccess.AGoodArchiveGoesThrough` | internal/importer/service/imports.go:306-382 | from any reachable state with an import at the head of the queue: if its objects are unchanged, its archive passes its checks, and Nexus lacks each package or holds it with the right content, then a run exists that ends it complete, every package held, both objects gone and the removal stored |
| `EventStream.AppendHistory` | internal/jobs/queue.go:417-439 | the loop drops exactly the oldest events beyond 128 that are no steps |
| `EventStream.AppendTrimsTheLog` | internal/jobs/queue.go:417-439 | trimming at every event equals trimming the whole log at once |
| `EventStream.HistoryIsReplay` | internal/jobs/queue.go:417-439 | the history is every step event plus the last 128 others, in emission order |
| `EventStream.ReplayLength` | internal/jobs/queue.go:17-29 | how long a replay is, from the number of step events |
| `EventStream.FoldFollowsSteps` | web/src/lib/analysisEvents.ts:48-70 | the client's step list depends only on the step events of its own job |
| `EventStream.FoldMeans` | web/src/lib/analysisEvents.ts:50-56 | the fold keeps one entry per name, in order of first occurrence, with the last data of each |
| `EventStream.FoldShows` | web/src/lib/analysisEvents.ts:48-70 | the rest of what the client shows: the end is that of the job's last end event, the progress its last progress event, and each step's the last one for that step |
| `EventStream.ReplayKeepsEntries` | internal/jobs/queue.go:409-439 | trimming loses no step event of any job |
| `EventStream.WholeSettles` | web/src/lib/analysisEvents.ts:48-70 | folding the whole log over any partly folded state ends where one fold of it ends |
| `EventStream.WatchedStaysOnCourse` | web/src/lib/analysisEvents.ts:48-70 | whatever first parts of a job's entries a series of connections delivered, the names shown are a first part of those the full list gives, in its order |
| `EventStream.WholeMends` | web/src/lib/analysisEvents.ts:48-70 | over any of the job's entries, in whatever order they came, one fold of all sets every step to its last report |
| `EventStream.AMissedStepMoves` | web/src/lib/analysisEvents.ts:50-56 | a step first seen after a later one keeps the later place |
| `EventStream.StreamEvents` | internal/api/events.go:44-63 | the loop writes what it is sent up to and including the first end event, of whatever job, or up to where its client leaves |
| `EventStream.UntilEndMeans` | internal/api/events.go:44-63 | what a response carries is a first part of its channel: all of it, or closed by the only end event in it |
| `EventStream.LaterIsGivenMore` | internal/jobs/queue.go:409-439 | of two connections to one history the later response carries at least the job's steps the earlier carries, although more has been trimmed for it |
| `EventStream.PartShowsAll` | web/src/lib/analysisEvents.ts:48-70 | a first part of a job's entries folds to the full list if and only if every step behind it had been given its last report in it |
| `EventFeed.DeliveredTrue` | internal/jobs/queue.go:441-464 | a subscriber that lost nothing was sent exactly its stream, a channel never exceeds its size, and no two notices of dropped events follow each other |
| `EventFeed.EmitKeepsFeedTrue` | internal/jobs/queue.go:398-407 | publishing keeps the history the replay of the log since the last clear, and every subscriber's account |
| `EventFeed.JoinKeepsFeedTrue` | internal/jobs/queue.go:264-277 | a new subscriber's account is true from the start |
| `EventFeed.FewStepsFit` | internal/jobs/queue.go:257-262 | with at most 32 step events since the last clear, a joining subscriber loses nothing and has room left |
| `JobQueue.Queue.SubmitWith` | internal/jobs/queue.go:182-196 | a fresh id is registered in every index before the worker can see the job; a closed queue changes nothing |
| `JobQueue.Queue.Cancel` | internal/jobs/queue.go:216-236 | the current job is flagged, a waiting one is taken out of the queue in place, anything else is not found |
| `JobQueue.Queue.Publish` | internal/jobs/queue.go:398-407 | the event enters the trimmed history and is delivered to every subscriber, whatever order they are visited in |
| `JobQueue.Queue.Subscribe` | internal/jobs/queue.go:256-285 | the new channel holds as much of the history as fits |
| `JobQueue.Queue.Pop` | internal/jobs/queue.go:311-326 | the oldest job becomes current, with the cancel flag and the history cleared; ties the code to the step of `JobRuns` that the run theorems are about |
| `JobQueue.Queue.Judge` | internal/jobs/queue.go:338-352 | cancelled needs both the request and the job's own cancellation error; done means no error |
| `JobQueue.Queue.End` | internal/jobs/queue.go:361-379 | the end event is emitted, and the queue is idle with an empty history in one section; ties the code to the step of `JobRuns` that the run theorems are about |
| `JobQueue.Queue.Close` | internal/jobs/queue.go:289-300 | the queue is closed and nothing waits any more; ties the code to the step of `JobRuns` that the run theorems are about |
| `JobQueue.Service.Track` | internal/jobs/service.go:345-352 | all three indexes name the job; ties the code to the step of `JobRuns` that the run theorems are about |
| `JobQueue.Service.UntrackPending` | internal/jobs/service.go:367-380 | the job its key names leaves the indexes; ties the code to the step of `JobRuns` that the run theorems are about |
| `JobQueue.Service.Finalize` | internal/jobs/service.go:382-408 | run uninterrupted, it settles the directory of the job it found (a filled one committed, an empty one gone, every other untouched) and then drops that job, or does nothing |
| `JobQueue.Directories.NewDir` | internal/store/pending.go:34-73 | the name given was free and is now taken; none is given only when all ten candidates are taken |
| `JobQueue.Directories.FinalizePending` | internal/jobs/service.go:440-449 | if its file operation works, a filled directory is committed and an empty one is gone; anything else, and every other directory, stays as it is |
| `JobRunSafety.PlacedStep` | internal/jobs/queue.go:182-383 | every step keeps each job in exactly one of five places |
| `JobRunTheorems.EveryJobInOnePlace` | internal/jobs/queue.go:182-383 | under every interleaving each submitted job, and no other, is in exactly one place: waiting, being cancelled, current, announced or dropped |
| `JobRunDeeds.DeedsStep` | internal/jobs/queue.go:308-383 | every step keeps that nothing happens twice to a job, that starts ascend, and that an unsettled job has not been finalized |
| `JobRunTheorems.EachDeedOnceInOrder` | internal/jobs/queue.go:308-383 | jobs start in submission order; none starts, is finalized or is announced twice; the end events are one per announced job; a dropped job is never finalized |
| `JobRunTheorems.FinalizersFindTheirJobs` | internal/jobs/service.go:382-408 | while no directory is deleted from under its job, every finalizer finds its own job, settles only that job's directory, and each end event follows the finalizer with the same state |
| `JobRunTheorems.TrackedUnlessUntracked` | internal/jobs/service.go:367-380 | a step takes a job from its finalizer if and only if it is the clean-up of a turned-away handler whose key names an unsettled job |
| `JobRunTheorems.AFinalizerFindsNothing` | internal/jobs/service.go:382-388 | a run that deletes a committed directory in which a finalizer finds nothing |
| `JobRunDirs.DirsStep` | internal/jobs/service.go:382-449 | while no directory is deleted from under its job, every step keeps that an unsettled job's directory is empty until the job has written, and filled or in place from then on |
| `JobRunDirs.SettleKeepsWork` | internal/jobs/service.go:440-449 | a finalizer's directory step that works leaves its job's directory committed if the job had written into it, and none if it had not; no other directory changes |
| `JobRunDirs.FinishedWorkIsKept` | internal/jobs/service.go:382-449 | in every run without such a deletion: a job's written directory, once its finalizer's directory step worked, is committed and stays so until a user deletes it |
| `JobRunDirs.UnstartedLeavesNothing` | internal/jobs/service.go:382-449 | a job cancelled before its start leaves no directory once its finalizer's directory step worked |
| `JobRunIndex.IndexStep` | internal/jobs/service.go:343-408 | every step keeps the indexes coherent, and free of announced jobs |
| `JobRunTheorems.NoIndexNamesAnEndedJob` | internal/jobs/service.go:256-294 | a route or a project finds no live job after that job's end event |
| `JobRunIndex.OwnedStep` | internal/store/pending.go:57-71 | while no directory is deleted from under its job, every unsettled job and every handler has a directory name of its own |
| `JobRunTheorems.RoutedUnlessDropped` | internal/jobs/service.go:397-408 | a step makes a route lose an unsettled job if and only if it is a finalizer's last section whose key names a newer one |
| `JobRunTheorems.RoutedIsLive` | internal/jobs/service.go:262-273 | for a routed job LiveState answers live, and running exactly while it is the current one |
| `JobRunTheorems.RoutedThroughout` | internal/jobs/service.go:234-273 | in every run without those two races LiveState is right about every job not yet settled |
| `JobRunTheorems.ANewerJobLosesItsRoute` | internal/jobs/service.go:397-399 | a run without any deletion in which a waiting job is found by no route |
| `JobRunTheorems.ClosedStaysClosed` | internal/jobs/queue.go:289-306 | after Close no job is submitted or started, and what it dropped stays dropped |
| `JobRunTheorems.SubscriberGotItsStream` | internal/jobs/queue.go:256-285 | in every reachable state a subscriber that lost nothing was sent the trimmed replay at its joining and everything since |
| `JobRunStreams.StreamsStep` | internal/jobs/queue.go:308-383 | every step of a run keeps, for every subscriber and every job, that whoever joined before the job's end missed none of its steps to the clearing of the history, and whoever joined after it gets none |
| `JobRunStreams.ReconnectingSettles` | web/src/hooks/use-job-events.ts:31-65 | in every run of the queue, for a job whose directory id no other job's step carries, and after any number of earlier connections, each begun in any epoch of the history and broken off anywhere: once the client has read the response of a lossless connection made before the job's end event, it shows the one fold of the steps that response carried |
| `JobRunStreams.ReconnectingLosesNoStep` | internal/api/events.go:44-63 | that client shows the one fold of all the job's step events, order included, if and only if every step behind the first end event in its stream had been given its last report before it; where no report repeats, if and only if no step of the job stands behind an end event; a connection made after the job's end event changes nothing |
| `JobRunStreams.FreshClientShowsAll` | web/src/hooks/use-job-events.ts:31-65 | without earlier connections and where no report repeats: if and only if the job has no step, or it joined before the job's end event and no step of the job stands behind an end event in its stream |
| `JobRunStreams.JoinedAfterTheEnd` | internal/jobs/queue.go:361-379 | a subscriber joined after the job's end event exactly when the job had been announced by the moment it subscribed |
| `JobRunStreams.LossesAreMended` | internal/jobs/queue.go:441-464 | even where earlier connections lost events of their own, a lossless one made before the job's end leaves no step but the job's, and each with no report cut off as last reported; with nothing cut off, exactly the job's steps |
| `JobRunStreams.TooLateAConnection` | internal/jobs/queue.go:371-378 | a run in which a client that joins after the end is sent nothing and has lost nothing, though the job had a step |
| `JobRunStreams.CutOffByAnotherEnd` | internal/jobs/queue.go:238-247 | a run in which a waiting job is cancelled while another runs: the running job's client, lossless and joined before that job's end, is given its first step and never its second |
| `JobRunStreams.OwnStepsOnly` | web/src/hooks/use-job-events.ts:38-43 | picking by directory id takes the job's own step entries and no others if and only if no other job's step carries that id |
| `JobRunStreams.TwoProjectsShareAName` | internal/store/pending.go:34-73 | a run in which a client of a waiting job is shown the step of another project's job of the same name |
| `ArchiveBounds.OrDefault` | archive/verify.go:57-68 | every limit comes out positive, and a positive one unchanged |
| `ArchiveBounds.StreamBoundIsExact` | archive/verify.go:73-83 | in int64 arithmetic the budget is the exact sum, or the largest int64 when the sum is larger, for every positive limit |
| `ArchiveBounds.WithinLimitsFits` | archive/verify.go:35-40 | the block framing and end marker of any archive within its limits fit the budget |
| `ArchiveBounds.BoundedReader.Read` | archive/verify.go:95-106 | one read passes on the next bytes in order, never more than the limit in all, and refuses exactly when there are more |
| `ArchiveBounds.Drain` | archive/verify.go:85-106 | however reads are cut up, a stream that fits is passed unchanged, and of a longer one exactly the limit; more productive reads than the stream has bytes end with the end of data if and only if the stream fits, and else with the refusal |
| `ArchiveWriter.WriteTarGz` | archive/archive.go:25-49 | succeeds exactly when no name repeats and every file is readable at its size, and then writes the one ordered list of the entries under the root |
| `ArchiveWriter.WrittenMeans` | archive/archive.go:25-49 | what is written, in full: the root's directory, one file with the bytes of each entry and no other, each name below the next character by character |
| `ArchiveWriter.OrderGivenDoesNotMatter` | archive/archive.go:22-32 | the written archive does not depend on the order of the entries given |
| `ArchiveVerifier.EntryNameRule` | archive/verify.go:331-361 | the chain of name checks allows exactly out/ as a directory and plain regular files in it, each name once |
| `ArchiveVerifier.List` | archive/verify.go:217-231 | the listing names the last package of each file, unless some digest cannot be read |
| `ArchiveVerifier.Folder.Copy` | archive/verify.go:378-411 | a tarball is copied to a new file only; refused exactly when the bytes miss the shipped SHA-512 or, unless stripped, the original integrity; what it tells of a copied one is the sum of its bytes |
| `ArchiveVerifier.ScanEntry` | archive/verify.go:250-297 | one entry is taken exactly when it may stand there by name, limits and content, and the loop's variables then tell of it |
| `ArchiveVerifier.Scan` | archive/verify.go:215-312 | passes only an admissible archive, with every package copied and result i describing manifest package i; refuses only an inadmissible one; fails only for the local folder; touches no file that was there |
| `ArchiveVerifier.Verify` | archive/verify.go:139-178 | accepts only the archive of the manifest's exact size and digest, and the expected one, that is admissible; a wrong size or digest takes precedence over the scan; once accepted, every listed package is in the archive with bytes of its shipped SHA-512 and, unless stripped, its original integrity, and those bytes are in the folder |
| `ArchiveVerifier.AdmissibleIsExact` | archive/verify.go:139-361 | the pass accepts exactly the archives whose entries are at most out/, the key once and each listed package once, in any order, within the limits |
| `ArchiveVerifier.ContentsSpelledOut` | archive/verify.go:250-361 | the contents are exact if and only if every entry is out/, the key with its bytes or the file of a listed package with bytes of both its digests, each at most once, and key and packages are all there |
| `ArchiveVerifier.AcceptanceSpelledOut` | archive/verify.go:139-361 | the pass accepts if and only if every digest of the list can be read, the stream reads through within the budget, the contents are exact and the limits hold |
| `ArchiveManifest.CheckPackages` | archive/manifest.go:209-230 | a package list is accepted exactly when it is not empty, every package passes, and no file name and no name@version repeats |
| `ArchiveManifest.CheckPackage` | archive/manifest.go:232-272 | one package passes exactly when each field keeps its rule, and is then listed as it was read |
| `ArchiveManifest.CheckedListIsSound` | archive/manifest.go:212-272 | an accepted list has plain, distinct file names, none the key's, and readable digests (what the checks on one entry give the verifier) |
| `ArchiveRoundTrip.WrittenIsAdmissible` | archive/archive.go:25-49 | what the writer writes for a manifest's packages and key, in any order, holds exactly the manifest's contents and is admissible if and only if it fits the limits on entries, names, content and key (for archives whose length an int64 can count) |
| `ArchiveRoundTrip.WriteAndVerify` | archive/verify.go:139-178 | write, name in a manifest by size and digest, verify into an empty folder: within the limits every package comes out checked, in the manifest's order and with its own bytes in the folder; beyond them the archive is refused |
| `ArchiveRoundTrip.FramingFitsBudget` | archive/verify.go:70-83 | a written archive within the other limits is never refused for its framing |
| `Tarball.DigestTarball` | npm/tarball.go:286-310 | the digests by name of a readable tarball, and whether a name repeats |
| `Tarball.SameContent` | npm/tarball.go:254-284 | answers yes exactly for two plain tarballs in which each entry of either has one in the other with equal name, type, link and permission bits, and equal bytes or, for a first-level package.json, equal JSON but for publishConfig; fails exactly when one it had to read is unreadable |
| `Tarball.SameMeansEachHoldsTheOther` | npm/tarball.go:254-259 | yes means that each tarball holds an entry like every entry of the other |
| `Tarball.SameSpelledOut` | npm/tarball.go:254-310 | on plain tarballs sameness is that, said of the entries alone |
| `Tarball.ManifestIsFirstLevel` | npm/tarball.go:216-229 | the package.json meant is a regular file of that name in any one directory of the first level |
| `Tarball.SameIsAnEquivalence` | npm/tarball.go:254-259 | it is an equivalence on plain tarballs, and reflexive on no others (from the definition of sameness) |
| `Tarball.OrderIsIgnored` | npm/tarball.go:254-256 | two plain tarballs with the same entries in any order are the same |
| `Tarball.StripPublishConfig` | npm/tarball.go:87-129 | succeeds exactly on a readable tarball with one first-level package.json whose entries can be written, rewriting that one and no other entry |
| `Tarball.StrippedMeans` | npm/tarball.go:87-129 | what a copy holds in place of each entry: the package.json without publishConfig and otherwise equal field for field, any other entry with its own bytes, every header kept |
| `Tarball.InspectTarball` | npm/tarball.go:51-85 | succeeds exactly on a readable tarball with one first-level package.json, and reports the path, name, version and publishConfig that one gives |
| `Tarball.ReportMeans` | npm/tarball.go:51-85 | the report is of the one entry that is a first-level package.json |
| `Tarball.StripTwice` | npm/tarball.go:87-91 | stripping is idempotent |
| `Tarball.StripKeepsTheReport` | npm/tarball.go:87-129 | a stripped copy reports the same path, name and version without publishConfig, readable if and only if it stays within the reader's bounds |
| `Tarball.StrippedIsTheSame` | npm/tarball.go:254-259 | a tarball with no repeated name is the same as its stripped copy if and only if that stays within the reader's bounds |
| `KeySet.Cache.Refresh` | internal/importer/token/keyset.go:87-105 | one refresh fetches unless it is too soon, and a failure leaves the held set untouched |
| `KeySet.Cache.Lookup` | internal/importer/token/keyset.go:57-85 | the cache and the answer after a lookup, for any state, time and reply |
| `KeySet.LookedMeans` | internal/importer/token/keyset.go:57-105 | a key comes from the latest set, under an hour old; unknown means that set lacks it and a fetch started under 30 seconds ago; an error exactly when no set is held, with the reason of the latest fetch, itself under 30 seconds old |
| `KeySet.LookupSpelledOut` | internal/importer/token/keyset.go:57-105 | a lookup fetches exactly when the last fetch started 30 seconds ago or more and no set under five minutes old holds the key; it answers from the set it goes by, in terms of its input alone |
| `KeySet.RunIsFaithful` | internal/importer/token/keyset.go:59-105 | over any lookups with a clock that never goes back, fetches start at least 30 seconds apart |
| `SemVer.PrecedenceIsTotal` | npm/semver.go:56-56 | precedence by section 11 of Semantic Versioning 2.0.0 is a total order up to build metadata |
| `SemVer.PrecedenceSpelledOut` | npm/semver.go:56-56 | which of two versions is lower, by major, minor, patch and pre-release in turn: numeric identifiers by value and below alphanumeric ones, those by characters, a shorter list first, and any pre-release below its release |
| `SemVer.NewerStable` | npm/semver.go:41-62 | exactly the strings that are versions without pre-release above the current one, ascending |
| `Candidates.CandidateOrder` | rank/candidates.go:148-154 | on versions, the comparison by vector, jump and version is an order |
| `Candidates.VectorSpelledOut` | rank/candidates.go:135-154 | a vector is lower if it has fewer at the first severity where the two differ |
| `Candidates.BetterSpelledOut` | rank/candidates.go:148-154 | of two candidates the better has the lower vector, then is nearer to the current version, then is the lower version |
| `Candidates.Best` | rank/candidates.go:135-159 | what is returned carries no signal but those a user may accept, and has fewer vulnerabilities than the current vector at the first severity where they differ; on versions it exists exactly when some candidate is so, and is the least |
| `Candidates.BestIsUnique` | rank/candidates.go:135-159 | with versions of different precedence the choice is one, whatever the input order |
| `CandidateTasks.KeyVersions` | rank/candidates.go:161-202 | no key repeats, and the keys are exactly those of the fixed versions and the three latest |
| `CandidateTasks.KeysAreCandidates` | rank/candidates.go:161-202 | every key is one of the newer versions |
| `CandidateTasks.LowestFixIsKey` | rank/candidates.go:161-185 | for each fixed version some candidate reaches, the lowest such candidate is a key |
| `CandidateTasks.LatestAreKeys` | rank/candidates.go:187-202 | of the candidates that keep major and minor, that keep the major, and of all, a highest one is a key |
| `CandidateTasks.KeysAreFixesOrLatest` | rank/candidates.go:161-202 | there are no other keys: each is the first to reach a fixed version, or one of those three |
| `CandidateTasks.OrderKeyFirst` | internal/jobs/analysis_helpers.go:196-207 | the keys, then the remaining versions in their order |
| `CandidateTasks.KeyFirstIsPermutation` | internal/jobs/analysis_helpers.go:196-207 | moving the keys to the front loses and repeats nothing |
| `CandidateTasks.BuildCandidateTasks` | internal/jobs/analysis_candidates.go:124-154 | the tasks are every current and newer version once, all current and key ones ahead of all others |
| `CandidateTasks.GroupsAreTheDependencies` | internal/jobs/analysis_rank.go:82-88 | with distinct names, in whatever order tasks come back, a dependency's group is its own tasks |
| `CandidateTasks.RankOrder` | internal/jobs/analysis_rank.go:123-132 | sorting a group by index recovers the ascending list of newer versions |

## Left out

- HTTP plumbing, routes, authentication, generated files, SSE framing and React components: glue and user interface.
- gzip, tar, JSON, YAML and XML coding, hashing, signatures and the SemVer library: functions with laws.
- Network clients and subprocess runners: their answers are parameters.
- Timestamps, the descriptive fields of reports, the patterns of user names and ids, log text and the wording and cleaning of reasons, except where cutting a reason decides whether two lists are equal.
- The check-then-delete race on MinIO: removal claims are about what was stored before the delete, not about objects replaced in that gap.
- `ImportQueue.Queue.RunGuarded`: a panic happens at the end of the run, where its progress is already stored; Protocol lets one happen at any step of the run.
- `ImportQueue.Queue.Next`: returns none instead of waiting when nothing is queued, because waiting changes no state.
- `ArchiveVerifier.Scan`: an entry whose body breaks off counts as the end of the readable tar, so a partial copy of it is not left in the folder.
- `ArchiveVerifier.Verify`: a reader that fails does so at a read of its own after its last byte; names no single first problem among several in the archive's entries, only that there is one.
- `ArchiveRoundTrip.WrittenIsAdmissible`: archives longer than an int64 can count, since every size and offset of the original is one.
- `ArchiveRoundTrip.WriteAndVerify`: archives longer than an int64 can count, as above.
- `ArchiveBounds.Drain`: errors of the reader below the bound are passed on by the original and not modelled.
- `Attempts.PublishEach`: the working copy does not change between its last hash and the upload; `Publishing.PublishOne` covers that.
- `ArchiveWriter.WriteTarGz`: what was written before an error, and the times, owners and modes it sets, are not modelled.
- JobRunStreams: the goroutine between a subscription and its response passes events on in order and blocks rather than drops, so it is not a step of its own; its fill-in of a missing directory id is not modelled.
- JobRunStreams: a client starts with no step; what a page does when it is given another directory id is user interface.
- `JobQueue.Directories.NewDir`: looking for a free name and taking it is one step.
- `JobQueue.Service.Finalize`: the rewriting of status.json is not modelled.
- `Tarball.StripPublishConfig`: a PAX size record of the rewritten entry is part of the header fields that are carried over unread.
- `CandidateTasks.BuildCandidateTasks`: the order of dependencies within the two parts of the list is not stated.
- LiveForProject's completeness, job contents beyond the queue, the settings store, tool installation, SBOM and report rendering: easy members or library-bound.
- Vulnerability sets and their counts (Index.Set, VectorOf) and the signals of a candidate: a candidate comes with its vector and its signals.
- Bounds on the text fields of a manifest other than the package list's.
