# StudioCar image processing: verified model

StudioCar turns photos of cars into studio images. A request reserves one job per photo together with an
outbox row; dispatchers send outbox messages to a queue; workers claim the jobs with leases, run the image
pipeline (remove the background, frame the car, brand its plate) and record the result, the usage charge and
the vehicle's status. This project models the parts of that system whose correctness is hard to see from the
code and proves what they promise, in Dafny. `dafny verify dfyconfig.toml` checks the whole project.

## What is modelled

**The image-job protocol.** `JobRows` holds the rows and what each transaction does to them; `Repositories`
holds the transactions themselves, statement by statement, over one database object, each proved equal to
its meaning. `JobProtocol` puts dispatchers, queue and workers around them as a state machine whose steps are
single transactions, queue operations and crashes: a message may be sent twice, sent without the dispatcher
learning so, delivered any number of times, delivered before its job is recorded as queued, and deleted only
after some delivery was acknowledged. `JobInvariants`, `JobTransactions` and `JobProtocolSteps` prove the
invariant; `JobProtocolTheorems` and `VehicleOutcomes` state what holds in every state of every run. `JobLaws` says
what single transactions do in terms of the rows' own fields, and `JobRunLaws` carries that over to runs: from the
time a lease was granted until, and from the kind of a failure.
`VehicleCompletion` opens up the one place where transactions on different jobs meet, the advisory lock, and
interleaves their individual reads and writes.

**The code around the protocol.** `ProcessingWorkers` is one delivery from claim to report, `QueueHandler`
the acknowledgement of a delivered batch, `OutboxDispatch` both publication paths and `RetryTiming` the
backoff. What other processes do meanwhile enters as parameters: the rows a transaction finds, clocks, jitter,
answers of the queue. `JobExecution` is one execution over object storage, and any sequence of them. `DispatchLaws`
and `ExecutionLaws` say what each outcome is from the queue's answers, the lease, the stored objects and the pipeline.

**Plate branding.** `SurfaceComponents` is the flood fill over a colour mask, `ConvexHull` the monotone chain,
`SurfaceHull` why the hull of the boundary list is the hull of the surface, `HullReduction` the reduction to four
corners, `HullCorners` those corners as a quadrilateral, `PlateExpansion` the growth of the best fit through darker
thresholds, `PlateProjection` the pivoted elimination, `PlateHorizon` which plates can have a projection,
`PlateQuadrilaterals` the validity guard, `PlateOverlay` the pixel writes and `OverlayLaws` what they leave, byte by
byte of the artwork.

**Composition.** `AlphaBounds`, `Framing`, `FramingLaws`, `StudioBackground` and `LayerSharpening`: where the car is, how
it is framed and clipped, which part of the background is shown, and which pixels are sharpened.

**Uploads.** `UploadScheduler`: bounded concurrency with cancellation, over any sequence of events; `SchedulerRuns`
says from the events alone who starts, who waits and what an abort stops.

Coordinates of pixels are `int`; projections, scales and offsets are `real`, so that statements are about the
formulas and not about rounding of floating-point numbers.

## Main results

No job is lost, charges happen exactly once, attempts form a ledger, and every job's run is finite
(`JobProtocolTheorems`); a lease is exclusive until it ends and is taken over afterwards, and jobs fail only for cause
(`JobRunLaws`); the vehicle follows its newest batch (`VehicleOutcomes`), also when finishing transactions
interleave under the lock (`VehicleCompletion.LockedVehiclesNeverStick`); every claim a dispatch takes is settled,
by either path alike (`OutboxDispatch`); a staged cutout is never paid again (`JobExecution.StagedIsPaidOnce`);
flood fill, hull, reduction, elimination and overlay are exact (`SurfaceComponents.ExtractSurfaces`,
`ConvexHull.Hull`, `SurfaceHull.BoundaryHullIsSurfaceHull`, `HullReduction.ReductionAccounts`,
`PlateProjection.CreatePlateProjection`, `PlateHorizon.ProjectionExistsOffHorizon`, `PlateOverlay.ApplyPlateOverlay`,
`OverlayLaws.ArtworkIsMixed`); the plate grows exactly when it should (`PlateExpansion.GrowPlateSurface`);
framing and background placement are exact (`Framing.FitKeepsContent`, `Framing.FitDrawsContentExactly`,
`StudioBackground.PlacementIsExact`, `StudioBackground.ScaleIsLeast`); and the scheduler is fair and bounded
(`UploadScheduler.RunKeepsInv`, `UploadScheduler.StartsAreInOrder`, `SchedulerRuns.AbortedWaitersNeverStart`). Rows of the table
that say "side fact" follow directly from definitions, and say in explicit terms what these come to.

## Where the code does not do what it promises

The comment on `frameVehicle` says that fitting never crops the content. All of it is extracted, but rounding
the resampled layer to whole canvas pixels can still clip part of its first or last row or column.
`Framing.FitDrawsContentExactly` gives the exact condition, for every photo, content box and padding: the content is
drawn whole if and only if neither edge of either axis clips it.

- The near edge clips if and only if there is source in front of the content, the free gap beside the content is more
  than nothing and less than the scale minus one half, and the layer has fewer pixels than the source it shows.
- The far edge clips if and only if the rounded layer hangs over the canvas, by more than the source behind the
  content covers.

The gap, the source pixels that reach into it, the layer's size and its overhang are computed from the photo alone.
Consequently a gap of nothing, or of a whole pixel and more, is safe (`Framing.FitDrawsUnlessGapIsFraction`), and so is
any padding from one percent on (`Framing.FitKeepsContent`); `Framing.FitWithoutPaddingMayClip` and
`Framing.FitWithoutPaddingMayClipEnd` are photos without padding that lose part of a row.

The flood fill collects the cells on the outline of a surface in a list it calls the boundary. Since it erases cells as
it queues them, every cell but the first finds an erased neighbour and is put on that list
(`SurfaceComponents.Fill`); the hull taken of it is the same (`SurfaceHull.BoundaryHullIsSurfaceHull`).

## Assumptions

- Each transaction on one job is one step, as if its rows were locked from the first read. The guarded
  updates by which the source turns a lost race into CLAIM_BUSY, CLAIM_LOST or a rollback therefore always find their row.
- Worker ids, claim tokens and queue message ids are new each time.
- New batches have a key and a creation time of their own, later than the vehicle's older jobs.
- Storage keeps what it stored, and only executions write a job's keys.

## Model

| member | source | states |
|---|---|---|
| Repositories.ProcessingWorkerRepository.ClaimJob | packages/database-runtime/src/repositories/processing-worker-repository.ts:63-223 | a queued job is granted; a processing one answers busy before its lease ends and afterwards starts the next attempt or, without budget, fails; every row moved is given |
| Repositories.ProcessingWorkerRepository.CompleteJob | packages/database-runtime/src/repositories/processing-worker-repository.ts:225-312 | only the lease holder completes; asset, charge, attempt, job and vehicle move together |
| Repositories.ProcessingWorkerRepository.FailJob | packages/database-runtime/src/repositories/processing-worker-repository.ts:314-416 | only the lease holder fails; a requested retry within the budget makes job and outbox row wait for the given time, anything else is final |
| Repositories.ProcessingWorkerRepository.UpdateVehicleStatus | packages/database-runtime/src/repositories/processing-worker-repository.ts:418-465 | a processing vehicle settles when its last active job is done, by its newest batch alone |
| Repositories.ProcessingWorkerRepository.FindLatestJob | packages/database-runtime/src/repositories/processing-worker-repository.ts:440-444 | the newest job of the vehicle, or none if it has no job |
| Repositories.ProcessingOutboxRepository.ClaimPendingOutbox | apps/web/src/server/db/repositories/processing-outbox-repository.ts:65-107 | the oldest dispatchable rows, up to the limit, none older left behind, are leased to the token |
| Repositories.ProcessingOutboxRepository.MarkOutboxPublished | apps/web/src/server/db/repositories/processing-outbox-repository.ts:161-214 | succeeds exactly while the claim stands and the job still awaits publication |
| Repositories.ProcessingOutboxRepository.MarkOutboxPublishedBatch | apps/web/src/server/db/repositories/processing-outbox-repository.ts:114-155 | records exactly the messages whose claims stand and returns those, in order |
| Repositories.ProcessingOutboxRepository.ReleaseOutboxClaim | apps/web/src/server/db/repositories/processing-outbox-repository.ts:216-234 | frees the row only under its own claim |
| Repositories.BatchMarksLikeSingles | apps/web/src/server/db/repositories/processing-outbox-repository.ts:114-214 | one batched acknowledgement leaves the same rows as acknowledging one message after another |
| Repositories.AcknowledgedInOrder | apps/web/src/server/db/repositories/processing-outbox-repository.ts:114-155 | the batch reports its acknowledged messages in the order it was given them |
| Repositories.EarlierRowIsOlder | apps/web/src/server/db/repositories/processing-outbox-repository.ts:65-107 | side fact: rows are claimed by age |
| JobLaws.ClaimRefusals | packages/database-runtime/src/repositories/processing-worker-repository.ts:67-104 | side fact: a claim is refused for a missing, finished or unpublished job or a running lease, each with its answer, and changes nothing |
| JobLaws.ClaimGrants | packages/database-runtime/src/repositories/processing-worker-repository.ts:89-223 | side fact: what a claim of a queued or processing job comes to, from its lease, the time and the budget alone |
| JobLaws.HolderCompletes | packages/database-runtime/src/repositories/processing-worker-repository.ts:241-311 | side fact: the holder's completion adds one asset and one charge, and attempt and job succeed together |
| JobLaws.RetryableKinds | packages/processing/src/classify-processing-failure.ts:7-27 | side fact: a retry is requested for network, rate limit, provider error and timeout |
| JobLaws.HolderFailure | packages/database-runtime/src/repositories/processing-worker-repository.ts:331-415 | side fact: the holder's failure is retried exactly when a retry was requested and budget is left, and final otherwise |
| JobLaws.OthersDoNotFail | packages/database-runtime/src/repositories/processing-worker-repository.ts:330-336 | side fact: anybody else's failure changes nothing |
| JobLaws.DispatchableMeans | apps/web/src/server/db/repositories/processing-outbox-repository.ts:65-107 | side fact: a row may be claimed exactly when it is unpublished and due, its job still waits, and no claim on it is running |
| JobLaws.ClaimedUntil | apps/web/src/server/db/repositories/processing-outbox-repository.ts:65-107 | side fact: a row claimed until a time is not claimed before it |
| JobLaws.StandingClaimIsRecorded | apps/web/src/server/db/repositories/processing-outbox-repository.ts:114-155 | side fact: under a standing claim the row is published and the job queued, and no other row moves |
| JobLaws.OwnClaimIsReleased | apps/web/src/server/db/repositories/processing-outbox-repository.ts:216-234 | side fact: under one's own claim the row is freed until the given time, otherwise nothing moves |
| JobTransactions.ClaimKeepsOk | packages/database-runtime/src/repositories/processing-worker-repository.ts:63-223 | claiming keeps ledger, budget, charges, outbox and vehicles in order |
| JobTransactions.CompleteKeepsOk | packages/database-runtime/src/repositories/processing-worker-repository.ts:225-312 | so does completing |
| JobTransactions.FailKeepsOk | packages/database-runtime/src/repositories/processing-worker-repository.ts:314-416 | so does failing, retried or not |
| JobTransactions.MarkRowsKeepsOk | apps/web/src/server/db/repositories/processing-outbox-repository.ts:114-155 | so does recording publications |
| JobTransactions.ReserveKeepsOk | apps/web/src/server/db/repositories/processing-job-repository.ts:152-273 | so does reserving a batch on a vehicle that may be processed |
| JobProtocolSteps.StepKeepsOk | packages/processing/src/processing-worker.ts:38-166 | every step of dispatchers, queue, workers and crashes keeps the system invariant |
| JobProtocolSteps.NotReadyIsUnreachable | packages/database-runtime/src/repositories/processing-worker-repository.ts:99-104 | side fact: the branch that answers NOT_READY is never taken |
| JobProtocolTheorems.NoJobIsLost | packages/processing/src/processing-worker.ts:43-49 | in every state of every run an unfinished job has an unpublished outbox row or an undeleted queue message |
| JobProtocolTheorems.ChargedExactlyOnce | packages/database-runtime/src/repositories/processing-worker-repository.ts:241-311 | in every run a job has one charge and one processed asset if it is completed, none otherwise |
| JobProtocolTheorems.AttemptsAreLedger | packages/database-runtime/src/repositories/processing-worker-repository.ts:89-204 | attempts are numbered 1 to attemptCount within the budget; only the last may be started or have succeeded, and exactly when its job is processing or completed |
| JobProtocolTheorems.RunsOfAJobAreFinite | packages/database-runtime/src/repositories/processing-worker-repository.ts:106-163 | in every run a job moves at most 3 * maxAttempts + 2 times, each move using up some of what remains |
| JobProtocolTheorems.FinishedForGood | packages/database-runtime/src/repositories/processing-worker-repository.ts:72-78 | a finished job's row and charge never change again |
| JobProtocolTheorems.LeaseIsOfLatestAttempt | packages/database-runtime/src/repositories/processing-worker-repository.ts:331-354 | in every state of every run, a running worker that a job names executes exactly that job's latest attempt, which is still started |
| JobProtocolTheorems.SupersededWorkersChangeNothing | packages/database-runtime/src/repositories/processing-worker-repository.ts:331-336 | in every run, a worker its job no longer names changes no row and does not get an unfinished job's message deleted |
| JobRunLaws.LeaseIsExclusive | packages/database-runtime/src/repositories/processing-worker-repository.ts:89-98 | in every run, from a granted claim to the end of the lease it took, nobody else's claim of the job moves a row or gets its message deleted, while its holder has not finished |
| JobRunLaws.EndedLeasesAreReclaimed | packages/database-runtime/src/repositories/processing-worker-repository.ts:89-163 | in every run, once that lease has ended unfinished, a claim starts the next attempt within the budget and otherwise fails the job |
| JobRunLaws.QueuedJobsAreClaimed | packages/database-runtime/src/repositories/processing-worker-repository.ts:99-163 | in every run, a claim of a queued job is granted, whenever it comes |
| JobRunLaws.HoldersComplete | packages/database-runtime/src/repositories/processing-worker-repository.ts:225-312 | in every run, the completion of the worker a job names is stored |
| JobRunLaws.HoldersFailOrRetry | packages/database-runtime/src/repositories/processing-worker-repository.ts:331-415 | in every run, the holder's failure leaves job and outbox row waiting for the retry exactly for a kind that may pass and within the budget, and otherwise a failed job, whose image is blamed for its own faults only |
| JobRunLaws.JobsFailForCause | packages/database-runtime/src/repositories/processing-worker-repository.ts:106-163 | in every run, a failed job spent its budget or had a failure that no retry helps, reported by its lease holder |
| JobRunLaws.StandingClaimsAreRecorded | apps/web/src/server/db/repositories/processing-outbox-repository.ts:161-214 | in every run, a dispatcher whose claim stands records what it sent |
| JobRunLaws.OutboxClaimsAreExclusive | apps/web/src/server/db/repositories/processing-outbox-repository.ts:65-107 | in every run, a claimed row is not claimed again before its claim ends, unless it was recorded or released |
| VehicleOutcomes.VehicleFollowsNewestBatch | packages/database-runtime/src/repositories/processing-worker-repository.ts:418-465 | in every run a vehicle is processing exactly while it has active jobs, and afterwards shows whether its newest batch holds a failed or cancelled job, whatever earlier ones did |
| VehicleCompletion.LockedVehiclesNeverStick | packages/database-runtime/src/repositories/processing-worker-repository.ts:418-465 | however finishing transactions interleave, no committed state has every job finished and the vehicle still processing; partially failed exactly by the newest batch |
| VehicleCompletion.CommitIsAtomic | packages/database-runtime/src/repositories/processing-worker-repository.ts:418-465 | side fact: under the lock an interleaved completion has the effect of an atomic one |
| VehicleCompletion.UnlockedVehiclesCanStick | packages/database-runtime/src/repositories/processing-worker-repository.ts:419-428 | why the lock is there: without it, a run from the start ends with every job finished and the vehicle processing, and no step follows |
| ProcessingWorkers.ProcessingWorker.Claim | packages/processing/src/processing-worker.ts:172-195 | asks again only while publication is awaited, five times at most, and returns the last answer |
| ProcessingWorkers.ProcessingWorker.Process | packages/processing/src/processing-worker.ts:38-166 | the report matches the last transaction, made for the claimed attempt; a report that allows deletion is made only when the job needs no message |
| ProcessingWorkers.RefusalReports | packages/processing/src/processing-worker.ts:41-49 | side fact: an ungranted delivery is kept exactly while the job waits for its dispatcher or a lease on it runs |
| ProcessingWorkers.FinishReports | packages/processing/src/processing-worker.ts:64-166 | side fact: a finished execution is kept exactly when it could not be recorded; a failure is reported as retried or final by kind and budget |
| QueueHandler.HandleProcessingQueueEvent | workers/image-processing/src/handle-processing-queue-event.ts:26-124 | the failure list names exactly the records that were malformed, threw or asked for redelivery |
| QueueHandler.DeletedExactlyWhenSettled | packages/local-queue/src/select-deletable-receipts.ts:10-18 | a message is deleted exactly when every record carrying its id was settled |
| OutboxDispatch.DispatchProcessingOutboxBatches | packages/processing/src/dispatch-processing-outbox-batches.ts:13-63 | each message is counted exactly when its batch was in time, the queue confirmed it once and the record committed on a standing claim; all others are released; claimed = published + failed |
| OutboxDispatch.MatchesOnce | packages/processing/src/dispatch-processing-outbox-batches.ts:38-44 | the filter on results finds one success exactly when one result names the job and says published |
| OutboxDispatch.DispatchOneByOne | packages/processing/src/processing-outbox-dispatcher.ts:53-97 | each message is counted, released or, when its claim was lost, left alone, by what the queue and the record did |
| OutboxDispatch.ProcessingOutboxDispatcher.Dispatch | packages/processing/src/processing-outbox-dispatcher.ts:32-98 | claims dispatchable rows, and settles every claim by what the queue and the record did |
| OutboxDispatch.PathsAgree | packages/processing/src/processing-outbox-dispatcher.ts:46-97 | for the same queue outcomes, in time and recorded, both paths leave the same rows and counts |
| OutboxDispatch.NoClaimIsLeft | packages/processing/src/dispatch-processing-outbox-batches.ts:51-61 | after a dispatch no claim of it is left: each row is published with its job queued, or free again |
| DispatchLaws.BatchFates | packages/processing/src/dispatch-processing-outbox-batches.ts:25-61 | a message of a batch is counted exactly when more than 250 ms of lease were left, exactly one result named it, as sent, its claim stood and the record committed; put back exactly when not recorded |
| DispatchLaws.SingleFates | packages/processing/src/processing-outbox-dispatcher.ts:56-95 | the same for one message at a time; a claim found lost leaves the row alone |
| DispatchLaws.DispatchedFates | packages/processing/src/processing-outbox-dispatcher.ts:46-95 | on the dispatcher's own claims the queue, the record and, in batches, the lease alone decide |
| DispatchLaws.SentIsPublished | packages/processing/src/processing-outbox-dispatcher.ts:68-78 | side fact: a recorded message's row is published and its job queued, whether or not the dispatcher learned of it |
| DispatchLaws.ReleasedIsDelayed | packages/processing/src/dispatch-processing-outbox-batches.ts:55-58 | a message put back is free, from half to the whole of the capped backoff of its attempts after its failure |
| DispatchLaws.OthersAreKept | packages/processing/src/processing-outbox-dispatcher.ts:75-79 | side fact: rows of lost claims and of jobs not dispatched stay as they were |
| DispatchLaws.PublishedAreCounted | packages/processing/src/dispatch-processing-outbox-batches.ts:52-62 | side fact: the published count is the number of acknowledged messages |
| RetryTiming.RetryDelayBounds | packages/processing/src/respect-provider-retry-after.ts:6-22 | at least half the capped exponential and the hint within the maximum; at most the maximum, and the larger of the capped exponential and the hint rounded up |
| RetryTiming.HintlessWaitsBackoff | packages/processing/src/respect-provider-retry-after.ts:11-17 | side fact: without a longer hint the backoff is waited |
| RetryTiming.CeilingDoubles | packages/processing/src/calculate-processing-retry-delay.ts:33-36 | the ceiling starts at the base and doubles with each attempt up to the maximum |
| RetryTiming.JitterIsProportional | packages/processing/src/calculate-processing-retry-delay.ts:37-38 | twice the delay is the ceiling times one plus the jitter, to the nearest millisecond; for the outbox, rounded up |
| RetryTiming.RetryDelayIsMonotone | packages/processing/src/calculate-processing-retry-delay.ts:33-38 | for the same jitter and hint a later attempt never waits less |
| RetryTiming.OutboxDelayBounds | packages/processing/src/calculate-processing-outbox-retry-delay.ts:25-30 | the outbox delay has the same bounds and order |
| RetryTiming.RetryDelayErrors | packages/processing/src/calculate-processing-retry-delay.ts:12-31 | side fact: refused exactly for an attempt, timing or jitter out of range |
| JobExecution.ProcessingJobExecutor.Execute | workers/image-processing/src/execution/processing-job-executor.ts:87-151 | result, stored objects and provider calls of one attempt, whatever storage, provider and pipeline do |
| JobExecution.ProcessingJobExecutor.ReadValidatedSource | workers/image-processing/src/execution/processing-job-executor.ts:153-189 | the photo, or the first check its original fails |
| JobExecution.ProcessingJobExecutor.ObtainCutout | workers/image-processing/src/execution/processing-job-executor.ts:196-242 | a staged cutout with a matching checksum is reused, any other case asks the provider and stages first |
| JobExecution.StagedIsPaidOnce | workers/image-processing/src/execution/processing-job-executor.ts:196-242 | over any sequence of attempts at any jobs, a staged cutout stays and its job never calls the provider again |
| JobExecution.LaterAttemptsReuse | workers/image-processing/src/execution/processing-job-executor.ts:196-210 | every later composition uses the staged bytes, and happens exactly when original and cutout can be read |
| JobExecution.PaidAgainOnlyIfLost | workers/image-processing/src/execution/processing-job-executor.ts:211-241 | a job pays twice only if what the first call returned was never stored |
| JobExecution.DeliveredCutoutIsReused | workers/image-processing/src/execution/processing-job-executor.ts:196-241 | a delivered, stored cutout within the read limit is what every later attempt with a valid original composes from, unpaid |
| JobExecution.PaidOnlyForValidSource | workers/image-processing/src/execution/processing-job-executor.ts:96-103 | side fact: the provider is asked only about an original of the committed size and checksum that decoded |
| JobExecution.SuccessIsStored | workers/image-processing/src/execution/processing-job-executor.ts:108-131 | side fact: success means output and preview are stored as reported, composed from the staged cutout or rendered from the photo |
| JobExecution.AttemptWritesOwnKeys | workers/image-processing/src/execution/build-processing-object-keys.ts:15-24 | side fact: an attempt writes only its own job's keys, and its output only after rendering |
| ExecutionLaws.SucceedsExactly | workers/image-processing/src/execution/processing-job-executor.ts:96-131 | an attempt succeeds exactly when an image is rendered, of the photo or of a cutout, and both writes succeed, and then the objects hold that image |
| ExecutionLaws.PaysExactlyWithoutCutout | workers/image-processing/src/execution/processing-job-executor.ts:196-220 | the provider is asked exactly for a studio job with a usable original and no staged cutout of matching checksum |
| ExecutionLaws.SourceFailures | workers/image-processing/src/execution/processing-job-executor.ts:153-189 | what each unusable original reports, in the order of the checks |
| ExecutionLaws.CutoutFailures | workers/image-processing/src/execution/processing-job-executor.ts:196-301 | what a failed rendering of the photo, an unreadable staged cutout, a provider's refusal and a failed staging report |
| ExecutionLaws.CompositionFailures | workers/image-processing/src/execution/processing-job-executor.ts:132-149 | what a cutout without a vehicle, a failed composition and failed writes report, with the provider's request |
| SurfaceComponents.ExtractSurfaces | workers/image-processing/src/plate-branding/refine-plate-quadrilateral.ts:73-99 | the surfaces are the four-connected components of one colour, each once, none missing, and the mask ends empty |
| SurfaceComponents.Fill | workers/image-processing/src/plate-branding/refine-plate-quadrilateral.ts:77-99 | one flood lists its component once and erases it; its boundary list holds every cell but the seed, and the seed exactly when it lies on the outline |
| SurfaceComponents.ErasedKeepsConnections | workers/image-processing/src/plate-branding/refine-plate-quadrilateral.ts:95-96 | erasing found components changes no later component |
| SurfaceComponents.LinkedInCoordinates | workers/image-processing/src/plate-branding/refine-plate-quadrilateral.ts:90-97 | cells are linked exactly when they have one colour and lie directly beside or above each other |
| SurfaceComponents.CellsInCoordinates | workers/image-processing/src/plate-branding/refine-plate-quadrilateral.ts:85-98 | side fact: what a cell is in image pixels, and which cells touch the edge |
| ConvexHull.Half | workers/image-processing/src/plate-branding/convex-hull.ts:8-20 | one sweep gives the strict chain that keeps every point on its side |
| ConvexHull.Hull | workers/image-processing/src/plate-branding/convex-hull.ts:4-22 | for every point list: vertices are inputs, all turns are strict, every point is on or left of every edge, three vertices or more exactly when not all collinear |
| ConvexHull.JoinedIsStrict | workers/image-processing/src/plate-branding/convex-hull.ts:21 | the two chains, without their last points, join strictly |
| SurfaceHull.BoundaryHullIsSurfaceHull | workers/image-processing/src/plate-branding/refine-plate-quadrilateral.ts:99-106 | the hull of the boundary list is the hull of every pixel of the surface |
| HullReduction.FindLeastCorner | workers/image-processing/src/plate-branding/refine-plate-quadrilateral.ts:113-122 | the first corner whose triangle is least |
| HullReduction.CornerTriangle | workers/image-processing/src/plate-branding/refine-plate-quadrilateral.ts:116-120 | what a corner weighs: the triangle with the points before and after it, the list taken round |
| HullReduction.ReduceToFour | workers/image-processing/src/plate-branding/refine-plate-quadrilateral.ts:112-124 | least corners are removed one by one until four remain |
| HullReduction.ReductionAccounts | workers/image-processing/src/plate-branding/refine-plate-quadrilateral.ts:112-125 | what remains is strictly convex, and its area is the hull's less the triangles removed |
| HullReduction.CornerAreaComesOff | workers/image-processing/src/plate-branding/polygon-area.ts:3-8 | removing a corner lowers the shoelace area by exactly its triangle |
| PlateExpansion.SelectPlateSurfaceExpansion | workers/image-processing/src/plate-branding/select-plate-surface-expansion.ts:7-24 | the candidate replaces the current fit exactly when it is a bounded expansion around all its corners |
| PlateExpansion.GrowPlateSurface | workers/image-processing/src/plate-branding/refine-plate-quadrilateral.ts:48-184 | nothing for ambiguous or missing surfaces; otherwise the last of the bests, where each threshold's surface becomes the best exactly when there was none or it expands the best and, deep in shadow, stays within a fiftieth of the box of the anchor, the best before the first deep threshold that had one |
| PlateExpansion.BestsGrow | workers/image-processing/src/plate-branding/select-plate-surface-expansion.ts:11-14 | a best is only ever replaced by a larger one, within the detector's box |
| PlateExpansion.FirstFoundIsBest | workers/image-processing/src/plate-branding/refine-plate-quadrilateral.ts:167-182 | the first surface found is the first best |
| PlateExpansion.AnchorIsFixed | workers/image-processing/src/plate-branding/refine-plate-quadrilateral.ts:58 | side fact: the anchor is set once |
| PlateExpansion.ExpansionMeans | workers/image-processing/src/plate-branding/select-plate-surface-expansion.ts:9-22 | an expansion is larger, by half at most and within the detector's box, and takes the corners of the fit to within a twentieth of the unit square |
| PlateExpansion.AreaIsTwoTriangles | workers/image-processing/src/plate-branding/polygon-area.ts:3-8 | the area is that of the two triangles on either side of a diagonal |
| PlateProjection.Eliminate | workers/image-processing/src/plate-branding/create-plate-projection.ts:16-36 | fails exactly when a pivot is too small; otherwise reduces the equations to their solution |
| PlateProjection.StopsWithoutPivot | workers/image-processing/src/plate-branding/create-plate-projection.ts:16-25 | a column stops the elimination exactly when all its entries from its own row on are below 0.000001 |
| PlateProjection.ScaleKeepsSolutions | workers/image-processing/src/plate-branding/create-plate-projection.ts:28 | dividing a row keeps the solutions |
| PlateProjection.SubtractKeepsSolutions | workers/image-processing/src/plate-branding/create-plate-projection.ts:29-35 | subtracting a multiple of the pivot row keeps the solutions |
| PlateProjection.SwapKeepsSolutions | workers/image-processing/src/plate-branding/create-plate-projection.ts:26-27 | swapping rows keeps the solutions |
| PlateProjection.CreatePlateProjection | workers/image-processing/src/plate-branding/create-plate-projection.ts:5-37 | the coefficients solve all eight corner equations and are the only ones that do |
| PlateProjection.CornersProjectExactly | workers/image-processing/src/plate-branding/create-plate-projection.ts:38-44 | each corner projects to its own unit-square corner or to nothing |
| PlateHorizon.ProjectionExistsOffHorizon | workers/image-processing/src/plate-branding/create-plate-projection.ts:12-37 | the corner equations of a turning plate have a solution if and only if the plate's horizon misses the image's origin |
| PlateHorizon.SentCornersMissHorizon | workers/image-processing/src/plate-branding/create-plate-projection.ts:12-37 | a plate whose horizon passes through the origin gets no projection |
| HullCorners.ReducedHullTurns | workers/image-processing/src/plate-branding/refine-plate-quadrilateral.ts:105-143 | a hull reduced to four corners turns at every corner, as the quadrilateral's guard demands, wherever it starts |
| HullCorners.AreaIsShoelaceArea | workers/image-processing/src/plate-branding/polygon-area.ts:3-8 | the quadrilateral's area is the shoelace area of its four points |
| PlateQuadrilaterals.ProjectedInsideIsInside | workers/image-processing/src/plate-branding/apply-plate-overlay.ts:38-39 | a point that projects into the unit square lies inside the quadrilateral |
| PlateQuadrilaterals.InsideIsProjectedInside | workers/image-processing/src/plate-branding/apply-plate-overlay.ts:38-39 | and a point inside that has a projection has it in the unit square |
| PlateQuadrilaterals.SidesAreEdges | workers/image-processing/src/plate-branding/create-plate-projection.ts:38-44 | the four sides of the unit square are the four edges of the plate, each its own |
| PlateQuadrilaterals.GuardMeans | workers/image-processing/src/plate-branding/validate-plate-quadrilateral.ts:5-18 | side fact: what the guard demands of corners, turns and box |
| PlateQuadrilaterals.BoxIsTight | workers/image-processing/src/plate-branding/validate-plate-quadrilateral.ts:15-16 | side fact: the box holds the corners and touches one on each side |
| PlateQuadrilaterals.InsideIsWithinBox | workers/image-processing/src/plate-branding/validate-plate-quadrilateral.ts:5-18 | inside a validated quadrilateral is within its corners' box |
| PlateOverlay.CoveredIsInside | workers/image-processing/src/plate-branding/apply-plate-overlay.ts:37-39 | a pixel that is written is on the canvas, its centre inside the plate, although the loop includes the far edges |
| PlateOverlay.ApplyPlateOverlay | workers/image-processing/src/plate-branding/apply-plate-overlay.ts:9-66 | applies exactly to a valid plate, projection and artwork; the copy is painted with that projection and the fit of the plate's aspect, the input is as before |
| OverlayLaws.CoveredExactlyInside | workers/image-processing/src/plate-branding/apply-plate-overlay.ts:37-39 | a pixel is painted exactly when its centre lies inside the placed plate and off its horizon |
| OverlayLaws.ArtworkIsMixed | workers/image-processing/src/plate-branding/apply-plate-overlay.ts:40-62 | at every place on the artwork a painted byte is the rounded mix, along each axis, of the bytes of the four texels around it |
| OverlayLaws.TexelIsPainted | workers/image-processing/src/plate-branding/apply-plate-overlay.ts:47-62 | where a texel lands, its bytes are painted |
| OverlayLaws.ArtworkIsUpright | workers/image-processing/src/plate-branding/apply-plate-overlay.ts:40-62 | the artwork's first texel is painted at its upper left, its last at its lower right |
| OverlayLaws.SurroundIsBlack | workers/image-processing/src/plate-branding/apply-plate-overlay.ts:40-46 | on the plate around the artwork every byte is black |
| OverlayLaws.RestIsKept | workers/image-processing/src/plate-branding/apply-plate-overlay.ts:37-46 | uncovered pixels and the alpha channel are kept |
| OverlayLaws.AspectIsAcrossOverDown | workers/image-processing/src/plate-branding/apply-plate-overlay.ts:31-33 | the aspect is the length of top and bottom edge over that of left and right edge |
| OverlayLaws.PlateMovesWithPhoto | workers/image-processing/src/plate-branding/apply-plate-overlay.ts:11-18 | side fact: the corners are scaled and moved as the photo is |
| PlateOverlay.OverlayIsConfined | workers/image-processing/src/plate-branding/apply-plate-overlay.ts:8-66 | a changed byte is a colour byte of a pixel inside the placed plate |
| PlateOverlay.ArtworkIsNotStretched | workers/image-processing/src/plate-branding/apply-plate-overlay.ts:29-36 | the artwork keeps its proportions on the plate |
| PlateOverlay.MeanBounds | workers/image-processing/src/plate-branding/apply-plate-overlay.ts:55-62 | a sampled byte lies between the four it is mixed from |
| AlphaBounds.FindAlphaBounds | workers/image-processing/src/execution/find-alpha-bounds.ts:12-41 | the tight box and the number of the pixels of at least the threshold; nothing exactly when there are none or the size is wrong |
| AlphaBounds.TightBoxIsUnique | workers/image-processing/src/execution/find-alpha-bounds.ts:8-11 | side fact: there is only one tight box |
| AlphaBounds.StricterBoxIsInside | workers/image-processing/src/execution/measure-cutout.ts:16-28 | side fact: the vehicle's box lies inside the content box |
| AlphaBounds.MeasureCutout | workers/image-processing/src/execution/measure-cutout.ts:15-33 | the tight boxes of alpha 8 and of alpha 128; nothing exactly when no pixel, or less than a five-hundredth, reaches 128 |
| AlphaBounds.AlphaPlaneMeans | workers/image-processing/src/execution/extract-alpha.ts:4-12 | side fact: which byte is a pixel's alpha |
| Framing.FitKeepsContent | workers/image-processing/src/execution/frame-vehicle.ts:68-87 | fit mode centres the content inside the padding, extracts all of it and keeps the layer on the canvas |
| FramingLaws.FitIsLargest | workers/image-processing/src/execution/frame-vehicle.ts:68-87 | fit mode draws the content as large as padding and the limit of 1.3 allow: one of the three limits is reached |
| Framing.FitCutsNoContentPixel | workers/image-processing/src/execution/place-cutout-layer.ts:21-38 | every pixel at or above the content threshold is extracted and lands inside the padding |
| Framing.FitWithoutPaddingMayClip | workers/image-processing/src/execution/place-cutout-layer.ts:57-60 | without padding the first content row of one photo is clipped |
| Framing.FitDrawsContentExactly | workers/image-processing/src/execution/place-cutout-layer.ts:21-89 | for every photo, content box and padding, the content is drawn whole if and only if no axis clips it at its near or far edge |
| Framing.AxisIsDrawn | workers/image-processing/src/execution/place-cutout-layer.ts:21-61 | one axis is drawn whole if and only if neither the gap and scale clip its start nor the overhang its end |
| Framing.CentredSpan | workers/image-processing/src/execution/place-cutout-layer.ts:22-38 | what is extracted, resampled, clipped and drawn of a centred axis, counted in source pixels from the content |
| Framing.FitDrawsUnlessGapIsFraction | workers/image-processing/src/execution/place-cutout-layer.ts:57-89 | a gap of nothing, or of a whole pixel and more, on both axes clips nothing |
| Framing.FitWithoutPaddingMayClipEnd | workers/image-processing/src/execution/place-cutout-layer.ts:59-61 | without padding the last content row of another photo is clipped |
| Framing.PaddingIsSafeUnlessNone | workers/image-processing/src/execution/frame-vehicle.ts:68-87 | the paddings that draw every content box whole are all but none |
| Framing.SquareKeepsPhoto | workers/image-processing/src/execution/frame-vehicle.ts:50-67 | square mode shows the whole photo, centred, never enlarged and never clipped |
| FramingLaws.SquareIsLargest | workers/image-processing/src/execution/frame-vehicle.ts:50-67 | square mode draws the photo as large as the padding allows, at most at its size |
| Framing.MaintainIsExact | workers/image-processing/src/execution/frame-vehicle.ts:38-49 | composition mode keeps the photo pixel for pixel inside its padding |
| FramingLaws.CompositionPadding | workers/image-processing/src/execution/frame-vehicle.ts:38-49 | every side is padded by the percentage of the shorter edge, to the nearest pixel |
| FramingLaws.ExtractsWhatReaches | workers/image-processing/src/execution/place-cutout-layer.ts:21-32 | every source pixel that reaches the canvas is extracted and, where any does, no other |
| FramingLaws.AxisLandsNearest | workers/image-processing/src/execution/place-cutout-layer.ts:33-60 | the layer is resampled and placed to the nearest pixel, clipped before the canvas and drawn up to its edge |
| StudioBackground.PlacementIsExact | workers/image-processing/src/execution/place-studio-background.ts:30-51 | the region fits the asset, has the canvas's proportions and shows the seam exactly at its clamped target |
| StudioBackground.SeamIsWhereWanted | workers/image-processing/src/execution/place-studio-background.ts:33-51 | the seam shows at the wanted height, or at the canvas edge nearest to it |
| StudioBackground.ScaleIsLeast | workers/image-processing/src/execution/place-studio-background.ts:31-41 | no smaller scale has such a region anywhere |
| StudioBackground.PlacedDown | workers/image-processing/src/execution/place-studio-background.ts:44-49 | the vertical clamps change nothing |
| StudioBackground.PlacedAcross | workers/image-processing/src/execution/place-studio-background.ts:43-48 | the horizontal clamps change nothing and the region is centred |
| LayerSharpening.SharpenWithinLayer | workers/image-processing/src/execution/sharpen-within-layer.ts:17-73 | every byte of the copy is the blend its coverage calls for, and all reads and writes are in bounds |
| LayerSharpening.ByteIsBlended | workers/image-processing/src/execution/sharpen-within-layer.ts:22-70 | within layer and content a byte is the base moved towards the filtered byte of that pixel by the layer's alpha over 255, rounded; elsewhere it is the base |
| LayerSharpening.AreaEndsFourBehind | workers/image-processing/src/execution/sharpen-within-layer.ts:32-37 | side fact: where the filtered area ends |
| LayerSharpening.SharpeningIsConfined | workers/image-processing/src/execution/sharpen-within-layer.ts:10-16 | a changed byte belongs to covered content: the background stays as composed |
| UploadScheduler.Scheduler.Drain | apps/web/src/features/vehicle-create/create-upload-scheduler.ts:8-10 | free slots go to the tasks that have waited longest, until none is free or none waits |
| UploadScheduler.Scheduler.Run | apps/web/src/features/vehicle-create/create-upload-scheduler.ts:12-33 | submitting starts or queues the task; an aborted signal is refused at once |
| UploadScheduler.Scheduler.OnAbort | apps/web/src/features/vehicle-create/create-upload-scheduler.ts:15-19 | aborting takes a waiting task out of the line, which closes up, and moves nothing else |
| UploadScheduler.Scheduler.BeginOperation | apps/web/src/features/vehicle-create/create-upload-scheduler.ts:23-26 | the operation of a started task is called unless its signal was aborted meanwhile |
| UploadScheduler.Scheduler.OnSettled | apps/web/src/features/vehicle-create/create-upload-scheduler.ts:26-29 | a settled task gives its slot back, to a waiting task if there is one |
| UploadScheduler.EventKeepsInv | apps/web/src/features/vehicle-create/create-upload-scheduler.ts:6-36 | every event keeps the slots counted exactly, none free while a task waits, each task in one phase |
| UploadScheduler.RunKeepsInv | apps/web/src/features/vehicle-create/create-upload-scheduler.ts:6-36 | so in every state of every run |
| UploadScheduler.StartsAreInOrder | apps/web/src/features/vehicle-create/create-upload-scheduler.ts:8-33 | started tasks are the earliest of the submitted ones that were not cancelled, in order |
| UploadScheduler.CancelledNeverStarts | apps/web/src/features/vehicle-create/create-upload-scheduler.ts:15-19 | a task cancelled while waiting never takes a slot and is never called |
| UploadScheduler.AbortedKeepsSlot | apps/web/src/features/vehicle-create/create-upload-scheduler.ts:3 | side fact: aborting a running task frees nothing until it settles |
| SchedulerRuns.AbortedWaitersNeverStart | apps/web/src/features/vehicle-create/create-upload-scheduler.ts:15-19 | in every run, an aborted waiting task leaves the line at once and is never started or called |
| SchedulerRuns.OtherAbortsMoveNothing | apps/web/src/features/vehicle-create/create-upload-scheduler.ts:15-19 | in every run, any other abort moves no task and frees no slot |
| SchedulerRuns.AbortedSubmissionsNeverStart | apps/web/src/features/vehicle-create/create-upload-scheduler.ts:13 | in every run, a task submitted with an aborted signal is never started or called |
| SchedulerRuns.SubmissionsStartOrWait | apps/web/src/features/vehicle-create/create-upload-scheduler.ts:12-33 | in every run, a submission starts at once while a slot is free and otherwise waits last |
| SchedulerRuns.SlotsAreHandedOn | apps/web/src/features/vehicle-create/create-upload-scheduler.ts:26-29 | in every run, a settled task's slot goes to the task that has waited longest |
| SchedulerRuns.CalledUnlessAborted | apps/web/src/features/vehicle-create/create-upload-scheduler.ts:20-26 | in every run, a started task is called exactly when no abort of it came before its turn |
| SchedulerRuns.SlotsAreTheUnsettled | apps/web/src/features/vehicle-create/create-upload-scheduler.ts:6-36 | in every run, the slots taken are those of the tasks that started and have not settled, never more than allowed |

## Left out

- Prisma, PostgreSQL, SQS, S3 and Leonardo clients: rows, messages and objects are maps and sets, and their failures are parameters.
- Races of two transactions on the same job: each is one step, so the guarded updates that detect such a race never fail here.
- The move to the dead-letter queue after repeated deliveries: an undeleted message stays in the queue.
- Cancelling a job: CANCELLED is a terminal status that no modelled code sets.
- Floating point: scales, projections and delays are exact reals, so results within rounding of a threshold may differ.
- `Math.hypot` in the plate's aspect: any length function is allowed as a parameter; SHA-256 is any function too.
- Resampling, sharpening filter, WebP coding and background rendering of `sharp`, and the ONNX detector: only the arithmetic around them is modelled.
- Colour thresholds, bright-white counting, coverage, tilt and opacity checks of `refinePlateQuadrilateral`: the model starts at the mask, and resumes at the quadrilaterals each threshold accepted.
- Identifiers, prices and periods inside usage events, provider latencies, error texts and telemetry: only which job an event belongs to is kept.
- Exceptions thrown by a repository call in the middle of `ProcessingWorker.process`: in the protocol they are a worker that stops; the handler keeps the message.
- Two overlapping executions of one job: `JobExecution` takes attempts one after another; a worker that outlives its lease may call the provider once more.
- Zod schemas, environment checks, sessions, administration, React components and forms: thin or single-branch code.
- ProcessingWorkers.ProcessingWorker.Process: the wait between claims is not timed, a repository call that throws midway is the protocol's stopping worker, and the protocol lets a worker ask again any number of times instead of five.
- OutboxDispatch.DispatchProcessingOutboxBatches: other processes do not move the claimed rows during one dispatch, and a release that throws, which ends the dispatch, is not modelled; both are interleavings and stops of the protocol machine.
- OutboxDispatch.DispatchOneByOne: a release that throws ends the dispatch in the source; here releases return.
- OutboxDispatch.ProcessingOutboxDispatcher.Dispatch: the same, for whichever path it takes.
- Repositories.ProcessingOutboxRepository.ClaimPendingOutbox: rows created at the same time are ordered by job id, where the source orders by outbox row id, and rows locked by another transaction are not skipped, because transactions are single steps.
- JobTransactions.ReserveKeepsOk: refusals for allowance, missing assets, batch limits and replays are left out; the reservation modelled is the one that goes through.
- PlateProjection.CreatePlateProjection: over exact reals the equations may have a solution although a pivot is below the source's threshold; which plates those are is stated only by the elimination itself.
- PlateExpansion.GrowPlateSurface: the fits of each threshold are given, and the outer loop over fit passes, which an ambiguous threshold also ends, is not modelled.
