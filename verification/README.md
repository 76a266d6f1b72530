# Verified model of the product intelligence platform

A Dafny model of the parts of the platform where correctness is hard to see by reading one
function: the background job protocol over Redis, the uploads it retries, double-checked model
loading, the hand-written multipart and PNG writers of the smoke suite, the ranking and merging
services, the expiring counters behind quotas and trends, the facet keys, the model registry, the
stage resolver and the colour arithmetic. `dafny verify dfyconfig.toml` checks all of it.

## How it is organised

| file | what it models |
|---|---|
| `Wrappers.dfy`, `RealArithmetic.dfy`, `StableSort.dfy`, `Counters.dfy` | `None` and exceptions; products and quotients; Python's stable descending sort, slices and sums of ranks; Redis counters that expire, against the log of their increments |
| `Jobs.dfy`, `QueueState.dfy`, `RedisQueue.dfy` | job records; the four containers and the record store as a value, with each queue method as one step; the queue as a class updated command by command, proved against that value |
| `CommandSteps.dfy`, `JobGuarantees.dfy`, `CommandRuns.dfy`, `WorkerRuns.dfy` | the protocol at the granularity of one Redis command or one vector-store upsert: any number of requests, workers and recovery loops, any interleaving, stops anywhere; each queue method, and a worker's attempt, run alone |
| `Places.dfy`, `Claims.dfy`, `ReadyTimes.dfy`, `Attempts.dfy` | at that granularity, in how many places a job is, how often it is claimed and by whom, when it is claimed, and how its attempts are numbered: the laws, and exactly which step breaks each |
| `Interference.dfy`, `Overtaking.dfy`, `ClaimBound.dfy`, `CarefulTimes.dfy` | runs from the initial state that break those laws, and for which jobs none does |
| `Lifecycle.dfy`, `QueueGuarantees.dfy`, `Draining.dfy`, `ProductWorker.dfy` | the protocol at the granularity of one queue method with one live holder per job; the measure that makes fair runs drain; one worker attempt, and its place in the protocol |
| `Uploads.dfy`, `Facets.dfy` | the upload service with its duplicate gate and two upserts; the facet normaliser |
| `ModelCache.dfy`, `ModelRegistry.dfy`, `Stages.dfy` | double-checked loading as a thread protocol; the registry of model versions; stage resolution and check groups |
| `Multipart.dfy`, `MultipartNames.dfy`, `Canvas.dfy`, `Png.dfy` | the multipart encoder with an RFC 7578 / RFC 2046 reader, and the names that reader gets back; the raster; the PNG writer with an RFC 2083 reader |
| `Reranker.dfy`, `DuplicateDecision.dfy`, `Catalog.dfy`, `CatalogMerge.dfy`, `TextAttributes.dfy` | reranking; the duplicate decision; merging attributes and tags; keyword search in product text |
| `Analytics.dfy`, `Latency.dfy`, `Quota.dfy`, `SubjectColor.dfy` | trends and usage from daily buckets; the average latency; per-tenant quotas; backdrop, dominant colour, brightness, hue naming and resizing |

Services the platform calls (checksums, image processing, embedding, catalog enrichment, duplicate
retrieval, the cross-encoder, the similarity scorer, zlib and CRC-32, MIME guessing, character
tables) are function parameters, so a theorem holds whatever they compute; where a property of one
is needed it is a named premise (`Lossless`, `Squashes`, `ValidTables`, `KeepsId`). The clock is part
of the state and does not run backwards. A failure of Redis or of a process is a stop at that step.

## What does not hold of the code

Each of these has a lemma that shows it, and beside it the exact statement that does hold.

* A job can be lost by a stop between two commands of one handoff (`Interference.HandoffStopLoses`);
  that is the only way (`CommandSteps.LostExactlyByHandoffStop`). README.md:323 of the repository names
  `BRPOPLPUSH` for this handoff; the code issues `LPOP` and later `HSET`
  (backend/app/queue/redis_queue.py:108 and 117), and the model follows the code.
* One command at a time, an id can be in the pending list any number of times
  (`Interference.ManyPromotions`). The code does not look at the reply of the ZREM of a promotion
  (backend/app/queue/redis_queue.py:218) or of the HDEL at the head of `retry` (line 129). An id
  that is in one place at most stays so if and only if no such removal misses while the id is
  somewhere else (`Places.OnePlaceLostExactly`, `Places.OnePlaceExactly`); if every removal hits, it
  always does (`Places.HitsKeepOnePlace`), and in any run it is in at most one place more than
  removals have missed (`Places.PlacesBounded`).
* A slow worker's job can be scheduled again under it (`Interference.SlowWorkerIsRecovered`). So the
  bound of `maxRetries + 1` claims does not hold one command at a time: racing promotions break it
  without any sweep (`Interference.RacesClaimOften`), and slow workers break it while every removal hits
  (`Interference.SlowWorkersClaimOften`). It holds in every run exactly for jobs with no retries
  allowed (`ClaimBound.BoundHoldsExactly`), and for every job in runs in which promotions find what
  they promote and sweeps take only jobs in processing that no actor still has in memory
  (`Claims.ClaimsBounded`). A job gets a second holder exactly by a GET of its record while another
  actor carries it (`Claims.OneCarrierLostExactly`, `Claims.OneCarrierExactly`).
* A job can be claimed before its ready-at, even in such a careful run without sweeps in which every
  removal hits (`Overtaking.CarefulRunsClaimEarly`): one worker reads the due set, another takes the
  job, fails and schedules it anew, and the first one's ZREM removes the new entry. What is lost is
  lost exactly by a ZREM of an entry whose time has not come (`ReadyTimes.TimelyLostExactly`,
  `ReadyTimes.TimelyExactly`); if every ZREM removes a due entry and every HDEL of `retry` hits, no claim
  is early (`ReadyTimes.PunctualNeverEarly`). Every run waits for the ready-at exactly if the job is
  never retried or the delay is not positive (`ClaimBound.ReadyAtHoldsExactly`), and every careful run
  exactly if it may be retried once at most or the delay is not positive
  (`CarefulTimes.CarefulOnTimeExactly`).
* An attempt number can stand twice in a retry history (`Overtaking.AttemptNumberRepeats`): a slow worker
  completes a job that a sweep has scheduled again, and the next worker is given the COMPLETED record.
  That is exactly what spoils the numbering (`Attempts.NumberingLostExactly`,
  `Attempts.NumberedExactly`), and it does not happen in careful runs
  (`Attempts.CarefulAttemptsIncrease`).
* So `QueueGuarantees.OneHome`, `StatusTellsHome`, `RetriesBounded`, `AttemptsIncrease`, `NeverPoppedEarly`
  and `WorkerHoldsTheRecord` are about atomic queue methods with one live holder per job, as `Lifecycle`
  has them. The results about loss and convergence need neither.
* In BLOCK mode a retry can be refused by the product's own first record
  (`Uploads.BlockModeCanBlockItself`). When exactly a retry gets through, and that it then converges, is
  `Uploads.RetriesConverge`. A job that has completed has converged in every mode.
* A model can be handed out before its warm-up has run, although the comment in `get_model` says
  otherwise: exactly while the loading thread is at it (`ModelCaches.EarlyHandoutExactly`,
  `ModelCaches.EarlyHandoutHappens`).
* A quota ordinal can repeat: ordinals of a key are distinct in every run whose increments of it take effect
  within a horizon from the start of the window if and only if the horizon is at most the time to
  live (`Quotas.DistinctExactly`), two days for the day's counter and two minutes for the minute's.
  Likewise the days whose buckets are sure to be complete are exactly the retained ones
  (`Analytics.RetainedExactly`).
* A multipart body is read back as written if and only if no content hides a delimiter
  (`Multipart.RoundTrip`); a PNG if and only if its sides and compressed size fit the format
  (`Pngs.RoundTrip`).
* The rank movements of a full reranking cancel out exactly when no product id repeats in the pool
  (`Rerankers.MovementsShowRepeatedIds`).
* `DuplicateDecision` documents `confidence` as 0 when no candidate cleared the threshold
  (backend/app/models/duplicate_decision.py); the code reports the best similarity either way, and so
  does `DuplicateDecisions.DecisionMeans`.
* The name and file name of a part are read back if and only if they hold no quote and no line end
  (`MultipartNames.ReadBackExactly`), because the encoder writes them as they are.
* A failure between the two commands of `record_latency` leaves seconds without their sample, so the average
  latency is too high; it is right exactly if there is no sample, or none that took any time was cut there
  (`Latencies.AverageExactly`).
* An attribute prediction named `confidence` that reaches the threshold makes the merge fail, since
  the result is built with that keyword twice (`CatalogMerges.MergeAttributes`). The extractors of the
  repository use other names only, so its own callers do not send one.

## Model

| member | source | states |
|---|---|---|
| JobGuarantees.NoJobLost | backend/app/queue/redis_queue.py:96-219 | in every interleaving of commands, with stops anywhere but inside a handoff, every job ever pushed is in a container, held by an actor mid-handoff, or has completed |
| CommandSteps.LostExactlyByHandoffStop | backend/app/queue/redis_queue.py:106-162 | a step leaves a job unaccounted for if and only if it stops the one actor that holds it while no container does |
| JobGuarantees.DequeueFindsRecord | backend/app/queue/redis_queue.py:106-115 | an id taken from the pending list has its record in every run, and the record is the work that was submitted |
| JobGuarantees.CompletedJobsConverge | backend/app/workers/product_worker.py:132-148 | once a job has completed, after any stops, retries and simultaneous holders, both collections hold exactly its fault-free records |
| JobGuarantees.OtherProductsUntouched | backend/app/services/product_service.py:313-389 | in every run a submitted product has no record or its fault-free ones, and no other product's record ever changes |
| CommandRuns.EnqueueAlone | backend/app/queue/redis_queue.py:96-104 | the commands of `enqueue` without interference are the one-step meaning of it |
| CommandRuns.DequeueAlone | backend/app/queue/redis_queue.py:106-122 | the commands of `dequeue`, promotion included, without interference are the one-step meaning of it |
| CommandRuns.RetryAlone | backend/app/queue/redis_queue.py:128-162 | the commands of `retry` without interference are the one-step meaning of it, into the dead-letter list or the delayed set |
| CommandRuns.SweepAlone | backend/app/queue/redis_queue.py:180-207 | the commands of a recovery sweep without interference are the one-step meaning of it |
| WorkerRuns.SuccessAlone | backend/app/workers/product_worker.py:132-198 | the commands of an attempt whose upload succeeds, without interference, leave queue and collections as one successful attempt of the worker does |
| WorkerRuns.FailureAlone | backend/app/workers/product_worker.py:132-223 | the commands of an attempt whose upload fails, without interference, leave the queue as one failed attempt of the worker does, and the collections as they were |
| Interference.HandoffStopLoses | backend/app/queue/redis_queue.py:108-117 | a run from the initial state in which a worker stops between LPOP and HSET and a pushed job is nowhere |
| Places.PlacesStep | backend/app/queue/redis_queue.py:96-219 | a command adds a place for a job exactly when it submits it or takes it from a container that does not have it, and then one |
| Places.OnePlaceLostExactly | backend/app/queue/redis_queue.py:128-219 | a job in one place at most stays so, unless a ZREM or HDEL whose reply is ignored misses it while it is in a container or another actor's hands, and then it does not |
| Places.OnePlaceExactly | backend/app/queue/redis_queue.py:128-219 | all along a run every job is in one place at most if and only if no removal misses an id that is elsewhere |
| Places.HitsKeepOnePlace | backend/app/queue/redis_queue.py:128-219 | in every run in which each ZREM and HDEL removes something no job is twice in a container, in two containers, or in a container and in an actor's hands |
| Places.PlacesBounded | backend/app/queue/redis_queue.py:96-219 | in every run a job is in at most one place more than removals of it have missed |
| Claims.ClaimsBounded | backend/app/queue/redis_queue.py:106-207 | one command at a time, a job is claimed at most `maxRetries + 1` times and has one holder in every run whose promotions and sweeps find it where they take it and in nobody's memory |
| Claims.OneCarrierLostExactly | backend/app/queue/redis_queue.py:106-207 | a job in one actor's memory at most stays so, unless a GET reads its record while another actor carries it, and then it does not |
| Claims.OneCarrierExactly | backend/app/queue/redis_queue.py:106-207 | all along a run a job has one holder at most if and only if no GET reads its record while another actor carries it |
| ClaimBound.ClaimedOnce | backend/app/queue/redis_queue.py:128-162 | a job that allows no retry is claimed at most once, whatever interferes |
| ClaimBound.BoundHoldsExactly | backend/app/queue/redis_queue.py:106-207 | every run keeps a job within `maxRetries + 1` claims if and only if it allows no retry |
| ClaimBound.ReadyAtHoldsExactly | backend/app/queue/redis_queue.py:148-162 | no run claims a job before the ready-at last scheduled for it if and only if it is never retried or the delay is not positive |
| CarefulTimes.CarefulOnTimeExactly | backend/app/queue/redis_queue.py:148-219 | no run that is careful about a job does so if and only if it may be retried once at most or the delay is not positive |
| ReadyTimes.TimelyLostExactly | backend/app/queue/redis_queue.py:213-219 | a job outside the delayed set is past its last ready-at, until a ZREM removes an entry whose time has not come |
| ReadyTimes.TimelyExactly | backend/app/queue/redis_queue.py:213-219 | that holds all along a run if and only if no ZREM in it removes such an entry |
| ReadyTimes.PunctualNeverEarly | backend/app/queue/redis_queue.py:128-219 | in a run whose ZREMs of a job remove due entries and whose HDELs of it in `retry` hit no claim is before the ready-at |
| Overtaking.CarefulRunsClaimEarly | backend/app/queue/redis_queue.py:213-219 | for a job that may be retried twice, where retries are delayed, a careful run from the initial state, without sweeps and with every removal hitting, that claims it before its ready-at |
| Overtaking.RunsClaimEarly | backend/app/queue/redis_queue.py:164-219 | for any job that may be retried, where retries are delayed, a run from the initial state with every removal hitting that claims it before its ready-at |
| Attempts.NumberRepeatsExactly | backend/app/workers/product_worker.py:174-223 | the attempt a worker makes of a record repeats a number in its history if and only if the record says COMPLETED |
| Attempts.NumberingLostExactly | backend/app/workers/product_worker.py:104-223 | every copy of a job has rising attempt numbers, until a worker is given its COMPLETED record |
| Attempts.NumberedExactly | backend/app/workers/product_worker.py:104-223 | that holds all along a run if and only if no worker in it is given the COMPLETED record |
| Attempts.CarefulAttemptsIncrease | backend/app/workers/product_worker.py:104-223 | one command at a time, attempt numbers rise in every run that is careful about the job |
| Overtaking.AttemptNumberRepeats | backend/app/workers/product_worker.py:174-223 | a run from the initial state, with every removal hitting, after which a stored history shows one attempt number twice |
| Interference.ManyPromotions | backend/app/queue/redis_queue.py:213-219 | runs from the initial state in which workers that read the same due set put one id into the pending list any number of times |
| Interference.RacesClaimOften | backend/app/queue/redis_queue.py:213-219 | and then claim it as often, with no sweep in the run |
| Interference.SlowWorkerIsRecovered | backend/app/queue/redis_queue.py:180-207 | a run from the initial state in which a sweep schedules a live worker's job again, although every removal hits |
| Interference.SlowWorkersClaimOften | backend/app/queue/redis_queue.py:164-211 | runs in which a slow worker's save makes the record forget the sweep's retry, so that the job is claimed any number of times |
| QueueGuarantees.OneHome | backend/app/queue/redis_queue.py:96-162 | with atomic methods and one live holder the containers are duplicate-free and disjoint, and a job in none of them has completed |
| QueueGuarantees.StatusTellsHome | backend/app/queue/redis_queue.py:96-162 | with atomic methods and one live holder the stored status and the container a job is in determine each other |
| QueueGuarantees.RetriesBounded | backend/app/queue/redis_queue.py:128-162 | with atomic methods and one live holder at most `maxRetries + 1` dequeues, dead-lettered exactly one retry past the bound, and the backoff scheduled is that of at most `maxRetries` retries |
| Lifecycle.GeometricSum | backend/app/queue/redis_queue.py:148-162 | the backoffs of the first r retries add up to `base * (2^r - 1)` |
| QueueGuarantees.AttemptsIncrease | backend/app/workers/product_worker.py:174-223 | with atomic methods and one live holder attempt numbers in the retry history strictly increase and never exceed the number of dequeues |
| QueueGuarantees.NeverPoppedEarly | backend/app/queue/redis_queue.py:106-122 | with an atomic `dequeue` a job is not handed out before the ready-at its last retry scheduled |
| QueueGuarantees.ProductIndexResolves | backend/app/queue/redis_queue.py:171-173 | the product index finds the record the job id finds |
| QueueGuarantees.WorkerHoldsTheRecord | backend/app/workers/product_worker.py:104-148 | with atomic methods and one live holder the job a busy worker has in memory is the stored record |
| Lifecycle.InvStep | backend/app/queue/redis_queue.py:96-219 | every queue method, report, completion, failure, crash, sweep and tick keeps the protocol invariant |
| Lifecycle.SweepIsRecover | backend/app/queue/redis_queue.py:180-207 | a sweep of the protocol recovers the ids it lists in their order, and leaves what workers hold alone |
| Draining.MeasureStep | backend/app/queue/redis_queue.py:106-207 | no step but a submission raises the measure over all jobs, and each move of a job lowers it |
| Draining.MovesBounded | backend/app/queue/redis_queue.py:106-207 | without submissions a run makes no more moves than the measure it starts from |
| Draining.FairRoundsDrain | backend/app/workers/worker_manager.py:90-132 | a run of as many rounds as the load at the start ends drained, if in each round every live worker gets a turn and, once all is due or stale, somebody polls and a sweep runs |
| Draining.RoundExists | backend/app/workers/worker_manager.py:90-132 | from every state such a round can be run |
| Draining.QueueDrains | backend/app/workers/worker_manager.py:90-132 | so some continuation without submissions ends with every job completed and acknowledged, or dead-lettered |
| Draining.DrainedMeansDone | backend/app/workers/product_worker.py:174-223 | in a drained queue every record is COMPLETED, or FAILED in the dead-letter list with its retries used up |
| Draining.DrainedIffZero | backend/app/queue/redis_queue.py:96-207 | the measure is zero exactly when the queue is drained |
| RedisQueues.RedisQueue.SaveRecord | backend/app/queue/redis_queue.py:209-211 | the record and the product index are written together and nothing else changes |
| RedisQueues.RedisQueue.Enqueue | backend/app/queue/redis_queue.py:96-104 | the record is stored under its id and its product, and the id goes behind all that wait |
| RedisQueues.RedisQueue.PromoteDueDelayedJobs | backend/app/queue/redis_queue.py:213-219 | exactly the ids whose ready-at has come leave the delayed set and go behind all that wait, earliest ready-at first and equal ones by id |
| RedisQueues.RedisQueue.Get | backend/app/queue/redis_queue.py:167-169 | a fresh in-memory copy of the stored record, or nothing |
| RedisQueues.RedisQueue.GetByProductId | backend/app/queue/redis_queue.py:171-173 | the record the product index points to, or nothing |
| RedisQueues.RedisQueue.Dequeue | backend/app/queue/redis_queue.py:106-122 | what is handed out is the longest waiting id, or if none waits the due one with the earliest ready-at; it is RUNNING and stamped in processing, and nothing is handed out exactly if there is none or its record is missing |
| RedisQueues.RedisQueue.Ack | backend/app/queue/redis_queue.py:124-126 | only the processing entry of the job goes |
| RedisQueues.RedisQueue.Retry | backend/app/queue/redis_queue.py:128-162 | on both branches the counts, the status, the error, the doubled delay and the container of the job afterwards, and the queue as the one-step `Retry` leaves it |
| RedisQueues.RedisQueue.Update | backend/app/queue/redis_queue.py:164-165 | the record is replaced and no container changes |
| RedisQueues.RedisQueue.RequeueStaleJobs | backend/app/queue/redis_queue.py:180-207 | a job claimed less than `older` seconds ago keeps its entry, its record and its place; every other one leaves processing and is scheduled, dead-lettered or, without a record, dropped; the count is of the latter that had a record |
| QueueState.OrderUnique | backend/app/queue/redis_queue.py:213-219 | the order of a sorted-set range is determined by its members and their scores |
| ProductWorkers.ProductWorker.ReportProgress | backend/app/workers/product_worker.py:168-172 | the job shows the checkpoint and its record is saved |
| ProductWorkers.ProductWorker.Complete | backend/app/workers/product_worker.py:174-198 | COMPLETED at 100 without an error, one successful attempt more in the history, the record saved and the processing entry gone |
| ProductWorkers.ProductWorker.Fail | backend/app/workers/product_worker.py:200-223 | one failed attempt more in the history with its error, one retry more, the record saved and the job retried |
| ProductWorkers.ProductWorker.ProcessOne | backend/app/workers/product_worker.py:104-148 | queue and store after an attempt, for an empty queue, an unreadable payload, a failed and a successful upload |
| ProductWorkers.SuccessIsARun | backend/app/workers/product_worker.py:104-198 | a successful attempt leaves the queue as three reports, a completion and an acknowledgement of the protocol do |
| ProductWorkers.FailureIsARun | backend/app/workers/product_worker.py:104-223 | a failed attempt leaves the queue as two reports and a failure of the protocol do |
| ProductWorkers.BadPayloadIsARun | backend/app/workers/product_worker.py:135-146 | an attempt at an unreadable payload leaves the queue as one report and a failure of the protocol do |
| ProductWorkers.AttemptIsARun | backend/app/workers/product_worker.py:104-223 | with the dequeue in front, a successful or failed attempt of a free worker is that run of the protocol, from the queue before to the queue after |
| Uploads.ProductService.ProcessUpload | backend/app/services/product_service.py:189-394 | on success the image collection holds the embedding of the processed image and the text collection that of the product text, each with the submitted fields and the catalog result; otherwise the error of the first thing to fail; nothing under other ids touched |
| Uploads.TargetExactly | backend/app/services/product_service.py:225-389 | two records are what a fault-free upload writes if and only if each is the embedding and the metadata the submitted fields, the catalog result and the stored file call for |
| Uploads.TextIsSentences | backend/app/utils/text.py:40-44 | the text embedded is the stripped name, brand, category and description that are there, with a full stop and a blank between them |
| Uploads.PrepareIsTarget | backend/app/services/product_service.py:225-389 | an attempt that reaches its writes writes the fault-free records, whatever the mode and the store |
| Uploads.RetriesConverge | backend/app/services/product_service.py:269-389 | after any interrupted attempts a further one succeeds if and only if detection is off, or answers, and in BLOCK mode answers no, and it then leaves the fault-free store |
| Uploads.BlockModeCanBlockItself | backend/app/services/product_service.py:269-299 | in BLOCK mode a detector that finds the product's own first record stops every retry |
| Uploads.IngestKeysAreCanonical | backend/app/services/product_service.py:369-425 | the brand and category keys written at ingest are the normalised raw submitted values |
| Facets.NormalizeIsJoinOfRuns | backend/app/utils/facets.py:47-57 | the key is the hyphen-join of the folded alphanumeric runs, and there is none exactly when there are no runs |
| Facets.SameKeyIffSameRuns | backend/app/utils/facets.py:47-57 | two strings share a key if and only if they have the same runs |
| Facets.NormalizeIdempotent | backend/app/utils/facets.py:47-57 | a key is its own key |
| Facets.StripThenNormalize | backend/app/utils/facets.py:47-57 | stripping a value first does not change its key |
| Facets.AsciiTablesValid | backend/app/utils/facets.py:47-57 | the ASCII tables satisfy what the theorems ask of character tables |
| ModelCaches.OneLoadOneWarmup | backend/app/services/model_manager_cross_encoder.py:62-94 | in every run a name is loaded at most once successfully and warmed up at most once |
| ModelCaches.SameInstance | backend/app/services/model_manager_cross_encoder.py:62-94 | all callers of a name get the instance its only load made |
| ModelCaches.CacheOnlyGrows | backend/app/services/model_manager_cross_encoder.py:62-94 | a cache entry is never removed or replaced |
| ModelCaches.FailedLoadLeavesNoTrace | backend/app/services/model_manager_cross_encoder.py:70-82 | a failed load leaves the cache and the other threads as they were and the lock free |
| ModelCaches.EarlyHandoutExactly | backend/app/services/model_manager_cross_encoder.py:64-92 | the unlocked look hands a model out before its warm-up if and only if some thread is warming it just then |
| ModelCaches.EarlyHandoutHappens | backend/app/services/model_manager_cross_encoder.py:64-92 | a run in which a second caller holds a model nobody has warmed |
| ModelCaches.LockedCallersGetItWarm | backend/app/services/model_manager_cross_encoder.py:68-94 | a caller that went through the lock gets a warmed model |
| ModelCaches.NobodyIsStuck | backend/app/services/model_manager_cross_encoder.py:62-94 | whoever is in a call can step, or waits for a thread that can |
| ModelCaches.StepsRunOut | backend/app/services/model_manager_cross_encoder.py:62-94 | every step of a call brings it nearer to its end and moves no other thread |
| ModelCaches.LoadAlone | backend/app/services/model_manager_cross_encoder.py:62-94 | a first call without interference loads, publishes, warms and returns, in that order |
| ModelCaches.ModelManager.GetModel | backend/app/services/model_manager_cross_encoder.py:62-116 | the result, the dict and the warm-ups of one call, for a hit, a load and a failed load |
| Multipart.EncodeMultipart | scripts/smoke/client.py:226-258 | the body is the framed parts of the fields with a value, then of the files, in order |
| Multipart.RoundTrip | scripts/smoke/client.py:226-258 | a reader of RFC 2046 section 5.1.1 framing recovers exactly the parts if and only if no content hides a delimiter, whatever the contents end in |
| Multipart.FreshBoundaryIsClear | scripts/smoke/client.py:231-232 | a boundary that occurs in no content hides in none |
| Multipart.FindMark | scripts/smoke/client.py:234-257 | a delimiter whose first byte does not recur in it is found exactly at the end of a text that does not contain it |
| Multipart.DecodePartBack | scripts/smoke/client.py:234-254 | name, file name, media type and content of a part are read back from its text |
| MultipartNames.ReadBackExactly | scripts/smoke/client.py:234-254 | a part the encoder writes is read back if and only if its name and file name hold no quote and no line end and its type no line end |
| Multipart.RequestRoundTrip | scripts/smoke/client.py:226-258 | from the content type and the body a receiver recovers the non-None fields and then the files with their bytes |
| Canvases.Canvas.constructor | scripts/smoke/images.py:44-49 | every pixel has the background colour |
| Canvases.Canvas.Set | scripts/smoke/images.py:51-53 | one pixel changes and no other |
| Canvases.Canvas.Rectangle | scripts/smoke/images.py:55-62 | filling rows by slice assignment changes exactly the clipped pixels of the rectangle, for any coordinates |
| Canvases.Canvas.FillEllipse | scripts/smoke/images.py:64-73 | exactly the clipped pixels in the ellipse change, for any coordinates |
| Canvases.CurveIsEllipse | scripts/smoke/images.py:64-73 | a point is in the curve if and only if the squares of its distances from the centre over the half axes, which are at least half a pixel, add up to at most 1 |
| Canvases.EllipseIsItsCurve | scripts/smoke/images.py:64-73 | for ordered corners the loop bounds never cut the curve |
| Canvases.EllipseSymmetric | scripts/smoke/images.py:64-73 | an ellipse is its own mirror image in both axes |
| Canvases.Canvas.Draw | scripts/smoke/images.py:36-73 | after any sequence of calls the buffer has its length and shows the painter's model |
| Canvases.TopmostStrokeShows | scripts/smoke/images.py:55-73 | a point shows the last stroke that covers it, or the background |
| Pngs.ToPng | scripts/smoke/images.py:75-110 | the bytes are the signature and the three chunks over the scanlines, and a number too large for its field is an error |
| Pngs.ChunkOf | scripts/smoke/images.py:113-120 | length, type, data and check word, and an error exactly for data of 2^32 bytes or more |
| Pngs.RoundTrip | scripts/smoke/images.py:75-120 | a reader of RFC 2083 chunks and filter type 0 gets the same width, height and pixel grid if and only if the sides and the compressed size fit the format |
| Rerankers.PrefixOfStableOrder | backend/app/services/reranker_service.py:91-150 | the result shows a front part of the only stable descending order of the pool, each with its scores, ranks and movement |
| Rerankers.OnlyFromPool | backend/app/services/reranker_service.py:91-150 | every result is a different candidate of the first `top_n`, with its own id, score and metadata |
| Rerankers.BestAreKept | backend/app/services/reranker_service.py:133-150 | scores do not increase along the result and no cut candidate scores above a kept one |
| Rerankers.RerankOutcome | backend/app/services/reranker_service.py:91-150 | the query is paired with the text of each of the first `top_n` candidates; nothing to rank is an empty result, a failing model and a wrong number of scores are errors, and anything else is a result |
| Rerankers.MovementsNeverNegative | backend/app/services/reranker_service.py:133-187 | the rank movements of the survivors never add up to less than zero |
| Rerankers.MovementsCancelExactly | backend/app/services/reranker_service.py:133-187 | with distinct ids they add up to zero exactly when the survivors are the head of the pool in some order |
| Rerankers.MovementsShowRepeatedIds | backend/app/services/reranker_service.py:133-187 | with nothing cut they add up to zero exactly when no id repeats |
| StableSort.RankingUnique | backend/app/services/reranker_service.py:136-137 | the keys determine the stable descending order |
| StableSort.TakeIsFront | backend/app/services/reranker_service.py:91-150 | a slice is a front part of the given length, or all but the last of a negative one |
| StableSort.LeastSum | backend/app/services/reranker_service.py:166-176 | k distinct positions add up to at least 0 + ... + (k - 1), with equality exactly for the first k |
| DuplicateDecisions.SurvivorsAreRetrieved | backend/app/services/duplicate/duplicate_detection_service.py:317-332 | every reranked id is found among the retrieved candidates |
| DuplicateDecisions.OnlyTextScoresChange | backend/app/services/duplicate/duplicate_detection_service.py:317-332 | substitution changes nothing but text scores, in the reranked order |
| DuplicateDecisions.DecisionMeans | backend/app/services/duplicate/duplicate_detection_service.py:335-368 | duplicate if and only if some candidate reaches the threshold, confidence the maximum, match the earliest candidate that attains it |
| DuplicateDecisions.TopCandidatesAreRanked | backend/app/services/duplicate/duplicate_detection_service.py:335-381 | every result is listed once, flattened, in the only stable descending order |
| DuplicateDecisions.FlattenedScores | backend/app/services/duplicate/duplicate_detection_service.py:371-381 | a flattened candidate shows the score of the last signal of each kind, 0 for a missing one |
| DuplicateDecisions.ThresholdMonotone | backend/app/services/duplicate/duplicate_detection_service.py:335-368 | raising the threshold can only withdraw the verdict, and leaves confidence and ranking alone |
| DuplicateDecisions.DetectionMeans | backend/app/services/duplicate/duplicate_detection_service.py:166-184 | with reranking and candidates a detection fails exactly as the reranker does, and else decides on the survivors with their new text scores, place by place; without, on the candidates as retrieved |
| DuplicateDecisions.MatchWasRetrieved | backend/app/services/duplicate/duplicate_detection_service.py:166-193 | a match is a retrieved product at or above the threshold, reranked or not |
| CatalogMerges.MergeAttributes | backend/app/services/catalog/catalog_intelligence_service.py:204-250 | which fields are set, each from the first of the most confident predictions, the mean confidence, conflicts and attributes counted, and when the merge fails |
| CatalogMerges.ResolvedMeans | backend/app/services/catalog/catalog_intelligence_service.py:217-242 | an attribute resolves if and only if some prediction reaches the threshold, and then to a winner's value |
| CatalogMerges.ConflictMeansDisputed | backend/app/services/catalog/catalog_intelligence_service.py:223-226 | a conflict is counted exactly for an attribute with two different values |
| CatalogMerges.ClampIsIdle | backend/app/services/catalog/catalog_intelligence_service.py:273-290 | for whatever a merge yields the clamp does nothing when the non-negative weights sum to at most 1 |
| CatalogMerges.ClampIdleExactly | backend/app/services/catalog/catalog_intelligence_service.py:285-290 | over all scores the clamp does nothing if and only if the non-negative weights sum to at most 1 |
| CatalogMerges.EachByItsWeight | backend/app/services/catalog/catalog_intelligence_service.py:285-289 | the score before the clamp is linear, and each of its parts counts by its own weight |
| CatalogMerges.SharesMean | backend/app/services/catalog/catalog_intelligence_service.py:276-283 | completeness is the share of the fields that are set, consistency that of the considered attributes without a conflict, 1 if none is considered |
| CatalogMerges.ScoreClamped | backend/app/services/catalog/catalog_intelligence_service.py:285-290 | the quality score is the weighted sum where that is between 0 and 1, and else the nearer end |
| CatalogMerges.MergeTags | backend/app/services/catalog/catalog_intelligence_service.py:252-271 | the merged tags, sorted stably by confidence and cut |
| CatalogMerges.MergedExactly | backend/app/services/catalog/catalog_intelligence_service.py:254-268 | the merged tags are exactly the merges by key: highest confidence, at or above the threshold, hybrid if sources differ |
| CatalogMerges.MergeIgnoresOrder | backend/app/services/catalog/catalog_intelligence_service.py:254-268 | which merged tags there are does not depend on the order or number of the input tags |
| CatalogMerges.BestTagsKept | backend/app/services/catalog/catalog_intelligence_service.py:252-271 | distinct keys, most confident first, at most `max_tags`, and no qualifying tag left out that is more confident than one kept |
| TextAttributes.FindFirstKeyword | backend/app/services/catalog/text_attribute_service.py:236-254 | the value of the keyword with the earliest whole-word match, ties to the first in the table, none if none matches |
| TextAttributes.WordAtMeans | backend/app/services/catalog/text_attribute_service.py:236-254 | a keyword matches at a place if and only if its characters stand there with no word character on either side |
| TextAttributes.FindAllKeywords | backend/app/services/catalog/text_attribute_service.py:257-270 | exactly the values with a matching keyword, each once |
| TextAttributes.CombinedIsSpaced | backend/app/services/catalog/text_attribute_service.py:289-291 | the text searched is the name, the category and the description that are not empty, in this order with one blank between them |
| TextAttributes.ExtractAttributes | backend/app/services/catalog/text_attribute_service.py:276-325 | submitted fields trusted, the rest from the first match of each table, in order |
| TextAttributes.ExtractedExactly | backend/app/services/catalog/text_attribute_service.py:276-325 | a prediction is extracted if and only if it is the submitted brand or category at full confidence, or the value of the keyword that wins in its table |
| TextAttributes.GenerateTags | backend/app/services/catalog/text_attribute_service.py:327-377 | the tags of the listed items: one per key, with the confidence of the first item that has it |
| TextAttributes.TagList.Add | backend/app/services/catalog/text_attribute_service.py:347-356 | a value whose key has been seen adds nothing, any other adds its tag |
| TextAttributes.EveryAttributeIsTagged | backend/app/services/catalog/text_attribute_service.py:344-377 | tags are pairwise distinct and include every extracted attribute value |
| TextAttributes.TagsExactly | backend/app/services/catalog/text_attribute_service.py:344-377 | a key is a tag if and only if an extracted attribute, a match of a tagged table or a descriptor in the text gives it |
| Analytics.AnalyticsRepository.RecordEvent | backend/app/repositories/analytics_repository.py:49-56 | the bucket and the log grow by one unless a fault comes first, no other bucket changes, and nothing is raised |
| Analytics.Usage | backend/app/services/analytics/analytics_engine.py:50-65 | over days within the retention, the number of events of a kind recorded for them |
| Analytics.Trend | backend/app/services/analytics/analytics_engine.py:116-146 | the windows start a day, a week or 30 days apart, the newest ends on the end date, and each point is the total of its window, oldest first |
| Analytics.WindowsTile | backend/app/services/analytics/analytics_engine.py:133-165 | the windows follow on from each other and are together exactly the last `periods * window_days` days |
| Analytics.TrendIsUsage | backend/app/services/analytics/analytics_engine.py:116-160 | the points of a trend add up to the usage of the same days |
| Analytics.CoarsePointIsSum | backend/app/services/analytics/analytics_engine.py:116-146 | a coarse point is the sum of the fine points it covers, a week of its seven days |
| Analytics.TrendIsLog | backend/app/repositories/analytics_repository.py:76-82 | within the retention a point is the number of events recorded for its window |
| Analytics.RetainedExactly | backend/app/repositories/analytics_repository.py:30-31 | at any time the days whose buckets are sure to hold all their events are exactly the retained ones |
| Latencies.LatencyRepository.RecordLatency | backend/app/repositories/analytics_repository.py:58-69 | sum and count of each day are those of the samples that reached them, whatever fault strikes |
| Latencies.LatencyRepository.LatencyRange | backend/app/repositories/analytics_repository.py:84-92 | the samples counted on those days, and their seconds with those of the samples cut between the two commands |
| Latencies.AverageExactly | backend/app/services/analytics/analytics_engine.py:57-58 | the average is the mean of the samples counted plus what was cut, 0 without samples; it equals that mean if and only if there are none or no sample that took any time was cut |
| Counters.CounterIsLog | backend/app/repositories/quota_repository.py:42-45 | within its time to live a counter has not expired and is the number of its increments |
| Counters.OrdinalsRise | backend/app/repositories/quota_repository.py:42-46 | increments within the time to live return rising ordinals |
| Counters.NotProlonged | backend/app/repositories/quota_repository.py:42-46 | increments do not prolong the life of a counter: it ends when the first one said |
| Quotas.QuotaRepository.Hit | backend/app/repositories/quota_repository.py:37-46 | both counts are the place of the request in the log, and no other tenant's counter changes |
| Quotas.QuotaRepository.Usage | backend/app/repositories/quota_repository.py:48-51 | the number of requests of the tenant today |
| Quotas.EnforceQuota | backend/app/dependencies/enterprise.py:92-112 | admitted if and only if there was room under both limits, 0 being no limit, and counted either way |
| Quotas.KeyOfWindow | backend/app/repositories/quota_repository.py:21-35 | a counter counts a moment if and only if it is the key of that moment |
| Quotas.DistinctOrdinals | backend/app/repositories/quota_repository.py:37-46 | whatever interleaves, two requests that bump one counter promptly get different ordinals |
| Quotas.PromptOrdinalIsPlace | backend/app/repositories/quota_repository.py:37-46 | a prompt request's ordinal is its place among all the increments of its key |
| Quotas.WindowCountsAreExact | backend/app/repositories/quota_repository.py:21-51 | a counter never expires in its own window and equals the requests counted in it |
| Quotas.NeverOverLimit | backend/app/dependencies/enterprise.py:101-112 | no run lets more prompt requests of a tenant through in a window than the limit |
| Quotas.TenantsIndependent | backend/app/repositories/quota_repository.py:37-59 | what a tenant sees of a run is what it would see of its own requests alone |
| Quotas.DistinctExactly | backend/app/repositories/quota_repository.py:37-46 | for either kind of counter, ordinals are distinct in every run whose increments take effect within a horizon if and only if the horizon is at most the time to live |
| ModelRegistries.ModelRegistry.Register | backend/app/services/model_registry.py:71-99 | refines the abstract registration, rejects a known version without any change, leaves other types alone |
| ModelRegistries.ModelRegistry.GetModel | backend/app/services/model_registry.py:117-129 | the registered version, or not found |
| ModelRegistries.ModelRegistry.GetActiveModel | backend/app/services/model_registry.py:101-115 | the one active version, or not found exactly when there is none |
| ModelRegistries.ModelRegistry.Activate | backend/app/services/model_registry.py:137-153 | refines the abstract activation, rejects an unknown version without any change, leaves other types alone |
| ModelRegistries.ModelRegistry.Deactivate | backend/app/services/model_registry.py:155-170 | refines the abstract deactivation, rejects an unknown version without any change, leaves other types alone |
| ModelRegistries.ModelRegistry.DeactivateAll | backend/app/services/model_registry.py:172-176 | every active version of the type becomes inactive and nothing else changes |
| ModelRegistries.OneActive | backend/app/services/model_registry.py:71-176 | no type has two active versions |
| ModelRegistries.NothingLost | backend/app/services/model_registry.py:71-176 | over any run no registered version is lost, renamed or otherwise changed but for its status |
| ModelRegistries.ActiveHadLastWord | backend/app/services/model_registry.py:71-176 | a version is active if and only if an accepted operation promoted it and none displaced it since |
| Stages.ResolveStages | scripts/smoke/runner.py:394-405 | terminates on any dependencies, cycles included, with exactly the stages in every set that contains the request and is closed |
| Stages.ResolvedIsReachable | scripts/smoke/runner.py:394-405 | that set is what chains of dependencies reach from the request |
| Stages.RunGroups | scripts/smoke/runner.py:195-240 | the results of the groups up to and including the first failed critical one, and whether there was one; no report exactly when a group reached before that raises |
| Stages.ReportedInOrder | scripts/smoke/runner.py:195-240 | without a stop there is one result for each check, in the order of groups and checks, with its title, name and outcome |
| Stages.GreenMeansAllPassed | scripts/smoke/runner.py:243-250 | where a run stops is determined, and the all-passed verdict means every check of every group passed |
| SubjectColors.ResizedFits | backend/app/utils/image.py:79-85 | sides stay between 1 and the limit, nothing is enlarged, and the longer side of an image that does not fit ends at the limit |
| SubjectColors.AspectKept | backend/app/utils/image.py:79-85 | an image that does not fit keeps its proportions up to the rounding of each side, which is never below 1 |
| SubjectColors.HueMetric | backend/app/utils/image.py:298-301 | hue distance is symmetric, at most 180, zero exactly up to full turns, and satisfies the triangle inequality |
| SubjectColors.NearestTurn | backend/app/utils/image.py:298-301 | it is the distance to the nearest of all the turns of the other hue |
| SubjectColors.NamedByNearestHue | backend/app/utils/image.py:284-295 | black, white and gray by lightness and saturation, and any other colour by a nearest reference hue |
| SubjectColors.SafeWithinHalf | backend/app/utils/image.py:294-295 | within half the gap to the other references a hue takes its own reference |
| SubjectColors.MarginIsTenth | backend/app/utils/image.py:180 | the border is as wide as a tenth of the side, rounded, and at least 1 |
| SubjectColors.EstimateBackground | backend/app/utils/image.py:170-194 | for red, green and blue each, the middle of that channel over exactly the border points: more than half are at most it, at least half at least it, and one has it |
| SubjectColors.BorderIsRing | backend/app/utils/image.py:182-190 | the list the medians are taken of shows each colour as often as there are border points that show it |
| SubjectColors.SurvivorsAreFar | backend/app/utils/image.py:212-220 | the survivors show each colour farther than 60 from the backdrop as often as there are points that show it, and no other |
| SubjectColors.MedianSplits | backend/app/utils/image.py:192-194 | more than half of the values are at most the median and at least half at least it |
| SubjectColors.MostCommon | backend/app/utils/image.py:255-256 | the first, by first occurrence, of the most frequent pixels |
| SubjectColors.DominantColor | backend/app/utils/image.py:229-256 | the colour most points show among those more than 60 from such a backdrop, if they are at least 2% of all, else among all points |
| SubjectColors.LumaIsWeighted | backend/app/utils/image.py:315-319 | the total luma is 0.299, 0.587 and 0.114 of the totals of red, green and blue |
| SubjectColors.BrightnessRange | backend/app/utils/image.py:315-319 | between 0 and 1, reached by all black and all white alone |

## Left out

- Worker manager bookkeeping (backend/app/workers/worker_manager.py): the stop event, the task list and sleeping between polls; what its loops do to the queue is in the protocols, where any number of workers and recovery loops may act or stop at any time.
- Timestamps, durations, metrics, logging, tracing and cache warming: no claim depends on them.
- Canvases.Canvas.Set: takes points on the canvas, the only ones its caller passes; what a slice assignment beyond the buffer would do is not modelled.
- RedisQueues.RedisQueue.RequeueStaleJobs: reads the clock once, where the code reads it again for the backoff of each job it retries; at command granularity the two are separate steps.
- At command granularity the clock reading for a processing entry is that of the HSET and the one for a ready-at that of the HDEL before it; the code takes them just before the HSET, and after the HDEL.
- QueueGuarantees.RetriesBounded: is about atomic queue methods with one live holder per job; one command at a time the bound on claims is `Claims.ClaimsBounded`.
- Draining.FairRoundsDrain: does not say when the loops of the worker manager make a round, which depends on their sleeping times.
- Text encoding: multipart names, values and contents are sequences of bytes, and UTF-8 is applied before them.
- Multipart.RequestRoundTrip: asks that names and file names hold no quote and no line end, which `MultipartNames.ReadBackExactly` shows to be necessary.
- Unicode case mapping: character tables fold one character at a time, so the final sigma rule of lower-casing is not modelled.
- Floating point: scores, weights, coordinates and hues are exact reals, and no rounding error or NaN is modelled.
- Rerankers.BestAreKept: takes the sigmoid as any strictly increasing function into (0, 1); overflow of the exponential is not modelled.
- Pngs.RoundTrip: takes zlib as a pair of functions of which one undoes the other, and reads filter type 0 only.
- Latencies.LatencyRepository.LatencyRange: does not model the expiry of the two keys, which is that of the event counts, nor samples recorded between its two reads.
- Analytics.Trend: reads an unchanging store, where the code awaits between windows and an event could be recorded meanwhile.
- ModelCaches.ModelManager.GetModel: is one call without interference; other threads are in the step machine beside it.
- Errors while a lock is released, and interrupts that are not ordinary exceptions: not modelled.
- Pillow decoding and resampling, RGB to HLS conversion, similarity scoring, vector search, fuzzy matching, embedding models: foreign code, parameters or absent.
- The whole-frame brightness fallback and orientation, aspect ratio and resolution labels in backend/app/utils/image.py: they would only add easy members.
- SubjectColors.DominantColor: says nothing about the distance from the backdrop when fewer than 2% of the pixels survive, because the code then looks at the whole frame.
- Seeding the registry from settings, listing models and `ModelInfo` metadata that no operation reads.
- HTTP routes, schemas, middleware, authentication, audit, organisations, pricing, recommendations, explanations, evaluation, the frontend, demo and seed scripts: outside the scope of the model.
