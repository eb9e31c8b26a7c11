# Verified model of the redaction service

The service takes a tax document, finds personal data on its pages with a language model, paints it
over and hands back a flat PDF. It keeps each document for less than an hour and deletes it after
download. This project models the parts of it that are hard to get right and proves what they
promise. Check it with `dafny verify dfyconfig.toml`.

## What is modelled

**The job protocol.** API requests, worker loops, the retention cleaner, crashes and restarts act on
one job row and one set of files. `JobProtocol.dfy` is a transition system with one step for every
repository call and every file write, so requests and workers interleave at each of them; submit and
finalize are split into their steps as well. `JobInvariant.dfy` proves the invariant, `JobTheorems.dfy`
what it means for whole runs, and `JobWitnesses.dfy` gives runs that show where the promises end. The
steps use the same functions that `Repository.dfy` proves its SQLite methods against, and
`DynamoRepository.dfy` proves that the table without transactions refines them.

**Detection.** `Anchoring.dfy` and `ValueAnchoring.dfy` turn a string into boxes of words, `SsnNet.dfy`
finds numbers by shape, `Merging.dfy` merges, `Layout.dfy` and `Grid.dfy` print the page for the model,
and `Detector.dfy` and `DocumentDetection.dfy` put them together. Each loop is proved equal to a
declarative specification, and the specifications compose into one coverage theorem.
`DetectionWitnesses.dfy` has a page on which a lost number goes unnoticed.

**Rendering.** `Geometry.dfy` has the rotation arithmetic of server and browser and the pixel
arithmetic, `Rendering.dfy` the painting and turning of the pages, the check of the saved file, and
why that check passes what was painted.

**The browser's batch.** `BatchScheduler.dfy` is the queue object, `BatchSystem.dfy` the asynchronous
tasks and removals around it, `BatchTheorems.dfy` what every run keeps, `BatchConservation.dfy` exactly
when a server copy is forgotten, and `BatchWitnesses.dfy` runs that forget one.
`Filenames.dfy` names the downloads.

**The evaluation corpus.** `Allocation.dfy` is the largest-remainder method, `SampleManifest.dfy` the
sample drawn with it, `Sharding.dfy` and `ShardManifest.dfy` longest-processing-time balancing with
Graham's bound.

`Sorting.dfy` (stable sorting and flattening), `Rounding.dfy`, `PageText.dfy`, `Domain.dfy` and
`Wrappers.dfy` are shared.

## Where the code does less than its documentation says

The model follows the code. The fields named here record history; no step reads them. Each property is
stated with the exact condition under which the code meets it, and each failure has a witness: a
complete run from the initial state, or a concrete page.

- *Deleted jobs leave no files* (`docs/THREAT_MODEL.md:20`). A client write that passed its status
  check before the deletion, and a worker that loses the model server, dies or crashes, can leave
  files on an expired job. `late` is set by these events and cleared by every sweep. An expired job that
  no worker holds has files if and only if it is set, and two witness runs reach that state.
- *The output is the rendering of the approved manifest.* Acceptance by every check and the counters hold
  in every run. A finalize that overlaps another one, or dies between its two writes, can store another
  manifest after the worker read the first. `history.approved` remembers the last value a client stored
  since; output and stored manifest agree if and only if that is none or an equal one.
- *A submitted document is the one that was checked.* Uploads and submits check the status first and
  write later. An upload that was overtaken by a submit replaces the document of a job that is being
  read, and a submit that rejects after another upload and submit deletes every file of a queued job.
  `history.source` remembers such a write, `stray` that one came after the job was queued, and `swapped`
  that one came between the check and the queueing of another submit. Each stored file of a live job is
  the last one stored, the claims about source and output are exact in these terms, and three witness
  runs reach the failures.
- *Clearing the batch removes every server copy* (`README.md:117-118`). A row lets go of a job that still
  exists in exactly these steps: a request of its task, or its removal, is answered with a 404, which is
  wrong when `src/taxhance_pii/service.py:282-283` answers a concurrent update of the table with
  `job_not_found`; the reply to a deletion comes when the row has another job by then, and clears that
  one's credentials unseen; or the page says that the job is gone. `BatchConservation.Forgets` names
  these steps by their guards. In every run a job that exists is held by a row if and only if no step
  forgot it, and where answers are truthful and no reply crosses, a clear that returns leaves nothing on
  the server. There is a witness run for the wrong 404 and one for the crossing reply; the second is an
  input of the queue class only, because on the page the retry buttons are disabled while a removal runs
  (`frontend/src/BatchWorkspace.tsx:323`, `frontend/src/BatchWorkspace.tsx:416`).
- *A taxpayer number that cannot be located never ships silently*
  (`src/taxhance_pii/worker/detector.py:40-42`). It does whenever any other taxpayer number is found on
  the same page. Detection refuses a document it could read if and only if some page has a lost number
  and finds none at all, in whatever order it looks; a witness page passes with a lost number.
- *Thin boxes stay visible in the check* (`src/taxhance_pii/redaction/renderer.py:127-129`). That holds
  for the thinnest allowed boxes if and only if the raster is more than 500 pixels across.

## Model

| member | source | states |
|---|---|---|
| `Repository.SqliteJobRepository.Create` | src/taxhance_pii/repository.py:106-127 | A new row is stored under its id and an existing id is refused with nothing changed |
| `Repository.SqliteJobRepository.Get` | src/taxhance_pii/repository.py:129-135 | The stored row of that id, or none |
| `Repository.SqliteJobRepository.Update` | src/taxhance_pii/repository.py:137-177 | One transaction: unknown id, refused status, or the row with the changes, a new time and the next version; no other row moves |
| `Repository.SqliteJobRepository.ClaimLocalTask` | src/taxhance_pii/repository.py:222-257 | Claims a queued row that no queued row precedes in creation time, moving exactly that row to its in-flight status; none only when nothing is queued |
| `Repository.SqliteJobRepository.RequeueInFlight` | src/taxhance_pii/repository.py:259-286 | Every interrupted row goes back to its own queue, nothing else moves, the count is exact and nothing is left in flight |
| `DynamoRepository.SameVersionSameRecord` | src/taxhance_pii/repository.py:330-355 | An item that still has the version a call read is the very record it read, which is what makes the conditional put sound |
| `DynamoRepository.NextKeepsInv` | src/taxhance_pii/repository.py:317-355 | Every create, read and put keeps the history gapless and every pending call's snapshot in it |
| `DynamoRepository.RefinesAtomicUpdate` | src/taxhance_pii/repository.py:330-355 | Each step of any interleaving is a step of the atomic table with the same reply, the guard held on the version replaced, and a conflict changes nothing |
| `DynamoRepository.HistoryIsAtomic` | src/taxhance_pii/repository.py:330-355 | In every run versions are gapless, each record is an atomic update of its predecessor and no committed record is lost |
| `JobTheorems.ExclusiveWorkers` | src/taxhance_pii/worker/main.py:107-149 | In every reachable state at most one worker holds the job, and none while it can be claimed |
| `JobTheorems.FilesAreTheLastOnesStored` | src/taxhance_pii/worker/pipeline.py:92-212 | In every run a file of a live job is there exactly when it was stored and no rejected submit deleted it since, and it has the value a client stored last, unless a worker had it since |
| `JobTheorems.CompleteMeansRendered` | src/taxhance_pii/worker/pipeline.py:159-212 | In every run a complete job's output passed every check and the counters describe it; it is there unless a rejected submit deleted it, and is the rendering of the stored document, and of the stored manifest, exactly when no client has put another value there since the worker had it |
| `JobTheorems.ResidueHasAnOwner` | src/taxhance_pii/worker/pipeline.py:219-226 | Files of a deleted or expired job: a cleanup pass still takes the row, a worker is still on the job and ends by deleting its files or by releasing it, or the history is late |
| `JobTheorems.ExpiredResidueIsExactlyLate` | src/taxhance_pii/service.py:290-324 | An expired job that no worker holds has files if and only if a late write happened after the last sweep |
| `JobTheorems.LateWorkerEndsClean` | src/taxhance_pii/worker/pipeline.py:192-226 | Once the job is gone every move of its worker lowers a measure and its last one deletes all files, unless it ends by releasing the job |
| `JobTheorems.ClaimedTaskHasItsFiles` | src/taxhance_pii/repository.py:259-286 | In every run the files of a queued or in-flight job are there exactly unless a rejected submit deleted them, and the manifests of a redaction agree with the record; without a stray write a redaction has all three files with one page count, and without a swapped one either the source is submittable |
| `JobTheorems.MismatchMeansAnotherDocument` | src/taxhance_pii/worker/pipeline.py:148-157 | The mismatch error of a redaction of a live job occurs exactly when the loaded document has another page count than the detected one, and never without a stray upload |
| `JobTheorems.ProgressIsBounded` | src/taxhance_pii/worker/pipeline.py:79-90 | In every run completed pages of a live job never pass the page count, and stay zero before it is known |
| `JobTheorems.StepsFollowTheGraph` | src/taxhance_pii/service.py:178-255 | Every step leaves the record alone or commits the next version along an edge of the status graph |
| `JobTheorems.GoneStaysGone` | src/taxhance_pii/service.py:269-324 | Deleted and expired are never left, and versions never fall |
| `JobInvariant.StepKeepsInv` | src/taxhance_pii/worker/pipeline.py:92-267 | Every step of every thread, crash and restart keeps the thread, residue and data invariants |
| `JobInvariant.RunKeepsInv` | src/taxhance_pii/worker/pipeline.py:92-267 | The invariants hold in every state of every run |
| `JobInvariant.AdvanceKeepsResidue` | src/taxhance_pii/worker/pipeline.py:192-226 | A thread step on a swept job leaves no files unless a worker will still sweep or the history becomes late |
| `JobInvariant.OnlySweepsEmpty` | src/taxhance_pii/worker/pipeline.py:192-226 | Five steps delete every file, no other step empties a job that has files, and client writes always leave one |
| `JobInvariant.AdvanceKeepsData` | src/taxhance_pii/worker/pipeline.py:92-212 | A thread step keeps the record, the files and every thread's knowledge of them consistent |
| `JobInvariant.ClaimKeepsInv` | src/taxhance_pii/repository.py:222-257 | Claiming keeps the invariants: a queued job has no other worker |
| `JobInvariant.CrashKeepsInv` | src/taxhance_pii/worker/main.py:212-245 | Losing every worker at once keeps the invariants |
| `JobInvariant.RestartKeepsInv` | src/taxhance_pii/worker/main.py:232-245 | The start-up requeue keeps the invariants |
| `JobWitnesses.UploadAfterDeletionLeavesFile` | src/taxhance_pii/service.py:269-324 | A run in which an upload overtaken by deletion and expiry leaves its file on an expired job |
| `JobWitnesses.ReleaseAfterDeletionLeavesPreview` | src/taxhance_pii/worker/main.py:97-105 | A run in which a worker that loses the model server leaves a preview on an expired job |
| `JobWitnesses.OverlappingFinalizesSplitOutputFromManifest` | src/taxhance_pii/service.py:220-267 | A run in which two overlapping finalizes complete a job whose output is not the rendering of its stored manifest |
| `JobWitnesses.StrayUploadReplacesTheDocument` | src/taxhance_pii/service.py:142-196 | A run in which an upload overtaken by a submit replaces a one-page document by a longer one while a worker reads the first |
| `JobWitnesses.LateRejectionEmptiesAQueuedJob` | src/taxhance_pii/service.py:166-176 | A run in which a delayed rejection of a file of another type, overtaken by a second upload and submit, deletes every file of a queued job |
| `JobWitnesses.RejectionUnderAnotherSubmit` | src/taxhance_pii/service.py:166-184 | A run in which a rejection between another submit's check and its queueing leaves a queued job without files |
| `BatchScheduler.BatchQueue.constructor` | frontend/src/batch.ts:100-131 | A new batch has one waiting row per file and no task |
| `BatchScheduler.BatchQueue.Restore` | frontend/src/batch.ts:100-131 | After a reload rows with a server copy wait and the others have failed |
| `BatchScheduler.BatchQueue.Pump` | frontend/src/batch.ts:196-209 | Registers waiting rows in order while a slot is free |
| `BatchScheduler.BatchQueue.Start` | frontend/src/batch.ts:161-165 | Starts and pumps; soundness of the whole queue is kept |
| `BatchScheduler.BatchQueue.Pause` | frontend/src/batch.ts:167-171 | Pauses unless cancelled; soundness is kept |
| `BatchScheduler.BatchQueue.Resume` | frontend/src/batch.ts:173-178 | Resumes and pumps; soundness is kept |
| `BatchScheduler.BatchQueue.Retry` | frontend/src/batch.ts:180-194 | Failed rows that can be retried wait again and are pumped; soundness is kept |
| `BatchScheduler.BatchQueue.Cancel` | frontend/src/batch.ts:342-356 | Waiting rows fail and nothing may start; soundness is kept |
| `BatchScheduler.BatchQueue.Finish` | frontend/src/batch.ts:203-206 | A settled task frees its slot and the queue is pumped; soundness is kept |
| `BatchScheduler.PumpFromIsSound` | frontend/src/batch.ts:196-209 | Pumping only registers waiting rows, one task each, and stops only when two are active or none is left waiting |
| `BatchScheduler.RetryKeepsSound` | frontend/src/batch.ts:180-194 | Retrying keeps at most two tasks, one per row, and leaves no slot idle |
| `BatchScheduler.FinishKeepsSound` | frontend/src/batch.ts:203-206 | Finishing keeps at most two tasks, one per row, and leaves no slot idle |
| `BatchTheorems.TaskStepIsOrderly` | frontend/src/batch.ts:219-321 | A row waits again only by pausing the queue, and an aborted task sends no upload and no submit |
| `BatchTheorems.TaskStepMindsItsJob` | frontend/src/batch.ts:219-321 | Every step of a task gives a created job a row at once, and a row keeps its job unless a request was answered with a 404 in a batch that goes on or its own deletion was taken as done; only a deletion changes what exists |
| `BatchTheorems.StepKeepsInv` | frontend/src/batch.ts:88-376 | Every interleaved step of tasks, removals, page calls and the server keeps the invariant |
| `BatchTheorems.TwoSlotsAndNoIdleRow` | frontend/src/batch.ts:196-209 | In every reachable state at most two tasks run, never two for a row, and a free slot means no row waits without a task |
| `BatchConservation.StepConserves` | frontend/src/batch.ts:211-375 | After every step of tasks, removals, page calls and the server, an existing job has its row exactly when it was just created, or had one and this step is none of those that forget it |
| `BatchConservation.NoServerCopyIsForgotten` | frontend/src/batch.ts:211-340 | In every run no two rows share a job, and a job that exists is held by a row if and only if no step of the run forgot it |
| `BatchConservation.ClearedLeavesNothing` | frontend/src/batch.ts:342-364 | When clearing returns without error no row has credentials, and every job that is left was forgotten by a step of the run |
| `BatchConservation.HonestRunsForgetNothing` | frontend/src/batch.ts:211-375 | With truthful 404s and no deletion reply that crosses another job, every job that exists is held by a row |
| `BatchConservation.HonestClearsLeaveNothing` | frontend/src/batch.ts:342-364 | And then a clear that returns without error leaves no job on the server |
| `BatchTheorems.NothingIsSentAfterCancel` | frontend/src/batch.ts:219-361 | After cancellation no upload and no submit starts in any continuation |
| `BatchWitnesses.Misleading404ForgetsACopy` | frontend/src/batch.ts:211-217 | A run in which a deletion is answered with a 404 although the job is there: clearing returns without error and the job stays |
| `BatchWitnesses.RacingRemovalForgetsACopy` | frontend/src/batch.ts:323-340 | A run in which a retry during a removal makes a row forget its new job |
| `Allocation.Allocate` | src/taxhance_pii/evaluation/corpus.py:89-112 | Refuses exactly too large a total and an empty population, otherwise returns the largest-remainder allocation; the failure error is unreachable |
| `Allocation.GrantedIsLargestRemainder` | src/taxhance_pii/evaluation/corpus.py:93-112 | The grants in order of remainder sum to the total, give each group its quota's floor or ceiling within its size, and favour larger remainders |
| `Allocation.EarlyPositionsHaveRemainder` | src/taxhance_pii/evaluation/corpus.py:95-111 | Every position the first pass of the loop grants has a fractional quota, so one pass suffices |
| `Allocation.LeftOver` | src/taxhance_pii/evaluation/corpus.py:93-95 | What the floors leave over, times the population, is the sum of the remainders |
| `SampleManifest.Group` | src/taxhance_pii/evaluation/corpus.py:122-147 | Every readable content is in exactly one group, that of its page band and text kind, once |
| `SampleManifest.ReadableHasDistinctIds` | src/taxhance_pii/evaluation/corpus.py:124-136 | Contents are taken once, so ranks that tell contents apart give distinct identifiers |
| `SampleManifest.DrawnCounts` | src/taxhance_pii/evaluation/corpus.py:152-154 | A draw has exactly count entries of the corpus and from every stratum its largest-remainder share |
| `SampleManifest.TuningTotal` | src/taxhance_pii/evaluation/corpus.py:156-182 | With distinct identifiers the marked sample has exactly as many tuning entries as the amounts sum to |
| `SampleManifest.TuningOfStratum` | src/taxhance_pii/evaluation/corpus.py:169-182 | And in every stratum exactly the stratum's amount |
| `SampleManifest.FirstOnesAreTuning` | src/taxhance_pii/evaluation/corpus.py:169-182 | With distinct identifiers an entry is for tuning exactly when fewer entries of its stratum precede it than the stratum's amount |
| `SampleManifest.BuildSample` | src/taxhance_pii/evaluation/corpus.py:115-188 | Refuses a bad split or too small a corpus, otherwise exactly count entries drawn by rank per stratum; when identifiers are distinct exactly tuning_count of them are for tuning, in each stratum its share, and there the entries of lowest rank |
| `Sharding.GrahamBound` | src/taxhance_pii/evaluation/corpus.py:211-214 | No shard has more than 4/3 - 1/(3m) times the largest load of any other assignment |
| `Sharding.ThreeOnOneShard` | src/taxhance_pii/evaluation/corpus.py:211-214 | Of more than 2m documents some three share a shard in any assignment, the pigeonhole behind the bound |
| `Sharding.Balanced` | src/taxhance_pii/evaluation/corpus.py:211-214 | Two shards differ by no more than the heavier one's last document |
| `Sharding.FirstOnesSpread` | src/taxhance_pii/evaluation/corpus.py:211-214 | The first m documents with pages go to m different shards |
| `ShardManifest.Lightest` | src/taxhance_pii/evaluation/corpus.py:212 | The first of the lightest shards |
| `ShardManifest.Shard` | src/taxhance_pii/evaluation/corpus.py:200-223 | Refuses exactly the invalid shard counts, otherwise cuts the split by longest processing time with every shard in identifier order |
| `ShardManifest.WithinFourThirdsOfAnyCut` | src/taxhance_pii/evaluation/corpus.py:200-223 | Every shard is within 4/3 - 1/(3m) of the heaviest shard of any cut of the same documents |
| `ShardManifest.ShardsAreABalancedPartition` | src/taxhance_pii/evaluation/corpus.py:211-223 | The shards are the split, nothing lost or doubled, and totals differ by at most one document of the fuller shard |
| `ShardManifest.NoShardIsEmpty` | src/taxhance_pii/evaluation/corpus.py:207-214 | Documents with pages leave no shard empty |
| `PageText.NormIgnoresSpace` | src/taxhance_pii/redaction/anchor.py:24-25 | Removing white space first does not change the normalized text |
| `Anchoring.SpellsOnce` | src/taxhance_pii/redaction/anchor.py:32-53 | From one starting word at most one run spells the target |
| `Anchoring.Exact` | src/taxhance_pii/redaction/anchor.py:32-53 | The boxes of exactly the runs that spell the target, in order of their first words |
| `Anchoring.RunIsBoxed` | src/taxhance_pii/redaction/anchor.py:32-53 | Every word of every run that spells the target is boxed |
| `Anchoring.BoxedIsRun` | src/taxhance_pii/redaction/anchor.py:32-53 | Every box is that of a word in a run that reaches the target while its words before the last one are a proper beginning |
| `Anchoring.OccurrenceSpells` | src/taxhance_pii/redaction/anchor.py:32-53 | One to twelve consecutive words whose joined text equals the target are such a run |
| `Anchoring.Fuzzy` | src/taxhance_pii/redaction/anchor.py:56-70 | The first window with the best score of at least 90, or nothing when no window scores that |
| `ValueAnchoring.FragmentsAreShorter` | src/taxhance_pii/redaction/anchor.py:81-84 | Fragments are strictly shorter than their value, so anchoring by fragments ends |
| `ValueAnchoring.AnchorValue` | src/taxhance_pii/redaction/anchor.py:73-87 | Exact runs first, then the fragments, then the closest window; values of less than two characters give nothing |
| `ValueAnchoring.AnchorsAreWords` | src/taxhance_pii/redaction/anchor.py:73-87 | Only boxes of words on the page are returned |
| `ValueAnchoring.OccurrencesAreBoxed` | src/taxhance_pii/redaction/anchor.py:73-80 | Every exact occurrence is boxed word by word, and then nothing but runs that spell the value |
| `ValueAnchoring.UnanchoredOccursNowhere` | src/taxhance_pii/redaction/anchor.py:73-87 | A value with no boxes occurs nowhere on the page |
| `SsnNet.SkippingLosesNothing` | src/taxhance_pii/redaction/anchor.py:104-122 | Neither half of a split number is a number alone and its second half begins no other split one |
| `SsnNet.SecondHalfStartsNothing` | src/taxhance_pii/redaction/anchor.py:90-122 | No suffix of the shape cut at a hyphen is a beginning of the shape |
| `SsnNet.SafetyNet` | src/taxhance_pii/redaction/anchor.py:104-122 | One detection, in reading order, for exactly the words that are numbers or halves of one |
| `SsnNet.SensitiveIsFound` | src/taxhance_pii/redaction/anchor.py:104-122 | Every number and every half of one has its detection |
| `SsnNet.FoundIsSensitive` | src/taxhance_pii/redaction/anchor.py:104-122 | Every detection is of a number or half of one |
| `Merging.MergePageDetections` | src/taxhance_pii/redaction/anchor.py:129-157 | In sorted order each detection joins the first it overlaps or opens a new one |
| `Merging.MergePartitions` | src/taxhance_pii/redaction/anchor.py:129-157 | The input falls into groups chained by overlap and every output is the hull of one group |
| `Merging.HullContains` | src/taxhance_pii/redaction/anchor.py:145-156 | A merged detection has its members' page and category, contains their boxes and has no smaller confidence |
| `Merging.HullIsTight` | src/taxhance_pii/redaction/anchor.py:145-156 | Each side and the confidence of a merged detection is that of a member |
| `Merging.MergeCovers` | src/taxhance_pii/redaction/anchor.py:129-157 | Every input lies inside an output of its page and category |
| `Merging.MergeAddsNothing` | src/taxhance_pii/redaction/anchor.py:129-157 | Every output contains an input of its page and category |
| `Merging.MergedBoxesMayOverlap` | src/taxhance_pii/redaction/anchor.py:129-157 | Merged boxes can still overlap: three detections whose two outputs do |
| `Layout.RowsAreFaithful` | src/taxhance_pii/redaction/layout.py:23-32 | Rows cut the sorted words in order, each centre is the exact mean, and a word is in a row exactly when it was within the tolerance |
| `Layout.MeanShifts` | src/taxhance_pii/redaction/layout.py:28-29 | The running update of a centre gives the mean of the longer row |
| `Layout.RowsAreApart` | src/taxhance_pii/redaction/layout.py:23-32 | Successive row centres differ by more than the tolerance |
| `Layout.PageRowsAreApart` | src/taxhance_pii/redaction/layout.py:15-32 | On every page the centres of successive rows differ by more than the page's own tolerance |
| `Grid.GatherRows` | src/taxhance_pii/redaction/layout.py:21-32 | The row loop computes the rows of the sorted words |
| `Grid.PrintRow` | src/taxhance_pii/redaction/layout.py:40-45 | The line loop prints a row |
| `Grid.BuildGrid` | src/taxhance_pii/redaction/layout.py:15-46 | The grid of a page, empty for no words |
| `Grid.WordsStandAtTheirColumns` | src/taxhance_pii/redaction/layout.py:41-44 | Every word is on its line at its column, or to the right of it only where earlier words reach that far |
| `Grid.ReadingIsPermutation` | src/taxhance_pii/redaction/layout.py:23-41 | The reading order has every word of the page once |
| `Grid.GridIsFaithful` | src/taxhance_pii/redaction/layout.py:15-46 | Splitting the grid at white space gives the tokens of the words, in reading order |
| `Grid.WholeWords` | src/taxhance_pii/redaction/layout.py:41-44 | Words without white space come back whole |
| `Detector.PageResult.AnchorItems` | src/taxhance_pii/worker/detector.py:130-142 | Adds every item's boxes, records exactly the items with none and counts the others |
| `Detector.DetectPage` | src/taxhance_pii/worker/detector.py:144-159 | The page's outcome, read again from its image exactly when fewer than half of the items of embedded text were found |
| `DocumentDetection.FindOnPage` | src/taxhance_pii/worker/detector.py:190-200 | The page's own detections, those of every propagated value in some order, and the net's |
| `DocumentDetection.CheckUnanchored` | src/taxhance_pii/worker/detector.py:206-216 | Refuses exactly a page with a lost taxpayer number and none found |
| `DocumentDetection.TinOfPage` | src/taxhance_pii/worker/detector.py:190-216 | Whether a page finds a taxpayer number, and so whether it is refused, does not depend on the order in which it looks for the values |
| `DocumentDetection.DetectDocument` | src/taxhance_pii/worker/detector.py:174-203 | The first page that cannot be read decides; otherwise it fails if and only if some page loses a taxpayer number given the values of the whole document, and else returns the merged detections of all pages, trustworthy as below |
| `DocumentDetection.NumbersAreCovered` | src/taxhance_pii/worker/detector.py:190-203 | Every number-shaped word on every page is inside an output box of that page and category |
| `DocumentDetection.NamedValuesAreCoveredEverywhere` | src/taxhance_pii/worker/detector.py:184-203 | Every exact occurrence, on any page, of a name, number or address named on any page is inside an output box of that page and category |
| `DocumentDetection.OwnItemsAreCovered` | src/taxhance_pii/worker/detector.py:130-142 | Every exact occurrence of any item on its own page is inside an output box |
| `DocumentDetection.DetectionsAreAroundWords` | src/taxhance_pii/worker/detector.py:174-203 | Every output box is the hull of boxes of words on its page |
| `DocumentDetection.DetectionIsTrustworthy` | src/taxhance_pii/worker/detector.py:174-216 | All coverage claims together, and a page with a lost taxpayer number has another in the output |
| `DetectionWitnesses.LostNumberPassesTheCheck` | src/taxhance_pii/worker/detector.py:206-216 | A page whose second number was misread keeps it as unanchored and passes the check, because the first one was found |
| `Geometry.TurnsAct` | src/taxhance_pii/redaction/renderer.py:19-27 | Turning boxes keeps validity and is a clockwise action of the four quarter turns |
| `Geometry.DisplayedPointHitsSameBox` | frontend/src/reviewGeometry.ts:28-39 | A point of the turned page is in the turned box exactly when the point under it is in the box |
| `Geometry.UnrotationsAct` | frontend/src/reviewGeometry.ts:19-39 | Undoing turns composes like the turns |
| `Geometry.DraggedBoxIsUsable` | frontend/src/reviewGeometry.ts:9-17 | A dragged box does not depend on direction, is valid, never degenerate and within half a thousandth of the drag |
| `Geometry.CheckLooksAtPaint` | src/taxhance_pii/redaction/renderer.py:30-39 | For every raster and turn each pixel the check reads is a painted pixel turned |
| `Geometry.CheckOnAnotherRaster` | src/taxhance_pii/redaction/renderer.py:127-138 | Also on another raster, as long as it is at least a fifth as fine as the painted one |
| `Geometry.ThinBoxesNeedFiveHundred` | src/taxhance_pii/redaction/renderer.py:86-102 | No box of the allowed thinness vanishes if and only if the raster is more than 500 pixels across |
| `Geometry.NoCropIsEmpty` | src/taxhance_pii/redaction/renderer.py:134-140 | On such rasters no box that is not degenerate has an empty crop, however turned |
| `Rendering.RedactImage` | src/taxhance_pii/redaction/renderer.py:176-183 | A copy that is black under every padded box and unchanged elsewhere |
| `Rendering.Turn` | src/taxhance_pii/redaction/renderer.py:56-62 | The raster turned clockwise, pixel by pixel |
| `Rendering.RenderPages` | src/taxhance_pii/redaction/renderer.py:42-64 | Refuses an empty document, otherwise every page comes out black under its own boxes and turned, unchanged elsewhere |
| `Rendering.RenderedBoxesAreBlack` | src/taxhance_pii/redaction/renderer.py:30-62 | Whatever was on the page, every pixel the check would read of a valid box is black on the turned page |
| `Rendering.Validate` | src/taxhance_pii/redaction/renderer.py:89-147 | Accepts a file exactly when no box is degenerate, the file is a flat PDF of the expected pages and every box on them shows with 96 in 100 samples dark; otherwise names the first fault in the order of the checks |
| `Rendering.PaintedFileIsAccepted` | src/taxhance_pii/redaction/renderer.py:119-147 | The check never rejects what was painted: in a flat file whose pages show the painted pages, above 500 pixels and at least a fifth as fine, all valid boxes that are not degenerate pass, however turned |
| `Rendering.PaintedBoxMayBeRefused` | src/taxhance_pii/redaction/renderer.py:134-140 | At exactly 500 pixels a painted box that is not degenerate is refused as empty |
| `Filenames.OrdinaryNameIsKept` | frontend/src/fileSelection.ts:64-74 | A name with a directory, an ordinary stem and an extension becomes the stem with the suffix |
| `Filenames.OriginalNameIsSafe` | frontend/src/fileSelection.ts:65-74 | A derived name has no forbidden character, starts with no dot, dash or blank and is short |
| `Filenames.NumberedIsInjective` | frontend/src/fileSelection.ts:77-85 | The derived name and the count can be read back from the numbered name |
| `Filenames.NamesDiffer` | frontend/src/fileSelection.ts:77-85 | Two names of a batch differ whatever the labels |
| `Filenames.UniqueNames` | frontend/src/fileSelection.ts:77-85 | One name per label, numbered by earlier equal ones, and all different |

## Left out

- PDF and image decoding, OCR and the model server: functions and relations that the model takes as parameters; `accepts` stands for every check of a rendering, the residual number check included.
- Fuzzy string similarity: an uninterpreted score.
- Character classes: lower-casing, white space and digits are parameters with the few properties that the code relies on; Dafny characters stand for code points, so cutting a file name inside a UTF-16 pair is not modelled.
- Floating point: centres, tolerances, quotas and pixel coordinates are exact rationals or reals, with rounding written out.
- AWS claiming by lease, duplicate delivery, and a failed enqueue after a finalize: exclusivity and agreement are stated for the local runtime, where claims are transactions and enqueueing cannot fail.
- The pipeline, the service and the batch's asynchronous functions as objects: their point is interleaving, so they are transition systems over values; only the repository, the batch queue and the page objects are classes.
- Several jobs at once: the protocol is of one job, because no step reads another job's row or files.
- Deleting a prefix of files and storing one file: one step each. Reading a stored manifest together with checking that it exists: one step.
- Token checks, upload signatures beyond pass or fail, abuse limits, metrics and logging: no hard property.
- Listing and counting queries: reads that no step depends on.
- Expiry of old rows by the table itself: the cleaner's deletion and expiry are modelled, the later removal of the row is not.
- Creating a job whose response is lost before the browser learns its credentials: the browser cannot know such a job.
- A batch subscriber that calls the queue again from inside a notification: page calls happen between steps.
- Item positions of the batch: rows are named by their index.
- Parsing of the model's answer: the items that survive it are a parameter, one answer per page image and attempt.
- Identifiers of detections: the code draws them at random; the first detection that a new one overlaps is also the first one equal to it.
- Concurrency of page detection: pages are read in order, and the first one that fails decides, as it does when the results are collected.
- Compression of the saved file and the scaling of a crop to eight by eight samples: library calls. The theorem about the check is for every file whose pages show the paint and every scaling that keeps a dark crop dark.
- The file walk, hashing and timestamps of the sample: a file is its page count, its digest and its text kind, in the order of the walk.
- React views, ZIP writing and error texts: user interface.
- DocumentDetection.DetectionIsTrustworthy: says nothing of occurrences over more than twelve words, or of values with less than two normalized characters, because the code does not box them.
