# The media service's stores, uploads and blob deletions, in Dafny

The media service keeps three things in step without a shared transaction: the `media` table, the
objects in blob storage, and the table of blob-deletion tasks with its leases and exponential
backoff. This project models them and proves what survives any interleaving of uploads, deletes
and deletion workers, with any store call failing and any process stopping.

There are two models over the same statements (`Stores.dfy`, the effect of each single store call
on a value that holds both tables, the objects and the database clock):

- The interleaved model (`Protocol.dfy`): any number of uploads, delete calls and workers, one
  store call per step. An action that is not enabled changes nothing, so every sequence of actions
  is a run; a process that stops is one that is never scheduled again. `Invariant.dfy` proves the
  invariant, id by id; `Safety.dfy`, `ClaimTiming.dfy` and `Fairness.dfy` prove what always holds,
  `Reuse.dfy` and `Conflicts.dfy` when exactly what the documentation promises can fail, by some
  continuation (`Continuations.dfy`), and `Witnesses.dfy` gives such runs.
- The sequential model: whole operations as functions (`Sequential.dfy`, with `Outcomes.dfy`,
  `Listing.dfy`, `BatchDelete.dfy` and `Draining.dfy` about them) and as methods on objects that change in place
  (`Service.dfy`), each method proved against its function.

`Refinement.dfy` ties the two together: every sequential run is an interleaving, so the theorems
about interleavings hold of the methods too.

Assumptions:

- Each SQL statement is one atomic step, a statement that fails changes nothing, and `NOW()` never
  decreases from one statement to the next. For the INSERT of an upload the second assumption
  matters (`Witnesses.InsertMustNotLie`); a delete or queue statement that took effect and still
  reported an error is the same as its process stopping after it.
- A call of the object store that reports an error may have taken effect; a Put that took effect may
  even report that the object exists already. Put never replaces an object (`If-None-Match: *`,
  section 13.1.2 of RFC 9110).
- Row locks held by concurrent statements make a claim skip any set of tasks.
- What happens to a store call, the generated id, the time stamp of a new record and the content
  sniffer are parameters.

Where the code and its documentation disagree, the model follows the code:

- internal/repository/media/repository.go:60-63 says that a row never exists without its content.
  That holds for ids that have no deletion task (`Safety.RowsHaveTheirBytes`). A deleted id can be
  uploaded again while its deletion is still under way, and then a row can be created without its
  bytes or with those of another upload (`Reuse.MiscreatesIff` says exactly when,
  `Witnesses.DeletedRowMiscreates` and `Witnesses.ReusedRowHasOtherBytes` give runs), or be created properly and lose them afterwards
  (`Reuse.LosesItsBytesIff` says exactly when, `Sequential.ReuseLosesBytes` gives a run).
- internal/repository/media/repository.go:139-145 leaves an object whose direct delete fails to be
  cleaned up later, which the code does by the task enqueued at
  internal/repository/postgres/media_repository.go:113-114. A reused id is the exception again:
  `Reuse.LeaksIff` says exactly when an object can stay behind without a row and an open task,
  `Witnesses.StaleCompletionLeaks` gives a run.
- internal/application/media/errors.go:18-20 says that a media id conflict means another user's
  media. Of uploads that run one after the other it is also reported for an object without a row,
  for the caller's own row when the look-up fails, and after a Put that was lost and reports that
  the object exists (`Sequential.ConflictIff`, two inputs in
  `Sequential.ConflictWithoutForeignRow`); `Sequential.ConflictIsRightIff` says exactly when the
  report is right, and in sequential runs without failing calls it always is
  (`Sequential.ConflictMeansForeignRow`). Of uploads that overlap it is also reported, with no
  call failing, to a retry that comes between the Put and the INSERT of the first try
  (`Witnesses.OverlappingRetryConflicts`); `Conflicts.MisreportsIff` says exactly when that can
  happen.
- The top-level README.md:146-177 describes attaching, owners and soft deletes; the code has none.

## Model

| member | source | states |
|---|---|---|
| `ContentTypes.Extension` | internal/application/media/service.go:75-76 | the extension is a suffix of the name that starts at its last dot and crosses no path separator, and it is empty only if the last path element has no dot |
| `ContentTypes.FormatsMustMatch` | internal/application/media/service.go:57-95 | the whole allowlist: a file is accepted exactly if its extension is, in whatever case, one of the nine and, HEIC apart, the sniffed type starts with a family of that extension; the stored type is the extension's |
| `ContentTypes.LowersAscii` | internal/application/media/service.go:76-76 | lower-casing keeps the length, moves A to Z by 32 and leaves every other ASCII character |
| `ContentTypes.CaseDoesNotMatter` | internal/application/media/service.go:75-95 | filenames that differ only in the case of ASCII letters get the same answer |
| `Stores.NextClaim` | internal/repository/postgres/blob_deletion_repository.go:18-28 | a claim takes the least claimable task by next_attempt_at and id, and none exactly if none is claimable |
| `Stores.ClaimIsLeast` | internal/repository/postgres/blob_deletion_repository.go:18-28 | an id is claimed exactly if it is claimable, not locked, and no such id is smaller by next_attempt_at and then id |
| `Stores.BackoffIsCappedPower` | internal/repository/postgres/blob_deletion_repository.go:41-43 | each backoff is min(2^attempts, 256) minutes, the outer LEAST never matters, and from the first attempt on it is at least the lease |
| `Stores.BackoffMonotone` | internal/repository/postgres/blob_deletion_repository.go:41-43 | backoffs never shrink as attempts grow |
| `Stores.BackoffTable` | internal/domain/media/blob_deletion.go:20-20 | the lease is two minutes, and the backoffs are 1, 2, 4, 8, 16, 32, 64, 128 and then 256 minutes |
| `Invariant.ApplyKeeps` | internal/repository/media/repository.go:74-192 | every single store call of every process keeps the invariant |
| `Invariant.ReachableInv` | internal/repository/media/repository.go:74-192 | the invariant holds after every interleaving |
| `Safety.RowsHaveTheirBytes` | internal/repository/media/repository.go:74-93 | in every interleaving a row whose id has no task has its object, byte for byte what the upload that inserted the row put, as long as size_bytes |
| `Safety.DownloadReturnsTheUpload` | internal/repository/media/repository.go:107-133 | a download that finds such a row and reads the object later in the run returns exactly the bytes of the upload that inserted the row, to its owner, and not-found to anybody else |
| `Safety.RowsAreWellFormed` | internal/application/media/service.go:121-138 | every row of every reachable state has deleted_at null, a size within the limit, and the type of its filename |
| `Safety.DeleteMissesWhenGetDoes` | internal/repository/postgres/media_repository.go:112-125 | Delete, which does not look at deleted_at, misses exactly when GetByID does |
| `Safety.PutIsALock` | internal/repository/media/repository.go:75-90 | of an id without a task at most one upload is past its Put and has no row yet; it finds no row and only its own bytes, so its clean-up removes nothing else |
| `Safety.OneCreation` | internal/repository/media/repository.go:74-93 | at most one upload ever reports that it created an id without a task |
| `Safety.BlobsChangeByRole` | internal/application/media/blob_worker.go:46-46 | an object disappears only by a clean-up, a direct delete or a worker's delete of its id |
| `Safety.UploadIsIdempotent` | internal/application/media/service.go:121-155 | as long as an id is not deleted, no later activity changes its row or bytes, and every successful upload of it returns that row, all but the inserting one as already existing |
| `Safety.CompletedMeansGone` | internal/application/media/blob_worker.go:38-50 | of an id not stored again since its task was created, a completed task means the object is gone, stale workers included |
| `Safety.DeletionsAreNotLost` | internal/repository/postgres/media_repository.go:112-125 | a row that was there and is removed has its object gone or its task open, under the same guard |
| `Safety.ObjectsAreAccountedFor` | internal/repository/media/repository.go:60-93 | in every interleaving each object has a row, has an open task, was put by an upload that is past its Put or returned an error, or belongs to an id stored again after its task was created |
| `Safety.NoTaskIsStuck` | internal/repository/postgres/blob_deletion_repository.go:17-44 | a processing task has a lease, a pending one that still has one is due from its last update on, and an open task is claimable from 256 minutes after its last update |
| `Safety.FailuresChangeNothing` | internal/repository/postgres/media_repository.go:112-125 | a statement that fails changes no store, and a delete call whose statement fails removes no object |
| `Safety.ReputIff` | internal/repository/postgres/media_repository.go:112-125 | the guard of the two deletion theorems is exact: the ids for which an object was stored after their task had been created |
| `ClaimTiming.TaskStep` | internal/repository/postgres/blob_deletion_repository.go:17-44 | the only ways a task changes and what it is then: claim, completion, retry of an attempted task, delete statement |
| `ClaimTiming.ClaimableAgain` | internal/repository/postgres/blob_deletion_repository.go:17-44 | a task is claimable again exactly once its lease has run out after a claim, once min(2^attempts, 256) minutes have passed after a Retry, never after Complete, at once after a delete statement |
| `ClaimTiming.HeldOffAlong` | internal/repository/postgres/blob_deletion_repository.go:17-44 | from a claim on, no stale Complete or Retry lets the task be claimed within a lease, nor a pending one within its backoff |
| `ClaimTiming.ClaimsAreALeaseApart` | internal/repository/postgres/blob_deletion_repository.go:17-44 | two claims of a task are at least the lease apart unless a delete statement enqueued it in between |
| `ClaimTiming.RequeueCancelsLease` | internal/repository/postgres/media_repository.go:113-114 | a delete statement makes a task claimable at once, under whatever lease or backoff |
| `ClaimTiming.RetryTimetable` | internal/repository/postgres/blob_deletion_repository.go:41-44 | if attempts are recorded by Retry, the n-th claim after the first comes at least 2^(n+1)-2 minutes later, or 510+256(n-8) beyond the eighth |
| `Fairness.WorkersShareTheQueue` | internal/repository/postgres/blob_deletion_repository.go:18-44 | any number of interleaved workers, with time passing between their calls: within a lease, with no row deleted, no row lock met and earlier claimers of the ready tasks stopped, the k-th claim statement takes the k-th ready task in queue order, each is attempted exactly once and further claims find nothing, whichever deletes, Retry or Complete calls fail |
| `Fairness.WorkersDrainTheQueue` | internal/application/media/blob_worker.go:38-50 | if, besides, blob deletes and completions succeed and no ready id is stored again, every claimed task whose worker has finished is completed and its object gone, and with enough claims that is every ready task |
| `Reuse.CalmRun` | internal/repository/media/repository.go:74-192 | a row out of risk keeps its bytes through any run that does not delete it, reused id or not |
| `Reuse.ReadyTaskIsClaimed` | internal/repository/postgres/blob_deletion_repository.go:18-28 | a ready task gets a worker once others have claimed the tasks before it, with no row locked |
| `Reuse.LosesItsBytesIff` | internal/application/media/blob_worker.go:38-50 | a row can be without given bytes, its own for one, without being deleted, exactly if it is already, its id has an open task, or a worker, delete call or upload is in the middle of it |
| `Reuse.MiscreatesIff` | internal/repository/media/repository.go:60-93 | an upload about to insert its row can, after whatever else happens first, report a creation whose object is missing or another upload's, its own row not being deleted, exactly if the id has a row now, its bytes are gone already, the id has an open task, or another process is in the middle of it |
| `Reuse.LeaksIff` | internal/repository/postgres/blob_deletion_repository.go:36-39 | in every reachable state, without further uploads of the id, an object can be left with neither row nor open task exactly if it is already, an upload of the id has yet to Put, or the object is there while a worker has yet to record an earlier deletion |
| `Conflicts.MisreportsIff` | internal/application/media/service.go:138-154 | overlapping uploads: an upload with a client id that has yet to Put, and whose Put and look-up succeed, can be refused for a conflict while no other user's row holds the id exactly if, with no deletes, the id has no row and an object or another upload that Puts first, and with deletes, it has a row, an object or another upload that Puts or inserts first |
| `Conflicts.LookUpAnswers` | internal/application/media/service.go:142-152 | the look-up of an upload answers with the caller's own live row as existing, and with a conflict exactly if there is none or it fails |
| `Conflicts.RetriesSucceed` | internal/application/media/service.go:121-155 | in every interleaving, an upload of an id that its user's own row holds can only answer with that row as existing, unless the row is deleted or its own calls fail |
| `Conflicts.RetriesFinish` | internal/application/media/service.go:121-155 | and its own calls lead to that answer |
| `Witnesses.StaleCompletionLeaks` | internal/repository/postgres/blob_deletion_repository.go:36-39 | for every accepted upload there is a run that ends with its object stored, no row and a completed task |
| `Witnesses.ReusedRowHasOtherBytes` | internal/application/media/blob_worker.go:46-46 | for every two accepted uploads of a reused id there is a run that leaves the row of one with the bytes of the other, out of any risk of losing them |
| `Witnesses.DeletedRowMiscreates` | internal/repository/media/repository.go:60-93 | for every two accepted uploads of a reused id there is a run without failing calls in which the row of one is deleted and the other is created without its object |
| `Witnesses.OverlappingRetryConflicts` | internal/application/media/service.go:142-154 | for every accepted upload with a client id, a retry between its Put and INSERT is refused for a conflict though no call fails and there is one user |
| `Witnesses.InsertMustNotLie` | internal/repository/media/repository.go:82-90 | an INSERT that took effect and reported an error would leave a row without its object |
| `Listing.DistinctHasAll` | internal/application/media/service.go:27-40 | de-duplication keeps exactly the requested ids, each once |
| `Listing.DistinctInOrder` | internal/application/media/service.go:27-40 | the distinct ids are in first-seen order |
| `Listing.WalkIsExact` | internal/application/media/service.go:168-200 | a listing holds exactly the requested rows of the user, each once, in request order |
| `Listing.WalkOfDistinct` | internal/application/media/service.go:172-200 | listing the distinct ids is listing the request |
| `Sequential.CreateReports` | internal/repository/media/repository.go:74-93 | Create succeeds exactly if Put and INSERT go through on a free id, and what it leaves in rows and objects in every other case |
| `Sequential.UploadThenDownload` | internal/application/media/service.go:121-155 | what each answer of Upload means for the stores, that a new record downloads byte for byte whichever calls fail, and that an upload that created nothing leaves no object if its Put and clean-up are clean |
| `Sequential.DeleteThenGet` | internal/repository/media/repository.go:139-156 | after a delete within the cap whose statement goes through, nobody finds the row, its object is gone unless its delete was lost for good, and its task is claimable at once, with attempts, lease and user of an earlier task kept |
| `Sequential.UploadRejectsIff` | internal/application/media/service.go:121-129 | an upload is refused as too large, or else as of no accepted type, exactly if it is, and then no store changes |
| `Sequential.RunOnceOutcome` | internal/application/media/blob_worker.go:38-50 | RunOnce touches only the claimed task and its object, with the three outcomes and the resulting task of each: completed, deferred by its backoff, left under its lease |
| `Sequential.RunOnceIdles` | internal/application/media/blob_worker.go:38-45 | RunOnce changes nothing if its claim fails or no task is claimable |
| `Outcomes.AcceptedRecord` | internal/application/media/service.go:131-136 | every field of the record of an accepted file |
| `Outcomes.UploadAnswers` | internal/application/media/service.go:138-154 | every answer of an accepted upload, each with the exact condition, for every outcome of its calls: created, existing with which record, conflict, failure |
| `Outcomes.RetryReturnsTheRecord` | internal/application/media/service.go:142-150 | a clean retry of the caller's own upload returns the record as existing and changes nothing |
| `Outcomes.UploadLeavesBehind` | internal/repository/media/repository.go:74-93 | exactly what an accepted upload leaves in rows and objects, for every outcome of its calls |
| `Outcomes.DownloadAnswers` | internal/repository/media/repository.go:107-133 | when each of the three answers of a download is given: content, not found, content missing or unreadable |
| `Outcomes.DeleteOneAnswers` | internal/application/media/service.go:203-205 | Delete succeeds for the caller's own row, is not found otherwise, and fails if its statement does |
| `Outcomes.DeleteByIdsAnswers` | internal/application/media/service.go:213-223 | DeleteByIDs refuses more distinct ids than the cap, deletes nothing of an empty request, and counts the caller's rows among the ids |
| `Outcomes.DeleteAllAnswers` | internal/application/media/service.go:231-233 | DeleteAllMine counts all rows of the caller, without a cap |
| `Outcomes.DeleteLeavesBehind` | internal/repository/media/repository.go:146-192 | exactly what a delete call leaves of every id: row, object and task, hit or not, executed or not |
| `Sequential.NothingElseLeaks` | internal/repository/media/repository.go:60-93 | in every sequential run each object has a row, has an open task, or was left by an upload that returned an error |
| `Sequential.ConflictIff` | internal/application/media/service.go:138-154 | for every outcome of its calls, an upload with a client id reports a conflict exactly if Put or INSERT reports one and the look-up does not return a row of the caller |
| `Sequential.ConflictIsRightIff` | internal/application/media/service.go:138-154 | when exactly the report of an uninterrupted upload agrees with another user's row holding the id: by whose row it is, whether the calls clash and whether the look-up succeeds |
| `Sequential.CleanConflictIff` | internal/application/media/service.go:138-154 | if none of its calls fails, a conflict means another user's row or an object without a row |
| `Sequential.ConflictWithoutForeignRow` | internal/application/media/service.go:147-152 | two runs with a single user that end in a conflict: a lost Put and a clean retry, and a retry whose look-up fails |
| `Sequential.ConflictMeansForeignRow` | internal/application/media/service.go:138-154 | after any sequential run without failing calls it does so exactly if another user's row holds the id |
| `Sequential.ReuseLosesBytes` | internal/application/media/blob_worker.go:46-46 | upload, delete, upload again and one worker call leave a row without its object though no call failed |
| `BatchDelete.DeleteTouchesOnlyMatching` | internal/repository/postgres/media_repository.go:130-157 | a delete leaves row, object and task of every other id alone |
| `BatchDelete.BatchRefinesSingles` | internal/repository/media/repository.go:158-174 | DeleteByIDs within the cap equals single deletes of the ids in any order, repeated or not, and counts those that succeed |
| `BatchDelete.SweepRefinesSingles` | internal/repository/media/repository.go:176-192 | DeleteAllMine equals single deletes of all the user's ids |
| `Draining.ServeIsARun` | internal/application/media/blob_worker.go:24-36 | the polling loop is the sequential run that waits for each turn and calls RunOnce, whatever earlier calls reported |
| `Draining.IdleTurnPasses` | internal/application/media/blob_worker.go:24-36 | a turn whose claim fails or finds nothing costs its time and nothing else |
| `Draining.EachTurnClosesOne` | internal/application/media/blob_worker.go:38-50 | a successful RunOnce closes exactly one task if any is claimable |
| `Draining.ServeInOrder` | internal/repository/postgres/blob_deletion_repository.go:18-28 | RunOnce calls of which at least as many claims go through as tasks are ready serve each once, in queue order, whichever other claims fail |
| `Draining.DrainCompletesAll` | internal/application/media/blob_worker.go:38-50 | k calls whose claims go through and which then succeed complete k open tasks in queue order and remove their objects, whatever claims fail in between; another call does nothing |
| `Draining.NoStarvation` | internal/repository/postgres/blob_deletion_repository.go:18-44 | the same for one worker: within a lease, RunOnce calls of which m claims go through attempt m ready tasks once each, in queue order, whichever other claims, deletes, Retry or Complete calls fail |
| `Refinement.UploadIsARun` | internal/application/media/service.go:121-155 | the uninterrupted store calls of an upload are the sequential upload, result included |
| `Refinement.DeleteIsARun` | internal/repository/media/repository.go:146-192 | the uninterrupted store calls of a delete are the sequential delete |
| `Refinement.WorkIsARun` | internal/application/media/blob_worker.go:38-50 | the uninterrupted store calls of a worker are the sequential RunOnce |
| `Refinement.SequentialIsInterleaved` | internal/repository/media/repository.go:74-192 | every store a sequential run reaches, some interleaving reaches |
| `Refinement.SequentialRowsAreSound` | internal/repository/media/repository.go:60-93 | rows of sequential runs are live, keyed by id, within the limits and typed, and have their bytes if their ids have no task |
| `Refinement.SequentialTasksAreNotStuck` | internal/repository/postgres/blob_deletion_repository.go:18-44 | in sequential runs too, open tasks become claimable within 256 minutes and Delete misses exactly when GetByID does |
| `Service.Database.Create` | internal/repository/postgres/media_repository.go:36-53 | the INSERT adds the row or reports an id conflict |
| `Service.Database.ListByIDs` | internal/repository/postgres/media_repository.go:79-109 | exactly the live rows of the user among the ids, each once, in any order |
| `Service.Database.DeleteRows` | internal/repository/postgres/media_repository.go:112-185 | the rows are gone, their ids enqueued, and the returned ids are theirs, each once |
| `Service.Database.ClaimTask` | internal/repository/postgres/blob_deletion_repository.go:17-34 | the least claimable task that no other statement has locked is taken and leased, or nothing changes |
| `Service.Database.Complete` | internal/repository/postgres/blob_deletion_repository.go:36-39 | the task is completed whatever its status |
| `Service.Database.Retry` | internal/repository/postgres/blob_deletion_repository.go:41-44 | the task is pending again after its backoff |
| `Service.ObjectStore.Put` | internal/platform/blobstore/store.go:107-125 | an object is never replaced, and success means the content is stored |
| `Service.ObjectStore.Delete` | internal/platform/blobstore/store.go:154-165 | success means the object is gone |
| `Service.Repository.Create` | internal/repository/media/repository.go:74-93 | Put, INSERT and the compensating delete have the effect and report of the sequential create |
| `Service.Repository.GetContent` | internal/repository/media/repository.go:107-133 | metadata first, then the object, with the two kinds of failure |
| `Service.Repository.RemoveEach` | internal/repository/media/repository.go:167-171 | the loop removes exactly the objects whose deletes took effect |
| `Service.Repository.DeleteMatchingRows` | internal/repository/media/repository.go:146-192 | rows and tasks in one statement, then the objects; the count is that of the removed rows |
| `Service.DeletionWorker.RunOnce` | internal/application/media/blob_worker.go:38-50 | claim, delete, then Complete or Retry; an error exactly if a queue call failed |
| `Service.DeletionWorker.Run` | internal/application/media/blob_worker.go:24-36 | the polling loop serves its turns one after the other as time passes, going on after errors |
| `Service.Dedupe` | internal/application/media/service.go:29-40 | the loop computes the first occurrences |
| `Service.Reorder` | internal/application/media/service.go:187-199 | indexing and walking restores the request order for every order of the found rows |
| `Service.MediaService.Upload` | internal/application/media/service.go:121-155 | checks, creation and the conflict branch have the effect and answer of the sequential upload |
| `Service.MediaService.Download` | internal/application/media/service.go:164-166 | the record and its bytes |
| `Service.MediaService.List` | internal/application/media/service.go:172-200 | the walk over the request, the cap on distinct ids, and the error |
| `Service.MediaService.Delete` | internal/application/media/service.go:203-205 | the sequential delete of one id, not-found included |
| `Service.MediaService.DeleteByIDs` | internal/application/media/service.go:213-223 | the sequential batch delete, cap and empty request included |
| `Service.MediaService.DeleteAllMine` | internal/application/media/service.go:231-233 | the sequential sweep, without a cap |

## Left out

- The S3 client, bucket check and error decoding: only the contract of Put, Get and Delete is modelled.
- `http.DetectContentType` is a parameter; UUID generation and parsing are replaced by ordered ids.
- `pagination.MaxLimit` is a parameter, since its value is not in the repository.
- HTTP handlers, router, authentication, health checks, configuration, logging, `cmd/dbclear` and `ClearAllData`: they pass requests on and hold no state of their own.
- The legacy content reader of GetContent: production passes none (cmd/server/main.go:96).
- Migrations 000001 to 000006, and the columns last_error and created_at of the task table: nothing reads them.
- The 32-bit limit of attempt_count: attempts are unbounded, so a task that had been claimed two thousand million times would fail to be claimed in the code and not in the model.
- Real-time sleeping and context cancellation of `Run`: the turns of `Service.DeletionWorker.Run` carry their times, and stopping is the end of the turns.
- Draining.NoStarvation: one worker whose RunOnce happens at one instant; `Fairness.WorkersShareTheQueue` has several workers and time passing inside a RunOnce.
- Sequential.ConflictIsRightIff: the upload is not interrupted; overlapping uploads are `Conflicts.MisreportsIff`.
- Sequential.ConflictMeansForeignRow: operations run one after the other; overlapping uploads are `Conflicts.MisreportsIff`.
- `Get`: it is GetByID, which appears as the lookup of Upload and Download.
