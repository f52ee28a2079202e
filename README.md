# Thumbnail generation pipeline — a Dafny model

The system accepts image and video uploads and records one *job* per accepted
file. A background worker then produces a 256×256 thumbnail for each job. Its
status is meant to move `pending` → `queued` → `processing` → `completed` or
`failed`, and every move the worker makes is published to the owner's live view.
That order holds when the upload has saved `queued` before the worker takes the
task; the code does not enforce it (see below). This project models the
pipeline's decision and bookkeeping code, file by file, and proves what that code
promises:

- `constants.dfy`: the shared allow-lists and limits.
- `node_path.dfy`: the parts of Node's `path` module the pipeline relies on
  (`extname`, `basename`, `join`).
- `file_validation.dfy`: the media validator and the unique file name generator.
- `job_model.dfy`: the job record, its status and kind enums, and what `create`
  checks.
- `job_store.dfy`: the job collection as an in-memory store. `JobCollection` is a
  class whose methods are proved against pure specifications (`CreateSpec`,
  `SaveStatusSpec`, `UpdateSpec`, `DeleteOneSpec`). The store keeps a ghost history
  of every status each job has been given.
- `queue_service.dfy`: the thumbnail work queue. `WorkQueue` is a class over a
  sequence of tasks, and a delivery-order function describes what one consumer
  receives.
- `upload_service.dfy`: `uploadFiles`. `Uploader.UploadFiles` is the loop over
  multipart parts, proved equal to the pure fold `IngestParts`.
- `worker.dfy`: `processJob`, `updateJobStatus` and `publishStatus`.
  `ThumbnailWorker` is a class whose methods are proved equal to `ProcessSpec` and
  its stages. Published events go to an append-only `EventLog`.
- `job_routes.dfy`: the list, get and delete routes.
- `auth_service.dfy`: register and login over the user table, with password
  hashes and signed tokens.
- `error_middleware.dfy`: the error-to-response classifier.
- `lifecycle.dfy`: the upload and the worker composed. An upload with no failing
  step, followed by one sequential consumer, gives every accepted file's job the
  history `pending, queued, processing, completed|failed`. If instead the worker
  runs between the upload's enqueue and its save of `queued`, the job ends
  `queued` for good.

Every stored status stays one of the enum's five. The store, the upload and the
delete route preserve this, and so does the worker, although its updates skip
validation.

I/O, the clock, random digits and the failure of any awaited call are
parameters. A per-part `fault` covers the upload: the write, the stat, the
unlink, the create, the enqueue or the save can throw. A map from each step of
`processJob` to the message it throws covers the worker. A `fails` flag covers
the single store and queue calls. Job ids are natural numbers handed out by the
store and never reused.

Four points where the model follows the code rather than the tests or the
comments:

- The upload response lists each accepted job with status `queued`, the status the
  code saves and pushes, where the upload tests expect `pending`.
- The error handler classifies any other error whose message merely contains
  `token` as an authentication failure. A body-parse error quoting "Unexpected
  token" is therefore answered 401 (`ErrorMiddleware.ParseErrorIs401`).
- When only the publish of `completed` fails, the worker's catch block marks an
  already completed record `failed`. The record keeps its thumbnail and completion
  time, and no `completed` event is ever published
  (`Worker.LostCompletionEvent`).
- The upload enqueues a job's task before it saves the record `queued`. A worker
  that completes the task in between is overwritten: the save still passes
  validation, and the record stays `queued` with its thumbnail set
  (`Lifecycle.WorkerBetweenEnqueueAndSave`).

## Model

| member | source | states |
|---|---|---|
| Constants.MimeListsDisjoint | packages/shared/src/constants/index.ts:1-2 | no mime type is on both the image and the video list |
| Constants.ExtensionListsDisjoint | packages/shared/src/constants/index.ts:4-5 | no extension is on both lists, so an extension names at most one kind |
| Constants.ExtensionsWellFormed | packages/shared/src/constants/index.ts:4-5 | every listed extension is a dot, then at least one character with no dot or slash, and is already lower-case, so it can equal a lower-cased `extname` |
| Constants.LimitsAsDocumented | packages/shared/src/constants/index.ts:7-8 | the size limit is 104857600 bytes (100 MB) and the thumbnail bound is 256 |
| NodePath.LastIndexOf | packages/backend/src/utils/file-validation.ts:32 | the index found holds the character and none follows it; none is found exactly when the character is absent |
| NodePath.LastIndexOfAt | packages/backend/src/utils/file-validation.ts:32 | an occurrence with nothing like it after it is the last one |
| NodePath.TrimTrailingSlashes | packages/backend/src/utils/file-validation.ts:32 | the result is a prefix of the path that ends in no slash, and everything cut off is slashes |
| NodePath.Basename | packages/backend/src/utils/file-validation.ts:32 | the base name holds no slash |
| NodePath.BasenameIsSuffix | packages/backend/src/utils/file-validation.ts:32 | the base name is a suffix of the slash-trimmed path |
| NodePath.BasenameIsLastComponent | packages/backend/src/utils/file-validation.ts:32 | the base name is the whole last component: the slash-trimmed path itself, or what follows a '/' in it |
| NodePath.TailFromLastDot | packages/backend/src/utils/file-validation.ts:32 | the text from a slash-free name's last dot on has the extension shape |
| NodePath.SuffixOfSuffix | packages/backend/src/utils/file-validation.ts:32 | a suffix of a suffix is a suffix of the whole |
| NodePath.ExtNameShape | packages/backend/src/utils/file-validation.ts:32 | every `extname` is empty or a dot followed by no dot or slash, and is a suffix of its path |
| NodePath.ExtName | packages/backend/src/utils/file-validation.ts:32 | `extname` is empty or a dot followed by no dot or slash |
| NodePath.ExtNameFromLastDot | packages/backend/src/utils/file-validation.ts:32 | a base name with a dot after its first character, other than "..", has as `extname` the text from its last dot on |
| NodePath.ExtNameEndsBasename | packages/backend/src/utils/file-validation.ts:32 | `extname` is a suffix of the base name |
| NodePath.NoExtensionCases | packages/backend/src/utils/file-validation.ts:32 | a base name with no dot, or whose only dot leads, has an empty `extname` |
| NodePath.ExtNameOfStemAndTail | packages/backend/src/utils/file-validation.ts:68 | a dot-free stem followed by an extension-shaped tail has that tail as its `extname` |
| NodePath.ExtNameOfJoin | packages/worker/src/worker.ts:73 | joining a directory in front of a plain name keeps its `extname` |
| NodePath.BasenameOfJoin | packages/backend/src/services/upload.service.ts:36 | `join` of a directory and a plain name has that name as its base name |
| NodePath.BasenameOfPlainName | packages/backend/src/utils/file-validation.ts:32 | a slash-free name is its own base name |
| NodePath.ExtNameKeepsCase | packages/backend/src/utils/file-validation.ts:32 | `extname` keeps the case of `photo.JPG` |
| NodePath.ExtNameOfLeadingDotName | packages/backend/src/utils/file-validation.ts:32 | `.png` has no extension |
| NodePath.ExtNameOfDoubleExtension | packages/backend/src/utils/file-validation.ts:32 | only the last extension of `archive.tar.gz` counts |
| NodePath.ExtNameIgnoresTrailingSlash | packages/backend/src/utils/file-validation.ts:32 | a trailing slash does not hide the extension |
| Strings.DigitChar | packages/backend/src/services/upload.service.ts:78-82 | the character is a decimal digit of the given value |
| Strings.NatToString | packages/backend/src/services/upload.service.ts:78-82 | the rendering is non-empty, all digits and has no leading zero |
| Strings.DigitsValueOfNatToString | packages/backend/src/services/upload.service.ts:78-82 | reading the rendering back gives the number |
| Strings.NatToStringInjective | packages/worker/src/worker.ts:74 | distinct ids have distinct renderings |
| Strings.ToLower | packages/backend/src/utils/file-validation.ts:32 | lower-casing keeps the length and maps each character on its own |
| Strings.ContainsAt | packages/backend/src/middleware/error.middleware.ts:35 | an occurrence at any position makes `includes` hold |
| Strings.ContainsHasPosition | packages/backend/src/middleware/error.middleware.ts:35 | `includes` holds only when an occurrence exists |
| Strings.FirstCharAbsent | packages/backend/src/middleware/error.middleware.ts:35 | a string lacking the needle's first character does not include it |
| Strings.Utf16Length | packages/backend/src/services/auth.service.ts:19 | `length` counts UTF-16 code units: at least one and at most two per character |
| Strings.Utf16LengthIsLength | packages/backend/src/services/auth.service.ts:19 | the UTF-16 length equals the character count exactly when no character lies beyond the Basic Multilingual Plane |
| Strings.JoinHoldsEach | packages/backend/src/services/upload.service.ts:90 | `join` keeps every joined string: each occurs in the result |
| Strings.ContainsAfter | packages/backend/src/services/upload.service.ts:90 | a string ending in `t` includes whatever `t` includes |
| FileValidation.ValidateFile | packages/backend/src/utils/file-validation.ts:18-65 | valid exactly when no error is reported; every rejection carries a non-empty error and the placeholder kind `image` |
| FileValidation.OversizeRejected | packages/backend/src/utils/file-validation.ts:24-30 | over the limit is rejected with the size message whatever the name and type; exactly the limit passes the size check |
| FileValidation.AcceptedAsIff | packages/backend/src/utils/file-validation.ts:35-54 | accepted as a kind iff within the limit and both the mime type and the lower-cased extension are on that kind's lists |
| FileValidation.AcceptedIff | packages/backend/src/utils/file-validation.ts:18-65 | accepted iff within the limit and mime type and extension match one kind |
| FileValidation.CrossKindRejected | packages/backend/src/utils/file-validation.ts:35-64 | a mime type of one kind with an extension of the other is rejected |
| FileValidation.ExtensionCaseIgnored | packages/backend/src/utils/file-validation.ts:32 | names whose extensions agree up to case get the same verdict |
| FileValidation.MissingExtensionRejected | packages/backend/src/utils/file-validation.ts:32-64 | a name with an empty `extname` is rejected |
| FileValidation.AcceptsJpegImage | packages/backend/src/utils/file-validation.ts:35-43 | `a.jpg` as `image/jpeg` is a valid image |
| FileValidation.AcceptsUpperCaseExtension | packages/backend/src/utils/file-validation.ts:32-43 | `a.JPG` is accepted like `a.jpg` |
| FileValidation.ExtNameOfA | packages/backend/src/utils/file-validation.ts:32 | `a` followed by an extension-shaped string has that extension |
| FileValidation.JpegListed | packages/shared/src/constants/index.ts:1-4 | `.jpg` and `image/jpeg` are on the image lists |
| FileValidation.LowerJpg | packages/backend/src/utils/file-validation.ts:32 | `.JPG` and `.jpg` both lower-case to `.jpg` |
| FileValidation.MimeTypeCaseMatters | packages/backend/src/utils/file-validation.ts:36 | the mime type is compared exactly: `IMAGE/JPEG` is rejected |
| FileValidation.RejectsText | packages/backend/src/utils/file-validation.ts:56-64 | `a.txt` as `text/plain` is rejected |
| FileValidation.RejectsLeadingDotName | packages/backend/src/utils/file-validation.ts:32-64 | `.png` has no extension and is rejected |
| FileValidation.UniqueStemIsPlain | packages/backend/src/utils/file-validation.ts:69-71 | the `<timestamp>-<random>` stem is non-empty and holds no dot or slash |
| FileValidation.GenerateUniqueFilename | packages/backend/src/utils/file-validation.ts:67-72 | the name starts with `<timestamp>-<random>`, has no slash, and keeps the original's extension with its case |
| FileValidation.PlainStemAndExtension | packages/backend/src/utils/file-validation.ts:68-71 | a plain stem plus an extension is prefixed by the stem, slash-free, and has that extension |
| JobModel.ParseStatus | packages/backend/src/models/job.model.ts:40-42 | a parsed name is the name of the status returned |
| JobModel.StatusNameRoundTrip | packages/backend/src/models/job.model.ts:40-42 | names and statuses correspond one to one, and only enum names parse |
| JobModel.Create | packages/backend/src/models/job.model.ts:6-56 | a created record conforms to the schema (required strings non-empty, both enums hold) and carries the given id |
| JobModel.CreateDefaults | packages/backend/src/models/job.model.ts:21-54 | the status defaults to `pending`; the thumbnail fields, error and completion time are absent; both timestamps are the creation time |
| JobModel.CreateRejects | packages/backend/src/models/job.model.ts:8-42 | `create` fails exactly when a required string is empty or an enum is violated |
| JobStore.ApplyUpdate | packages/worker/src/worker.ts:139 | the update keeps the id, writes the status and stamps `updatedAt` |
| JobStore.ApplyUpdateFrame | packages/worker/src/worker.ts:139 | a `$set` writes the status and the fields it carries, keeps every optional field it lacks, and changes no required field |
| JobStore.CreateSpec | packages/backend/src/services/upload.service.ts:55-63 | a created record gets the next, unused id and a one-status history; a failure changes nothing; every stored status stays one of the enum's |
| JobStore.SaveStatusSpec | packages/backend/src/services/upload.service.ts:75-76 | the save succeeds iff the record exists and still conforms with the new status; it then changes that record's status only and appends to its history; a failure changes nothing; every stored status stays one of the enum's |
| JobStore.UpdateSpec | packages/worker/src/worker.ts:139 | reports whether the id exists; only an existing record is changed, without validation, and its history grows by the written status |
| JobStore.UpdateKeepsStatusesValid | packages/worker/src/worker.ts:139 | `findByIdAndUpdate` validates nothing: it keeps every stored status in the enum iff the written status is in it, the id is missing or the call fails |
| JobStore.ApplyUpdateConforms | packages/worker/src/worker.ts:139 | an update writing an enum status keeps a conforming record conforming |
| JobStore.FindOwned | packages/backend/src/routes/job.routes.ts:55-58 | finds the record exactly when it exists and belongs to the user |
| JobStore.DeleteOneSpec | packages/backend/src/routes/job.routes.ts:98 | deletes one record exactly when id and owner match, and removes only it; every stored status stays one of the enum's |
| JobStore.JobCollection.constructor | packages/backend/src/models/job.model.ts:62 | the collection starts empty |
| JobStore.JobCollection.Create | packages/backend/src/services/upload.service.ts:55-63 | the collection changes as `CreateSpec` says |
| JobStore.JobCollection.SaveStatus | packages/backend/src/services/upload.service.ts:75-76 | the collection changes as `SaveStatusSpec` says |
| JobStore.JobCollection.FindByIdAndUpdate | packages/worker/src/worker.ts:139 | the collection changes as `UpdateSpec` says |
| JobStore.JobCollection.DeleteOne | packages/backend/src/routes/job.routes.ts:98 | the collection changes as `DeleteOneSpec` says |
| QueueService.TaskFor | packages/backend/src/services/queue.service.ts:20-30 | the task is named `generate-thumbnail`, keyed by the job id, carries the payload unchanged and has priority 1 |
| QueueService.NextIndex | packages/backend/src/services/queue.service.ts:28 | the queue hands out the earliest task of the smallest priority number |
| QueueService.DeliveryOrder | packages/backend/src/services/queue.service.ts:20-30 | one consumer receives every waiting task exactly once: as many deliveries as tasks, and the same multiset of tasks |
| QueueService.DeliveryIsArrivalOrder | packages/backend/src/services/queue.service.ts:28 | with the uniform priority, delivery order is arrival order, whoever owns the tasks |
| QueueService.PerUserOrder | packages/backend/src/services/queue.service.ts:25-27 | one user's tasks are delivered in the order they were enqueued, as a consequence of global arrival order |
| QueueService.ForUser | packages/backend/src/services/queue.service.ts:25-27 | one user's sub-queue holds only that user's tasks |
| QueueService.TasksFor | packages/backend/src/services/queue.service.ts:20-30 | enqueuing a list of payloads adds one task per payload, in order |
| QueueService.EnqueueManyForUser | packages/backend/src/services/queue.service.ts:20-30 | enqueuing n jobs of one user adds exactly those n tasks to that user's sub-queue |
| QueueService.WorkQueue.constructor | packages/backend/src/services/queue.service.ts:10-18 | the queue starts empty |
| QueueService.WorkQueue.EnqueueJob | packages/backend/src/services/queue.service.ts:20-31 | on success the task for the payload is appended; a connection failure adds nothing |
| QueueService.WorkQueue.Take | packages/backend/src/services/queue.service.ts:28 | the consumer receives the oldest task, which is the head of the delivery order |
| UploadService.StepPart | packages/backend/src/services/upload.service.ts:22-87 | one iteration hands out at most one id and enqueues at most one task, keyed by that id; every stored status stays one of the enum's |
| UploadService.AcceptFile | packages/backend/src/services/upload.service.ts:55-86 | creating, enqueuing and saving hands out at most one id and enqueues at most one task, keyed by that id; every stored status stays one of the enum's |
| UploadService.IngestParts | packages/backend/src/services/upload.service.ts:22-87 | the loop keeps the collection well formed; every stored status stays one of the enum's |
| UploadService.Respond | packages/backend/src/services/upload.service.ts:89-96 | a 400 exactly when nothing was accepted and something failed, with the message `Upload failed: ` followed by the errors joined with `, `; otherwise success with the accepted jobs, including when there were no files at all |
| UploadService.RespondReportsEveryError | packages/backend/src/services/upload.service.ts:89-91 | when nothing was accepted, the 400's message includes every collected error |
| UploadService.AcceptedIsNonEmpty | packages/backend/src/utils/file-validation.ts:32-54 | an accepted file has a non-empty name and mime type |
| UploadService.FieldPartSkipped | packages/backend/src/services/upload.service.ts:24-26 | a part that is not a file changes nothing |
| UploadService.RejectedLeavesNoTrace | packages/backend/src/services/upload.service.ts:46-52 | a rejected file loses its stored copy and adds one `<filename>: <reason>` error; no record, no task, no job entry |
| UploadService.StatFailureLeavesFile | packages/backend/src/services/upload.service.ts:39-86 | when the stat after the write throws, the stored file stays, the generic `<filename>: Upload failed` error is added, and no record, task or job entry is made |
| UploadService.CreateAccepted | packages/backend/src/services/upload.service.ts:55-63 | `create` succeeds for an accepted file of a known caller |
| UploadService.AcceptFileQueued | packages/backend/src/services/upload.service.ts:55-82 | with no failure an accepted file gets one record under the next id with history `pending, queued`, one task carrying caller, stored path, validated kind and declared mime type, and one `queued` job entry |
| UploadService.CreatedThenQueued | packages/backend/src/services/upload.service.ts:55-76 | creating the record then saving it `queued` leaves it `queued` with history `pending, queued` |
| UploadService.SaveQueued | packages/backend/src/services/upload.service.ts:75-76 | saving `queued` over a conforming record succeeds and records the status |
| UploadService.EnqueueFailureLeavesPending | packages/backend/src/services/upload.service.ts:55-86 | if the enqueue throws, the new record stays `pending`, nothing is enqueued and the file is reported as failed |
| UploadService.SaveFailureLeavesPendingButEnqueued | packages/backend/src/services/upload.service.ts:66-86 | if the save throws, the task is already enqueued while the record stays `pending`, and the file is reported as failed |
| UploadService.AcceptedFileStep | packages/backend/src/services/upload.service.ts:35-63 | an accepted file with no failure is stored under a non-empty path and passed on to create, enqueue and save |
| UploadService.AcceptedFiles | packages/backend/src/services/upload.service.ts:46-52 | the accepted parts are file parts the validator accepts |
| UploadService.NoFaultAcceptedStep | packages/backend/src/services/upload.service.ts:35-82 | with no failure an accepted file adds its `queued` record, task and entry under the next id |
| UploadService.NoFaultOtherStep | packages/backend/src/services/upload.service.ts:24-52 | a field part or rejected file adds at most its rejection |
| UploadService.EntriesExtend | packages/backend/src/services/upload.service.ts:78-82 | one more accepted file extends the job entries by its own |
| UploadService.TasksExtend | packages/backend/src/services/upload.service.ts:66-72 | one more accepted file extends the tasks by its own |
| UploadService.RecordsExtend | packages/backend/src/services/upload.service.ts:55-76 | one more accepted file extends the `queued` records by its own |
| UploadService.NoFaultExtend | packages/backend/src/services/upload.service.ts:22-87 | the no-failure outcome extends by one part |
| UploadService.ExtendAccepted | packages/backend/src/services/upload.service.ts:35-82 | the no-failure outcome extends by one accepted part |
| UploadService.ExtendOther | packages/backend/src/services/upload.service.ts:24-52 | the no-failure outcome extends by one part that is not accepted |
| UploadService.NoFaultIngestion | packages/backend/src/services/upload.service.ts:22-87 | with no failure: one `queued` entry, record (history `pending, queued`) and task per accepted file, in input order under consecutive fresh ids, and exactly the rejections as errors |
| UploadService.IngestionKeepsTasksFresh | packages/backend/src/services/upload.service.ts:55-72 | whatever fails, waiting task ids stay strictly increasing and below the next id, so no id is enqueued twice |
| UploadService.FreshStep | packages/backend/src/services/upload.service.ts:55-72 | one iteration keeps the waiting task ids fresh |
| UploadService.NoFilesSucceeds | packages/backend/src/services/upload.service.ts:24-96 | a request without file parts changes nothing and succeeds with an empty job list |
| UploadService.UploadDir.constructor | packages/backend/src/services/upload.service.ts:36 | the upload directory starts empty |
| UploadService.UploadDir.Write | packages/backend/src/services/upload.service.ts:39 | a write stores the byte count under the path unless it fails |
| UploadService.UploadDir.Unlink | packages/backend/src/services/upload.service.ts:49 | an unlink removes the path unless it fails |
| UploadService.UploadDir.Stat | packages/backend/src/services/upload.service.ts:42-43 | a stat yields the stored byte count, unless it fails or the path is missing |
| UploadService.Uploader.constructor | packages/backend/src/services/upload.service.ts:14-16 | the uploader holds the given collection, queue and directory |
| UploadService.Uploader.UploadFiles | packages/backend/src/services/upload.service.ts:18-97 | the loop leaves the collection, queue and directory as `IngestParts` does, and answers as `Respond` does |
| UploadService.Uploader.HandleFile | packages/backend/src/services/upload.service.ts:27-86 | the loop body for a file part does what `StepPart` does |
| UploadService.Uploader.HandleAccepted | packages/backend/src/services/upload.service.ts:55-86 | create, enqueue and save do what `AcceptFile` does |
| Worker.BuildUpdate | packages/worker/src/worker.ts:117-137 | the status is always written; `thumbnailPath` and `completedAt` together only for a non-empty path; the size only when non-zero; the message only when non-empty |
| Worker.FailureKeepsThumbnail | packages/worker/src/worker.ts:112-139 | marking `failed` keeps the thumbnail, the size and the completion time, and records the message only when non-empty |
| Worker.CompletionSetsThumbnail | packages/worker/src/worker.ts:104-139 | marking `completed` sets the path and the completion time, and the size only when non-zero |
| Worker.ThumbnailSuffix | packages/worker/src/worker.ts:73 | the suffix is empty or a dot followed by no dot or slash |
| Worker.ThumbnailFilenameShape | packages/worker/src/worker.ts:73-74 | the thumbnail name is a plain file name whose `extname` is the suffix (the original's extension, `.jpeg` for a video), and the base name of the thumbnail path |
| Worker.RunProcessor | packages/worker/src/worker.ts:79-93 | the processor succeeds exactly when its step does not throw, and then returns the thumbnail name joined to the thumbnail directory; otherwise it throws its own message |
| Worker.LeadingDigits | packages/worker/src/worker.ts:74 | the digit run is no longer than the string |
| Worker.LeadingDigitsOfDigitsAndSuffix | packages/worker/src/worker.ts:74 | a digit string followed by a dot-led suffix starts a run of exactly its length |
| Worker.DigitRunDetermined | packages/worker/src/worker.ts:74 | the id part of a thumbnail name is determined by the name |
| Worker.ThumbnailFilenameInjective | packages/worker/src/worker.ts:73-74 | different jobs get different thumbnail names |
| Worker.KindOf | packages/worker/src/worker.ts:79-93 | a kind is dispatched exactly for `image` and `video`, and it is the named one |
| Worker.MarkAndPublish | packages/worker/src/worker.ts:66-68 | a write and a publish keep the collection well formed and hand out no id |
| Worker.MarkAndPublishOnce | packages/worker/src/worker.ts:66-68 | one write and publish change only that record and its history and append the event |
| Worker.MarkAndPublishTwice | packages/worker/src/worker.ts:66-105 | two of them apply both updates, record both statuses and append both events |
| Worker.TryBlock | packages/worker/src/worker.ts:64-106 | the try block keeps the collection well formed and neither creates nor deletes a record |
| Worker.GenerateStage | packages/worker/src/worker.ts:73-106 | dispatch, processing, stat and completion keep the collection well formed and its ids |
| Worker.CompleteStage | packages/worker/src/worker.ts:104-105 | completion keeps the collection well formed and its ids |
| Worker.CatchBlock | packages/worker/src/worker.ts:108-114 | the catch block keeps the collection well formed and its ids |
| Worker.ProcessSpec | packages/worker/src/worker.ts:58-115 | `processJob` keeps the collection well formed and neither creates nor deletes a record |
| Worker.HappyPath | packages/worker/src/worker.ts:58-106 | with nothing failing and a known kind, the record goes `processing` then `completed` with path and completion time, and the size when the stat reports a non-zero one; the events are `processing` then `completed` with the path |
| Worker.HappyPathRecord | packages/worker/src/worker.ts:65-105 | on the happy path the record receives exactly the `processing` update and then the `completed` one |
| Worker.ProcessorFailurePath | packages/worker/src/worker.ts:79-114 | an unknown kind, a processor error or a failed stat ends `failed` with the message if non-empty, keeps any earlier thumbnail, publishes `processing` then `failed`, and returns normally |
| Worker.ProcessorFailureShape | packages/worker/src/worker.ts:66-114 | that path is exactly: write and publish `processing`, then write and publish `failed` |
| Worker.CaughtUnlessCatchFails | packages/worker/src/worker.ts:108-114 | every error of the try block is caught: `processJob` returns normally unless the catch block's own calls fail |
| Worker.TwoEventsPerTask | packages/worker/src/worker.ts:66-114 | with store and publisher working, exactly two events are published: `processing`, then `completed` with the path or `failed` with the message |
| Worker.UpdateWrites | packages/worker/src/worker.ts:139 | one update touches only its record and appends its status |
| Worker.WritesCompose | packages/worker/src/worker.ts:58-115 | writes confined to one record compose |
| Worker.CompleteWrites | packages/worker/src/worker.ts:104 | completion writes at most one worker status to the task's record |
| Worker.GenerateWrites | packages/worker/src/worker.ts:73-106 | the generate stage writes at most one worker status to the task's record |
| Worker.TryBlockWrites | packages/worker/src/worker.ts:64-106 | the try block writes at most `processing` and `completed`, to the task's record only |
| Worker.CatchBlockWrites | packages/worker/src/worker.ts:108-114 | the catch block writes at most `failed`, to the task's record only |
| Worker.WritesOnlyWorkerStatuses | packages/worker/src/worker.ts:67-139 | the worker touches only the task's record and writes only `processing`, `completed` or `failed`, never reading the status first; a record whose `processing` write succeeds ends in one of them |
| Worker.WritesKeepStatusesValid | packages/worker/src/worker.ts:139 | writes of worker statuses keep every stored status in the enum |
| Worker.ProcessKeepsStatusesValid | packages/worker/src/worker.ts:58-139 | `processJob` keeps every stored status in the enum, though its updates skip validation |
| Worker.RunKeepsStatusesValid | packages/worker/src/worker.ts:43-139 | so does a whole run of the consumer |
| Worker.LastWrittenStatus | packages/worker/src/worker.ts:139 | a record whose history the worker extended carries the last status written |
| Worker.LostCompletionEvent | packages/worker/src/worker.ts:104-114 | if only the `completed` publish fails, the record ends `failed` yet keeps its thumbnail and completion time, and the events are `processing`, `failed` |
| Worker.LostCompletionShape | packages/worker/src/worker.ts:66-114 | that path is: write and publish `processing`, write `completed`, write and publish `failed` |
| Worker.MarkUpdateMark | packages/worker/src/worker.ts:66-114 | a published write, an unpublished write and a published write compose as expected |
| Worker.RunTasks | packages/worker/src/worker.ts:43-53 | one consumer's run over a list of tasks keeps the collection well formed and its ids |
| Worker.EventLog.constructor | packages/worker/src/worker.ts:142-157 | the log starts empty |
| Worker.EventLog.Publish | packages/worker/src/worker.ts:142-157 | a publish appends the event unless the connection fails |
| Worker.ThumbnailWorker.constructor | packages/worker/src/worker.ts:43-53 | the worker holds the given collection, log and queue |
| Worker.ThumbnailWorker.UpdateJobStatus | packages/worker/src/worker.ts:117-140 | the field-by-field update equals `BuildUpdate`, applied as `UpdateSpec` says |
| Worker.ThumbnailWorker.PublishStatus | packages/worker/src/worker.ts:142-157 | the event for the job and user, with the status, path and message, is appended unless publishing fails |
| Worker.ThumbnailWorker.RunTry | packages/worker/src/worker.ts:64-106 | the try block does what `TryBlock` says |
| Worker.ThumbnailWorker.ProcessJob | packages/worker/src/worker.ts:58-115 | `processJob` does what `ProcessSpec` says |
| Worker.ThumbnailWorker.ConsumeNext | packages/worker/src/worker.ts:43-58 | the consumer takes the oldest task and processes it as `ProcessSpec` says; an empty queue changes nothing |
| JobRoutes.OwnedIds | packages/backend/src/routes/job.routes.ts:22 | exactly the caller's ids, ascending |
| JobRoutes.JobsOf | packages/backend/src/routes/job.routes.ts:22 | the records of the ids, in order |
| JobRoutes.InsertNewest | packages/backend/src/routes/job.routes.ts:23 | insertion adds exactly the one record |
| JobRoutes.InsertNewestSorted | packages/backend/src/routes/job.routes.ts:23 | insertion keeps a list newest first |
| JobRoutes.SortNewestFirst | packages/backend/src/routes/job.routes.ts:23 | the sort is newest first and a permutation of its input |
| JobRoutes.OwnedNewestFirstContents | packages/backend/src/routes/job.routes.ts:16-23 | the listing is newest first and holds exactly the caller's stored records |
| JobRoutes.Window | packages/backend/src/routes/job.routes.ts:24-25 | skip then limit: at most `limit` elements, the run of the list from `skip` on |
| JobRoutes.WindowOfNewestFirst | packages/backend/src/routes/job.routes.ts:23-25 | a window of a newest-first list is newest first and holds only its elements |
| JobRoutes.WindowHolds | packages/backend/src/routes/job.routes.ts:24-25 | a position covered by the window is in it |
| JobRoutes.PageOfIndex | packages/backend/src/routes/job.routes.ts:17-19 | every position falls on the page `k / limit + 1` |
| JobRoutes.ListJobsPage | packages/backend/src/routes/job.routes.ts:15-40 | a page holds at most `limit` of the caller's records, newest first, and `total` counts all of the caller's records whatever the page |
| JobRoutes.ListJobs | packages/backend/src/routes/job.routes.ts:19-36 | a page holds at most `limit` jobs, and `total` is the number of the caller's records |
| JobRoutes.ListJobsPosition | packages/backend/src/routes/job.routes.ts:17-25 | page p is the run of the full listing from `(p - 1) * limit` on, as long as the limit and the list allow |
| JobRoutes.ListJobsDefaults | packages/backend/src/routes/job.routes.ts:17-18 | without a query the page is 1 and the limit 50 |
| JobRoutes.EveryJobOnSomePage | packages/backend/src/routes/job.routes.ts:17-25 | every record of the caller's is on some page, whatever the page size |
| JobRoutes.GetJob | packages/backend/src/routes/job.routes.ts:51-73 | the record exactly when it exists and belongs to the caller, otherwise 404 |
| JobRoutes.GetAgreesWithList | packages/backend/src/routes/job.routes.ts:22-58 | the caller can get a record exactly when the caller's listing holds it |
| JobRoutes.DeleteSpec | packages/backend/src/routes/job.routes.ts:84-104 | deletion keeps the collection well formed; every stored status stays one of the enum's |
| JobRoutes.DeleteRemovesExactly | packages/backend/src/routes/job.routes.ts:88-103 | deletion succeeds exactly for the caller's record and removes only it; otherwise 404 and nothing changes |
| JobRoutes.DeleteIgnoresStatus | packages/backend/src/routes/job.routes.ts:88-98 | whether deletion succeeds depends on ids and owners alone, not on status |
| JobRoutes.DeleteThenGet | packages/backend/src/routes/job.routes.ts:55-98 | after a delete the record gets 404 while every other record is got as before |
| JobRoutes.DeleteJob | packages/backend/src/routes/job.routes.ts:84-104 | the handler changes the collection as `DeleteSpec` says |
| AuthService.VerifyHashIff | packages/backend/src/services/auth.service.ts:24-55 | a password verifies against a hash exactly when it is the hashed password, whatever the salt |
| AuthService.Hash | packages/backend/src/services/auth.service.ts:24 | the hash carries the drawn salt and cost 10, and `compare` accepts exactly the hashed password |
| AuthService.VerifyToken | packages/backend/src/services/auth.service.ts:75-85 | a verified token yields its own payload; any other yields the 401 token error |
| AuthService.SignVerifyRoundTrip | packages/backend/src/services/auth.service.ts:33-85 | a token verifies under its signing secret to its payload and fails under any other |
| AuthService.Sign | packages/backend/src/services/auth.service.ts:33-36 | a signed token verifies under the same secret to its payload |
| AuthService.TamperedTokenRejected | packages/backend/src/services/auth.service.ts:75-85 | a token whose payload changed after signing is rejected |
| AuthService.RegisterSpec | packages/backend/src/services/auth.service.ts:11-45 | registration keeps every user filed under its own email with an id below the next id |
| AuthService.LoginSpec | packages/backend/src/services/auth.service.ts:47-73 | login succeeds iff the email is known and the password verifies, answering with that user; every failure is the same 401 |
| AuthService.DuplicateEmailRejected | packages/backend/src/services/auth.service.ts:13-16 | a taken email fails with 400 and changes nothing, even with a short password |
| AuthService.ShortPasswordRejected | packages/backend/src/services/auth.service.ts:19-21 | a fresh email with a password of fewer than 6 UTF-16 code units fails with 400 and adds no user |
| AuthService.SurrogatePairsCountTwice | packages/backend/src/services/auth.service.ts:19-21 | three characters beyond the Basic Multilingual Plane count as six units, so such a password registers a fresh email |
| AuthService.RegisterAddsOneUser | packages/backend/src/services/auth.service.ts:11-45 | registration succeeds iff the email is fresh and the password long enough; it adds exactly one user under a fresh id holding the hash, and answers with that id and email and a token verifying to them; the password is measured in UTF-16 code units, as `password.length` does |
| AuthService.LoginAfterRegister | packages/backend/src/services/auth.service.ts:47-72 | logging in right after registering succeeds with the same response |
| AuthService.WrongPasswordAfterRegister | packages/backend/src/services/auth.service.ts:49-58 | any other password is refused with the same 401 as an unknown email |
| AuthService.UserStore.constructor | packages/backend/src/models/user.model.ts:8-19 | the user table starts empty |
| AuthService.UserStore.Register | packages/backend/src/services/auth.service.ts:11-45 | the table changes as `RegisterSpec` says |
| AuthService.UserStore.Login | packages/backend/src/services/auth.service.ts:47-73 | login answers as `LoginSpec` says and modifies nothing |
| ErrorMiddleware.HandleError | packages/backend/src/middleware/error.middleware.ts:9-53 | every reply is a failure whose `statusCode` equals the HTTP status |
| ErrorMiddleware.AppErrorKeepsItsStatus | packages/backend/src/middleware/error.middleware.ts:12-20 | an `AppError` keeps its status, with its message as both `error` and `message`, whatever the message mentions |
| ErrorMiddleware.ValidationIs400 | packages/backend/src/middleware/error.middleware.ts:23-32 | a validation failure is a 400 with its fields, even if the message mentions a token |
| ErrorMiddleware.OtherErrorStatus | packages/backend/src/middleware/error.middleware.ts:35-52 | any other error is a 401 iff its message contains `jwt` or `token`; otherwise its own non-zero status or 500, with the default text for an empty message |
| ErrorMiddleware.ExpiredJwtIs401 | packages/backend/src/middleware/error.middleware.ts:35-43 | `jwt expired` is a 401 |
| ErrorMiddleware.ParseErrorIs401 | packages/backend/src/middleware/error.middleware.ts:35-43 | a parse error quoting `Unexpected token` is a 401 whatever its own status |
| ErrorMiddleware.UpperCaseJwtIs500 | packages/backend/src/middleware/error.middleware.ts:35-52 | `JWT expired` is not recognised: 500 |
| Lifecycle.OtherSteps | packages/worker/src/worker.ts:79-100 | with store and publisher working, only the processor run and the stat can fail |
| Lifecycle.OneTaskFinishes | packages/worker/src/worker.ts:58-115 | with store and publisher working, a task appends `processing` then `completed` or `failed` to its job's history and leaves every other job's history alone |
| Lifecycle.AllFinishedStep | packages/worker/src/worker.ts:58-115 | the first task's effect followed by the rest's is the whole run's |
| Lifecycle.TailReady | packages/worker/src/worker.ts:43-53 | what holds of a run's tasks holds of their tail |
| Lifecycle.RunFinishesEveryTask | packages/worker/src/worker.ts:43-115 | one consumer over tasks with distinct live ids finishes every task's job and touches no other history |
| Lifecycle.QueuedThenFinished | packages/worker/src/worker.ts:66-112 | a `pending, queued` history finished by the worker is the full four-status history |
| Lifecycle.AddedTasksOrdered | packages/backend/src/services/upload.service.ts:66-72 | the tasks an upload adds to an empty queue are in id order and carry their own ids |
| Lifecycle.QueuedJobsFinish | packages/worker/src/worker.ts:58-115 | the run over queued jobs in id order takes each to `completed` or `failed` |
| Lifecycle.UploadThenWork | packages/backend/src/services/upload.service.ts:55-76 | an upload with no failing step into an empty queue, then one consumer with a working store and publisher: every accepted file's job has the history `pending, queued, processing, completed|failed` and ends in that last status |
| Lifecycle.WorkerBetweenEnqueueAndSave | packages/backend/src/services/upload.service.ts:66-76 | if the worker completes the task between the enqueue and the save of `queued`, the save still succeeds: the record ends `queued` with its thumbnail and completion time set, history `pending, processing, completed, queued` |
| Lifecycle.CompletedRecordRequeued | packages/backend/src/services/upload.service.ts:75-76 | a conforming record marked `processing` then `completed` still conforms with status `queued` |
| Lifecycle.RequeueAfterCompletion | packages/backend/src/services/upload.service.ts:75-76 | saving `queued` over a completed, conforming record succeeds and keeps its thumbnail and completion time |

## Left out

- Storage, queue, pub/sub and socket transports (MongoDB, BullMQ, Redis, socket.io) are in-memory values and classes. Connection failures are `fails` flags, and publishing appends to an event log.
- Worker concurrency, lock duration, redelivery and the worker's event handlers are left out. The model has the single sequential consumer of the default configuration (packages/worker/src/config/index.ts:13).
- The image and video processors (sharp, ffmpeg) return `thumbnailDir/filename` or throw a message. Pixel and floating-point work is out of scope, and so is the video frame left behind when resizing fails.
- The thumbnail size the worker stats, the clock, and the random base-36 digits of a stored name are parameters.
- The worker takes one clock reading per task (`WorkerEnv.now`). It serves `completedAt`, every event's timestamp and every `updatedAt` of that task. The worker itself reads the clock anew at each call.
- Mongo ObjectIds are natural numbers handed out by a counter, rendered in decimal. The worker schema's cast of `userId` to an ObjectId is a plain string copy.
- Ties in `createdAt` are listed in ascending id order. MongoDB leaves their order unspecified. `JobRoutes.EveryJobOnSomePage` and `JobRoutes.ListJobsPosition` depend on that fixed order: with an unspecified order, a job tied with another across a page boundary could appear on two pages or on none.
- `parseInt` of the page and limit query strings is left out. A page or limit below 1, or not a number, is excluded by a precondition.
- Database errors in the routes and in the auth service are left out. The handlers are modelled on a reachable database.
- bcrypt and JWT internals are left out. A hash is a value that commits to the password and a drawn salt, which gives the iff between verify and hash. bcrypt's 72-byte truncation is not modelled. A token is its payload plus a signature under a secret. No token expiry is configured, so none is modelled.
- The user schema's lower-casing and trimming of emails is not modelled. Emails are compared as given.
- `toLowerCase` folds ASCII letters only. No listed extension can be reached by folding a non-ASCII character.
- `path.join` of the upload or thumbnail directory with a plain file name is `dir + "/" + name`. Normalisation of `..` and repeated slashes is out of scope.
- BullMQ's de-duplication of repeated job ids is library behaviour and is not modelled. `UploadService.IngestionKeepsTasksFresh` shows that ingestion never enqueues an id that is already waiting.
- Thumbnail serving, the web UI, the HTTP wiring of the auth and upload routes, startup code and console logging are not part of this model.
- Lifecycle.UploadThenWork: assumes that the upload finishes before the worker takes any of its tasks. The code enqueues a task before it saves `queued`, so the two can interleave; that outcome is `Lifecycle.WorkerBetweenEnqueueAndSave`, and other interleavings are not modelled.
- Strings.Utf16Length: a JavaScript string may hold lone surrogates, which a Dafny character cannot. Passwords are sequences of Unicode scalar values, each counted as one or two UTF-16 code units.
- A failed write stores nothing. A partial file that a failed stream may leave in the upload directory is not modelled.
- The `jobs` list of the upload response follows the code: each entry has status `queued`, not the `pending` the upload tests expect.
