/** The upload coordinator: for every file part of a multipart request it stores the
    bytes, validates the file, creates a `pending` record, enqueues a thumbnail task
    keyed by the record id and saves the record as `queued`, collecting the accepted
    jobs and the per-file errors. */
module UploadService {
  import opened Wrappers
  import opened Strings
  import opened NodePath
  import opened JobModel
  import opened FileValidation
  import opened JobStore
  import opened QueueService

  /** Which I/O step of a file part throws, if any. */
  datatype UploadFault = NoFault | WriteFails | StatFails | UnlinkFails | CreateFails | EnqueueFails | SaveFails

  /** What the environment supplies for one file part: the clock reading, the random
      base-36 digits of its stored name, and the step that throws. */
  datatype FileEnv = FileEnv(now: nat, random: string, fault: UploadFault)

  /** A multipart part: a plain field, or a file with its name, declared mime type,
      byte count and environment. */
  datatype Part =
    | FieldPart(fieldname: string)
    | FilePart(filename: string, mimetype: string, size: nat, env: FileEnv)

  /** The parts the environment can produce: random suffixes are base-36 digits. */
  predicate PartsOk(parts: seq<Part>) {
    forall i :: 0 <= i < |parts| ==> parts[i].FilePart? ==> IsRandomSuffix(parts[i].env.random)
  }

  /** One entry of the response's `jobs` list. */
  datatype JobEntry = JobEntry(id: JobId, filename: string, status: string)

  datatype UploadResponse = UploadResponse(success: bool, jobs: seq<JobEntry>)

  /** Everything the loop changes: the collection, the queue, the upload directory
      (path to byte count), and the `jobs` and `errors` lists. */
  datatype Ingestion = Ingestion(
    store: StoreState,
    tasks: seq<Task>,
    files: map<string, nat>,
    jobs: seq<JobEntry>,
    errors: seq<string>)

  function StoredPath(uploadDir: string, p: Part): string
    requires p.FilePart? && IsRandomSuffix(p.env.random)
  {
    JoinPath(uploadDir, GenerateUniqueFilename(p.filename, p.env.now, p.env.random))
  }

  function UploadFailed(filename: string): string {
    filename + ": Upload failed"
  }

  /** The fields the coordinator passes to `create` for an accepted file. */
  function NewRecordFields(userId: string, p: Part, path: string, fileType: FileType): NewJob
    requires p.FilePart?
  {
    NewJob(userId, p.filename, path, FileTypeName(fileType), p.mimetype, p.size, Some(StatusName(Pending)))
  }

  /** The payload of the task enqueued for record `id`. */
  function PayloadFor(id: JobId, userId: string, p: Part, path: string, fileType: FileType): ThumbnailJobData
    requires p.FilePart?
  {
    ThumbnailJobData(id, userId, path, FileTypeName(fileType), p.mimetype)
  }

  /** An iteration hands out at most one id, and enqueues at most one task, keyed by
      the id it handed out. */
  predicate AddsAtMostOneTask(s: Ingestion, r: Ingestion) {
    && s.store.nextId <= r.store.nextId <= s.store.nextId + 1
    && (|| r.tasks == s.tasks
        || (&& |r.tasks| == |s.tasks| + 1 && r.tasks[..|s.tasks|] == s.tasks
            && r.tasks[|s.tasks|].id == s.store.nextId
            && r.store.nextId == s.store.nextId + 1))
  }

  /** One iteration of the loop over parts. */
  function StepPart(s: Ingestion, userId: string, uploadDir: string, p: Part): (r: Ingestion)
    requires WellFormed(s.store)
    requires p.FilePart? ==> IsRandomSuffix(p.env.random)
    ensures WellFormed(r.store)
    ensures AddsAtMostOneTask(s, r)
    ensures StatusesValid(s.store) ==> StatusesValid(r.store)
  {
    match p
    case FieldPart(_) => s
    case FilePart(filename, mimetype, size, env) =>
      var path := StoredPath(uploadDir, p);
      if env.fault == WriteFails then
        s.(errors := s.errors + [UploadFailed(filename)])
      else
        var files := s.files[path := size];
        var validation := ValidateFile(filename, mimetype, size);
        if env.fault == StatFails then
          s.(files := files, errors := s.errors + [UploadFailed(filename)])
        else if !validation.isValid then
          if env.fault == UnlinkFails then
            s.(files := files, errors := s.errors + [UploadFailed(filename)])
          else
            s.(files := files - {path}, errors := s.errors + [filename + ": " + validation.error.value])
        else
          AcceptFile(s.(files := files), userId, p, path, validation.fileType)
  }

  /** The rest of an iteration once the file is stored and accepted: create the
      `pending` record, enqueue its task, save it as `queued`, push the job entry;
      the first step that throws sends the file to `errors`. */
  function AcceptFile(s: Ingestion, userId: string, p: Part, path: string, fileType: FileType): (r: Ingestion)
    requires WellFormed(s.store) && p.FilePart?
    ensures WellFormed(r.store)
    ensures AddsAtMostOneTask(s, r)
    ensures StatusesValid(s.store) ==> StatusesValid(r.store)
  {
    var (store1, created) := CreateSpec(s.store, NewRecordFields(userId, p, path, fileType), p.env.now, p.env.fault == CreateFails);
    if created.Err? then
      s.(errors := s.errors + [UploadFailed(p.filename)])
    else
      var id := created.value.id;
      if p.env.fault == EnqueueFails then
        s.(store := store1, errors := s.errors + [UploadFailed(p.filename)])
      else
        var tasks := s.tasks + [TaskFor(PayloadFor(id, userId, p, path, fileType))];
        var (store2, saved) := SaveStatusSpec(store1, id, StatusName(Queued), p.env.now, p.env.fault == SaveFails);
        if saved.Err? then
          s.(store := store2, tasks := tasks, errors := s.errors + [UploadFailed(p.filename)])
        else
          s.(store := store2, tasks := tasks, jobs := s.jobs + [JobEntry(id, p.filename, StatusName(Queued))])
  }

  /** The loop over a list of parts, in order. */
  function IngestParts(s: Ingestion, userId: string, uploadDir: string, parts: seq<Part>): (r: Ingestion)
    requires WellFormed(s.store) && PartsOk(parts)
    ensures WellFormed(r.store)
    ensures StatusesValid(s.store) ==> StatusesValid(r.store)
    decreases |parts|
  {
    if parts == [] then s
    else StepPart(IngestParts(s, userId, uploadDir, parts[..|parts| - 1]), userId, uploadDir, parts[|parts| - 1])
  }

  /** What the call returns after the loop: a 400 joining every error when nothing
      was accepted but something failed, otherwise success with the accepted jobs. */
  function Respond(jobs: seq<JobEntry>, errors: seq<string>): (r: Outcome<UploadResponse>)
    ensures r.Err? <==> jobs == [] && errors != []
    ensures r.Err? ==> r.error == AppError(400, "Upload failed: " + Join(errors, ", "))
    ensures r.Ok? ==> r.value.success && r.value.jobs == jobs
  {
    if |jobs| == 0 && |errors| > 0 then Err(AppError(400, "Upload failed: " + Join(errors, ", ")))
    else Ok(UploadResponse(true, jobs))
  }

  /** When nothing was accepted, the 400's message names every error. */
  lemma RespondReportsEveryError(jobs: seq<JobEntry>, errors: seq<string>, i: nat)
    requires jobs == [] && i < |errors|
    ensures Respond(jobs, errors).Err?
    ensures Contains(Respond(jobs, errors).error.message, errors[i])
  {
    JoinHoldsEach(errors, ", ", i);
    ContainsAfter("Upload failed: ", Join(errors, ", "), errors[i]);
  }

  /** The record `create` stores for an accepted file, as given id `id`. */
  function AcceptedRecord(id: JobId, userId: string, p: Part, path: string, fileType: FileType): Job
    requires p.FilePart?
  {
    Job(id, userId, p.filename, path, None, None, FileTypeName(fileType), p.mimetype, p.size,
        StatusName(Pending), None, None, p.env.now, p.env.now)
  }

  /** An accepted file's name and mime type are never empty. */
  lemma AcceptedIsNonEmpty(p: Part)
    requires p.FilePart? && ValidateFile(p.filename, p.mimetype, p.size).isValid
    ensures p.filename != "" && p.mimetype != ""
  {
    if p.filename == "" {
      assert ExtName(p.filename) == "";
      MissingExtensionRejected(p.filename, p.mimetype, p.size);
    }
  }

  /** A part that is not a file changes nothing: no job, no error, no record. */
  lemma FieldPartSkipped(s: Ingestion, userId: string, uploadDir: string, fieldname: string)
    requires WellFormed(s.store)
    ensures StepPart(s, userId, uploadDir, FieldPart(fieldname)) == s
  {
  }

  /** A file the validator rejects loses its stored copy and adds one
      `<filename>: <reason>` error; the collection and the queue are untouched. */
  lemma RejectedLeavesNoTrace(s: Ingestion, userId: string, uploadDir: string, p: Part)
    requires WellFormed(s.store)
    requires p.FilePart? && IsRandomSuffix(p.env.random)
    requires p.env.fault != WriteFails && p.env.fault != StatFails && p.env.fault != UnlinkFails
    requires !ValidateFile(p.filename, p.mimetype, p.size).isValid
    ensures var r := StepPart(s, userId, uploadDir, p);
      && r.store == s.store && r.tasks == s.tasks && r.jobs == s.jobs
      && r.files == s.files - {StoredPath(uploadDir, p)}
      && r.errors == s.errors + [p.filename + ": " + ValidateFile(p.filename, p.mimetype, p.size).error.value]
  {
    var path := StoredPath(uploadDir, p);
    assert s.files[path := p.size] - {path} == s.files - {path};
  }

  /** When the stat after the write throws, the stored file stays in the upload
      directory and the generic `<filename>: Upload failed` error is added, whatever
      the validator would have said; the collection and the queue are untouched. */
  lemma StatFailureLeavesFile(s: Ingestion, userId: string, uploadDir: string, p: Part)
    requires WellFormed(s.store)
    requires p.FilePart? && IsRandomSuffix(p.env.random) && p.env.fault == StatFails
    ensures var r := StepPart(s, userId, uploadDir, p);
      && r.store == s.store && r.tasks == s.tasks && r.jobs == s.jobs
      && r.files == s.files[StoredPath(uploadDir, p) := p.size]
      && r.errors == s.errors + [UploadFailed(p.filename)]
  {
  }

  /** `create` succeeds for an accepted file of a known caller. */
  lemma CreateAccepted(st: StoreState, userId: string, p: Part, path: string, fileType: FileType)
    requires WellFormed(st) && userId != "" && path != ""
    requires p.FilePart? && p.filename != "" && p.mimetype != ""
    ensures Create(st.nextId, NewRecordFields(userId, p, path, fileType), p.env.now)
            == Ok(AcceptedRecord(st.nextId, userId, p, path, fileType))
  {
    StatusNameRoundTrip(Pending, "");
    assert FileTypeName(fileType) in FileTypeNames;
  }

  /** With no failing step the accepted file gets one record with the next id, saved
      as `queued` after starting as `pending`; one task for that id carrying the
      caller, the stored path, the validated kind and the declared mime type; and one
      job entry. */
  lemma AcceptFileQueued(s: Ingestion, userId: string, p: Part, path: string, fileType: FileType)
    requires WellFormed(s.store) && userId != "" && path != ""
    requires p.FilePart? && p.filename != "" && p.mimetype != "" && p.env.fault == NoFault
    ensures var r := AcceptFile(s, userId, p, path, fileType);
      var id := s.store.nextId;
      && r.store.nextId == id + 1
      && r.store.records == s.store.records[id := AcceptedRecord(id, userId, p, path, fileType).(status := StatusName(Queued))]
      && r.store.history == s.store.history[id := [StatusName(Pending), StatusName(Queued)]]
      && r.tasks == s.tasks + [TaskFor(ThumbnailJobData(id, userId, path, FileTypeName(fileType), p.mimetype))]
      && r.jobs == s.jobs + [JobEntry(id, p.filename, StatusName(Queued))]
      && r.errors == s.errors && r.files == s.files
  {
    CreatedThenQueued(s.store, userId, p, path, fileType);
  }

  /** The store after creating an accepted file's record and saving it `queued`. */
  lemma CreatedThenQueued(st: StoreState, userId: string, p: Part, path: string, fileType: FileType)
    requires WellFormed(st) && userId != "" && path != ""
    requires p.FilePart? && p.filename != "" && p.mimetype != ""
    ensures var id := st.nextId;
      var j := AcceptedRecord(id, userId, p, path, fileType);
      var store1 := StoreState(st.records[id := j], id + 1, st.history[id := [StatusName(Pending)]]);
      && CreateSpec(st, NewRecordFields(userId, p, path, fileType), p.env.now, false) == (store1, Ok(j))
      && SaveStatusSpec(store1, id, StatusName(Queued), p.env.now, false)
         == (StoreState(st.records[id := j.(status := StatusName(Queued))], id + 1,
                        st.history[id := [StatusName(Pending), StatusName(Queued)]]), Ok(()))
  {
    var id := st.nextId;
    var j := AcceptedRecord(id, userId, p, path, fileType);
    CreateAccepted(st, userId, p, path, fileType);
    var store1 := StoreState(st.records[id := j], id + 1, st.history[id := [StatusName(Pending)]]);
    assert CreateSpec(st, NewRecordFields(userId, p, path, fileType), p.env.now, false) == (store1, Ok(j));
    SaveQueued(store1, id, p.env.now);
    assert store1.records[id := j.(status := StatusName(Queued))] == st.records[id := j.(status := StatusName(Queued))];
    assert [StatusName(Pending)] + [StatusName(Queued)] == [StatusName(Pending), StatusName(Queued)];
    assert store1.history[id := [StatusName(Pending)] + [StatusName(Queued)]]
        == st.history[id := [StatusName(Pending), StatusName(Queued)]];
  }

  /** Saving `queued` over a conforming record succeeds and records the status. */
  lemma SaveQueued(st: StoreState, id: JobId, now: nat)
    requires WellFormed(st) && id in st.records && Conforms(st.records[id])
    requires st.records[id].updatedAt == now
    ensures SaveStatusSpec(st, id, StatusName(Queued), now, false)
            == (st.(records := st.records[id := st.records[id].(status := StatusName(Queued))],
                    history := st.history[id := st.history[id] + [StatusName(Queued)]]), Ok(()))
  {
    StatusNameRoundTrip(Queued, "");
    assert Conforms(st.records[id].(status := StatusName(Queued)));
  }

  /** When the enqueue throws, the record created for the file stays `pending`,
      nothing is enqueued and the file is reported as failed. */
  lemma EnqueueFailureLeavesPending(s: Ingestion, userId: string, p: Part, path: string, fileType: FileType)
    requires WellFormed(s.store) && userId != "" && path != ""
    requires p.FilePart? && p.filename != "" && p.mimetype != "" && p.env.fault == EnqueueFails
    ensures var r := AcceptFile(s, userId, p, path, fileType);
      var id := s.store.nextId;
      && r.store.records == s.store.records[id := AcceptedRecord(id, userId, p, path, fileType)]
      && r.store.records[id].status == StatusName(Pending)
      && r.store.history[id] == [StatusName(Pending)]
      && r.tasks == s.tasks && r.jobs == s.jobs
      && r.errors == s.errors + [UploadFailed(p.filename)]
  {
    CreateAccepted(s.store, userId, p, path, fileType);
  }

  /** When the save of `queued` throws, the task is already in the queue while the
      record stays `pending`, and the file is reported as failed. */
  lemma SaveFailureLeavesPendingButEnqueued(s: Ingestion, userId: string, p: Part, path: string, fileType: FileType)
    requires WellFormed(s.store) && userId != "" && path != ""
    requires p.FilePart? && p.filename != "" && p.mimetype != "" && p.env.fault == SaveFails
    ensures var r := AcceptFile(s, userId, p, path, fileType);
      var id := s.store.nextId;
      && r.store.records == s.store.records[id := AcceptedRecord(id, userId, p, path, fileType)]
      && r.store.records[id].status == StatusName(Pending)
      && r.store.history[id] == [StatusName(Pending)]
      && r.tasks == s.tasks + [TaskFor(ThumbnailJobData(id, userId, path, FileTypeName(fileType), p.mimetype))]
      && r.jobs == s.jobs
      && r.errors == s.errors + [UploadFailed(p.filename)]
  {
    CreateAccepted(s.store, userId, p, path, fileType);
  }

  /** One iteration for an accepted file with no failing step: the file is stored
      and handed to `AcceptFile`. */
  lemma AcceptedFileStep(s: Ingestion, userId: string, uploadDir: string, p: Part)
    requires WellFormed(s.store) && userId != ""
    requires p.FilePart? && IsRandomSuffix(p.env.random) && p.env.fault == NoFault
    requires ValidateFile(p.filename, p.mimetype, p.size).isValid
    ensures var path := StoredPath(uploadDir, p);
      && path != "" && p.filename != "" && p.mimetype != ""
      && StepPart(s, userId, uploadDir, p)
         == AcceptFile(s.(files := s.files[path := p.size]), userId, p, path, ValidateFile(p.filename, p.mimetype, p.size).fileType)
  {
    AcceptedIsNonEmpty(p);
  }

  /** The parts the validator accepts, in input order. */
  function AcceptedFiles(parts: seq<Part>): (r: seq<Part>)
    ensures |r| <= |parts|
    ensures forall k :: 0 <= k < |r| ==> r[k].FilePart? && ValidateFile(r[k].filename, r[k].mimetype, r[k].size).isValid
  {
    if parts == [] then []
    else
      var p := parts[|parts| - 1];
      AcceptedFiles(parts[..|parts| - 1])
      + (if p.FilePart? && ValidateFile(p.filename, p.mimetype, p.size).isValid then [p] else [])
  }

  /** The `<filename>: <reason>` error of a rejected file; nothing for other parts. */
  function RejectionOf(p: Part): seq<string> {
    if p.FilePart? && !ValidateFile(p.filename, p.mimetype, p.size).isValid
    then [p.filename + ": " + ValidateFile(p.filename, p.mimetype, p.size).error.value] else []
  }

  /** The errors of the rejected files, in input order. */
  function RejectionMessages(parts: seq<Part>): seq<string>
  {
    if parts == [] then []
    else RejectionMessages(parts[..|parts| - 1]) + RejectionOf(parts[|parts| - 1])
  }

  predicate NoFaults(parts: seq<Part>) {
    forall i :: 0 <= i < |parts| ==> parts[i].FilePart? ==> parts[i].env.fault == NoFault
  }

  /** What one iteration with no failing step does: an accepted file adds its
      record, task and entry under the next id; any other part adds at most its
      rejection. */
  predicate NoFaultEffect(m: Ingestion, r: Ingestion, userId: string, p: Part) {
    var id := m.store.nextId;
    if p.FilePart? && ValidateFile(p.filename, p.mimetype, p.size).isValid then
      && r.store.nextId == id + 1
      && id in r.store.records
      && r.store.records == m.store.records[id := r.store.records[id]]
      && r.store.records[id].status == StatusName(Queued)
      && r.store.history == m.store.history[id := [StatusName(Pending), StatusName(Queued)]]
      && r.jobs == m.jobs + [JobEntry(id, p.filename, StatusName(Queued))]
      && |r.tasks| == |m.tasks| + 1 && r.tasks[..|m.tasks|] == m.tasks
      && r.tasks[|m.tasks|].id == id && r.tasks[|m.tasks|].data.jobId == id
      && r.tasks[|m.tasks|].data.userId == userId
      && r.errors == m.errors
    else
      && r.store == m.store && r.tasks == m.tasks && r.jobs == m.jobs
      && r.errors == m.errors + RejectionOf(p)
  }

  lemma NoFaultAcceptedStep(m: Ingestion, userId: string, uploadDir: string, p: Part)
    requires WellFormed(m.store) && userId != ""
    requires p.FilePart? && IsRandomSuffix(p.env.random) && p.env.fault == NoFault
    requires ValidateFile(p.filename, p.mimetype, p.size).isValid
    ensures NoFaultEffect(m, StepPart(m, userId, uploadDir, p), userId, p)
  {
    AcceptedFileStep(m, userId, uploadDir, p);
    var path := StoredPath(uploadDir, p);
    var fileType := ValidateFile(p.filename, p.mimetype, p.size).fileType;
    var m' := m.(files := m.files[path := p.size]);
    AcceptFileQueued(m', userId, p, path, fileType);
    var r := AcceptFile(m', userId, p, path, fileType);
    assert r.tasks[..|m.tasks|] == m.tasks;
  }

  lemma NoFaultOtherStep(m: Ingestion, userId: string, uploadDir: string, p: Part)
    requires WellFormed(m.store)
    requires p.FilePart? ==> IsRandomSuffix(p.env.random) && p.env.fault == NoFault
    requires !(p.FilePart? && ValidateFile(p.filename, p.mimetype, p.size).isValid)
    ensures NoFaultEffect(m, StepPart(m, userId, uploadDir, p), userId, p)
  {
    if p.FilePart? {
      RejectedLeavesNoTrace(m, userId, uploadDir, p);
    }
  }

  /** What ingesting `parts` with no failing step did to `s`, as `r` shows it: one
      `queued` entry, one task and one record per accepted file, under consecutive
      fresh ids, and one error per rejected file. */
  predicate NoFaultResult(s: Ingestion, r: Ingestion, userId: string, parts: seq<Part>) {
    var acc := AcceptedFiles(parts);
    && r.store.nextId == s.store.nextId + |acc|
    && EntriesFor(s, r.jobs, acc)
    && TasksAdded(s, r.tasks, userId, |acc|)
    && RecordsQueued(s, r.store)
    && r.errors == s.errors + RejectionMessages(parts)
  }

  predicate EntriesFor(s: Ingestion, jobs: seq<JobEntry>, acc: seq<Part>) {
    && |jobs| == |s.jobs| + |acc| && jobs[..|s.jobs|] == s.jobs
    && (forall k :: 0 <= k < |acc| ==>
          acc[k].FilePart? && jobs[|s.jobs| + k] == JobEntry(s.store.nextId + k, acc[k].filename, StatusName(Queued)))
  }

  predicate TasksAdded(s: Ingestion, tasks: seq<Task>, userId: string, n: nat) {
    && |tasks| == |s.tasks| + n && tasks[..|s.tasks|] == s.tasks
    && (forall k :: |s.tasks| <= k < |tasks| ==>
          && tasks[k].id == s.store.nextId + (k - |s.tasks|)
          && tasks[k].data.jobId == tasks[k].id && tasks[k].data.userId == userId)
  }

  predicate RecordsQueued(s: Ingestion, st: StoreState) {
    forall id :: s.store.nextId <= id < st.nextId ==>
      && id in st.records
      && st.records[id].status == StatusName(Queued)
      && id in st.history
      && st.history[id] == [StatusName(Pending), StatusName(Queued)]
  }

  lemma EntriesExtend(s: Ingestion, m: Ingestion, r: Ingestion, accInit: seq<Part>, p: Part)
    requires EntriesFor(s, m.jobs, accInit) && m.store.nextId == s.store.nextId + |accInit|
    requires p.FilePart? && r.jobs == m.jobs + [JobEntry(m.store.nextId, p.filename, StatusName(Queued))]
    ensures EntriesFor(s, r.jobs, accInit + [p])
  {
    var acc := accInit + [p];
    forall k | 0 <= k < |acc|
      ensures acc[k].FilePart? && r.jobs[|s.jobs| + k] == JobEntry(s.store.nextId + k, acc[k].filename, StatusName(Queued))
    {
      if k < |accInit| {
        assert r.jobs[|s.jobs| + k] == m.jobs[|s.jobs| + k];
      }
    }
    assert r.jobs[..|s.jobs|] == m.jobs[..|s.jobs|];
  }

  lemma TasksExtend(s: Ingestion, m: Ingestion, r: Ingestion, userId: string, n: nat)
    requires TasksAdded(s, m.tasks, userId, n) && m.store.nextId == s.store.nextId + n
    requires |r.tasks| == |m.tasks| + 1 && r.tasks[..|m.tasks|] == m.tasks
    requires r.tasks[|m.tasks|].id == m.store.nextId && r.tasks[|m.tasks|].data.jobId == m.store.nextId
    requires r.tasks[|m.tasks|].data.userId == userId
    ensures TasksAdded(s, r.tasks, userId, n + 1)
  {
    forall k | |s.tasks| <= k < |r.tasks|
      ensures && r.tasks[k].id == s.store.nextId + (k - |s.tasks|)
              && r.tasks[k].data.jobId == r.tasks[k].id && r.tasks[k].data.userId == userId
    {
      if k < |m.tasks| {
        assert r.tasks[k] == m.tasks[k];
      }
    }
    assert r.tasks[..|s.tasks|] == m.tasks[..|s.tasks|];
  }

  lemma RecordsExtend(s: Ingestion, m: Ingestion, r: Ingestion)
    requires RecordsQueued(s, m.store) && s.store.nextId <= m.store.nextId
    requires r.store.nextId == m.store.nextId + 1
    requires m.store.nextId in r.store.records
    requires r.store.records == m.store.records[m.store.nextId := r.store.records[m.store.nextId]]
    requires r.store.records[m.store.nextId].status == StatusName(Queued)
    requires r.store.history == m.store.history[m.store.nextId := [StatusName(Pending), StatusName(Queued)]]
    ensures RecordsQueued(s, r.store)
  {
  }

  /** Extending a no-fault run by one part. */
  lemma NoFaultExtend(s: Ingestion, m: Ingestion, r: Ingestion, userId: string, parts: seq<Part>)
    requires parts != []
    requires NoFaultResult(s, m, userId, parts[..|parts| - 1])
    requires NoFaultEffect(m, r, userId, parts[|parts| - 1])
    ensures NoFaultResult(s, r, userId, parts)
  {
    var init := parts[..|parts| - 1];
    var p := parts[|parts| - 1];
    if p.FilePart? && ValidateFile(p.filename, p.mimetype, p.size).isValid {
      ExtendAccepted(s, m, r, userId, parts);
    } else {
      ExtendOther(s, m, r, userId, parts);
    }
  }

  lemma ExtendAccepted(s: Ingestion, m: Ingestion, r: Ingestion, userId: string, parts: seq<Part>)
    requires parts != []
    requires NoFaultResult(s, m, userId, parts[..|parts| - 1])
    requires var p := parts[|parts| - 1];
      && p.FilePart? && ValidateFile(p.filename, p.mimetype, p.size).isValid
      && NoFaultEffect(m, r, userId, p)
    ensures NoFaultResult(s, r, userId, parts)
  {
    var init := parts[..|parts| - 1];
    var p := parts[|parts| - 1];
    var accInit := AcceptedFiles(init);
    assert AcceptedFiles(parts) == accInit + [p];
    EntriesExtend(s, m, r, accInit, p);
    TasksExtend(s, m, r, userId, |accInit|);
    RecordsExtend(s, m, r);
    assert RejectionOf(p) == [];
    assert r.errors == s.errors + RejectionMessages(init) + RejectionOf(p);
  }

  lemma ExtendOther(s: Ingestion, m: Ingestion, r: Ingestion, userId: string, parts: seq<Part>)
    requires parts != []
    requires NoFaultResult(s, m, userId, parts[..|parts| - 1])
    requires var p := parts[|parts| - 1];
      && !(p.FilePart? && ValidateFile(p.filename, p.mimetype, p.size).isValid)
      && NoFaultEffect(m, r, userId, p)
    ensures NoFaultResult(s, r, userId, parts)
  {
    var init := parts[..|parts| - 1];
    var p := parts[|parts| - 1];
    assert AcceptedFiles(parts) == AcceptedFiles(init);
    assert r.store == m.store && r.tasks == m.tasks && r.jobs == m.jobs;
    assert r.errors == s.errors + RejectionMessages(init) + RejectionOf(p);
  }

  /** With no failing step, the response lists one `queued` entry per accepted file,
      in input order, with consecutive fresh ids; every such record has the history
      `pending, queued`; one task per accepted file is added in the same order; and
      the errors are exactly the rejections, in input order. */
  lemma {:induction false} NoFaultIngestion(s: Ingestion, userId: string, uploadDir: string, parts: seq<Part>)
    requires WellFormed(s.store) && PartsOk(parts) && NoFaults(parts) && userId != ""
    ensures NoFaultResult(s, IngestParts(s, userId, uploadDir, parts), userId, parts)
    decreases |parts|
  {
    if parts == [] {
      assert s.jobs[..|s.jobs|] == s.jobs && s.tasks[..|s.tasks|] == s.tasks;
      assert EntriesFor(s, s.jobs, []) && TasksAdded(s, s.tasks, userId, 0) && RecordsQueued(s, s.store);
      assert s.errors + RejectionMessages(parts) == s.errors;
    } else {
      var init := parts[..|parts| - 1];
      var p := parts[|parts| - 1];
      assert PartsOk(init) && NoFaults(init);
      NoFaultIngestion(s, userId, uploadDir, init);
      var m := IngestParts(s, userId, uploadDir, init);
      if p.FilePart? && ValidateFile(p.filename, p.mimetype, p.size).isValid {
        NoFaultAcceptedStep(m, userId, uploadDir, p);
      } else {
        NoFaultOtherStep(m, userId, uploadDir, p);
      }
      NoFaultExtend(s, m, StepPart(m, userId, uploadDir, p), userId, parts);
    }
  }

  /** Waiting task ids increase strictly and stay below the collection's next id, so
      no id is ever enqueued twice. */
  predicate TasksFresh(st: StoreState, tasks: seq<Task>) {
    && (forall i, j :: 0 <= i < j < |tasks| ==> tasks[i].id < tasks[j].id)
    && (forall i :: 0 <= i < |tasks| ==> tasks[i].id < st.nextId)
  }

  /** Whatever steps fail, ingestion never enqueues an id already waiting: the queue
      stays strictly increasing in id and below the next id. */
  lemma {:induction false} IngestionKeepsTasksFresh(s: Ingestion, userId: string, uploadDir: string, parts: seq<Part>)
    requires WellFormed(s.store) && PartsOk(parts) && TasksFresh(s.store, s.tasks)
    ensures var r := IngestParts(s, userId, uploadDir, parts);
      && TasksFresh(r.store, r.tasks) && r.store.nextId >= s.store.nextId
    decreases |parts|
  {
    if parts != [] {
      var init := parts[..|parts| - 1];
      assert PartsOk(init);
      IngestionKeepsTasksFresh(s, userId, uploadDir, init);
      var m := IngestParts(s, userId, uploadDir, init);
      FreshStep(m, StepPart(m, userId, uploadDir, parts[|parts| - 1]));
    }
  }

  lemma FreshStep(m: Ingestion, r: Ingestion)
    requires TasksFresh(m.store, m.tasks) && AddsAtMostOneTask(m, r)
    ensures TasksFresh(r.store, r.tasks)
  {
    if r.tasks != m.tasks {
      forall i, j | 0 <= i < j < |r.tasks| ensures r.tasks[i].id < r.tasks[j].id {
        if j < |m.tasks| {
          assert r.tasks[i] == m.tasks[i] && r.tasks[j] == m.tasks[j];
        } else {
          assert r.tasks[i] == m.tasks[i];
        }
      }
      forall i | 0 <= i < |r.tasks| ensures r.tasks[i].id < r.store.nextId {
        if i < |m.tasks| {
          assert r.tasks[i] == m.tasks[i];
        }
      }
    }
  }

  /** A request without file parts succeeds with an empty job list. */
  lemma {:induction false} NoFilesSucceeds(s: Ingestion, userId: string, uploadDir: string, parts: seq<Part>)
    requires WellFormed(s.store) && s.jobs == [] && s.errors == []
    requires forall i :: 0 <= i < |parts| ==> parts[i].FieldPart?
    ensures IngestParts(s, userId, uploadDir, parts) == s
    ensures var r := IngestParts(s, userId, uploadDir, parts);
      Respond(r.jobs, r.errors) == Ok(UploadResponse(true, []))
    decreases |parts|
  {
    if parts != [] {
      NoFilesSucceeds(s, userId, uploadDir, parts[..|parts| - 1]);
    }
  }

  /** The loop over the first `i + 1` parts is the loop over the first `i`, then
      one more iteration. */
  lemma IngestOneMore(s: Ingestion, userId: string, uploadDir: string, parts: seq<Part>, i: nat)
    requires WellFormed(s.store) && PartsOk(parts) && i < |parts|
    ensures PartsOk(parts[..i]) && PartsOk(parts[..i + 1])
    ensures IngestParts(s, userId, uploadDir, parts[..i + 1])
            == StepPart(IngestParts(s, userId, uploadDir, parts[..i]), userId, uploadDir, parts[i])
  {
    assert parts[..i + 1][..i] == parts[..i];
  }

  /** The upload directory: stored paths and their byte counts. */
  class UploadDir {
    var files: map<string, nat>

    constructor ()
      ensures files == map[]
    {
      files := map[];
    }

    /** Streams `size` bytes to `path`; `fails` stands for a stream error. */
    method Write(path: string, size: nat, fails: bool) returns (ok: bool)
      modifies this
      ensures ok == !fails
      ensures files == if fails then old(files) else old(files)[path := size]
    {
      ok := !fails;
      if ok {
        files := files[path := size];
      }
    }

    /** The byte count stored at `path`; `fails` stands for a stat error, and a
        missing path is one too. */
    method Stat(path: string, fails: bool) returns (size: Option<nat>)
      ensures size.Some? <==> !fails && path in files
      ensures size.Some? ==> size.value == files[path]
    {
      if fails || path !in files {
        return None;
      }
      return Some(files[path]);
    }

    /** Removes `path`; `fails` stands for an unlink error. */
    method Unlink(path: string, fails: bool) returns (ok: bool)
      modifies this
      ensures ok == !fails
      ensures files == if fails then old(files) else old(files) - {path}
    {
      ok := !fails;
      if ok {
        files := files - {path};
      }
    }
  }

  class Uploader {
    const store: JobCollection
    const queue: WorkQueue
    const disk: UploadDir
    const uploadDir: string

    constructor (store: JobCollection, queue: WorkQueue, disk: UploadDir, uploadDir: string)
      ensures this.store == store && this.queue == queue && this.disk == disk && this.uploadDir == uploadDir
    {
      this.store := store;
      this.queue := queue;
      this.disk := disk;
      this.uploadDir := uploadDir;
    }

    /** `uploadFiles(parts, userId)`. */
    method UploadFiles(parts: seq<Part>, userId: string) returns (r: Outcome<UploadResponse>)
      requires store.Valid() && queue.Valid() && PartsOk(parts)
      modifies store, queue, disk
      ensures store.Valid() && queue.Valid()
      ensures var s := IngestParts(Ingestion(old(store.State()), old(queue.tasks), old(disk.files), [], []),
                                   userId, uploadDir, parts);
        && store.State() == s.store && queue.tasks == s.tasks && disk.files == s.files
        && r == Respond(s.jobs, s.errors)
    {
      ghost var init := Ingestion(store.State(), queue.tasks, disk.files, [], []);
      var jobs: seq<JobEntry> := [];
      var errors: seq<string> := [];
      var i := 0;
      while i < |parts|
        invariant 0 <= i <= |parts|
        invariant store.Valid() && queue.Valid()
        invariant Ingestion(store.State(), queue.tasks, disk.files, jobs, errors)
                  == IngestParts(init, userId, uploadDir, parts[..i])
      {
        IngestOneMore(init, userId, uploadDir, parts, i);
        if parts[i].FilePart? {
          jobs, errors := HandleFile(parts[i], userId, jobs, errors);
        } else {
          FieldPartSkipped(Ingestion(store.State(), queue.tasks, disk.files, jobs, errors), userId, uploadDir, parts[i].fieldname);
        }
        i := i + 1;
      }
      assert parts[..|parts|] == parts;
      r := Respond(jobs, errors);
    }

    /** The body of the loop for one file part. */
    method HandleFile(part: Part, userId: string, jobs: seq<JobEntry>, errors: seq<string>)
      returns (jobs': seq<JobEntry>, errors': seq<string>)
      requires store.Valid() && queue.Valid()
      requires part.FilePart? && IsRandomSuffix(part.env.random)
      modifies store, queue, disk
      ensures store.Valid() && queue.Valid()
      ensures Ingestion(store.State(), queue.tasks, disk.files, jobs', errors')
              == StepPart(Ingestion(old(store.State()), old(queue.tasks), old(disk.files), jobs, errors),
                          userId, uploadDir, part)
    {
      var filename := part.filename;
      var path := JoinPath(uploadDir, GenerateUniqueFilename(filename, part.env.now, part.env.random));
      var written := disk.Write(path, part.size, part.env.fault == WriteFails);
      if !written {
        return jobs, errors + [UploadFailed(filename)];
      }
      var stat := disk.Stat(path, part.env.fault == StatFails);
      if stat.None? {
        return jobs, errors + [UploadFailed(filename)];
      }
      var fileSize := stat.value;
      var validation := ValidateFile(filename, part.mimetype, fileSize);
      if !validation.isValid {
        var unlinked := disk.Unlink(path, part.env.fault == UnlinkFails);
        if unlinked {
          return jobs, errors + [filename + ": " + validation.error.value];
        }
        return jobs, errors + [UploadFailed(filename)];
      }
      jobs', errors' := HandleAccepted(part, path, validation.fileType, userId, jobs, errors);
    }

    /** The part of the loop body after validation accepted the file: create the
        record, enqueue its task, save it as `queued`. */
    method HandleAccepted(part: Part, path: string, fileType: FileType, userId: string,
                          jobs: seq<JobEntry>, errors: seq<string>)
      returns (jobs': seq<JobEntry>, errors': seq<string>)
      requires store.Valid() && queue.Valid()
      requires part.FilePart?
      modifies store, queue
      ensures store.Valid() && queue.Valid()
      ensures Ingestion(store.State(), queue.tasks, disk.files, jobs', errors')
              == AcceptFile(Ingestion(old(store.State()), old(queue.tasks), disk.files, jobs, errors),
                            userId, part, path, fileType)
    {
      var created := store.Create(NewRecordFields(userId, part, path, fileType), part.env.now, part.env.fault == CreateFails);
      if created.Err? {
        return jobs, errors + [UploadFailed(part.filename)];
      }
      var id := created.value.id;
      var enqueued := queue.EnqueueJob(PayloadFor(id, userId, part, path, fileType), part.env.fault == EnqueueFails);
      if enqueued.Err? {
        return jobs, errors + [UploadFailed(part.filename)];
      }
      var saved := store.SaveStatus(id, StatusName(Queued), part.env.now, part.env.fault == SaveFails);
      if saved.Err? {
        return jobs, errors + [UploadFailed(part.filename)];
      }
      return jobs + [JobEntry(id, part.filename, StatusName(Queued))], errors;
    }
  }
}
