/** The thumbnail worker: for each task it marks the record `processing`, publishes
    that, runs the processor for the media kind, stats the thumbnail, marks the record
    `completed` and publishes that; any error on the way marks the record `failed`
    and publishes the failure instead. */
module Worker {
  import opened Wrappers
  import opened Strings
  import opened NodePath
  import opened JobModel
  import opened JobStore
  import opened QueueService

  /** A message on the job-status channel. */
  datatype StatusEvent = StatusEvent(
    jobId: JobId,
    userId: string,
    status: string,
    thumbnailPath: Option<string>,
    errorMessage: Option<string>,
    timestamp: nat)

  /** The awaited calls of `processJob` that can throw. */
  datatype Step =
    | MarkProcessing | PublishProcessing | Generate | StatThumbnail
    | MarkCompleted | PublishCompleted | MarkFailed | PublishFailed

  /** What the environment supplies for one task: the clock reading, the thumbnail
      directory, the byte count `stat` reports for the thumbnail, and the message
      each failing step throws with. */
  datatype WorkerEnv = WorkerEnv(now: nat, thumbnailDir: string, thumbnailSize: nat, faults: map<Step, string>)

  /** The collection and the events published so far. */
  datatype WorkerState = WorkerState(store: StoreState, events: seq<StatusEvent>)

  /** `updateJobStatus`'s update document. An absent argument and an empty string (or
      a zero size) are alike falsy: `thumbnailPath` and `completedAt` are written
      together and only for a non-empty path, `thumbnailSize` only when non-zero,
      `errorMessage` only when non-empty. */
  function BuildUpdate(status: JobStatus, thumbnailPath: string, errorMessage: string, thumbnailSize: nat, now: nat): (u: Update)
    ensures u.status == StatusName(status)
    ensures u.thumbnailPath.Some? <==> thumbnailPath != ""
    ensures u.completedAt.Some? <==> thumbnailPath != ""
    ensures u.thumbnailSize.Some? <==> thumbnailSize != 0
    ensures u.errorMessage.Some? <==> errorMessage != ""
  {
    Update(StatusName(status),
           if thumbnailPath != "" then Some(thumbnailPath) else None,
           if thumbnailPath != "" then Some(now) else None,
           if thumbnailSize != 0 then Some(thumbnailSize) else None,
           if errorMessage != "" then Some(errorMessage) else None)
  }

  /** Marking a record `failed` never clears or sets a thumbnail, never sets
      `completedAt`, and records the message only when it is non-empty. */
  lemma FailureKeepsThumbnail(j: Job, message: string, now: nat)
    ensures var r := ApplyUpdate(j, BuildUpdate(Failed, "", message, 0, now), now);
      && r.status == StatusName(Failed)
      && r.thumbnailPath == j.thumbnailPath
      && r.completedAt == j.completedAt
      && r.thumbnailSize == j.thumbnailSize
      && r.errorMessage == (if message == "" then j.errorMessage else Some(message))
  {
  }

  /** Marking a record `completed` with a non-empty path sets the path and the
      completion time, and the size only when it is non-zero. */
  lemma CompletionSetsThumbnail(j: Job, path: string, size: nat, now: nat)
    requires path != ""
    ensures var r := ApplyUpdate(j, BuildUpdate(Completed, path, "", size, now), now);
      && r.status == StatusName(Completed)
      && r.thumbnailPath == Some(path)
      && r.completedAt == Some(now)
      && r.thumbnailSize == (if size == 0 then j.thumbnailSize else Some(size))
      && r.errorMessage == j.errorMessage
  {
  }

  const ThumbPrefix: string := "thumb-"

  /** What follows the id in a thumbnail's name: `.jpeg` for a video, the original
      path's `extname` otherwise. */
  function ThumbnailSuffix(d: ThumbnailJobData): (e: string)
    ensures e == "" || ExtensionShape(e)
    ensures e == "" || e[0] == '.'
  {
    if d.fileType == FileTypeName(Video) then ".jpeg"
    else ExtName(d.originalPath)
  }

  /** `thumb-<jobId><suffix>`. */
  function ThumbnailFilename(d: ThumbnailJobData): string {
    ThumbPrefix + NatToString(d.jobId) + ThumbnailSuffix(d)
  }

  /** A thumbnail's name is a plain file name whose own `extname` is the suffix: a
      thumbnail keeps its original's extension, and a video's is `.jpeg`. Joined to
      the thumbnail directory, it is the base name of the thumbnail's path. */
  lemma ThumbnailFilenameShape(d: ThumbnailJobData, env: WorkerEnv)
    ensures PlainName(ThumbnailFilename(d))
    ensures ExtName(ThumbnailFilename(d)) == ThumbnailSuffix(d)
    ensures Basename(ThumbnailPathFor(d, env)) == ThumbnailFilename(d)
  {
    var stem := ThumbPrefix + NatToString(d.jobId);
    var digits := NatToString(d.jobId);
    assert forall j :: 0 <= j < |stem| ==> stem[j] != '.' && stem[j] != '/' by {
      forall j | |ThumbPrefix| <= j < |stem| ensures IsDigit(stem[j]) {
        assert stem[j] == digits[j - |ThumbPrefix|];
      }
    }
    ExtNameOfStemAndTail(stem, ThumbnailSuffix(d));
    assert ThumbnailFilename(d) == stem + ThumbnailSuffix(d);
    BasenameOfJoin(env.thumbnailDir, ThumbnailFilename(d));
  }

  /** The length of the run of digits a string starts with. */
  function LeadingDigits(s: string): (n: nat)
    ensures n <= |s|
  {
    if s == [] || !IsDigit(s[0]) then 0 else 1 + LeadingDigits(s[1..])
  }

  /** A digit string followed by nothing or by a dot starts a run of exactly its own
      length. */
  lemma {:induction false} LeadingDigitsOfDigitsAndSuffix(a: string, e: string)
    requires AllDigits(a)
    requires e == "" || e[0] == '.'
    ensures LeadingDigits(a + e) == |a|
  {
    if a != [] {
      assert (a + e)[1..] == a[1..] + e;
      LeadingDigitsOfDigitsAndSuffix(a[1..], e);
    } else {
      assert a + e == e;
    }
  }

  /** The digit run between the prefix and a dot-led (or empty) suffix is
      determined by the whole name. */
  lemma {:induction false} DigitRunDetermined(a: string, e1: string, b: string, e2: string)
    requires AllDigits(a) && AllDigits(b)
    requires e1 == "" || e1[0] == '.'
    requires e2 == "" || e2[0] == '.'
    requires ThumbPrefix + a + e1 == ThumbPrefix + b + e2
    ensures a == b
  {
    var s := (ThumbPrefix + a + e1)[|ThumbPrefix|..];
    assert s == a + e1;
    assert s == b + e2 by {
      assert ThumbPrefix + b + e2 == ThumbPrefix + (b + e2);
    }
    LeadingDigitsOfDigitsAndSuffix(a, e1);
    LeadingDigitsOfDigitsAndSuffix(b, e2);
    assert a == s[..|a|] == b;
  }

  /** Different jobs get different thumbnail names, so no thumbnail overwrites
      another job's. */
  lemma ThumbnailFilenameInjective(d1: ThumbnailJobData, d2: ThumbnailJobData)
    requires ThumbnailFilename(d1) == ThumbnailFilename(d2)
    ensures d1.jobId == d2.jobId
  {
    DigitRunDetermined(NatToString(d1.jobId), ThumbnailSuffix(d1), NatToString(d2.jobId), ThumbnailSuffix(d2));
    NatToStringInjective(d1.jobId, d2.jobId);
  }

  function UnsupportedFileType(fileType: string): string {
    "Unsupported file type: " + fileType
  }

  /** What the image or the video processor returns: the thumbnail's path in the
      thumbnail directory, or the error it throws. */
  function RunProcessor(kind: FileType, d: ThumbnailJobData, filename: string, env: WorkerEnv): (r: Result<string, string>)
    ensures r.Ok? <==> Generate !in env.faults
    ensures r.Ok? ==> r.value == JoinPath(env.thumbnailDir, filename)
    ensures r.Err? ==> r.error == env.faults[Generate]
  {
    if Generate in env.faults then Err(env.faults[Generate]) else Ok(JoinPath(env.thumbnailDir, filename))
  }

  /** The kind the dispatch picks for a `fileType`, if any. */
  function KindOf(fileType: string): (r: Option<FileType>)
    ensures r.Some? <==> fileType in FileTypeNames
    ensures r.Some? ==> FileTypeName(r.value) == fileType
  {
    if fileType == FileTypeName(Image) then Some(Image)
    else if fileType == FileTypeName(Video) then Some(Video)
    else None
  }

  function Event(d: ThumbnailJobData, status: JobStatus, thumbnailPath: Option<string>, errorMessage: Option<string>, now: nat): StatusEvent {
    StatusEvent(d.jobId, d.userId, StatusName(status), thumbnailPath, errorMessage, now)
  }

  /** A status write that succeeds followed by a publish that succeeds. */
  function MarkAndPublish(w: WorkerState, id: JobId, u: Update, e: StatusEvent, now: nat): (w': WorkerState)
    requires WellFormed(w.store)
    ensures WellFormed(w'.store) && w'.store.nextId == w.store.nextId
  {
    WorkerState(UpdateSpec(w.store, id, u, now, false).0, w.events + [e])
  }

  /** One such step on a live record: the update applied, its status recorded, the
      event published, nothing else touched. */
  lemma MarkAndPublishOnce(w: WorkerState, id: JobId, u: Update, e: StatusEvent, now: nat)
    requires WellFormed(w.store) && id in w.store.records
    ensures var w' := MarkAndPublish(w, id, u, e, now);
      && w'.store.records == w.store.records[id := ApplyUpdate(w.store.records[id], u, now)]
      && w'.store.history == w.store.history[id := w.store.history[id] + [u.status]]
      && w'.events == w.events + [e]
  {
  }

  /** Two such steps on a live record: both updates applied in turn, both statuses
      recorded, both events published, nothing else touched. */
  lemma MarkAndPublishTwice(w: WorkerState, id: JobId, u1: Update, e1: StatusEvent, u2: Update, e2: StatusEvent, now: nat)
    requires WellFormed(w.store) && id in w.store.records
    ensures var w' := MarkAndPublish(MarkAndPublish(w, id, u1, e1, now), id, u2, e2, now);
      && w'.store.records == w.store.records[id := ApplyUpdate(ApplyUpdate(w.store.records[id], u1, now), u2, now)]
      && w'.store.history == w.store.history[id := w.store.history[id] + [u1.status, u2.status]]
      && w'.events == w.events + [e1, e2]
  {
    var w1 := MarkAndPublish(w, id, u1, e1, now);
    MarkAndPublishOnce(w, id, u1, e1, now);
    MarkAndPublishOnce(w1, id, u2, e2, now);
    assert w.store.history[id] + [u1.status] + [u2.status] == w.store.history[id] + [u1.status, u2.status];
    assert w.events + [e1] + [e2] == w.events + [e1, e2];
  }

  /** The `try` block of `processJob`: the state it leaves and the message it throws
      with, if it throws. */
  function TryBlock(w: WorkerState, d: ThumbnailJobData, env: WorkerEnv): (r: (WorkerState, Option<string>))
    requires WellFormed(w.store)
    ensures WellFormed(r.0.store)
    ensures r.0.store.nextId == w.store.nextId
    ensures r.0.store.records.Keys == w.store.records.Keys
  {
    var (st1, _) := UpdateSpec(w.store, d.jobId, BuildUpdate(Processing, "", "", 0, env.now), env.now, MarkProcessing in env.faults);
    if MarkProcessing in env.faults then (w, Some(env.faults[MarkProcessing]))
    else if PublishProcessing in env.faults then (w.(store := st1), Some(env.faults[PublishProcessing]))
    else GenerateStage(MarkAndPublish(w, d.jobId, BuildUpdate(Processing, "", "", 0, env.now),
                                      Event(d, Processing, None, None, env.now), env.now), d, env)
  }

  /** The rest of the try block once `processing` is written and published: dispatch
      on the kind, run the processor, stat the thumbnail, then complete. */
  function GenerateStage(w: WorkerState, d: ThumbnailJobData, env: WorkerEnv): (r: (WorkerState, Option<string>))
    requires WellFormed(w.store)
    ensures WellFormed(r.0.store)
    ensures r.0.store.nextId == w.store.nextId
    ensures r.0.store.records.Keys == w.store.records.Keys
  {
    match KindOf(d.fileType)
    case None => (w, Some(UnsupportedFileType(d.fileType)))
    case Some(kind) =>
      match RunProcessor(kind, d, ThumbnailFilename(d), env)
      case Err(message) => (w, Some(message))
      case Ok(thumbnailPath) =>
        if StatThumbnail in env.faults then (w, Some(env.faults[StatThumbnail]))
        else CompleteStage(w, d, env, thumbnailPath)
  }

  /** The end of the try block: mark the record `completed` with the thumbnail and
      publish that. */
  function CompleteStage(w: WorkerState, d: ThumbnailJobData, env: WorkerEnv, thumbnailPath: string): (r: (WorkerState, Option<string>))
    requires WellFormed(w.store)
    ensures WellFormed(r.0.store)
    ensures r.0.store.nextId == w.store.nextId
    ensures r.0.store.records.Keys == w.store.records.Keys
  {
    var (st1, _) := UpdateSpec(w.store, d.jobId, BuildUpdate(Completed, thumbnailPath, "", env.thumbnailSize, env.now),
                               env.now, MarkCompleted in env.faults);
    if MarkCompleted in env.faults then (w, Some(env.faults[MarkCompleted]))
    else if PublishCompleted in env.faults then (w.(store := st1), Some(env.faults[PublishCompleted]))
    else (MarkAndPublish(w, d.jobId, BuildUpdate(Completed, thumbnailPath, "", env.thumbnailSize, env.now),
                         Event(d, Completed, Some(thumbnailPath), None, env.now), env.now), None)
  }

  /** The `catch` block: mark the record `failed` with the message and publish the
      failure; a throw here escapes `processJob`. */
  function CatchBlock(w: WorkerState, d: ThumbnailJobData, env: WorkerEnv, message: string): (r: (WorkerState, Result<(), string>))
    requires WellFormed(w.store)
    ensures WellFormed(r.0.store)
    ensures r.0.store.nextId == w.store.nextId
    ensures r.0.store.records.Keys == w.store.records.Keys
  {
    var (st1, _) := UpdateSpec(w.store, d.jobId, BuildUpdate(Failed, "", message, 0, env.now), env.now, MarkFailed in env.faults);
    if MarkFailed in env.faults then (w, Err(env.faults[MarkFailed]))
    else if PublishFailed in env.faults then (w.(store := st1), Err(env.faults[PublishFailed]))
    else (MarkAndPublish(w, d.jobId, BuildUpdate(Failed, "", message, 0, env.now),
                         Event(d, Failed, None, Some(message), env.now), env.now), Ok(()))
  }

  /** `processJob(d)`: the try block, then the catch block if it threw. */
  function ProcessSpec(w: WorkerState, d: ThumbnailJobData, env: WorkerEnv): (r: (WorkerState, Result<(), string>))
    requires WellFormed(w.store)
    ensures WellFormed(r.0.store)
    ensures r.0.store.nextId == w.store.nextId
    ensures r.0.store.records.Keys == w.store.records.Keys
  {
    var (w1, thrown) := TryBlock(w, d, env);
    if thrown.None? then (w1, Ok(())) else CatchBlock(w1, d, env, thrown.value)
  }

  /** The thumbnail path the processor returns for `d` when nothing fails. */
  function ThumbnailPathFor(d: ThumbnailJobData, env: WorkerEnv): string {
    JoinPath(env.thumbnailDir, ThumbnailFilename(d))
  }

  /** Whether the try block runs to its end when none of its own steps fails. */
  predicate Supported(d: ThumbnailJobData) {
    d.fileType in FileTypeNames
  }

  /** With nothing failing and a supported kind, the record goes `processing` then
      `completed` with the thumbnail path, the completion time and a non-zero size,
      and the events are `processing` then `completed` with the path. */
  lemma HappyPath(w: WorkerState, d: ThumbnailJobData, env: WorkerEnv)
    requires WellFormed(w.store) && env.faults == map[] && Supported(d) && d.jobId in w.store.records
    ensures ProcessSpec(w, d, env).1 == Ok(())
    ensures var w' := ProcessSpec(w, d, env).0;
      var path := ThumbnailPathFor(d, env);
      var j := w.store.records[d.jobId];
      && w'.events == w.events + [Event(d, Processing, None, None, env.now), Event(d, Completed, Some(path), None, env.now)]
      && w'.store.records == w.store.records[d.jobId := w'.store.records[d.jobId]]
      && w'.store.records[d.jobId].status == StatusName(Completed)
      && w'.store.records[d.jobId].thumbnailPath == Some(path)
      && w'.store.records[d.jobId].completedAt == Some(env.now)
      && w'.store.records[d.jobId].thumbnailSize == (if env.thumbnailSize == 0 then j.thumbnailSize else Some(env.thumbnailSize))
      && w'.store.records[d.jobId].errorMessage == j.errorMessage
      && w'.store.history[d.jobId] == w.store.history[d.jobId] + [StatusName(Processing), StatusName(Completed)]
  {
    var id := d.jobId;
    var path := ThumbnailPathFor(d, env);
    var uP, eP := BuildUpdate(Processing, "", "", 0, env.now), Event(d, Processing, None, None, env.now);
    var uC, eC := BuildUpdate(Completed, path, "", env.thumbnailSize, env.now), Event(d, Completed, Some(path), None, env.now);
    var w2 := MarkAndPublish(w, id, uP, eP, env.now);
    assert TryBlock(w, d, env) == (MarkAndPublish(w2, id, uC, eC, env.now), None) by {
      assert GenerateStage(w2, d, env) == CompleteStage(w2, d, env, path);
    }
    MarkAndPublishTwice(w, id, uP, eP, uC, eC, env.now);
    CompletionSetsThumbnail(ApplyUpdate(w.store.records[id], uP, env.now), path, env.thumbnailSize, env.now);
  }

  /** On the happy path the record gets the two updates `processing` and
      `completed`, and nothing else. */
  lemma HappyPathRecord(w: WorkerState, d: ThumbnailJobData, env: WorkerEnv)
    requires WellFormed(w.store) && env.faults == map[] && Supported(d) && d.jobId in w.store.records
    ensures ProcessSpec(w, d, env).0.store.records[d.jobId]
            == ApplyUpdate(ApplyUpdate(w.store.records[d.jobId], BuildUpdate(Processing, "", "", 0, env.now), env.now),
                           BuildUpdate(Completed, ThumbnailPathFor(d, env), "", env.thumbnailSize, env.now), env.now)
  {
    var id := d.jobId;
    var path := ThumbnailPathFor(d, env);
    var uP, eP := BuildUpdate(Processing, "", "", 0, env.now), Event(d, Processing, None, None, env.now);
    var uC, eC := BuildUpdate(Completed, path, "", env.thumbnailSize, env.now), Event(d, Completed, Some(path), None, env.now);
    var w2 := MarkAndPublish(w, id, uP, eP, env.now);
    assert TryBlock(w, d, env) == (MarkAndPublish(w2, id, uC, eC, env.now), None) by {
      assert GenerateStage(w2, d, env) == CompleteStage(w2, d, env, path);
    }
    MarkAndPublishTwice(w, id, uP, eP, uC, eC, env.now);
  }

  /** The message the try block throws with when none of the store or publish calls
      fails but the kind is unsupported, the processor throws, or the thumbnail cannot
      be stat-ed. */
  function ProcessorMessage(d: ThumbnailJobData, env: WorkerEnv): string
    requires !Supported(d) || Generate in env.faults || StatThumbnail in env.faults
  {
    if !Supported(d) then UnsupportedFileType(d.fileType)
    else if Generate in env.faults then env.faults[Generate]
    else env.faults[StatThumbnail]
  }

  /** When the kind is unsupported, the processor throws or the stat fails, and the
      store and the publisher work, the record goes `processing` then `failed` with
      the message if it is non-empty, keeps any earlier thumbnail, the events are
      `processing` then `failed` with the message, and `processJob` returns
      normally. */
  lemma ProcessorFailurePath(w: WorkerState, d: ThumbnailJobData, env: WorkerEnv)
    requires WellFormed(w.store) && d.jobId in w.store.records
    requires env.faults.Keys <= {Generate, StatThumbnail}
    requires !Supported(d) || Generate in env.faults || StatThumbnail in env.faults
    ensures ProcessSpec(w, d, env).1 == Ok(())
    ensures var w' := ProcessSpec(w, d, env).0;
      var message := ProcessorMessage(d, env);
      var j := w.store.records[d.jobId];
      && w'.events == w.events + [Event(d, Processing, None, None, env.now), Event(d, Failed, None, Some(message), env.now)]
      && w'.store.records == w.store.records[d.jobId := w'.store.records[d.jobId]]
      && w'.store.records[d.jobId].status == StatusName(Failed)
      && w'.store.records[d.jobId].thumbnailPath == j.thumbnailPath
      && w'.store.records[d.jobId].completedAt == j.completedAt
      && w'.store.records[d.jobId].errorMessage == (if message == "" then j.errorMessage else Some(message))
      && w'.store.history[d.jobId] == w.store.history[d.jobId] + [StatusName(Processing), StatusName(Failed)]
  {
    var id := d.jobId;
    var message := ProcessorMessage(d, env);
    var uP, eP := BuildUpdate(Processing, "", "", 0, env.now), Event(d, Processing, None, None, env.now);
    var uF, eF := BuildUpdate(Failed, "", message, 0, env.now), Event(d, Failed, None, Some(message), env.now);
    ProcessorFailureShape(w, d, env);
    MarkAndPublishTwice(w, id, uP, eP, uF, eF, env.now);
    FailureKeepsThumbnail(ApplyUpdate(w.store.records[id], uP, env.now), message, env.now);
  }

  /** The calls `processJob` makes when the kind is unsupported, the processor
      throws or the stat fails, and nothing else fails. */
  lemma ProcessorFailureShape(w: WorkerState, d: ThumbnailJobData, env: WorkerEnv)
    requires WellFormed(w.store)
    requires env.faults.Keys <= {Generate, StatThumbnail}
    requires !Supported(d) || Generate in env.faults || StatThumbnail in env.faults
    ensures var w2 := MarkAndPublish(w, d.jobId, BuildUpdate(Processing, "", "", 0, env.now),
                                     Event(d, Processing, None, None, env.now), env.now);
      var message := ProcessorMessage(d, env);
      ProcessSpec(w, d, env)
      == (MarkAndPublish(w2, d.jobId, BuildUpdate(Failed, "", message, 0, env.now),
                         Event(d, Failed, None, Some(message), env.now), env.now), Ok(()))
  {
    var w2 := MarkAndPublish(w, d.jobId, BuildUpdate(Processing, "", "", 0, env.now),
                             Event(d, Processing, None, None, env.now), env.now);
    assert GenerateStage(w2, d, env) == (w2, Some(ProcessorMessage(d, env)));
  }

  /** `processJob` returns normally whenever the catch block's own two calls work:
      every error of the try block is caught. */
  lemma CaughtUnlessCatchFails(w: WorkerState, d: ThumbnailJobData, env: WorkerEnv)
    requires WellFormed(w.store)
    requires MarkFailed !in env.faults && PublishFailed !in env.faults
    ensures ProcessSpec(w, d, env).1 == Ok(())
  {
  }

  /** The steps the store and the publisher take part in. */
  const StoreAndPublishSteps: set<Step> :=
    {MarkProcessing, PublishProcessing, MarkCompleted, PublishCompleted, MarkFailed, PublishFailed}

  /** When no store or publish call fails, one task publishes exactly two events for
      its job: `processing`, then `completed` with the thumbnail path or `failed` with
      the processor's message (even when its record is gone). */
  lemma TwoEventsPerTask(w: WorkerState, d: ThumbnailJobData, env: WorkerEnv)
    requires WellFormed(w.store)
    requires env.faults.Keys !! StoreAndPublishSteps
    ensures var (w', r) := ProcessSpec(w, d, env);
      && r == Ok(())
      && w'.events == w.events + [
           Event(d, Processing, None, None, env.now),
           if Supported(d) && Generate !in env.faults && StatThumbnail !in env.faults
           then Event(d, Completed, Some(ThumbnailPathFor(d, env)), None, env.now)
           else Event(d, Failed, None, Some(ProcessorMessage(d, env)), env.now)]
  {
    var w2 := MarkAndPublish(w, d.jobId, BuildUpdate(Processing, "", "", 0, env.now),
                             Event(d, Processing, None, None, env.now), env.now);
    if Supported(d) && Generate !in env.faults && StatThumbnail !in env.faults {
      assert GenerateStage(w2, d, env) == CompleteStage(w2, d, env, ThumbnailPathFor(d, env));
    } else {
      assert GenerateStage(w2, d, env) == (w2, Some(ProcessorMessage(d, env)));
    }
  }

  /** The statuses the worker writes. */
  predicate WorkerStatus(s: string) {
    s == StatusName(Processing) || s == StatusName(Completed) || s == StatusName(Failed)
  }

  /** `st'` differs from `st` only in record `id`, whose history grew by at most `n`
      worker statuses. */
  predicate WritesWithin(st: StoreState, st': StoreState, id: JobId, n: nat) {
    && st'.records.Keys == st.records.Keys
    && (forall i :: i in st.records && i != id ==> st'.records[i] == st.records[i])
    && st'.history.Keys == st.history.Keys
    && (forall i :: i in st.history && i != id ==> st'.history[i] == st.history[i])
    && (id in st.history ==>
          && |st.history[id]| <= |st'.history[id]| <= |st.history[id]| + n
          && st'.history[id][..|st.history[id]|] == st.history[id]
          && (forall k :: |st.history[id]| <= k < |st'.history[id]| ==> WorkerStatus(st'.history[id][k])))
    && (id !in st.records ==> st' == st)
  }

  lemma WritesNothing(st: StoreState, id: JobId)
    ensures WritesWithin(st, st, id, 0)
  {
  }

  /** One update with a worker status is a write within one. */
  lemma UpdateWrites(st: StoreState, id: JobId, u: Update, now: nat, fails: bool)
    requires WellFormed(st) && WorkerStatus(u.status)
    ensures var st' := UpdateSpec(st, id, u, now, fails).0;
      && WritesWithin(st, st', id, 1)
      && (!fails && id in st.records ==> |st'.history[id]| == |st.history[id]| + 1)
  {
    var st' := UpdateSpec(st, id, u, now, fails).0;
    if !fails && id in st.records {
      assert st'.history[id] == st.history[id] + [u.status];
    }
  }

  /** Writes within `n` then within `m` are writes within `n + m`. */
  lemma {:induction false} WritesCompose(st1: StoreState, st2: StoreState, st3: StoreState, id: JobId, n: nat, m: nat)
    requires WritesWithin(st1, st2, id, n) && WritesWithin(st2, st3, id, m)
    ensures WritesWithin(st1, st3, id, n + m)
  {
    if id in st1.history {
      var h1, h2, h3 := st1.history[id], st2.history[id], st3.history[id];
      assert h3[..|h1|] == h2[..|h2|][..|h1|] by {
        assert h3[..|h2|] == h2;
      }
      forall k | |h1| <= k < |h3|
        ensures WorkerStatus(h3[k])
      {
        if k < |h2| {
          assert h3[k] == h3[..|h2|][k];
        }
      }
    }
  }

  lemma CompleteWrites(w: WorkerState, d: ThumbnailJobData, env: WorkerEnv, thumbnailPath: string)
    requires WellFormed(w.store)
    ensures WritesWithin(w.store, CompleteStage(w, d, env, thumbnailPath).0.store, d.jobId, 1)
  {
    UpdateWrites(w.store, d.jobId, BuildUpdate(Completed, thumbnailPath, "", env.thumbnailSize, env.now),
                 env.now, MarkCompleted in env.faults);
  }

  lemma GenerateWrites(w: WorkerState, d: ThumbnailJobData, env: WorkerEnv)
    requires WellFormed(w.store)
    ensures WritesWithin(w.store, GenerateStage(w, d, env).0.store, d.jobId, 1)
  {
    var kind := KindOf(d.fileType);
    if kind.Some? && RunProcessor(kind.value, d, ThumbnailFilename(d), env).Ok? && StatThumbnail !in env.faults {
      CompleteWrites(w, d, env, RunProcessor(kind.value, d, ThumbnailFilename(d), env).value);
    }
  }

  /** The try block's writes: at most `processing` and `completed`, to the task's
      record only; `processing` is written whenever its write succeeds. */
  lemma TryBlockWrites(w: WorkerState, d: ThumbnailJobData, env: WorkerEnv)
    requires WellFormed(w.store)
    ensures var w' := TryBlock(w, d, env).0;
      && WritesWithin(w.store, w'.store, d.jobId, 2)
      && (d.jobId in w.store.records && MarkProcessing !in env.faults ==>
            |w'.store.history[d.jobId]| > |w.store.history[d.jobId]|)
  {
    var u := BuildUpdate(Processing, "", "", 0, env.now);
    var st1 := UpdateSpec(w.store, d.jobId, u, env.now, MarkProcessing in env.faults).0;
    UpdateWrites(w.store, d.jobId, u, env.now, MarkProcessing in env.faults);
    if MarkProcessing in env.faults {
      WritesNothing(w.store, d.jobId);
    } else if PublishProcessing !in env.faults {
      var w2 := WorkerState(st1, w.events + [Event(d, Processing, None, None, env.now)]);
      GenerateWrites(w2, d, env);
      WritesCompose(w.store, st1, GenerateStage(w2, d, env).0.store, d.jobId, 1, 1);
    }
  }

  /** The catch block's writes: at most `failed`, to the task's record only. */
  lemma CatchBlockWrites(w: WorkerState, d: ThumbnailJobData, env: WorkerEnv, message: string)
    requires WellFormed(w.store)
    ensures WritesWithin(w.store, CatchBlock(w, d, env, message).0.store, d.jobId, 1)
  {
    UpdateWrites(w.store, d.jobId, BuildUpdate(Failed, "", message, 0, env.now), env.now, MarkFailed in env.faults);
  }

  /** The worker touches only the task's record and appends at most three statuses
      to its history, each `processing`, `completed` or `failed`; whatever status the
      record had before (it is never read), a record whose `processing` write
      succeeds ends in one of those three. */
  lemma WritesOnlyWorkerStatuses(w: WorkerState, d: ThumbnailJobData, env: WorkerEnv)
    requires WellFormed(w.store)
    ensures var w' := ProcessSpec(w, d, env).0;
      && WritesWithin(w.store, w'.store, d.jobId, 3)
      && (d.jobId in w.store.records && MarkProcessing !in env.faults ==> WorkerStatus(w'.store.records[d.jobId].status))
  {
    var id := d.jobId;
    var (w1, thrown) := TryBlock(w, d, env);
    TryBlockWrites(w, d, env);
    var w' := ProcessSpec(w, d, env).0;
    if thrown.Some? {
      CatchBlockWrites(w1, d, env, thrown.value);
      WritesCompose(w.store, w1.store, w'.store, id, 2, 1);
    } else {
      WritesNothing(w1.store, id);
      WritesCompose(w.store, w1.store, w'.store, id, 2, 1);
    }
    if id in w.store.records && MarkProcessing !in env.faults {
      LastWrittenStatus(w.store, w'.store, id, 3);
    }
  }

  /** A live record whose history the worker extended carries the last status the
      worker wrote. */
  lemma LastWrittenStatus(st: StoreState, st': StoreState, id: JobId, n: nat)
    requires WellFormed(st) && WellFormed(st') && WritesWithin(st, st', id, n) && id in st.records
    requires |st'.history[id]| > |st.history[id]|
    ensures WorkerStatus(st'.records[id].status)
  {
    var h := st'.history[id];
    assert h[|h| - 1] == st'.records[id].status;
  }

  /** The worker writes only statuses the schema allows: a collection whose statuses
      are all valid stays so after `processJob`, even though its updates skip
      validation. */
  lemma ProcessKeepsStatusesValid(w: WorkerState, d: ThumbnailJobData, env: WorkerEnv)
    requires WellFormed(w.store) && StatusesValid(w.store)
    ensures StatusesValid(ProcessSpec(w, d, env).0.store)
  {
    WritesOnlyWorkerStatuses(w, d, env);
    WritesKeepStatusesValid(w.store, ProcessSpec(w, d, env).0.store, d.jobId, 3);
  }

  /** Writes of worker statuses keep every status valid. */
  lemma WritesKeepStatusesValid(st: StoreState, st': StoreState, id: JobId, n: nat)
    requires WellFormed(st) && WellFormed(st') && WritesWithin(st, st', id, n) && StatusesValid(st)
    ensures StatusesValid(st')
  {
    if id in st.records {
      if |st'.history[id]| > |st.history[id]| {
        LastWrittenStatus(st, st', id, n);
      } else {
        assert st'.history[id] == st'.history[id][..|st.history[id]|];
      }
    }
  }

  /** The same over a whole run of the consumer. */
  lemma {:induction false} RunKeepsStatusesValid(w: WorkerState, tasks: seq<Task>, envs: seq<WorkerEnv>)
    requires WellFormed(w.store) && |envs| == |tasks| && StatusesValid(w.store)
    ensures StatusesValid(RunTasks(w, tasks, envs).store)
    decreases |tasks|
  {
    if tasks != [] {
      ProcessKeepsStatusesValid(w, tasks[0].data, envs[0]);
      RunKeepsStatusesValid(ProcessSpec(w, tasks[0].data, envs[0]).0, tasks[1..], envs[1..]);
    }
  }

  /** When only publishing `completed` fails, the record is marked `completed` and
      then `failed`: it ends `failed` yet keeps its thumbnail and completion time, and
      the only events are `processing` and `failed`. */
  lemma LostCompletionEvent(w: WorkerState, d: ThumbnailJobData, env: WorkerEnv)
    requires WellFormed(w.store) && d.jobId in w.store.records && Supported(d)
    requires env.faults.Keys == {PublishCompleted}
    ensures ProcessSpec(w, d, env).1 == Ok(())
    ensures var w' := ProcessSpec(w, d, env).0;
      var path := ThumbnailPathFor(d, env);
      var message := env.faults[PublishCompleted];
      && w'.events == w.events + [Event(d, Processing, None, None, env.now), Event(d, Failed, None, Some(message), env.now)]
      && w'.store.records[d.jobId].status == StatusName(Failed)
      && w'.store.records[d.jobId].thumbnailPath == Some(path)
      && w'.store.records[d.jobId].completedAt == Some(env.now)
      && w'.store.history[d.jobId]
         == w.store.history[d.jobId] + [StatusName(Processing), StatusName(Completed), StatusName(Failed)]
  {
    var id := d.jobId;
    var path := ThumbnailPathFor(d, env);
    var message := env.faults[PublishCompleted];
    var uP, eP := BuildUpdate(Processing, "", "", 0, env.now), Event(d, Processing, None, None, env.now);
    var uC := BuildUpdate(Completed, path, "", env.thumbnailSize, env.now);
    var uF, eF := BuildUpdate(Failed, "", message, 0, env.now), Event(d, Failed, None, Some(message), env.now);
    LostCompletionShape(w, d, env);
    MarkUpdateMark(w, id, uP, eP, uC, uF, eF, env.now);
    var j1 := ApplyUpdate(w.store.records[id], uP, env.now);
    CompletionSetsThumbnail(j1, path, env.thumbnailSize, env.now);
    FailureKeepsThumbnail(ApplyUpdate(j1, uC, env.now), message, env.now);
  }

  /** The calls `processJob` makes when only publishing `completed` fails. */
  lemma LostCompletionShape(w: WorkerState, d: ThumbnailJobData, env: WorkerEnv)
    requires WellFormed(w.store) && Supported(d)
    requires env.faults.Keys == {PublishCompleted}
    ensures var w2 := MarkAndPublish(w, d.jobId, BuildUpdate(Processing, "", "", 0, env.now),
                                     Event(d, Processing, None, None, env.now), env.now);
      var uC := BuildUpdate(Completed, ThumbnailPathFor(d, env), "", env.thumbnailSize, env.now);
      var w3 := w2.(store := UpdateSpec(w2.store, d.jobId, uC, env.now, false).0);
      var message := env.faults[PublishCompleted];
      ProcessSpec(w, d, env)
      == (MarkAndPublish(w3, d.jobId, BuildUpdate(Failed, "", message, 0, env.now),
                         Event(d, Failed, None, Some(message), env.now), env.now), Ok(()))
  {
    var path := ThumbnailPathFor(d, env);
    var w2 := MarkAndPublish(w, d.jobId, BuildUpdate(Processing, "", "", 0, env.now),
                             Event(d, Processing, None, None, env.now), env.now);
    assert GenerateStage(w2, d, env) == CompleteStage(w2, d, env, path);
  }

  /** A published write, an unpublished write, then a published write, on a live
      record. */
  lemma MarkUpdateMark(w: WorkerState, id: JobId, u1: Update, e1: StatusEvent, u2: Update, u3: Update, e3: StatusEvent, now: nat)
    requires WellFormed(w.store) && id in w.store.records
    ensures var w2 := MarkAndPublish(w, id, u1, e1, now);
      var w3 := w2.(store := UpdateSpec(w2.store, id, u2, now, false).0);
      var w4 := MarkAndPublish(w3, id, u3, e3, now);
      && w4.store.records[id] == ApplyUpdate(ApplyUpdate(ApplyUpdate(w.store.records[id], u1, now), u2, now), u3, now)
      && w4.store.history[id] == w.store.history[id] + [u1.status, u2.status, u3.status]
      && w4.events == w.events + [e1, e3]
  {
    var w2 := MarkAndPublish(w, id, u1, e1, now);
    var w3 := w2.(store := UpdateSpec(w2.store, id, u2, now, false).0);
    MarkAndPublishOnce(w, id, u1, e1, now);
    MarkAndPublishOnce(w3, id, u3, e3, now);
    AppendThree(w.store.history[id], u1.status, u2.status, u3.status);
    assert w.events + [e1] + [e3] == w.events + [e1, e3];
  }

  lemma AppendThree<T>(h: seq<T>, a: T, b: T, c: T)
    ensures h + [a] + [b] + [c] == h + [a, b, c]
  {
  }

  /** The consumer's run over `tasks` in delivery order, each with its own
      environment. */
  function RunTasks(w: WorkerState, tasks: seq<Task>, envs: seq<WorkerEnv>): (w': WorkerState)
    requires WellFormed(w.store) && |envs| == |tasks|
    ensures WellFormed(w'.store) && w'.store.nextId == w.store.nextId
    ensures w'.store.records.Keys == w.store.records.Keys
    decreases |tasks|
  {
    if tasks == [] then w
    else RunTasks(ProcessSpec(w, tasks[0].data, envs[0]).0, tasks[1..], envs[1..])
  }

  /** The published status messages, oldest first. */
  class EventLog {
    var events: seq<StatusEvent>

    constructor ()
      ensures events == []
    {
      events := [];
    }

    /** `publishStatusUpdate(e)` on the job-status channel; `fails` stands for a lost
        connection, which publishes nothing. */
    method Publish(e: StatusEvent, fails: bool) returns (r: Result<(), string>)
      modifies this
      ensures r.Ok? <==> !fails
      ensures events == if fails then old(events) else old(events) + [e]
    {
      if fails {
        return Err(ConnectionError);
      }
      events := events + [e];
      r := Ok(());
    }
  }

  class ThumbnailWorker {
    const store: JobCollection
    const log: EventLog
    const queue: WorkQueue

    constructor (store: JobCollection, log: EventLog, queue: WorkQueue)
      ensures this.store == store && this.log == log && this.queue == queue
    {
      this.store := store;
      this.log := log;
      this.queue := queue;
    }

    ghost function State(): WorkerState
      reads store, log
    {
      WorkerState(store.State(), log.events)
    }

    /** `updateJobStatus`: builds the update field by field and applies it. */
    method UpdateJobStatus(jobId: JobId, status: JobStatus, thumbnailPath: string, errorMessage: string,
                           thumbnailSize: nat, now: nat, fails: bool) returns (r: Result<bool, string>)
      requires store.Valid()
      modifies store
      ensures store.Valid()
      ensures (store.State(), r)
              == UpdateSpec(old(store.State()), jobId, BuildUpdate(status, thumbnailPath, errorMessage, thumbnailSize, now), now, fails)
    {
      var update := Update(StatusName(status), None, None, None, None);
      if thumbnailPath != "" {
        update := update.(thumbnailPath := Some(thumbnailPath), completedAt := Some(now));
      }
      if thumbnailSize != 0 {
        update := update.(thumbnailSize := Some(thumbnailSize));
      }
      if errorMessage != "" {
        update := update.(errorMessage := Some(errorMessage));
      }
      r := store.FindByIdAndUpdate(jobId, update, now, fails);
    }

    /** `publishStatus`. */
    method PublishStatus(d: ThumbnailJobData, status: JobStatus, thumbnailPath: Option<string>,
                         errorMessage: Option<string>, now: nat, fails: bool) returns (r: Result<(), string>)
      modifies log
      ensures r.Ok? <==> !fails
      ensures log.events == if fails then old(log.events) else old(log.events) + [Event(d, status, thumbnailPath, errorMessage, now)]
    {
      r := log.Publish(StatusEvent(d.jobId, d.userId, StatusName(status), thumbnailPath, errorMessage, now), fails);
    }

    /** The `try` block. */
    method RunTry(d: ThumbnailJobData, env: WorkerEnv) returns (thrown: Option<string>)
      requires store.Valid() && store != log as object
      modifies store, log
      ensures store.Valid()
      ensures (State(), thrown) == TryBlock(old(State()), d, env)
    {
      var u := UpdateJobStatus(d.jobId, Processing, "", "", 0, env.now, MarkProcessing in env.faults);
      if u.Err? {
        return Some(env.faults[MarkProcessing]);
      }
      var p := PublishStatus(d, Processing, None, None, env.now, PublishProcessing in env.faults);
      if p.Err? {
        return Some(env.faults[PublishProcessing]);
      }
      var filename := ThumbnailFilename(d);
      var generated: Result<string, string>;
      if d.fileType == FileTypeName(Image) {
        generated := RunProcessor(Image, d, filename, env);
      } else if d.fileType == FileTypeName(Video) {
        generated := RunProcessor(Video, d, filename, env);
      } else {
        return Some(UnsupportedFileType(d.fileType));
      }
      if generated.Err? {
        return Some(generated.error);
      }
      var thumbnailPath := generated.value;
      if StatThumbnail in env.faults {
        return Some(env.faults[StatThumbnail]);
      }
      var thumbnailSize := env.thumbnailSize;
      u := UpdateJobStatus(d.jobId, Completed, thumbnailPath, "", thumbnailSize, env.now, MarkCompleted in env.faults);
      if u.Err? {
        return Some(env.faults[MarkCompleted]);
      }
      p := PublishStatus(d, Completed, Some(thumbnailPath), None, env.now, PublishCompleted in env.faults);
      if p.Err? {
        return Some(env.faults[PublishCompleted]);
      }
      thrown := None;
    }

    /** `processJob(d)`. */
    method ProcessJob(d: ThumbnailJobData, env: WorkerEnv) returns (r: Result<(), string>)
      requires store.Valid() && store != log as object
      modifies store, log
      ensures store.Valid()
      ensures (State(), r) == ProcessSpec(old(State()), d, env)
    {
      var thrown := RunTry(d, env);
      if thrown.None? {
        return Ok(());
      }
      var message := thrown.value;
      var u := UpdateJobStatus(d.jobId, Failed, "", message, 0, env.now, MarkFailed in env.faults);
      if u.Err? {
        return Err(env.faults[MarkFailed]);
      }
      var p := PublishStatus(d, Failed, None, Some(message), env.now, PublishFailed in env.faults);
      if p.Err? {
        return Err(env.faults[PublishFailed]);
      }
      r := Ok(());
    }

    /** The queue's consumer with a concurrency of one: the next task's payload goes
        to `processJob`. */
    method ConsumeNext(env: WorkerEnv) returns (r: Option<Result<(), string>>)
      requires store.Valid() && queue.Valid() && store != log as object
      modifies store, log, queue
      ensures store.Valid() && queue.Valid()
      ensures old(queue.tasks) == [] ==> r.None? && State() == old(State()) && queue.tasks == []
      ensures old(queue.tasks) != [] ==>
        && queue.tasks == old(queue.tasks)[1..]
        && r.Some?
        && (State(), r.value) == ProcessSpec(old(State()), old(queue.tasks)[0].data, env)
    {
      var t := queue.Take();
      if t.None? {
        return None;
      }
      var outcome := ProcessJob(t.value.data, env);
      r := Some(outcome);
    }
  }
}
