/** The Job record: the five statuses, the two media kinds, the stored record with
    its optional fields, and what the schema checks when a record is created or saved. */
module JobModel {
  import opened Wrappers

  /** Record ids; the store hands them out and never reuses one. */
  type JobId = nat

  datatype JobStatus = Pending | Queued | Processing | Completed | Failed

  function StatusName(s: JobStatus): string {
    match s
    case Pending => "pending"
    case Queued => "queued"
    case Processing => "processing"
    case Completed => "completed"
    case Failed => "failed"
  }

  /** The status enum of the schema. */
  const StatusNames: seq<string> := ["pending", "queued", "processing", "completed", "failed"]

  /** The status a record gets when `create` is given none. */
  const DefaultStatus: JobStatus := Pending

  function ParseStatus(name: string): (r: Option<JobStatus>)
    ensures r.Some? ==> StatusName(r.value) == name
  {
    if name == "pending" then Some(Pending)
    else if name == "queued" then Some(Queued)
    else if name == "processing" then Some(Processing)
    else if name == "completed" then Some(Completed)
    else if name == "failed" then Some(Failed)
    else None
  }

  /** Status names and the enum correspond one to one. */
  lemma StatusNameRoundTrip(s: JobStatus, name: string)
    ensures ParseStatus(StatusName(s)) == Some(s)
    ensures StatusName(s) in StatusNames
    ensures ParseStatus(name).Some? <==> name in StatusNames
  {
  }

  datatype FileType = Image | Video

  function FileTypeName(t: FileType): string {
    match t
    case Image => "image"
    case Video => "video"
  }

  /** The fileType enum of the schema. */
  const FileTypeNames: seq<string> := ["image", "video"]

  /** A stored job record. `status` and `fileType` hold whatever string was last
      written: the worker updates the same collection through a schema without enums. */
  datatype Job = Job(
    id: JobId,
    userId: string,
    originalFilename: string,
    originalPath: string,
    thumbnailPath: Option<string>,
    thumbnailSize: Option<nat>,
    fileType: string,
    mimeType: string,
    fileSize: nat,
    status: string,
    errorMessage: Option<string>,
    completedAt: Option<nat>,
    createdAt: nat,
    updatedAt: nat)

  /** The fields a caller passes to `create`; `status` may be left out. */
  datatype NewJob = NewJob(
    userId: string,
    originalFilename: string,
    originalPath: string,
    fileType: string,
    mimeType: string,
    fileSize: nat,
    status: Option<string>)

  /** What the schema's validators accept: the required strings are non-empty
      (a required string rejects ""), and both enums hold. */
  predicate Conforms(j: Job) {
    && j.userId != ""
    && j.originalFilename != ""
    && j.originalPath != ""
    && j.mimeType != ""
    && j.fileType in FileTypeNames
    && j.status in StatusNames
  }

  const ValidationFailed: string := "Job validation failed"

  /** `JobModel.create(fields)` given the id and clock reading the store supplies:
      the new record with the status defaulted, the optional fields absent and both
      timestamps at `now`, or the validation error. */
  function Create(id: JobId, fields: NewJob, now: nat): (r: Result<Job, string>)
    ensures r.Ok? ==> Conforms(r.value) && r.value.id == id
  {
    var job := Job(id, fields.userId, fields.originalFilename, fields.originalPath,
                   None, None, fields.fileType, fields.mimeType, fields.fileSize,
                   fields.status.GetOr(StatusName(DefaultStatus)), None, None, now, now);
    if Conforms(job) then Ok(job) else Err(ValidationFailed)
  }

  /** A record created without a status starts at `pending`; one created with a
      status keeps it; the optional fields are absent until written. */
  lemma CreateDefaults(id: JobId, fields: NewJob, now: nat)
    requires Create(id, fields, now).Ok?
    ensures var j := Create(id, fields, now).value;
      && (fields.status.None? ==> j.status == "pending")
      && (fields.status.Some? ==> j.status == fields.status.value)
      && j.thumbnailPath.None? && j.thumbnailSize.None?
      && j.errorMessage.None? && j.completedAt.None?
      && j.createdAt == now && j.updatedAt == now
  {
  }

  /** `create` fails exactly when a required string is empty or an enum is violated. */
  lemma CreateRejects(id: JobId, fields: NewJob, now: nat)
    ensures Create(id, fields, now).Err? <==>
      || fields.userId == "" || fields.originalFilename == ""
      || fields.originalPath == "" || fields.mimeType == ""
      || fields.fileType !in FileTypeNames
      || (fields.status.Some? && fields.status.value !in StatusNames)
  {
  }
}
