/** The job collection as an in-memory store: records by id, the operations the
    services call on it (create, save of a changed status, find-by-id-and-update,
    delete-one), and a record of every status each id has been given. */
module JobStore {
  import opened Wrappers
  import opened JobModel

  /** The `$set` document of a partial update: the status always, every other
      field only when present. */
  datatype Update = Update(
    status: string,
    thumbnailPath: Option<string>,
    completedAt: Option<nat>,
    thumbnailSize: Option<nat>,
    errorMessage: Option<string>)

  function Overwrite<T>(current: Option<T>, written: Option<T>): Option<T> {
    if written.Some? then written else current
  }

  /** The record after `$set`-ing `u` at time `now`. */
  function ApplyUpdate(j: Job, u: Update, now: nat): (r: Job)
    ensures r.id == j.id && r.status == u.status && r.updatedAt == now
  {
    j.(status := u.status,
       thumbnailPath := Overwrite(j.thumbnailPath, u.thumbnailPath),
       completedAt := Overwrite(j.completedAt, u.completedAt),
       thumbnailSize := Overwrite(j.thumbnailSize, u.thumbnailSize),
       errorMessage := Overwrite(j.errorMessage, u.errorMessage),
       updatedAt := now)
  }

  /** An update writes the status and the fields it carries, keeps every optional
      field it does not carry, and leaves every required field as it was. */
  lemma ApplyUpdateFrame(j: Job, u: Update, now: nat)
    ensures var r := ApplyUpdate(j, u, now);
      && r.status == u.status
      && (u.thumbnailPath.None? ==> r.thumbnailPath == j.thumbnailPath)
      && (u.thumbnailPath.Some? ==> r.thumbnailPath == u.thumbnailPath)
      && (u.completedAt.None? ==> r.completedAt == j.completedAt)
      && (u.completedAt.Some? ==> r.completedAt == u.completedAt)
      && (u.thumbnailSize.None? ==> r.thumbnailSize == j.thumbnailSize)
      && (u.thumbnailSize.Some? ==> r.thumbnailSize == u.thumbnailSize)
      && (u.errorMessage.None? ==> r.errorMessage == j.errorMessage)
      && (u.errorMessage.Some? ==> r.errorMessage == u.errorMessage)
      && r.(status := j.status, thumbnailPath := j.thumbnailPath, completedAt := j.completedAt,
            thumbnailSize := j.thumbnailSize, errorMessage := j.errorMessage, updatedAt := j.updatedAt) == j
  {
  }

  /** An update that writes a status of the enum keeps a record that satisfies the
      schema satisfying it. */
  lemma ApplyUpdateConforms(j: Job, u: Update, now: nat)
    requires Conforms(j) && u.status in StatusNames
    ensures Conforms(ApplyUpdate(j, u, now))
  {
  }

  /** The collection: the records by id, the next id to hand out, and for every id
      handed out the statuses it has been given, oldest first. */
  datatype StoreState = StoreState(records: map<JobId, Job>, nextId: JobId, history: map<JobId, seq<string>>)

  const EmptyStore: StoreState := StoreState(map[], 0, map[])

  /** Ids are below `nextId` and match their records; every live record has a
      history whose last entry is its current status. */
  predicate WellFormed(st: StoreState) {
    && (forall id :: id in st.records ==>
          id < st.nextId && st.records[id].id == id && id in st.history
          && |st.history[id]| > 0 && st.history[id][|st.history[id]| - 1] == st.records[id].status)
    && (forall id :: id in st.history ==> id < st.nextId)
  }

  /** Every stored status is one the schema's enum allows. */
  predicate StatusesValid(st: StoreState) {
    forall id :: id in st.records ==> st.records[id].status in StatusNames
  }

  const ConnectionError: string := "connection error"
  const DocumentNotFound: string := "No document found for query"

  /** `JobModel.create`: a fresh id, the record created as the schema dictates and
      its first status recorded; `fails` stands for a lost connection. */
  function CreateSpec(st: StoreState, fields: NewJob, now: nat, fails: bool): (res: (StoreState, Result<Job, string>))
    requires WellFormed(st)
    ensures WellFormed(res.0)
    ensures res.1.Ok? ==> var j := res.1.value;
      && j.id == st.nextId && j.id !in st.records
      && res.0.records == st.records[j.id := j]
      && res.0.history == st.history[j.id := [j.status]]
    ensures res.1.Err? ==> res.0 == st
    ensures StatusesValid(st) ==> StatusesValid(res.0)
  {
    if fails then (st, Err(ConnectionError))
    else match Create(st.nextId, fields, now)
      case Err(e) => (st, Err(e))
      case Ok(j) =>
        (StoreState(st.records[j.id := j], st.nextId + 1, st.history[j.id := [j.status]]), Ok(j))
  }

  /** `doc.status = s; await doc.save()`: the stored record gets the new status if it
      still exists and passes validation. */
  function SaveStatusSpec(st: StoreState, id: JobId, status: string, now: nat, fails: bool): (res: (StoreState, Result<(), string>))
    requires WellFormed(st)
    ensures WellFormed(res.0)
    ensures res.1.Ok? <==> !fails && id in st.records && Conforms(st.records[id].(status := status))
    ensures res.1.Ok? ==>
      && res.0.records == st.records[id := st.records[id].(status := status, updatedAt := now)]
      && res.0.history == st.history[id := st.history[id] + [status]]
      && res.0.nextId == st.nextId
    ensures res.1.Err? ==> res.0 == st
    ensures StatusesValid(st) ==> StatusesValid(res.0)
  {
    if fails then (st, Err(ConnectionError))
    else if id !in st.records then (st, Err(DocumentNotFound))
    else
      var j := st.records[id].(status := status, updatedAt := now);
      if !Conforms(j) then (st, Err(ValidationFailed))
      else (st.(records := st.records[id := j], history := st.history[id := st.history[id] + [status]]), Ok(()))
  }

  /** `findByIdAndUpdate(id, u)`: no validation runs; a missing id changes nothing and
      reports `false`. */
  function UpdateSpec(st: StoreState, id: JobId, u: Update, now: nat, fails: bool): (res: (StoreState, Result<bool, string>))
    requires WellFormed(st)
    ensures WellFormed(res.0)
    ensures res.1 == (if fails then Err(ConnectionError) else Ok(id in st.records))
    ensures res.1 == Ok(true) ==>
      && res.0.records == st.records[id := ApplyUpdate(st.records[id], u, now)]
      && res.0.history == st.history[id := st.history[id] + [u.status]]
      && res.0.nextId == st.nextId
    ensures res.1 != Ok(true) ==> res.0 == st
  {
    if fails then (st, Err(ConnectionError))
    else if id !in st.records then (st, Ok(false))
    else
      (st.(records := st.records[id := ApplyUpdate(st.records[id], u, now)],
           history := st.history[id := st.history[id] + [u.status]]), Ok(true))
  }

  /** `findByIdAndUpdate` runs no validation, so it keeps every status valid only
      when the status it writes is one of the enum's. */
  lemma UpdateKeepsStatusesValid(st: StoreState, id: JobId, u: Update, now: nat, fails: bool)
    requires WellFormed(st) && StatusesValid(st)
    ensures StatusesValid(UpdateSpec(st, id, u, now, fails).0) <==> u.status in StatusNames || id !in st.records || fails
  {
    if !fails && id in st.records {
      assert UpdateSpec(st, id, u, now, fails).0.records[id].status == u.status;
    }
  }

  /** `findOne({ _id: id, userId })`. */
  function FindOwned(records: map<JobId, Job>, id: JobId, userId: string): (r: Option<Job>)
    ensures r.Some? <==> id in records && records[id].userId == userId
    ensures r.Some? ==> r.value == records[id]
  {
    if id in records && records[id].userId == userId then Some(records[id]) else None
  }

  /** `deleteOne({ _id: id, userId })`: removes the record only if both match. */
  function DeleteOneSpec(st: StoreState, id: JobId, userId: string): (res: (StoreState, nat))
    requires WellFormed(st)
    ensures WellFormed(res.0)
    ensures res.1 == (if FindOwned(st.records, id, userId).Some? then 1 else 0)
    ensures res.0.records == if res.1 == 1 then st.records - {id} else st.records
    ensures res.0.nextId == st.nextId && res.0.history == st.history
    ensures StatusesValid(st) ==> StatusesValid(res.0)
  {
    if FindOwned(st.records, id, userId).Some? then (st.(records := st.records - {id}), 1) else (st, 0)
  }

  /** The in-memory job collection shared by the API and the worker. */
  class JobCollection {
    var records: map<JobId, Job>
    var nextId: JobId
    ghost var history: map<JobId, seq<string>>

    ghost function State(): StoreState
      reads this
    {
      StoreState(records, nextId, history)
    }

    ghost predicate Valid()
      reads this
    {
      WellFormed(State())
    }

    constructor ()
      ensures Valid() && State() == EmptyStore
    {
      records := map[];
      nextId := 0;
      history := map[];
    }

    method Create(fields: NewJob, now: nat, fails: bool) returns (r: Result<Job, string>)
      requires Valid()
      modifies this
      ensures Valid()
      ensures (State(), r) == CreateSpec(old(State()), fields, now, fails)
    {
      if fails {
        return Err(ConnectionError);
      }
      ghost var st := State();
      r := JobModel.Create(nextId, fields, now);
      if r.Ok? {
        var j := r.value;
        records := records[j.id := j];
        history := history[j.id := [j.status]];
        nextId := nextId + 1;
        assert (State(), r) == CreateSpec(st, fields, now, false);
      }
    }

    method SaveStatus(id: JobId, status: string, now: nat, fails: bool) returns (r: Result<(), string>)
      requires Valid()
      modifies this
      ensures Valid()
      ensures (State(), r) == SaveStatusSpec(old(State()), id, status, now, fails)
    {
      if fails {
        return Err(ConnectionError);
      }
      if id !in records {
        return Err(DocumentNotFound);
      }
      var j := records[id].(status := status, updatedAt := now);
      if !Conforms(j) {
        return Err(ValidationFailed);
      }
      records := records[id := j];
      history := history[id := history[id] + [status]];
      r := Ok(());
    }

    method FindByIdAndUpdate(id: JobId, u: Update, now: nat, fails: bool) returns (r: Result<bool, string>)
      requires Valid()
      modifies this
      ensures Valid()
      ensures (State(), r) == UpdateSpec(old(State()), id, u, now, fails)
    {
      if fails {
        return Err(ConnectionError);
      }
      if id !in records {
        return Ok(false);
      }
      records := records[id := ApplyUpdate(records[id], u, now)];
      history := history[id := history[id] + [u.status]];
      r := Ok(true);
    }

    method DeleteOne(id: JobId, userId: string) returns (deletedCount: nat)
      requires Valid()
      modifies this
      ensures Valid()
      ensures (State(), deletedCount) == DeleteOneSpec(old(State()), id, userId)
    {
      if id in records && records[id].userId == userId {
        records := records - {id};
        deletedCount := 1;
      } else {
        deletedCount := 0;
      }
    }
  }
}
