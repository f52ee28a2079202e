/** The job routes: the caller's jobs newest first, one page at a time; one job of
    the caller's by id; and deletion of one job of the caller's. Every route is
    scoped to the authenticated user's id. */
module JobRoutes {
  import opened Wrappers
  import opened JobModel
  import opened JobStore

  const DefaultPage: nat := 1
  const DefaultLimit: nat := 50
  const JobNotFound: AppError := AppError(404, "Job not found")
  const DeletedMessage: string := "Job deleted successfully"

  /** `{jobs, total}` of the list route. */
  datatype JobList = JobList(jobs: seq<Job>, total: nat)

  /** `{success, message}` of the delete route. */
  datatype DeleteResponse = DeleteResponse(success: bool, message: string)

  predicate Owns(records: map<JobId, Job>, id: JobId, userId: string) {
    id in records && records[id].userId == userId
  }

  /** The caller's ids below `n`, ascending. */
  function OwnedIds(records: map<JobId, Job>, userId: string, n: nat): (r: seq<JobId>)
    ensures forall k :: 0 <= k < |r| ==> r[k] < n && Owns(records, r[k], userId)
    ensures forall i, k :: 0 <= i < k < |r| ==> r[i] < r[k]
    ensures forall id :: 0 <= id < n && Owns(records, id, userId) ==> id in r
  {
    if n == 0 then []
    else OwnedIds(records, userId, n - 1) + (if Owns(records, n - 1, userId) then [n - 1] else [])
  }

  /** The records of `ids`, in that order. */
  function JobsOf(records: map<JobId, Job>, ids: seq<JobId>): (r: seq<Job>)
    requires forall k :: 0 <= k < |ids| ==> ids[k] in records
    ensures |r| == |ids|
    ensures forall k :: 0 <= k < |ids| ==> r[k] == records[ids[k]]
  {
    if ids == [] then [] else [records[ids[0]]] + JobsOf(records, ids[1..])
  }

  /** Newest first: `createdAt` never increases along the list. */
  predicate NewestFirst(s: seq<Job>) {
    forall i, k :: 0 <= i < k < |s| ==> s[i].createdAt >= s[k].createdAt
  }

  /** `j` placed before the first element no newer than it. */
  function InsertNewest(j: Job, s: seq<Job>): (r: seq<Job>)
    ensures multiset(r) == multiset(s) + multiset{j}
    ensures |r| == |s| + 1
  {
    if s == [] then [j]
    else if s[0].createdAt <= j.createdAt then [j] + s
    else
      assert s == [s[0]] + s[1..];
      [s[0]] + InsertNewest(j, s[1..])
  }

  lemma {:induction false} InsertNewestSorted(j: Job, s: seq<Job>)
    requires NewestFirst(s)
    ensures NewestFirst(InsertNewest(j, s))
  {
    if s != [] && s[0].createdAt > j.createdAt {
      InsertNewestSorted(j, s[1..]);
      var t := InsertNewest(j, s[1..]);
      forall k | 0 <= k < |t|
        ensures s[0].createdAt >= t[k].createdAt
      {
        assert t[k] in multiset(t);
        assert t[k] in multiset(s[1..]) || t[k] == j;
        if t[k] != j {
          var m :| 0 <= m < |s[1..]| && s[1..][m] == t[k];
          assert s[1..][m] == s[m + 1];
        }
      }
    }
  }

  /** `.sort({createdAt: -1})`: newest first, ties kept in the input order. */
  function SortNewestFirst(js: seq<Job>): (r: seq<Job>)
    ensures NewestFirst(r)
    ensures multiset(r) == multiset(js)
  {
    if js == [] then []
    else
      var rest := SortNewestFirst(js[1..]);
      InsertNewestSorted(js[0], rest);
      assert js == [js[0]] + js[1..];
      InsertNewest(js[0], rest)
  }

  /** Every record of the caller's, newest first. */
  function OwnedNewestFirst(st: StoreState, userId: string): seq<Job>
    requires WellFormed(st)
  {
    SortNewestFirst(JobsOf(st.records, OwnedIds(st.records, userId, st.nextId)))
  }

  /** The list holds exactly the caller's records: each listed job is the stored
      record under its own id and belongs to the caller, and each record of the
      caller's is listed. */
  lemma OwnedNewestFirstContents(st: StoreState, userId: string)
    requires WellFormed(st)
    ensures NewestFirst(OwnedNewestFirst(st, userId))
    ensures |OwnedNewestFirst(st, userId)| == |OwnedIds(st.records, userId, st.nextId)|
    ensures forall j :: j in OwnedNewestFirst(st, userId) ==>
              j.userId == userId && j.id in st.records && st.records[j.id] == j
    ensures forall id :: Owns(st.records, id, userId) ==> st.records[id] in OwnedNewestFirst(st, userId)
  {
    var ids := OwnedIds(st.records, userId, st.nextId);
    var js := JobsOf(st.records, ids);
    var all := OwnedNewestFirst(st, userId);
    assert multiset(all) == multiset(js);
    assert |all| == |multiset(all)| == |multiset(js)| == |js|;
    forall j | j in all
      ensures j.userId == userId && j.id in st.records && st.records[j.id] == j
    {
      assert j in multiset(js);
      var k :| 0 <= k < |js| && js[k] == j;
    }
    forall id | Owns(st.records, id, userId)
      ensures st.records[id] in all
    {
      var k :| 0 <= k < |ids| && ids[k] == id;
      assert js[k] == st.records[id];
      assert st.records[id] in multiset(js);
    }
  }

  /** The first index of page `page` of `limit` jobs. */
  function Skip(page: nat, limit: nat): nat
    requires page >= 1
  {
    (page - 1) * limit
  }

  /** `.skip(skip).limit(limit)` on `s`. */
  function Window(s: seq<Job>, skip: nat, limit: nat): (r: seq<Job>)
    ensures |r| <= limit
    ensures skip >= |s| ==> r == []
    ensures skip < |s| ==> |r| == if |s| - skip < limit then |s| - skip else limit
    ensures forall k :: 0 <= k < |r| ==> skip + k < |s| && r[k] == s[skip + k]
  {
    if skip >= |s| then []
    else if |s| - skip < limit then s[skip..]
    else s[skip..skip + limit]
  }

  /** A window of a newest-first list is newest first and holds only elements of
      the list. */
  lemma WindowOfNewestFirst(s: seq<Job>, skip: nat, limit: nat)
    requires NewestFirst(s)
    ensures NewestFirst(Window(s, skip, limit))
    ensures forall j :: j in Window(s, skip, limit) ==> j in s
  {
    var w := Window(s, skip, limit);
    forall j | j in w
      ensures j in s
    {
      var k :| 0 <= k < |w| && w[k] == j;
    }
  }

  /** Position `k` of the list lies in the window that starts at or before it and
      is long enough to reach it. */
  lemma WindowHolds(s: seq<Job>, skip: nat, limit: nat, k: nat)
    requires skip <= k < skip + limit && k < |s|
    ensures s[k] in Window(s, skip, limit)
  {
    var w := Window(s, skip, limit);
    assert w[k - skip] == s[k];
  }

  lemma PageOfIndex(k: nat, limit: nat)
    requires limit >= 1
    ensures Skip(k / limit + 1, limit) <= k < Skip(k / limit + 1, limit) + limit
  {
    assert Skip(k / limit + 1, limit) == (k / limit) * limit;
  }

  /** `GET /api/jobs?page&limit`: the caller's page of jobs, newest first, and the
      number of all of the caller's jobs. */
  function ListJobs(st: StoreState, userId: string, page: Option<nat>, limit: Option<nat>): (r: JobList)
    requires WellFormed(st)
    requires page.GetOr(DefaultPage) >= 1 && limit.GetOr(DefaultLimit) >= 1
    ensures |r.jobs| <= limit.GetOr(DefaultLimit)
    ensures r.total == |OwnedIds(st.records, userId, st.nextId)|
  {
    var p, l := page.GetOr(DefaultPage), limit.GetOr(DefaultLimit);
    var all := OwnedNewestFirst(st, userId);
    OwnedNewestFirstContents(st, userId);
    JobList(Window(all, Skip(p, l), l), |all|)
  }

  /** A page holds at most `limit` of the caller's records, newest first, and
      `total` counts every record of the caller's whatever the page. */
  lemma ListJobsPage(st: StoreState, userId: string, page: Option<nat>, limit: Option<nat>)
    requires WellFormed(st)
    requires page.GetOr(DefaultPage) >= 1 && limit.GetOr(DefaultLimit) >= 1
    ensures var r := ListJobs(st, userId, page, limit);
      && |r.jobs| <= limit.GetOr(DefaultLimit)
      && r.total == |OwnedIds(st.records, userId, st.nextId)|
      && NewestFirst(r.jobs)
      && (forall j :: j in r.jobs ==> j.userId == userId && j.id in st.records && st.records[j.id] == j)
  {
    OwnedNewestFirstContents(st, userId);
    WindowOfNewestFirst(OwnedNewestFirst(st, userId), Skip(page.GetOr(DefaultPage), limit.GetOr(DefaultLimit)),
                        limit.GetOr(DefaultLimit));
  }

  /** Page `page` is the run of the full newest-first list that starts at position
      `(page - 1) * limit`, as long as `limit` allows and the list reaches. */
  lemma ListJobsPosition(st: StoreState, userId: string, page: nat, limit: nat)
    requires WellFormed(st) && page >= 1 && limit >= 1
    ensures var jobs := ListJobs(st, userId, Some(page), Some(limit)).jobs;
      var all := OwnedNewestFirst(st, userId);
      var skip := (page - 1) * limit;
      && |jobs| == (if skip >= |all| then 0 else if |all| - skip < limit then |all| - skip else limit)
      && (forall k :: 0 <= k < |jobs| ==> skip + k < |all| && jobs[k] == all[skip + k])
  {
    var skip := (page - 1) * limit;
    assert Skip(page, limit) == skip;
    var all := OwnedNewestFirst(st, userId);
    var w := Window(all, skip, limit);
    assert ListJobs(st, userId, Some(page), Some(limit)).jobs == w;
  }

  /** Without a query the first 50 are listed. */
  lemma ListJobsDefaults(st: StoreState, userId: string)
    requires WellFormed(st)
    ensures ListJobs(st, userId, None, None) == ListJobs(st, userId, Some(1), Some(50))
    ensures ListJobs(st, userId, None, None).jobs == Window(OwnedNewestFirst(st, userId), 0, 50)
  {
  }

  /** Each record of the caller's appears on some page, whatever the page size. */
  lemma EveryJobOnSomePage(st: StoreState, userId: string, id: JobId, limit: nat)
    requires WellFormed(st) && Owns(st.records, id, userId) && limit >= 1
    ensures exists page: nat :: page >= 1 && st.records[id] in ListJobs(st, userId, Some(page), Some(limit)).jobs
  {
    OwnedNewestFirstContents(st, userId);
    var all := OwnedNewestFirst(st, userId);
    var k :| 0 <= k < |all| && all[k] == st.records[id];
    var page := k / limit + 1;
    PageOfIndex(k, limit);
    WindowHolds(all, Skip(page, limit), limit, k);
    assert st.records[id] in ListJobs(st, userId, Some(page), Some(limit)).jobs;
  }

  /** `GET /api/jobs/:id`: the record if it exists and belongs to the caller. */
  function GetJob(st: StoreState, userId: string, id: JobId): (r: Outcome<Job>)
    ensures r.Ok? <==> Owns(st.records, id, userId)
    ensures r.Ok? ==> r.value == st.records[id]
    ensures r.Err? ==> r.error == JobNotFound
  {
    match FindOwned(st.records, id, userId)
    case Some(j) => Ok(j)
    case None => Err(JobNotFound)
  }

  /** Get and list agree: a record the caller can get is one the caller's listing
      holds, and the other way round. */
  lemma GetAgreesWithList(st: StoreState, userId: string, id: JobId)
    requires WellFormed(st)
    ensures GetJob(st, userId, id).Ok? <==>
              (id in st.records && st.records[id] in OwnedNewestFirst(st, userId))
  {
    OwnedNewestFirstContents(st, userId);
  }

  /** `DELETE /api/jobs/:id`: find the caller's record, then delete it. */
  function DeleteSpec(st: StoreState, userId: string, id: JobId): (res: (StoreState, Outcome<DeleteResponse>))
    requires WellFormed(st)
    ensures WellFormed(res.0)
    ensures StatusesValid(st) ==> StatusesValid(res.0)
  {
    if FindOwned(st.records, id, userId).None? then (st, Err(JobNotFound))
    else (DeleteOneSpec(st, id, userId).0, Ok(DeleteResponse(true, DeletedMessage)))
  }

  /** Deletion removes exactly the caller's record and nothing else; a missing or
      foreign record fails with 404 and changes nothing. */
  lemma DeleteRemovesExactly(st: StoreState, userId: string, id: JobId)
    requires WellFormed(st)
    ensures var (st', r) := DeleteSpec(st, userId, id);
      && (r.Ok? <==> Owns(st.records, id, userId))
      && (r.Ok? ==> r.value == DeleteResponse(true, DeletedMessage) && st'.records == st.records - {id})
      && (r.Err? ==> r.error == JobNotFound && st' == st)
      && st'.nextId == st.nextId
      && (forall i :: i in st.records && i != id ==> i in st'.records && st'.records[i] == st.records[i])
  {
  }

  /** Whether deletion succeeds depends on the ids and owners alone, not on any
      record's status or other fields. */
  lemma DeleteIgnoresStatus(st1: StoreState, st2: StoreState, userId: string, id: JobId)
    requires WellFormed(st1) && WellFormed(st2)
    requires st1.records.Keys == st2.records.Keys
    requires forall i :: i in st1.records ==> st1.records[i].userId == st2.records[i].userId
    ensures DeleteSpec(st1, userId, id).1 == DeleteSpec(st2, userId, id).1
    ensures DeleteSpec(st1, userId, id).0.records.Keys == DeleteSpec(st2, userId, id).0.records.Keys
  {
  }

  /** After a delete the record is gone: get fails with 404 and the listing no
      longer holds it, while every other record can still be got. */
  lemma DeleteThenGet(st: StoreState, userId: string, id: JobId, other: JobId, otherUser: string)
    requires WellFormed(st) && DeleteSpec(st, userId, id).1.Ok?
    requires other != id
    ensures GetJob(DeleteSpec(st, userId, id).0, userId, id) == Err(JobNotFound)
    ensures GetJob(DeleteSpec(st, userId, id).0, otherUser, other) == GetJob(st, otherUser, other)
  {
  }

  /** The delete handler over the shared collection. */
  method DeleteJob(store: JobCollection, userId: string, id: JobId) returns (r: Outcome<DeleteResponse>)
    requires store.Valid()
    modifies store
    ensures store.Valid()
    ensures (store.State(), r) == DeleteSpec(old(store.State()), userId, id)
  {
    var found := FindOwned(store.records, id, userId);
    if found.None? {
      return Err(JobNotFound);
    }
    var _ := store.DeleteOne(id, userId);
    r := Ok(DeleteResponse(true, DeletedMessage));
  }
}
