/** A job's whole life across the two services: the upload creates it `pending`
    and marks it `queued` with its task enqueued; the worker then takes the tasks
    in order and moves each job to `processing`, then `completed` or `failed`. */
module Lifecycle {
  import opened Wrappers
  import opened JobModel
  import opened JobStore
  import opened QueueService
  import opened UploadService
  import opened Worker

  /** The statuses `processJob` appends to a job's history when no store or
      publish call fails: `processing`, then `completed` or `failed`. */
  predicate Finished(h: seq<string>, h': seq<string>) {
    && |h'| == |h| + 2 && h'[..|h|] == h
    && h'[|h|] == StatusName(Processing)
    && (h'[|h| + 1] == StatusName(Completed) || h'[|h| + 1] == StatusName(Failed))
  }

  /** None of the store or publish calls of a run fails. */
  predicate StoreAndPublishWork(envs: seq<WorkerEnv>) {
    forall k :: 0 <= k < |envs| ==> envs[k].faults.Keys !! StoreAndPublishSteps
  }

  /** A step outside the store and publish calls is the processor run or the stat. */
  lemma OtherSteps(faults: map<Step, string>)
    requires faults.Keys !! StoreAndPublishSteps
    ensures faults.Keys <= {Generate, StatThumbnail}
    ensures Generate !in faults && StatThumbnail !in faults ==> faults == map[]
  {
    forall x | x in faults.Keys
      ensures x == Generate || x == StatThumbnail
    {
      assert x !in StoreAndPublishSteps;
    }
  }

  /** With the store and the publisher working, one task on a live record appends
      `processing` and then `completed` or `failed` to its own history, and no other
      live record's history changes. */
  lemma OneTaskFinishes(w: WorkerState, d: ThumbnailJobData, env: WorkerEnv)
    requires WellFormed(w.store) && d.jobId in w.store.records
    requires env.faults.Keys !! StoreAndPublishSteps
    ensures var w' := ProcessSpec(w, d, env).0;
      && Finished(w.store.history[d.jobId], w'.store.history[d.jobId])
      && (forall i :: i in w.store.records && i != d.jobId ==> w'.store.history[i] == w.store.history[i])
  {
    WritesOnlyWorkerStatuses(w, d, env);
    OtherSteps(env.faults);
    if Supported(d) && Generate !in env.faults && StatThumbnail !in env.faults {
      HappyPath(w, d, env);
    } else {
      ProcessorFailurePath(w, d, env);
    }
  }

  /** Task ids strictly increase along the queue, and each task carries its own id
      in its payload. */
  predicate OrderedTasks(tasks: seq<Task>) {
    && (forall k :: 0 <= k < |tasks| ==> tasks[k].data.jobId == tasks[k].id)
    && (forall j, k :: 0 <= j < k < |tasks| ==> tasks[j].id < tasks[k].id)
  }

  /** No task of `tasks` is for `id`. */
  predicate NotTasked(tasks: seq<Task>, id: JobId) {
    forall k :: 0 <= k < |tasks| ==> tasks[k].id != id
  }

  /** Every task's history went from `h` to `h'` as `Finished` says, and every
      live id without a task kept its history. */
  predicate AllFinished(h: map<JobId, seq<string>>, h': map<JobId, seq<string>>, live: set<JobId>, tasks: seq<Task>) {
    && (forall k :: 0 <= k < |tasks| ==> tasks[k].id in h && tasks[k].id in h' && Finished(h[tasks[k].id], h'[tasks[k].id]))
    && (forall i :: i in live && NotTasked(tasks, i) ==> i in h && i in h' && h'[i] == h[i])
  }

  /** The first task's step followed by the rest's run is the whole run. */
  lemma {:induction false} AllFinishedStep(h0: map<JobId, seq<string>>, h1: map<JobId, seq<string>>, h2: map<JobId, seq<string>>,
                                           live: set<JobId>, tasks: seq<Task>)
    requires tasks != [] && OrderedTasks(tasks)
    requires (forall k :: 0 <= k < |tasks| ==> tasks[k].id in live) && live <= h0.Keys
    requires tasks[0].id in h1 && Finished(h0[tasks[0].id], h1[tasks[0].id])
    requires forall i :: i in live && i != tasks[0].id ==> i in h1 && h1[i] == h0[i]
    requires AllFinished(h1, h2, live, tasks[1..])
    ensures AllFinished(h0, h2, live, tasks)
  {
    var rest := tasks[1..];
    assert NotTasked(rest, tasks[0].id) by {
      forall j | 0 <= j < |rest| ensures rest[j].id != tasks[0].id {
        assert rest[j] == tasks[j + 1];
      }
    }
    forall k | 0 <= k < |tasks|
      ensures tasks[k].id in h0 && tasks[k].id in h2 && Finished(h0[tasks[k].id], h2[tasks[k].id])
    {
      if k > 0 {
        assert tasks[k] == rest[k - 1];
        assert tasks[0].id < tasks[k].id;
      } else {
        assert tasks[0].id in live;
      }
    }
    forall i | i in live && NotTasked(tasks, i)
      ensures i in h0 && i in h2 && h2[i] == h0[i]
    {
      assert tasks[0].id != i;
      assert NotTasked(rest, i) by {
        forall j | 0 <= j < |rest| ensures rest[j].id != i {
          assert rest[j] == tasks[j + 1];
        }
      }
    }
  }

  /** What holds of a run's tasks and environments holds of their tails. */
  lemma TailReady(tasks: seq<Task>, envs: seq<WorkerEnv>, live: set<JobId>)
    requires tasks != [] && |envs| == |tasks| && OrderedTasks(tasks) && StoreAndPublishWork(envs)
    requires forall k :: 0 <= k < |tasks| ==> tasks[k].id in live
    ensures OrderedTasks(tasks[1..]) && StoreAndPublishWork(envs[1..])
    ensures forall k :: 0 <= k < |tasks[1..]| ==> tasks[1..][k].id in live
  {
    forall k | 0 <= k < |tasks[1..]| ensures tasks[1..][k].id in live {
      assert tasks[1..][k] == tasks[k + 1];
    }
  }

  /** Running the consumer over distinct tasks whose records are live, with the
      store and the publisher working: every task's job gets exactly `processing`
      and then `completed` or `failed` appended to its history, and every other
      live job's history is untouched. */
  lemma {:induction false} RunFinishesEveryTask(w: WorkerState, tasks: seq<Task>, envs: seq<WorkerEnv>)
    requires WellFormed(w.store) && |envs| == |tasks|
    requires OrderedTasks(tasks) && StoreAndPublishWork(envs)
    requires forall k :: 0 <= k < |tasks| ==> tasks[k].id in w.store.records
    ensures AllFinished(w.store.history, RunTasks(w, tasks, envs).store.history, w.store.records.Keys, tasks)
    decreases |tasks|
  {
    if tasks == [] {
      assert RunTasks(w, tasks, envs) == w;
    } else {
      var w1 := ProcessSpec(w, tasks[0].data, envs[0]).0;
      OneTaskFinishes(w, tasks[0].data, envs[0]);
      var rest := tasks[1..];
      TailReady(tasks, envs, w.store.records.Keys);
      RunFinishesEveryTask(w1, rest, envs[1..]);
      assert RunTasks(w, tasks, envs) == RunTasks(w1, rest, envs[1..]);
      AllFinishedStep(w.store.history, w1.store.history, RunTasks(w1, rest, envs[1..]).store.history,
                      w.store.records.Keys, tasks);
    }
  }

  /** The four statuses a job goes through when nothing fails along the way. */
  predicate FullHistory(h: seq<string>) {
    && |h| == 4
    && h[..3] == [StatusName(Pending), StatusName(Queued), StatusName(Processing)]
    && (h[3] == StatusName(Completed) || h[3] == StatusName(Failed))
  }

  /** Job `id` went `pending`, `queued`, `processing`, then `completed` or
      `failed`, and its record is in that last status. */
  predicate FullLife(st: StoreState, id: JobId) {
    && id in st.records && id in st.history
    && FullHistory(st.history[id])
    && st.records[id].status == st.history[id][3]
  }

  /** A queued job's history, once the worker has finished with it. */
  lemma QueuedThenFinished(h: seq<string>, h': seq<string>)
    requires h == [StatusName(Pending), StatusName(Queued)] && Finished(h, h')
    ensures FullHistory(h')
  {
    assert h'[..3] == h'[..2] + [h'[2]];
  }

  /** The tasks an upload adds to an empty queue are in id order and carry their
      own ids. */
  lemma AddedTasksOrdered(s: Ingestion, tasks: seq<Task>, userId: string, n: nat)
    requires s.tasks == [] && TasksAdded(s, tasks, userId, n)
    ensures OrderedTasks(tasks)
    ensures forall k :: 0 <= k < |tasks| ==> tasks[k].id == s.store.nextId + k
  {
  }

  /** The worker's run over queued jobs `base`, `base + 1`, ... whose tasks are in
      that order takes each of them from `queued` to `completed` or `failed`. */
  lemma {:induction false} QueuedJobsFinish(st: StoreState, events: seq<StatusEvent>, tasks: seq<Task>,
                                            envs: seq<WorkerEnv>, base: JobId)
    requires WellFormed(st) && |envs| == |tasks| && OrderedTasks(tasks) && StoreAndPublishWork(envs)
    requires forall k :: 0 <= k < |tasks| ==> tasks[k].id == base + k
    requires forall id :: base <= id < base + |tasks| ==>
      id in st.records && id in st.history && st.history[id] == [StatusName(Pending), StatusName(Queued)]
    ensures forall id :: base <= id < base + |tasks| ==> FullLife(RunTasks(WorkerState(st, events), tasks, envs).store, id)
  {
    var w := WorkerState(st, events);
    RunFinishesEveryTask(w, tasks, envs);
    var w' := RunTasks(w, tasks, envs);
    forall id | base <= id < base + |tasks|
      ensures FullLife(w'.store, id)
    {
      assert tasks[id - base].id == id;
      QueuedThenFinished(st.history[id], w'.store.history[id]);
    }
  }

  /** The upload enqueues a job's task before it saves the record `queued`, and the
      worker runs on its own. When the worker takes the task in between and
      succeeds, the upload's save still passes validation and overwrites
      `completed`: the record stays `queued` for good, with its thumbnail and
      completion time set and no task left to move it on. */
  lemma WorkerBetweenEnqueueAndSave(st: StoreState, events: seq<StatusEvent>, userId: string, p: Part,
                                    path: string, fileType: FileType, env: WorkerEnv)
    requires WellFormed(st) && userId != "" && path != ""
    requires p.FilePart? && p.filename != "" && p.mimetype != ""
    requires env.faults == map[]
    ensures var id := st.nextId;
      var d := PayloadFor(id, userId, p, path, fileType);
      var store1 := CreateSpec(st, NewRecordFields(userId, p, path, fileType), p.env.now, false).0;
      var w := ProcessSpec(WorkerState(store1, events), d, env).0;
      var (store2, saved) := SaveStatusSpec(w.store, id, StatusName(Queued), p.env.now, false);
      && saved == Ok(())
      && store2.records[id].status == StatusName(Queued)
      && store2.records[id].thumbnailPath == Some(ThumbnailPathFor(d, env))
      && store2.records[id].completedAt == Some(env.now)
      && store2.history[id] == [StatusName(Pending), StatusName(Processing), StatusName(Completed), StatusName(Queued)]
  {
    var id := st.nextId;
    var d := PayloadFor(id, userId, p, path, fileType);
    var j := AcceptedRecord(id, userId, p, path, fileType);
    CreateAccepted(st, userId, p, path, fileType);
    CreatedThenQueued(st, userId, p, path, fileType);
    var store1 := CreateSpec(st, NewRecordFields(userId, p, path, fileType), p.env.now, false).0;
    assert store1.records[id] == j && Conforms(j);
    assert store1.history[id] == [StatusName(Pending)];
    assert Supported(d);
    HappyPath(WorkerState(store1, events), d, env);
    HappyPathRecord(WorkerState(store1, events), d, env);
    CompletedRecordRequeued(j, ThumbnailPathFor(d, env), env.thumbnailSize, env.now);
    var w := ProcessSpec(WorkerState(store1, events), d, env).0;
    RequeueAfterCompletion(w.store, id, ThumbnailPathFor(d, env), env.now, p.env.now);
  }

  /** Saving `queued` over a completed record that would still conform succeeds and
      keeps the thumbnail and the completion time. */
  lemma RequeueAfterCompletion(st: StoreState, id: JobId, path: string, doneAt: nat, now: nat)
    requires WellFormed(st) && id in st.records && Conforms(st.records[id].(status := StatusName(Queued)))
    requires st.records[id].thumbnailPath == Some(path) && st.records[id].completedAt == Some(doneAt)
    requires st.history[id] == [StatusName(Pending)] + [StatusName(Processing), StatusName(Completed)]
    ensures var (st2, saved) := SaveStatusSpec(st, id, StatusName(Queued), now, false);
      && saved == Ok(())
      && st2.records[id].status == StatusName(Queued)
      && st2.records[id].thumbnailPath == Some(path)
      && st2.records[id].completedAt == Some(doneAt)
      && st2.history[id] == [StatusName(Pending), StatusName(Processing), StatusName(Completed), StatusName(Queued)]
  {
  }

  /** A conforming record marked `processing`, then `completed`, still conforms once
      its status is set back to `queued`. */
  lemma CompletedRecordRequeued(j: Job, path: string, size: nat, now: nat)
    requires Conforms(j)
    ensures var uP := BuildUpdate(Processing, "", "", 0, now);
      var uC := BuildUpdate(Completed, path, "", size, now);
      Conforms(ApplyUpdate(ApplyUpdate(j, uP, now), uC, now).(status := StatusName(Queued)))
  {
    var uP := BuildUpdate(Processing, "", "", 0, now);
    var uC := BuildUpdate(Completed, path, "", size, now);
    ApplyUpdateConforms(j, uP, now);
    ApplyUpdateConforms(ApplyUpdate(j, uP, now), uC, now);
    StatusNameRoundTrip(Queued, "");
  }

  /** End to end: an upload with no failing step into an empty queue, followed by
      the worker taking every task with the store and the publisher working, gives
      each accepted file's job (under the consecutive ids from `nextId` on) the
      history `pending`, `queued`, `processing`, then `completed` or `failed`, and
      leaves its record in that last status. */
  lemma {:induction false} UploadThenWork(s: Ingestion, userId: string, uploadDir: string, parts: seq<Part>,
                                          events: seq<StatusEvent>, envs: seq<WorkerEnv>)
    requires WellFormed(s.store) && s.tasks == [] && PartsOk(parts) && NoFaults(parts) && userId != ""
    requires |envs| == |IngestParts(s, userId, uploadDir, parts).tasks| && StoreAndPublishWork(envs)
    ensures var r := IngestParts(s, userId, uploadDir, parts);
      var w' := RunTasks(WorkerState(r.store, events), r.tasks, envs);
      && w'.store.nextId == s.store.nextId + |AcceptedFiles(parts)|
      && forall id :: s.store.nextId <= id < w'.store.nextId ==> FullLife(w'.store, id)
  {
    var r := IngestParts(s, userId, uploadDir, parts);
    NoFaultIngestion(s, userId, uploadDir, parts);
    AddedTasksOrdered(s, r.tasks, userId, |AcceptedFiles(parts)|);
    QueuedJobsFinish(r.store, events, r.tasks, envs, s.store.nextId);
  }
}
