/** The work queue: tasks named `generate-thumbnail`, keyed by the job id, all added
    with the same priority, and delivered to a single consumer. */
module QueueService {
  import opened Wrappers
  import opened JobModel

  /** The payload of a thumbnail task. */
  datatype ThumbnailJobData = ThumbnailJobData(
    jobId: JobId,
    userId: string,
    originalPath: string,
    fileType: string,
    mimeType: string)

  /** A waiting task: its name, its id, its payload and its priority number. */
  datatype Task = Task(name: string, id: JobId, data: ThumbnailJobData, priority: nat)

  const TaskName: string := "generate-thumbnail"
  /** The priority every task is added with. */
  const TaskPriority: nat := 1

  /** The task `enqueueJob(d)` adds. */
  function TaskFor(d: ThumbnailJobData): (t: Task)
    ensures t.name == TaskName && t.id == d.jobId && t.data == d && t.priority == TaskPriority
  {
    Task(TaskName, d.jobId, d, TaskPriority)
  }

  /** The queue's choice of the next task: the earliest of those with the smallest
      priority number. */
  function NextIndex(tasks: seq<Task>): (k: nat)
    requires tasks != []
    ensures k < |tasks|
    ensures forall j :: 0 <= j < |tasks| ==> tasks[k].priority <= tasks[j].priority
    ensures forall j :: 0 <= j < k ==> tasks[j].priority > tasks[k].priority
  {
    if |tasks| == 1 then 0
    else
      var k := NextIndex(tasks[1..]) + 1;
      if tasks[0].priority <= tasks[k].priority then 0 else k
  }

  function RemoveAt(tasks: seq<Task>, k: nat): (r: seq<Task>)
    requires k < |tasks|
    ensures |r| == |tasks| - 1
  {
    tasks[..k] + tasks[k + 1..]
  }

  /** The order in which one sequential consumer receives every waiting task: each
      of them exactly once. */
  function DeliveryOrder(tasks: seq<Task>): (r: seq<Task>)
    ensures |r| == |tasks|
    ensures multiset(r) == multiset(tasks)
    decreases |tasks|
  {
    if tasks == [] then []
    else
      var k := NextIndex(tasks);
      assert tasks == tasks[..k] + [tasks[k]] + tasks[k + 1..];
      [tasks[k]] + DeliveryOrder(RemoveAt(tasks, k))
  }

  predicate UniformPriority(tasks: seq<Task>) {
    forall i :: 0 <= i < |tasks| ==> tasks[i].priority == TaskPriority
  }

  /** With one priority for all, no task overtakes another: delivery order is
      arrival order, whoever the tasks belong to. */
  lemma {:induction false} DeliveryIsArrivalOrder(tasks: seq<Task>)
    requires UniformPriority(tasks)
    ensures DeliveryOrder(tasks) == tasks
    decreases |tasks|
  {
    if tasks != [] {
      var k := NextIndex(tasks);
      assert k == 0;
      assert RemoveAt(tasks, 0) == tasks[1..];
      DeliveryIsArrivalOrder(tasks[1..]);
    }
  }

  /** The tasks of one user, in queue order. */
  function ForUser(tasks: seq<Task>, userId: string): (r: seq<Task>)
    ensures |r| <= |tasks|
    ensures forall i :: 0 <= i < |r| ==> r[i].data.userId == userId
  {
    if tasks == [] then []
    else (if tasks[0].data.userId == userId then [tasks[0]] else []) + ForUser(tasks[1..], userId)
  }

  lemma {:induction false} ForUserAppend(a: seq<Task>, b: seq<Task>, userId: string)
    ensures ForUser(a + b, userId) == ForUser(a, userId) + ForUser(b, userId)
    decreases |a|
  {
    if a == [] {
      assert a + b == b;
    } else {
      assert (a + b)[0] == a[0] && (a + b)[1..] == a[1..] + b;
      ForUserAppend(a[1..], b, userId);
    }
  }

  /** One user's tasks reach the consumer in the order they were enqueued; this
      follows from the global arrival order, not from any grouping by user. */
  lemma PerUserOrder(tasks: seq<Task>, userId: string)
    requires UniformPriority(tasks)
    ensures ForUser(DeliveryOrder(tasks), userId) == ForUser(tasks, userId)
  {
    DeliveryIsArrivalOrder(tasks);
  }

  /** The tasks `enqueueJob` adds for a list of payloads, in order. */
  function TasksFor(ds: seq<ThumbnailJobData>): (r: seq<Task>)
    ensures |r| == |ds|
    ensures forall i :: 0 <= i < |ds| ==> r[i] == TaskFor(ds[i])
  {
    if ds == [] then [] else [TaskFor(ds[0])] + TasksFor(ds[1..])
  }

  /** Enqueuing n jobs of one user adds exactly n waiting tasks carrying that user. */
  lemma {:induction false} EnqueueManyForUser(tasks: seq<Task>, ds: seq<ThumbnailJobData>, userId: string)
    requires forall i :: 0 <= i < |ds| ==> ds[i].userId == userId
    ensures ForUser(tasks + TasksFor(ds), userId) == ForUser(tasks, userId) + TasksFor(ds)
    decreases |ds|
  {
    ForUserAppend(tasks, TasksFor(ds), userId);
    if ds != [] {
      var t := TasksFor(ds);
      assert t == [TaskFor(ds[0])] + TasksFor(ds[1..]);
      ForUserAppend([TaskFor(ds[0])], TasksFor(ds[1..]), userId);
      EnqueueManyForUser([], ds[1..], userId);
      assert [] + TasksFor(ds[1..]) == TasksFor(ds[1..]);
    }
  }

  /** The waiting tasks of the thumbnail queue. */
  class WorkQueue {
    var tasks: seq<Task>

    ghost predicate Valid()
      reads this
    {
      UniformPriority(tasks)
    }

    constructor ()
      ensures Valid() && tasks == []
    {
      tasks := [];
    }

    /** `enqueueJob(d)`: adds the `generate-thumbnail` task keyed by `d.jobId`;
        `fails` stands for a lost connection, which adds nothing. */
    method EnqueueJob(d: ThumbnailJobData, fails: bool) returns (r: Result<(), string>)
      requires Valid()
      modifies this
      ensures Valid()
      ensures r.Ok? <==> !fails
      ensures tasks == if fails then old(tasks) else old(tasks) + [TaskFor(d)]
    {
      if fails {
        return Err("connection error");
      }
      tasks := tasks + [TaskFor(d)];
      r := Ok(());
    }

    /** Hands the next task to the consumer, if there is one. */
    method Take() returns (t: Option<Task>)
      requires Valid()
      modifies this
      ensures Valid()
      ensures old(tasks) == [] ==> t.None? && tasks == []
      ensures old(tasks) != [] ==> t == Some(old(tasks)[0]) && tasks == old(tasks)[1..]
      ensures old(tasks) != [] ==> [t.value] + DeliveryOrder(tasks) == DeliveryOrder(old(tasks))
    {
      if tasks == [] {
        return None;
      }
      var k := NextIndex(tasks);
      assert k == 0;
      t := Some(tasks[k]);
      tasks := RemoveAt(tasks, k);
    }
  }
}
