/**
 * crawler/views.py: the task endpoints that do more than list and filter.
 * Creating a task saves it and enqueues it; `start` enqueues a pending
 * task; `cancel` cancels a pending or running one; `statistics` counts the
 * tasks per status. The job queue is the ghost sequence `queue` of the
 * database.
 */
module CrawlerViews {
  import opened Wrappers
  import opened MusicModels
  import opened CrawlerModels
  import opened Store

  /** The HTTP outcome: the success message, 400, or 404 from `get_object`. */
  datatype Reply = Done | BadRequest | NotFound

  /**
   * `perform_create`: the validated descriptor is saved as a new row under
   * the next id, and that id is enqueued once. The serializer has already
   * checked that the platform exists and that the type is one of the
   * choices.
   */
  method PerformCreate(db: Store.Database, name: string, platform: string, taskType: string, targetUrl: string,
                       searchKeyword: string, maxPages: Option<nat>, delaySeconds: Option<nat>, now: Time)
    returns (id: TaskId)
    requires db.Valid()
    requires platform in db.platforms && IsTaskTypeChoice(taskType)
    modifies db
    ensures db.Valid()
    ensures id == old(db.nextTaskId) && id !in old(db.tasks)
    ensures db.State() == old(db.State()).(
              tasks := old(db.tasks)[id := NewTask(name, platform, taskType, targetUrl, searchKeyword,
                                                   maxPages, delaySeconds, now)],
              nextTaskId := old(db.nextTaskId) + 1,
              queue := old(db.queue) + [id])
  {
    id := db.nextTaskId;
    db.tasks := db.tasks[id := NewTask(name, platform, taskType, targetUrl, searchKeyword, maxPages, delaySeconds, now)];
    db.nextTaskId := db.nextTaskId + 1;
    db.queue := db.queue + [id];
  }

  /** `start`: only a pending task is enqueued; its status is left to the job. */
  method Start(db: Store.Database, id: TaskId) returns (reply: Reply)
    requires db.Valid()
    modifies db
    ensures db.Valid()
    ensures id !in old(db.tasks) ==> reply == NotFound && db.State() == old(db.State())
    ensures id in old(db.tasks) && old(db.tasks)[id].status == Pending ==>
              reply == Done && db.State() == old(db.State()).(queue := old(db.queue) + [id])
    ensures id in old(db.tasks) && old(db.tasks)[id].status != Pending ==>
              reply == BadRequest && db.State() == old(db.State())
  {
    if id !in db.tasks {
      return NotFound;
    }
    if db.tasks[id].status == Pending {
      db.queue := db.queue + [id];
      reply := Done;
    } else {
      reply := BadRequest;
    }
  }

  /** The statuses `cancel` accepts. */
  predicate Cancellable(st: TaskStatus) {
    st == Pending || st == Running
  }

  /** `cancel`: a pending or running task becomes cancelled; any other is left as it is. */
  method Cancel(db: Store.Database, id: TaskId) returns (reply: Reply)
    requires db.Valid()
    modifies db
    ensures db.Valid()
    ensures id !in old(db.tasks) ==> reply == NotFound && db.State() == old(db.State())
    ensures id in old(db.tasks) && Cancellable(old(db.tasks)[id].status) ==>
              reply == Done
              && db.State() == old(db.State()).(tasks := old(db.tasks)[id := old(db.tasks)[id].(status := Cancelled)])
    ensures id in old(db.tasks) && !Cancellable(old(db.tasks)[id].status) ==>
              reply == BadRequest && db.State() == old(db.State())
  {
    if id !in db.tasks {
      return NotFound;
    }
    var t := db.tasks[id];
    if Cancellable(t.status) {
      db.tasks := db.tasks[id := t.(status := Cancelled)];
      reply := Done;
    } else {
      reply := BadRequest;
    }
  }

  /** The ids of the tasks whose status is one of `sts`. */
  function WithStatus(tasks: map<TaskId, CrawlTask>, sts: set<TaskStatus>): set<TaskId> {
    set id | id in tasks && tasks[id].status in sts
  }

  datatype Stats = Stats(total: nat, pending: nat, running: nat, completed: nat, failed: nat, cancelled: nat)

  /** `statistics`: the number of tasks, and the number in each status; the five counts add up to the total. */
  function Statistics(tasks: map<TaskId, CrawlTask>): (st: Stats)
    ensures st.total == |tasks|
    ensures st.pending + st.running + st.completed + st.failed + st.cancelled == st.total
  {
    StatusPartition(tasks);
    Stats(|tasks|, |WithStatus(tasks, {Pending})|, |WithStatus(tasks, {Running})|, |WithStatus(tasks, {Completed})|,
          |WithStatus(tasks, {Failed})|, |WithStatus(tasks, {Cancelled})|)
  }

  /** Every task is in exactly one of the five statuses. */
  lemma StatusPartition(tasks: map<TaskId, CrawlTask>)
    ensures |WithStatus(tasks, {Pending})| + |WithStatus(tasks, {Running})| + |WithStatus(tasks, {Completed})|
            + |WithStatus(tasks, {Failed})| + |WithStatus(tasks, {Cancelled})| == |tasks|
  {
    SplitStatus(tasks, {Pending}, {Running});
    assert {Pending} + {Running} == {Pending, Running};
    SplitStatus(tasks, {Completed}, {Failed});
    assert {Completed} + {Failed} == {Completed, Failed};
    SplitStatus(tasks, {Pending, Running}, {Completed, Failed});
    assert {Pending, Running} + {Completed, Failed} == {Pending, Running, Completed, Failed};
    SplitStatus(tasks, {Pending, Running, Completed, Failed}, {Cancelled});
    assert {Pending, Running, Completed, Failed} + {Cancelled} == {Pending, Running, Completed, Failed, Cancelled};
    assert WithStatus(tasks, {Pending, Running, Completed, Failed, Cancelled}) == tasks.Keys by {
      forall id | id in tasks.Keys
        ensures tasks[id].status in {Pending, Running, Completed, Failed, Cancelled}
      {
        match tasks[id].status
        case Pending =>
        case Running =>
        case Completed =>
        case Failed =>
        case Cancelled =>
      }
    }
  }

  /** Tasks in disjoint status sets are counted separately. */
  lemma SplitStatus(tasks: map<TaskId, CrawlTask>, a: set<TaskStatus>, b: set<TaskStatus>)
    requires a * b == {}
    ensures |WithStatus(tasks, a + b)| == |WithStatus(tasks, a)| + |WithStatus(tasks, b)|
  {
    var x, y := WithStatus(tasks, a), WithStatus(tasks, b);
    assert WithStatus(tasks, a + b) == x + y;
    assert x * y == {} by {
      forall id | id in x
        ensures id !in y
      {
        assert tasks[id].status !in a * b;
      }
    }
  }
}
