/**
 * The client-facing task administration of one queue: list its tasks,
 * enqueue one, delete one, and overwrite a task's status. `queue` is the
 * queue record the route's queue-loading middleware resolved. None of
 * these handlers catches exceptions: a failed store operation reaches the
 * web framework as an uncaught exception.
 */
module Queues {
  import opened Values
  import opened Store
  import Runner

  /** The tasks of the store that belong to the queue `queueId`, by id. */
  function TasksOf(s: Store, queueId: string): (r: map<string, Task>)
    ensures forall k :: k in r <==> k in s.tasks && s.tasks[k].queueId == queueId
    ensures forall k :: k in r ==> r[k] == s.tasks[k]
  {
    map k | k in s.tasks && s.tasks[k].queueId == queueId :: s.tasks[k]
  }

  /** `getTasks`: exactly the tasks whose `queueId` is the route's queue. */
  function GetTasks(s: Store, queue: Queue): (resp: Response)
    ensures resp.Json? && resp.status == 200 && resp.reply.TasksReply?
    ensures forall k :: k in resp.reply.tasks <==> k in s.tasks && s.tasks[k].queueId == queue.id
    ensures forall k :: k in resp.reply.tasks ==> resp.reply.tasks[k] == s.tasks[k]
  {
    Json(200, TasksReply(TasksOf(s, queue.id)))
  }

  /**
   * `createTask`: a new WAITING task with the given name and priority in the
   * route's queue, owned by no machine. No priority ceiling is checked here.
   * `newId` and `now` stand for the store's generated id and time stamp; a
   * clashing id violates the primary key.
   */
  function CreateTask(s: Store, queue: Queue, name: string, priority: int, newId: string, now: Millis): (out: Step)
    ensures newId in s.tasks ==> out == Step(Unhandled, s)
    ensures newId !in s.tasks ==>
      && out.store.tasks.Keys == s.tasks.Keys + {newId}
      && (forall k :: k in s.tasks ==> out.store.tasks[k] == s.tasks[k])
      && out.store.machines == s.machines && out.store.queues == s.queues
      && var t := out.store.tasks[newId];
        && out.response == Json(200, TaskReply(t))
        && t.id == newId && t.name == name && t.priority == priority && t.queueId == queue.id
        && t.status == WAITING && t.machineId == None
        && t.downloadInfo == None && t.convertInfo == None && t.uploadInfo == None
        && t.result == None && t.error == None
        && t.createdAt == now && t.updatedAt == now
  {
    if newId in s.tasks then Step(Unhandled, s)
    else
      var t := Task(newId, name, WAITING, priority, queue.id, None, None, None, None, None, None, now, now);
      Step(Json(200, TaskReply(t)), s.(tasks := s.tasks[newId := t]))
  }

  /** The `where: { id: taskId, queueId: queue.id }` of delete and status update matches a row. */
  predicate InQueue(s: Store, queue: Queue, taskId: string)
  {
    taskId in s.tasks && s.tasks[taskId].queueId == queue.id
  }

  /**
   * `deleteTask`: removes the task only when it is in the route's queue.
   * The handler returns no response; a missing row is an uncaught exception.
   */
  function DeleteTask(s: Store, queue: Queue, taskId: string): (out: Step)
    ensures !InQueue(s, queue, taskId) ==> out == Step(Unhandled, s)
    ensures InQueue(s, queue, taskId) ==>
      && out.response == NoResponse
      && out.store.tasks.Keys == s.tasks.Keys - {taskId}
      && (forall k :: k in out.store.tasks ==> out.store.tasks[k] == s.tasks[k])
      && out.store.machines == s.machines && out.store.queues == s.queues
  {
    if !InQueue(s, queue, taskId) then Step(Unhandled, s)
    else Step(NoResponse, s.(tasks := s.tasks - {taskId}))
  }

  /** The `status` of the request body, as the store's enumeration check sees it. */
  datatype StatusInput = NoStatus | ValidStatus(st: TaskStatus) | InvalidStatus

  function ReadStatus(f: Runner.BodyField): (r: StatusInput)
    requires !f.Unreadable?
    ensures r.NoStatus? <==> f.Undefined?
    ensures r.ValidStatus? <==> f.Given? && f.value.JStr? && ParseStatus(f.value.s).Some?
    ensures r.ValidStatus? ==> StatusName(r.st) == f.value.s
  {
    if f.Undefined? then NoStatus
    else if f.value.JStr? && ParseStatus(f.value.s).Some? then ValidStatus(ParseStatus(f.value.s).value)
    else InvalidStatus
  }

  /**
   * `updateTaskStatus`: sets the status of a task of the route's queue to
   * any of the six statuses, with no transition check; only `status`
   * changes. An undefined status leaves the row as it was; a value that is
   * not a status name is rejected by the store.
   */
  function UpdateTaskStatus(s: Store, queue: Queue, taskId: string, body: Option<Json>): (out: Step)
    ensures var f := Runner.ReadField(body, "status");
      f.Unreadable? || !InQueue(s, queue, taskId) || ReadStatus(f).InvalidStatus? ==> out == Step(Unhandled, s)
    ensures var f := Runner.ReadField(body, "status");
      !f.Unreadable? && InQueue(s, queue, taskId) && !ReadStatus(f).InvalidStatus? ==>
      && out.store.tasks.Keys == s.tasks.Keys
      && (forall k :: k in s.tasks && k != taskId ==> out.store.tasks[k] == s.tasks[k])
      && out.store.machines == s.machines && out.store.queues == s.queues
      && var t, t' := s.tasks[taskId], out.store.tasks[taskId];
        && out.response == Json(200, TaskReply(t'))
        && t'.(status := t.status) == t
        && t'.status == (if ReadStatus(f).ValidStatus? then ReadStatus(f).st else t.status)
  {
    var f := Runner.ReadField(body, "status");
    if f.Unreadable? || !InQueue(s, queue, taskId) then Step(Unhandled, s)
    else
      match ReadStatus(f)
      case InvalidStatus => Step(Unhandled, s)
      case NoStatus => Step(Json(200, TaskReply(s.tasks[taskId])), s)
      case ValidStatus(st) =>
        var t := s.tasks[taskId].(status := st);
        Step(Json(200, TaskReply(t)), s.(tasks := s.tasks[taskId := t]))
  }

  /**
   * Enqueue then list: the queue's listing holds the new task, WAITING, with
   * the given name and priority, in that queue and owned by no machine.
   */
  lemma CreateThenList(s: Store, queue: Queue, name: string, priority: int, newId: string, now: Millis)
    requires newId !in s.tasks
    ensures var s' := CreateTask(s, queue, name, priority, newId, now).store;
      var listed := GetTasks(s', queue).reply.tasks;
      && newId in listed
      && listed[newId].status == WAITING && listed[newId].priority == priority
      && listed[newId].name == name && listed[newId].queueId == queue.id
      && listed[newId].machineId == None
      && listed.Keys == GetTasks(s, queue).reply.tasks.Keys + {newId}
  {
  }

  /** Deleting from one queue leaves every other queue's listing as it was. */
  lemma DeleteLeavesOtherQueues(s: Store, queue: Queue, other: Queue, taskId: string)
    requires other.id != queue.id
    ensures var s' := DeleteTask(s, queue, taskId).store;
      GetTasks(s', other) == GetTasks(s, other)
  {
    var s' := DeleteTask(s, queue, taskId).store;
    assert TasksOf(s', other.id) == TasksOf(s, other.id);
  }

  /** No task is listed by two different queues. */
  lemma ListingsDisjoint(s: Store, q1: Queue, q2: Queue)
    requires q1.id != q2.id
    ensures GetTasks(s, q1).reply.tasks.Keys !! GetTasks(s, q2).reply.tasks.Keys
  {
  }

  /** A status update never moves a task to another queue's listing. */
  lemma UpdateKeepsListings(s: Store, queue: Queue, taskId: string, body: Option<Json>, any: Queue)
    ensures var s' := UpdateTaskStatus(s, queue, taskId, body).store;
      GetTasks(s', any).reply.tasks.Keys == GetTasks(s, any).reply.tasks.Keys
  {
  }
}
