/**
 * The worker-facing endpoints: fetching the next task, starting it,
 * reporting each pipeline stage, completing or failing it, and the
 * online/heartbeat calls. Each handler is modelled as written: a store
 * update whose `where` matches no row throws, the handler's `catch` turns
 * that into a 500 response, and the store is left as it was.
 *
 * `runner` is the machine record the machine-authentication guard loaded
 * for the caller's token.
 */
module Runner {
  import opened Values
  import opened Store

  const NoTaskMessage: string := "当前无可用任务"

  /** `a` comes no later than `b` under `orderBy: [{ priority: 'desc' }, { createdAt: 'asc' }]`. */
  predicate Ranks(a: Task, b: Task)
  {
    a.priority > b.priority || (a.priority == b.priority && a.createdAt <= b.createdAt)
  }

  /** `t` is a WAITING task of the store that ranks first among all WAITING tasks. */
  ghost predicate IsNextTask(s: Store, t: Task)
  {
    && t in s.tasks.Values
    && t.status == WAITING
    && forall k :: k in s.tasks && s.tasks[k].status == WAITING ==> Ranks(t, s.tasks[k])
  }

  /**
   * `getTask`: the first WAITING task by priority (highest first), then by
   * creation time (earliest first); a 200 message when none is waiting.
   * The store is only read.
   */
  method GetTask(s: Store) returns (resp: Response)
    ensures resp.Json? && resp.status == 200
    ensures resp.reply.TaskReply? || resp.reply == MessageReply(NoTaskMessage)
    ensures resp.reply.TaskReply? ==> IsNextTask(s, resp.reply.task)
    ensures resp.reply.MessageReply? <==> forall k :: k in s.tasks ==> s.tasks[k].status != WAITING
  {
    var best: Option<Task> := None;
    var todo := s.tasks.Keys;
    while todo != {}
      invariant todo <= s.tasks.Keys
      invariant best.Some? ==> best.value in s.tasks.Values && best.value.status == WAITING
      invariant best.Some? ==> forall k :: k in s.tasks && k !in todo && s.tasks[k].status == WAITING ==> Ranks(best.value, s.tasks[k])
      invariant best.None? ==> forall k :: k in s.tasks && k !in todo ==> s.tasks[k].status != WAITING
      decreases todo
    {
      var k :| k in todo;
      var t := s.tasks[k];
      if t.status == WAITING && (best.None? || !Ranks(best.value, t)) {
        best := Some(t);
      }
      todo := todo - {k};
    }
    if best.Some? {
      resp := Json(200, TaskReply(best.value));
    } else {
      resp := Json(200, MessageReply(NoTaskMessage));
    }
  }

  /** `listQueue`: every queue, each as stored. */
  function ListQueue(s: Store): (resp: Response)
    ensures resp.Json? && resp.status == 200 && resp.reply.QueuesReply?
    ensures resp.reply.queues.Keys == s.queues.Keys
    ensures forall id :: id in s.queues ==> resp.reply.queues[id] == s.queues[id]
  {
    Json(200, QueuesReply(s.queues))
  }

  /**
   * `startTask`: the task with that id becomes DOWNLOADING and owned by the
   * caller, whatever its status and owner were. An unknown id is a 500.
   */
  function StartTask(s: Store, runner: Machine, taskId: string): (out: Step)
    ensures taskId !in s.tasks ==> out == Step(Fail(500, "启动任务失败"), s)
    ensures taskId in s.tasks ==>
      taskId in out.store.tasks && (
      var t, t' := s.tasks[taskId], out.store.tasks[taskId];
      && out.response == Json(200, StartedReply(t'))
      && out.store.tasks.Keys == s.tasks.Keys
      && t'.status == DOWNLOADING && t'.machineId == Some(runner.id)
      && t'.(status := t.status, machineId := t.machineId) == t
      && (forall k :: k in s.tasks && k != taskId ==> out.store.tasks[k] == s.tasks[k])
      && out.store.machines == s.machines && out.store.queues == s.queues)
  {
    if taskId !in s.tasks then Step(Fail(500, "启动任务失败"), s)
    else
      var t := s.tasks[taskId].(status := DOWNLOADING, machineId := Some(runner.id));
      Step(Json(200, StartedReply(t)), s.(tasks := s.tasks[taskId := t]))
  }

  /** What `const { key } = await c.req.json()` yields. */
  datatype BodyField = Unreadable | Undefined | Given(value: Json)

  /**
   * A body that does not parse throws, and destructuring `null` throws;
   * both reach the handler's `catch`. An absent key reads as `undefined`.
   */
  function ReadField(body: Option<Json>, key: string): (f: BodyField)
    ensures f.Unreadable? <==> body.None? || body.value.JNull?
    ensures f.Given? <==> body.Some? && body.value.JObj? && key in body.value.fields
    ensures f.Given? ==> f.value == body.value.fields[key]
  {
    if body.None? || body.value.JNull? then Unreadable
    else
      match Field(body.value, key)
      case Some(v) => Given(v)
      case None => Undefined
  }

  /** The three progress reports of the pipeline. */
  datatype Stage = Download | Convert | Upload

  function StageKey(stage: Stage): string
  {
    match stage
    case Download => "downloadInfo"
    case Convert => "convertInfo"
    case Upload => "uploadInfo"
  }

  function StageStatus(stage: Stage): TaskStatus
  {
    match stage
    case Download => DOWNLOADING
    case Convert => CONVERTING
    case Upload => UPLOADING
  }

  function MissingMessage(stage: Stage): string
  {
    match stage
    case Download => "缺少下载信息"
    case Convert => "缺少转换信息"
    case Upload => "缺少上传信息"
  }

  function FailureMessage(stage: Stage): string
  {
    match stage
    case Download => "下载任务失败"
    case Convert => "转换任务失败"
    case Upload => "上传任务失败"
  }

  /** The payload a stage report writes. */
  function StageInfo(t: Task, stage: Stage): Option<Json>
  {
    match stage
    case Download => t.downloadInfo
    case Convert => t.convertInfo
    case Upload => t.uploadInfo
  }

  function WithStageInfo(t: Task, stage: Stage, v: Json): Task
  {
    match stage
    case Download => t.(downloadInfo := Some(v), status := DOWNLOADING)
    case Convert => t.(convertInfo := Some(v), status := CONVERTING)
    case Upload => t.(uploadInfo := Some(v), status := UPLOADING)
  }

  /** `t'` differs from `t` at most in its status and in the payload of `stage`. */
  predicate SameOutsideStage(t: Task, t': Task, stage: Stage)
  {
    && t'.id == t.id && t'.name == t.name && t'.priority == t.priority
    && t'.queueId == t.queueId && t'.machineId == t.machineId
    && t'.result == t.result && t'.error == t.error
    && t'.createdAt == t.createdAt && t'.updatedAt == t.updatedAt
    && (forall other :: other != stage ==> StageInfo(t', other) == StageInfo(t, other))
  }

  /** The update's `where: { id: taskId, machineId: runner.id }` matches a row. */
  predicate Owns(s: Store, runnerId: string, taskId: string)
  {
    taskId in s.tasks && s.tasks[taskId].machineId == Some(runnerId)
  }

  /**
   * `downloadTask` / `convertTask` / `uploadTask`: an undefined payload is a
   * 400; a report on a task the caller does not own, or on an unknown id,
   * is a 500; otherwise the stage's payload is stored and the status set to
   * the stage's status.
   */
  function ReportStage(s: Store, runner: Machine, taskId: string, stage: Stage, body: Option<Json>): (out: Step)
    ensures ReadField(body, StageKey(stage)).Undefined? ==> out == Step(Fail(400, MissingMessage(stage)), s)
    ensures ReadField(body, StageKey(stage)).Unreadable? ==> out == Step(Fail(500, FailureMessage(stage)), s)
    ensures ReadField(body, StageKey(stage)).Given? && !Owns(s, runner.id, taskId) ==>
      out == Step(Fail(500, FailureMessage(stage)), s)
    ensures ReadField(body, StageKey(stage)).Given? && Owns(s, runner.id, taskId) ==>
      taskId in out.store.tasks && (
      var t, t' := s.tasks[taskId], out.store.tasks[taskId];
      && out.response == Json(200, SuccessReply)
      && out.store.tasks.Keys == s.tasks.Keys
      && t'.status == StageStatus(stage)
      && StageInfo(t', stage) == Some(ReadField(body, StageKey(stage)).value)
      && SameOutsideStage(t, t', stage)
      && (forall k :: k in s.tasks && k != taskId ==> out.store.tasks[k] == s.tasks[k])
      && out.store.machines == s.machines && out.store.queues == s.queues)
  {
    match ReadField(body, StageKey(stage))
    case Unreadable => Step(Fail(500, FailureMessage(stage)), s)
    case Undefined => Step(Fail(400, MissingMessage(stage)), s)
    case Given(v) =>
      if !Owns(s, runner.id, taskId) then Step(Fail(500, FailureMessage(stage)), s)
      else
        var t := WithStageInfo(s.tasks[taskId], stage, v);
        Step(Json(200, SuccessReply), s.(tasks := s.tasks[taskId := t]))
  }

  /**
   * `completeTask`: in one transaction the task (matched by id alone) becomes
   * FINISHED with the result, and the caller's `successCount` goes up by one.
   * Either update failing rolls both back and the handler answers 500.
   */
  function CompleteTask(s: Store, runner: Machine, taskId: string, body: Option<Json>): (out: Step)
    ensures ReadField(body, "result").Undefined? ==> out == Step(Fail(400, "缺少结果数据"), s)
    ensures ReadField(body, "result").Unreadable? ==> out == Step(Fail(500, "完成任务失败"), s)
    ensures ReadField(body, "result").Given? && (taskId !in s.tasks || runner.id !in s.machines) ==>
      out == Step(Fail(500, "完成任务失败"), s)
    ensures ReadField(body, "result").Given? && taskId in s.tasks && runner.id in s.machines ==>
      taskId in out.store.tasks && runner.id in out.store.machines && (
      var t, t' := s.tasks[taskId], out.store.tasks[taskId];
      var m, m' := s.machines[runner.id], out.store.machines[runner.id];
      && out.response == Json(200, SuccessReply)
      && t'.status == FINISHED && t'.result == Some(ReadField(body, "result").value)
      && t'.(status := t.status, result := t.result) == t
      && m'.successCount == m.successCount + 1
      && m'.(successCount := m.successCount) == m
      && out.store.tasks.Keys == s.tasks.Keys && out.store.machines.Keys == s.machines.Keys
      && (forall k :: k in s.tasks && k != taskId ==> out.store.tasks[k] == s.tasks[k])
      && (forall k :: k in s.machines && k != runner.id ==> out.store.machines[k] == s.machines[k])
      && out.store.queues == s.queues)
  {
    match ReadField(body, "result")
    case Unreadable => Step(Fail(500, "完成任务失败"), s)
    case Undefined => Step(Fail(400, "缺少结果数据"), s)
    case Given(v) =>
      if taskId !in s.tasks || runner.id !in s.machines then Step(Fail(500, "完成任务失败"), s)
      else
        var t := s.tasks[taskId].(status := FINISHED, result := Some(v));
        var m := s.machines[runner.id];
        var m' := m.(successCount := m.successCount + 1);
        Step(Json(200, SuccessReply),
             s.(tasks := s.tasks[taskId := t], machines := s.machines[runner.id := m']))
  }

  /**
   * `failTask`: in one transaction the task (matched by id alone) becomes
   * FAILED with the error, and the caller's `failedCount` goes up by one.
   */
  function FailTask(s: Store, runner: Machine, taskId: string, body: Option<Json>): (out: Step)
    ensures ReadField(body, "error").Undefined? ==> out == Step(Fail(400, "缺少错误信息"), s)
    ensures ReadField(body, "error").Unreadable? ==> out == Step(Fail(500, "标记任务失败时出错"), s)
    ensures ReadField(body, "error").Given? && (taskId !in s.tasks || runner.id !in s.machines) ==>
      out == Step(Fail(500, "标记任务失败时出错"), s)
    ensures ReadField(body, "error").Given? && taskId in s.tasks && runner.id in s.machines ==>
      taskId in out.store.tasks && runner.id in out.store.machines && (
      var t, t' := s.tasks[taskId], out.store.tasks[taskId];
      var m, m' := s.machines[runner.id], out.store.machines[runner.id];
      && out.response == Json(200, SuccessReply)
      && t'.status == FAILED && t'.error == Some(ReadField(body, "error").value)
      && t'.(status := t.status, error := t.error) == t
      && m'.failedCount == m.failedCount + 1
      && m'.(failedCount := m.failedCount) == m
      && out.store.tasks.Keys == s.tasks.Keys && out.store.machines.Keys == s.machines.Keys
      && (forall k :: k in s.tasks && k != taskId ==> out.store.tasks[k] == s.tasks[k])
      && (forall k :: k in s.machines && k != runner.id ==> out.store.machines[k] == s.machines[k])
      && out.store.queues == s.queues)
  {
    match ReadField(body, "error")
    case Unreadable => Step(Fail(500, "标记任务失败时出错"), s)
    case Undefined => Step(Fail(400, "缺少错误信息"), s)
    case Given(v) =>
      if taskId !in s.tasks || runner.id !in s.machines then Step(Fail(500, "标记任务失败时出错"), s)
      else
        var t := s.tasks[taskId].(status := FAILED, error := Some(v));
        var m := s.machines[runner.id];
        var m' := m.(failedCount := m.failedCount + 1);
        Step(Json(200, SuccessReply),
             s.(tasks := s.tasks[taskId := t], machines := s.machines[runner.id := m']))
  }

  /**
   * `online`: stamps `firstHeartbeat` with the current time only when the
   * caller's record has none; otherwise it answers with the record as is.
   */
  function Online(s: Store, runner: Machine, now: Millis): (out: Step)
    ensures runner.firstHeartbeat.Some? ==> out == Step(Json(200, RunnerReply(runner)), s)
    ensures runner.firstHeartbeat.None? && runner.id !in s.machines ==>
      out == Step(Fail(500, "标记在线状态失败"), s)
    ensures runner.firstHeartbeat.None? && runner.id in s.machines ==>
      runner.id in out.store.machines && (
      var m' := out.store.machines[runner.id];
      && m'.firstHeartbeat == Some(now)
      && m'.(firstHeartbeat := s.machines[runner.id].firstHeartbeat) == s.machines[runner.id]
      && out.response == Json(200, RunnerReply(m'))
      && out.store.machines.Keys == s.machines.Keys
      && (forall k :: k in s.machines && k != runner.id ==> out.store.machines[k] == s.machines[k])
      && out.store.tasks == s.tasks && out.store.queues == s.queues)
  {
    if runner.firstHeartbeat.Some? then Step(Json(200, RunnerReply(runner)), s)
    else if runner.id !in s.machines then Step(Fail(500, "标记在线状态失败"), s)
    else
      var m := s.machines[runner.id].(firstHeartbeat := Some(now));
      Step(Json(200, RunnerReply(m)), s.(machines := s.machines[runner.id := m]))
  }

  /** `!data || typeof data.deviceInfo !== 'object' || typeof data.encoder !== 'string'`. */
  predicate BadHeartbeat(data: Json)
  {
    || !Truthy(data)
    || !(Field(data, "deviceInfo").Some? && IsObjectType(Field(data, "deviceInfo").value))
    || !(Field(data, "encoder").Some? && Field(data, "encoder").value.JStr?)
  }

  /**
   * `heartbeat`: rejects a body without an object `deviceInfo` and a string
   * `encoder` with 400; otherwise stores the time, the device info and the
   * encoder on the caller's record, and touches nothing else.
   */
  function Heartbeat(s: Store, runner: Machine, body: Option<Json>, now: Millis): (out: Step)
    ensures body.None? ==> out == Step(Fail(500, "心跳处理失败"), s)
    ensures body.Some? && BadHeartbeat(body.value) ==> out == Step(Fail(400, "缺少 deviceInfo 或 encoder 数据"), s)
    ensures body.Some? && !BadHeartbeat(body.value) && runner.id !in s.machines ==>
      out == Step(Fail(500, "心跳处理失败"), s)
    ensures body.Some? && !BadHeartbeat(body.value) && runner.id in s.machines ==>
      runner.id in out.store.machines && (
      var m, m' := s.machines[runner.id], out.store.machines[runner.id];
      && m'.heartbeat == Some(now)
      && m'.deviceInfo == Field(body.value, "deviceInfo")
      && m'.encoder == Some(Field(body.value, "encoder").value.s)
      && m'.(heartbeat := m.heartbeat, deviceInfo := m.deviceInfo, encoder := m.encoder) == m
      && out.response == Json(200, RunnerReply(m'))
      && out.store.machines.Keys == s.machines.Keys
      && (forall k :: k in s.machines && k != runner.id ==> out.store.machines[k] == s.machines[k])
      && out.store.tasks == s.tasks && out.store.queues == s.queues)
  {
    if body.None? then Step(Fail(500, "心跳处理失败"), s)
    else if BadHeartbeat(body.value) then Step(Fail(400, "缺少 deviceInfo 或 encoder 数据"), s)
    else if runner.id !in s.machines then Step(Fail(500, "心跳处理失败"), s)
    else
      var data := body.value;
      var m := s.machines[runner.id].(
        heartbeat := Some(now),
        deviceInfo := Some(data.fields["deviceInfo"]),
        encoder := Some(data.fields["encoder"].s));
      Step(Json(200, RunnerReply(m)), s.(machines := s.machines[runner.id := m]))
  }

  /** The worker calls that can change the store. */
  datatype Call =
    | Start(taskId: string)
    | Report(taskId: string, stage: Stage, body: Option<Json>)
    | Complete(taskId: string, body: Option<Json>)
    | FailCall(taskId: string, body: Option<Json>)
    | GoOnline
    | Beat(body: Option<Json>)

  /** Routes a worker call to its handler. */
  function Dispatch(s: Store, runner: Machine, call: Call, now: Millis): Step
  {
    match call
    case Start(id) => StartTask(s, runner, id)
    case Report(id, stage, body) => ReportStage(s, runner, id, stage, body)
    case Complete(id, body) => CompleteTask(s, runner, id, body)
    case FailCall(id, body) => FailTask(s, runner, id, body)
    case GoOnline => Online(s, runner, now)
    case Beat(body) => Heartbeat(s, runner, body, now)
  }
}
