/**
 * Properties of the worker protocol that relate several calls or hold of
 * every call: which calls may move the success and failure counters, that
 * stage reports never change ownership, that `firstHeartbeat` is written
 * once, and what the absence of ownership and terminal-state checks allows.
 */
module RunnerProps {
  import opened Values
  import opened Store
  import opened Runner

  /** Every record is stored under its own id. */
  predicate WellKeyed(s: Store)
  {
    && (forall k :: k in s.tasks ==> s.tasks[k].id == k)
    && (forall k :: k in s.machines ==> s.machines[k].id == k)
    && (forall k :: k in s.queues ==> s.queues[k].id == k)
  }

  /** `runner` is the caller's current record, as the authentication guard loaded it. */
  predicate IsCurrent(s: Store, runner: Machine)
  {
    runner.id in s.machines && s.machines[runner.id] == runner
  }

  /** `s'` has the tables of `s` with the same keys, and every record keeps its id. */
  predicate KeepsShape(s: Store, s': Store)
  {
    && s'.queues == s.queues && s'.tasks.Keys == s.tasks.Keys && s'.machines.Keys == s.machines.Keys
    && (forall k :: k in s.tasks ==> s'.tasks[k].id == s.tasks[k].id)
    && (forall k :: k in s.machines ==> s'.machines[k].id == s.machines[k].id)
  }

  lemma StartKeepsShape(s: Store, runner: Machine, id: string)
    ensures KeepsShape(s, StartTask(s, runner, id).store)
  {
  }

  lemma ReportKeepsShape(s: Store, runner: Machine, id: string, stage: Stage, body: Option<Json>)
    ensures KeepsShape(s, ReportStage(s, runner, id, stage, body).store)
  {
  }

  lemma CompleteKeepsShape(s: Store, runner: Machine, id: string, body: Option<Json>)
    ensures KeepsShape(s, CompleteTask(s, runner, id, body).store)
  {
  }

  lemma FailKeepsShape(s: Store, runner: Machine, id: string, body: Option<Json>)
    ensures KeepsShape(s, FailTask(s, runner, id, body).store)
  {
  }

  lemma OnlineKeepsShape(s: Store, runner: Machine, now: Millis)
    ensures KeepsShape(s, Online(s, runner, now).store)
  {
  }

  lemma HeartbeatKeepsShape(s: Store, runner: Machine, body: Option<Json>, now: Millis)
    ensures KeepsShape(s, Heartbeat(s, runner, body, now).store)
  {
  }

  /** No worker call changes what `listQueue` answers. */
  lemma ListQueueUnaffectedByWorkers(s: Store, runner: Machine, call: Call, now: Millis)
    ensures ListQueue(Dispatch(s, runner, call, now).store) == ListQueue(s)
  {
    match call
    case Start(id) => StartKeepsShape(s, runner, id);
    case Report(id, stage, body) => ReportKeepsShape(s, runner, id, stage, body);
    case Complete(id, body) => CompleteKeepsShape(s, runner, id, body);
    case FailCall(id, body) => FailKeepsShape(s, runner, id, body);
    case GoOnline => OnlineKeepsShape(s, runner, now);
    case Beat(body) => HeartbeatKeepsShape(s, runner, body, now);
  }

  /** No worker call adds or removes a record, and every call keeps records under their own ids. */
  lemma DispatchKeepsKeys(s: Store, runner: Machine, call: Call, now: Millis)
    requires WellKeyed(s)
    ensures var s' := Dispatch(s, runner, call, now).store;
      && s'.tasks.Keys == s.tasks.Keys
      && s'.machines.Keys == s.machines.Keys
      && s'.queues == s.queues
      && WellKeyed(s')
  {
    match call
    case Start(id) => StartKeepsShape(s, runner, id);
    case Report(id, stage, body) => ReportKeepsShape(s, runner, id, stage, body);
    case Complete(id, body) => CompleteKeepsShape(s, runner, id, body);
    case FailCall(id, body) => FailKeepsShape(s, runner, id, body);
    case GoOnline => OnlineKeepsShape(s, runner, now);
    case Beat(body) => HeartbeatKeepsShape(s, runner, body, now);
  }

  /**
   * Only completing and failing move the counters: `complete` adds exactly
   * one to the caller's `successCount` when it answers 200 and nothing
   * otherwise, `fail` likewise for `failedCount`, and every other call
   * leaves both counters of every machine unchanged.
   */
  lemma CountersMoveOnlyOnTerminalCalls(s: Store, runner: Machine, call: Call, now: Millis, k: string)
    requires k in s.machines
    ensures var out := Dispatch(s, runner, call, now);
      var m, m' := s.machines[k], out.store.machines[k];
      var hit := k == runner.id && StatusOf(out.response) == 200;
      && k in out.store.machines
      && m'.successCount == m.successCount + (if call.Complete? && hit then 1 else 0)
      && m'.failedCount == m.failedCount + (if call.FailCall? && hit then 1 else 0)
  {
    var out := Dispatch(s, runner, call, now);
    match call
    case Start(id) =>
    case Report(id, stage, body) =>
    case Complete(id, body) =>
      if ReadField(body, "result").Given? && id in s.tasks && runner.id in s.machines {
        assert StatusOf(out.response) == 200;
      }
    case FailCall(id, body) =>
      if ReadField(body, "error").Given? && id in s.tasks && runner.id in s.machines {
        assert StatusOf(out.response) == 200;
      }
    case GoOnline =>
    case Beat(body) =>
  }

  /** A stage report never changes which machine owns any task, nor any machine record. */
  lemma StageReportKeepsOwnership(s: Store, runner: Machine, taskId: string, stage: Stage, body: Option<Json>, k: string)
    requires k in s.tasks
    ensures var s' := ReportStage(s, runner, taskId, stage, body).store;
      && s'.machines == s.machines
      && k in s'.tasks
      && s'.tasks[k].machineId == s.tasks[k].machineId
  {
  }

  /** Once a machine has a `firstHeartbeat`, no worker call changes it. */
  lemma FirstHeartbeatWrittenOnce(s: Store, runner: Machine, call: Call, now: Millis, k: string)
    requires IsCurrent(s, runner)
    requires k in s.machines && s.machines[k].firstHeartbeat.Some?
    ensures var s' := Dispatch(s, runner, call, now).store;
      k in s'.machines && s'.machines[k].firstHeartbeat == s.machines[k].firstHeartbeat
  {
    match call
    case Start(id) =>
    case Report(id, stage, body) =>
    case Complete(id, body) =>
    case FailCall(id, body) =>
    case GoOnline =>
    case Beat(body) =>
  }

  /** Going online a second time, with the record the first call left, changes nothing. */
  lemma OnlineIdempotent(s: Store, runner: Machine, now: Millis, later: Millis)
    requires IsCurrent(s, runner)
    ensures var s1 := Online(s, runner, now).store;
      && IsCurrent(s1, s1.machines[runner.id])
      && Online(s1, s1.machines[runner.id], later).store == s1
  {
  }

  /**
   * `startTask` has no WAITING guard: it takes over a finished task owned by
   * another machine just as it claims a waiting one.
   */
  lemma StartTakesOverAnyTask(s: Store, runner: Machine, taskId: string)
    requires taskId in s.tasks && s.tasks[taskId].status == FINISHED
    requires s.tasks[taskId].machineId != Some(runner.id)
    ensures var out := StartTask(s, runner, taskId);
      && StatusOf(out.response) == 200
      && out.store.tasks[taskId].status == DOWNLOADING
      && out.store.tasks[taskId].machineId == Some(runner.id)
  {
  }

  /**
   * `completeTask` has no owner or terminal-state check: completing the same
   * task twice succeeds twice and credits the caller twice.
   */
  lemma CompleteTwiceCountsTwice(s: Store, runner: Machine, taskId: string, body: Option<Json>)
    requires taskId in s.tasks && runner.id in s.machines
    requires ReadField(body, "result").Given?
    ensures var s1 := CompleteTask(s, runner, taskId, body).store;
      var out2 := CompleteTask(s1, runner, taskId, body);
      && StatusOf(out2.response) == 200
      && out2.store.tasks[taskId].status == FINISHED
      && out2.store.machines[runner.id].successCount == s.machines[runner.id].successCount + 2
  {
  }

  /** A machine that does not own a task cannot report progress on it: the task is left as it was. */
  lemma ForeignReportRejected(s: Store, runner: Machine, taskId: string, stage: Stage, body: Option<Json>)
    requires taskId in s.tasks && s.tasks[taskId].machineId != Some(runner.id)
    ensures var out := ReportStage(s, runner, taskId, stage, body);
      && out.store == s
      && StatusOf(out.response) in {400, 500}
  {
  }
}
