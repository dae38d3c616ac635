/**
 * The coordinator's records and its durable store, and the shape of the
 * responses its handlers send. The store is three tables keyed by id;
 * every handler is a pure function from a store to a response and the
 * store it leaves behind.
 */
module Store {
  import opened Values

  datatype TaskStatus = WAITING | DOWNLOADING | CONVERTING | UPLOADING | FINISHED | FAILED

  /** The enumeration's wire name. */
  function StatusName(st: TaskStatus): string
  {
    match st
    case WAITING => "WAITING"
    case DOWNLOADING => "DOWNLOADING"
    case CONVERTING => "CONVERTING"
    case UPLOADING => "UPLOADING"
    case FINISHED => "FINISHED"
    case FAILED => "FAILED"
  }

  /** The status a wire name denotes, if it is one of the six. */
  function ParseStatus(s: string): (r: Option<TaskStatus>)
    ensures r.Some? ==> StatusName(r.value) == s
  {
    if s == "WAITING" then Some(WAITING)
    else if s == "DOWNLOADING" then Some(DOWNLOADING)
    else if s == "CONVERTING" then Some(CONVERTING)
    else if s == "UPLOADING" then Some(UPLOADING)
    else if s == "FINISHED" then Some(FINISHED)
    else if s == "FAILED" then Some(FAILED)
    else None
  }

  /** Printing a status and parsing it back gives the status again. */
  lemma ParseStatusName(st: TaskStatus)
    ensures ParseStatus(StatusName(st)) == Some(st)
  {
  }

  /** A string parses to a status exactly when it is one of the six names. */
  lemma ParseStatusSome(s: string)
    ensures ParseStatus(s).Some? <==> exists st :: StatusName(st) == s
  {
    if exists st :: StatusName(st) == s {
      var st :| StatusName(st) == s;
      ParseStatusName(st);
    }
  }

  /** Times are milliseconds since the epoch. */
  type Millis = int

  datatype Queue = Queue(id: string, name: string)

  datatype Task = Task(
    id: string,
    name: string,
    status: TaskStatus,
    priority: int,
    queueId: string,
    machineId: Option<string>,
    downloadInfo: Option<Json>,
    convertInfo: Option<Json>,
    uploadInfo: Option<Json>,
    result: Option<Json>,
    error: Option<Json>,
    createdAt: Millis,
    updatedAt: Millis)

  datatype Machine = Machine(
    id: string,
    name: string,
    ip: string,
    token: string,
    heartbeat: Option<Millis>,
    firstHeartbeat: Option<Millis>,
    deviceInfo: Option<Json>,
    encoder: Option<string>,
    successCount: nat,
    failedCount: nat)

  datatype Store = Store(
    queues: map<string, Queue>,
    tasks: map<string, Task>,
    machines: map<string, Machine>)

  /** A machine as the machine list shows it: the record plus the derived `isOnline`. */
  datatype MachineView = MachineView(machine: Machine, isOnline: bool)

  /** The machine details view. */
  datatype Details = Details(
    id: string,
    name: string,
    ip: string,
    deviceInfo: Option<Json>,
    encoder: Option<string>,
    heartbeat: Option<Millis>,
    firstHeartbeat: Option<Millis>,
    isOnline: bool,
    statusText: string,
    uptime: int,
    runningTasksCount: nat)

  /** The machine statistics view. */
  datatype MachineStats = MachineStats(
    machineId: string,
    completedTasksCount: nat,
    failedTasksCount: nat,
    globalTaskStats: map<TaskStatus, nat>)

  /** The body of a JSON response. */
  datatype Reply =
    | TaskReply(task: Task)                   // { task }
    | StartedReply(task: Task)                // { success: true, task }
    | MessageReply(message: string)           // { message }
    | SuccessReply                            // { success: true }
    | RunnerReply(runner: Machine)            // { runner }
    | QueuesReply(queues: map<string, Queue>) // { queue: [...] }
    | TasksReply(tasks: map<string, Task>)    // { tasks: [...] }
    | MachinesReply(machines: seq<MachineView>) // { machines }
    | MachineReply(machine: Machine)          // { machine }
    | DetailsReply(details: Details)          // { ...machine, isOnline, status, uptime, runningTasksCount }
    | StatsReply(stats: MachineStats)         // { machineId, completedTasksCount, failedTasksCount, globalTaskStats }
    | ErrorReply(error: string)               // { error }

  /**
   * What a handler sends back: a JSON body with a status; nothing at all;
   * or an exception the handler does not catch, which the web framework
   * turns into a 500.
   */
  datatype Response = Json(status: int, reply: Reply) | NoResponse | Unhandled

  /** A handler's outcome: the response and the store after the call. */
  datatype Step = Step(response: Response, store: Store)

  function Fail(status: int, message: string): Response
  {
    Json(status, ErrorReply(message))
  }

  /** The response status; 500 for an uncaught exception, 0 when no response is produced. */
  function StatusOf(r: Response): int
  {
    match r
    case Json(status, _) => status
    case Unhandled => 500
    case NoResponse => 0
  }
}
