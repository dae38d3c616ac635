/**
 * The dashboard's API client: response classification, the per-queue task
 * fetches and their concatenation, the per-status task counts and the
 * composed dashboard data. Every HTTP response is a parameter: its status
 * and its parsed body, `None` when the body is not JSON. A 401 anywhere
 * clears the stored token and surfaces as an authentication failure;
 * every other failure degrades to an empty list.
 */
module ApiService {
  import opened Values
  import opened Store
  import opened Seqs
  import TokenStore

  /** A task as the dashboard receives it; the status is whatever string the server sent. */
  datatype TaskView = TaskView(
    id: string,
    name: string,
    status: string,
    priority: int,
    queueId: string,
    machineId: Option<string>,
    downloadInfo: Option<Json>,
    convertInfo: Option<Json>,
    uploadInfo: Option<Json>,
    createdAt: int,
    updatedAt: int)

  datatype QueueRef = QueueRef(id: string, name: string)

  /** An HTTP response: its status and its body, parsed, or `None` when it is not JSON. */
  datatype Http<T> = Http(status: int, body: Option<T>)

  /** `response.ok`. */
  predicate Ok<T>(r: Http<T>)
  {
    200 <= r.status <= 299
  }

  /** `handleResponse`'s outcome: the parsed body, or the error it throws. */
  datatype Fetched<T> = Parsed(value: T) | AuthError | ApiError(status: int) | BadJson

  datatype Handled<T> = Handled(result: Fetched<T>, storage: TokenStore.Storage)

  /**
   * `handleResponse`: a 401 clears the token and throws `AUTH_ERROR`,
   * checked before anything else; any other status outside 2xx throws an
   * API error; only a 2xx body is parsed, and a body that is not JSON throws.
   */
  function HandleResponse<T>(r: Http<T>, ls: TokenStore.Storage): (h: Handled<T>)
    ensures r.status == 401 <==> h.result.AuthError?
    ensures h.result.AuthError? ==> h.storage == TokenStore.ClearToken(ls)
    ensures !h.result.AuthError? ==> h.storage == ls
    ensures h.result.ApiError? <==> r.status != 401 && !Ok(r)
    ensures h.result.ApiError? ==> h.result.status == r.status
    ensures h.result.Parsed? <==> Ok(r) && r.body.Some?
    ensures h.result.Parsed? ==> h.result.value == r.body.value
  {
    if r.status == 401 then Handled(AuthError, TokenStore.ClearToken(ls))
    else if !Ok(r) then Handled(ApiError(r.status), ls)
    else if r.body.None? then Handled(BadJson, ls)
    else Handled(Parsed(r.body.value), ls)
  }

  /** A list load: the list, or the rethrown authentication failure. */
  datatype Loaded<T> = Loaded(value: T) | AuthFailed

  /**
   * The list loaders (`getMachines`, `getQueues`, `getQueueTasks`): the
   * body's list, or an empty list when the list is missing or falsy or the
   * request failed for any reason other than authentication.
   */
  function LoadList<T>(r: Http<Option<seq<T>>>): (l: Loaded<seq<T>>)
    ensures l.AuthFailed? <==> r.status == 401
    ensures l.Loaded? && |l.value| > 0 ==> Ok(r) && r.body.Some? && r.body.value == Some(l.value)
    ensures Ok(r) && r.body.Some? && r.body.value.Some? ==> l == Loaded(r.body.value.value)
    ensures r.status != 401 && !(Ok(r) && r.body.Some? && r.body.value.Some?) ==> l == Loaded([])
  {
    match HandleResponse(r, map[]).result
    case AuthError => AuthFailed
    case Parsed(list) => Loaded(list.GetOr([]))
    case _ => Loaded([])
  }

  /** The storage after a list load: cleared by a 401, untouched otherwise. */
  function AfterLoad<T>(r: Http<Option<seq<T>>>, ls: TokenStore.Storage): (ls': TokenStore.Storage)
    ensures ls' == HandleResponse(r, ls).storage
  {
    if r.status == 401 then TokenStore.ClearToken(ls) else ls
  }

  /** The task lists of `queues`, each fetched from `tasksAt`, and whether any of them failed authentication. */
  function QueueLists(queues: seq<QueueRef>, tasksAt: string -> Http<Option<seq<TaskView>>>): (r: seq<Loaded<seq<TaskView>>>)
    ensures |r| == |queues|
    ensures forall i :: 0 <= i < |queues| ==> r[i] == LoadList(tasksAt(queues[i].id))
  {
    seq(|queues|, i requires 0 <= i < |queues| => LoadList(tasksAt(queues[i].id)))
  }

  predicate AnyAuthFailed<T>(ls: seq<Loaded<T>>)
  {
    exists i :: 0 <= i < |ls| && ls[i].AuthFailed?
  }

  /** The lists of successful loads. */
  function LoadedValues<T>(ls: seq<Loaded<T>>): (vs: seq<T>)
    requires !AnyAuthFailed(ls)
    ensures |vs| == |ls|
    ensures forall i :: 0 <= i < |ls| ==> vs[i] == ls[i].value
  {
    seq(|ls|, i requires 0 <= i < |ls| => ls[i].value)
  }

  /** The dashboard's task list, or the authentication failure, with the storage afterwards. */
  datatype AllTasks = AllTasks(tasks: Loaded<seq<TaskView>>, storage: TokenStore.Storage)

  /**
   * `getAllTasks`: the queues, then every queue's tasks concatenated in
   * queue order. A 401 on the queue list or on any queue's tasks fails the
   * whole load and clears the token; any other failure gives that list as
   * empty.
   */
  function GetAllTasks(queuesAt: Http<Option<seq<QueueRef>>>, tasksAt: string -> Http<Option<seq<TaskView>>>,
                       ls: TokenStore.Storage): (r: AllTasks)
    ensures LoadList(queuesAt).AuthFailed? ==> r == AllTasks(AuthFailed, TokenStore.ClearToken(ls))
    ensures LoadList(queuesAt).Loaded? ==>
      var lists := QueueLists(LoadList(queuesAt).value, tasksAt);
      && (AnyAuthFailed(lists) ==> r == AllTasks(AuthFailed, TokenStore.ClearToken(ls)))
      && (!AnyAuthFailed(lists) ==> r == AllTasks(Loaded(Flatten(LoadedValues(lists))), ls))
  {
    match LoadList(queuesAt)
    case AuthFailed => AllTasks(AuthFailed, TokenStore.ClearToken(ls))
    case Loaded(queues) =>
      var lists := QueueLists(queues, tasksAt);
      if AnyAuthFailed(lists) then AllTasks(AuthFailed, TokenStore.ClearToken(ls))
      else AllTasks(Loaded(Flatten(LoadedValues(lists))), ls)
  }

  /** A task is on the dashboard exactly when it is in the list of one of the queues. */
  lemma AllTasksFromQueues(queuesAt: Http<Option<seq<QueueRef>>>, tasksAt: string -> Http<Option<seq<TaskView>>>,
                           ls: TokenStore.Storage, t: TaskView)
    requires GetAllTasks(queuesAt, tasksAt, ls).tasks.Loaded?
    ensures var queues := LoadList(queuesAt).value;
      t in GetAllTasks(queuesAt, tasksAt, ls).tasks.value <==>
        exists i :: 0 <= i < |queues| && LoadList(tasksAt(queues[i].id)).Loaded?
          && t in LoadList(tasksAt(queues[i].id)).value
  {
    var queues := LoadList(queuesAt).value;
    var lists := QueueLists(queues, tasksAt);
    FlattenMembership(LoadedValues(lists), t);
  }

  /**
   * The dashboard lists the queues' tasks in queue order: the tasks of
   * queue `i` come after those of every earlier queue and before those of
   * every later one, in the order their own load returned them.
   */
  lemma TasksInQueueOrder(queuesAt: Http<Option<seq<QueueRef>>>, tasksAt: string -> Http<Option<seq<TaskView>>>,
                          ls: TokenStore.Storage, i: int)
    requires GetAllTasks(queuesAt, tasksAt, ls).tasks.Loaded?
    requires 0 <= i < |LoadList(queuesAt).value|
    ensures var queues := LoadList(queuesAt).value;
      var vs := LoadedValues(QueueLists(queues, tasksAt));
      GetAllTasks(queuesAt, tasksAt, ls).tasks.value
        == Flatten(vs[..i]) + LoadList(tasksAt(queues[i].id)).value + Flatten(vs[i + 1..])
  {
    var queues := LoadList(queuesAt).value;
    FlattenAt(LoadedValues(QueueLists(queues, tasksAt)), i);
  }

  /** `TaskStats`: one count per status. */
  datatype TaskStats = TaskStats(
    waiting: nat, downloading: nat, converting: nat, uploading: nat, finished: nat, failed: nat)
  {
    function Get(st: TaskStatus): nat
    {
      match st
      case WAITING => waiting
      case DOWNLOADING => downloading
      case CONVERTING => converting
      case UPLOADING => uploading
      case FINISHED => finished
      case FAILED => failed
    }

    /** `stats[status]++`. */
    function Bump(st: TaskStatus): (r: TaskStats)
      ensures r.Get(st) == Get(st) + 1
      ensures forall o :: o != st ==> r.Get(o) == Get(o)
    {
      match st
      case WAITING => this.(waiting := waiting + 1)
      case DOWNLOADING => this.(downloading := downloading + 1)
      case CONVERTING => this.(converting := converting + 1)
      case UPLOADING => this.(uploading := uploading + 1)
      case FINISHED => this.(finished := finished + 1)
      case FAILED => this.(failed := failed + 1)
    }

    function Total(): nat
    {
      waiting + downloading + converting + uploading + finished + failed
    }
  }

  const ZeroStats := TaskStats(0, 0, 0, 0, 0, 0)

  /** The number of tasks whose status string is `name`. */
  function CountOf(tasks: seq<TaskView>, name: string): nat
  {
    if |tasks| == 0 then 0
    else CountOf(tasks[..|tasks| - 1], name) + (if tasks[|tasks| - 1].status == name then 1 else 0)
  }

  /** The number of tasks whose status string is none of the six names. */
  function CountInvalid(tasks: seq<TaskView>): nat
  {
    if |tasks| == 0 then 0
    else CountInvalid(tasks[..|tasks| - 1]) + (if ParseStatus(tasks[|tasks| - 1].status).None? then 1 else 0)
  }

  /**
   * `calculateTaskStats`: every count starts at 0 and counts the tasks
   * carrying that status; a status that is not one of the six is skipped.
   */
  method CalculateTaskStats(tasks: seq<TaskView>) returns (stats: TaskStats)
    ensures forall st :: stats.Get(st) == CountOf(tasks, StatusName(st))
    ensures stats == StatsOf(tasks)
  {
    stats := ZeroStats;
    var i := 0;
    while i < |tasks|
      invariant 0 <= i <= |tasks|
      invariant forall st :: stats.Get(st) == CountOf(tasks[..i], StatusName(st))
    {
      assert tasks[..i + 1][..i] == tasks[..i];
      var parsed := ParseStatus(tasks[i].status);
      if parsed.Some? {
        stats := stats.Bump(parsed.value);
        forall st | st != parsed.value
          ensures tasks[i].status != StatusName(st)
        {
          ParseStatusName(st);
        }
      } else {
        forall st
          ensures tasks[i].status != StatusName(st)
        {
          ParseStatusName(st);
        }
      }
      i := i + 1;
    }
    assert tasks[..|tasks|] == tasks;
    assert stats.Get(WAITING) == CountOf(tasks, "WAITING");
    assert stats.Get(DOWNLOADING) == CountOf(tasks, "DOWNLOADING");
    assert stats.Get(CONVERTING) == CountOf(tasks, "CONVERTING");
    assert stats.Get(UPLOADING) == CountOf(tasks, "UPLOADING");
    assert stats.Get(FINISHED) == CountOf(tasks, "FINISHED");
    assert stats.Get(FAILED) == CountOf(tasks, "FAILED");
  }

  /** The counts as a function of the task list. */
  function StatsOf(tasks: seq<TaskView>): (stats: TaskStats)
  {
    TaskStats(CountOf(tasks, "WAITING"), CountOf(tasks, "DOWNLOADING"), CountOf(tasks, "CONVERTING"),
      CountOf(tasks, "UPLOADING"), CountOf(tasks, "FINISHED"), CountOf(tasks, "FAILED"))
  }

  /** Every task is counted once, under its status, or is invalid. */
  lemma {:induction false} CountsPartitionTasks(tasks: seq<TaskView>)
    ensures StatsOf(tasks).Total() + CountInvalid(tasks) == |tasks|
  {
    if |tasks| > 0 {
      CountsPartitionTasks(tasks[..|tasks| - 1]);
    }
  }

  /**
   * The counts add up to at most the number of tasks, and to exactly that
   * number when every status is one of the six.
   */
  lemma StatsTotalBound(tasks: seq<TaskView>)
    ensures StatsOf(tasks).Total() <= |tasks|
    ensures (forall i :: 0 <= i < |tasks| ==> ParseStatus(tasks[i].status).Some?) ==> StatsOf(tasks).Total() == |tasks|
  {
    CountsPartitionTasks(tasks);
    if forall i :: 0 <= i < |tasks| ==> ParseStatus(tasks[i].status).Some? {
      NoInvalid(tasks);
    }
  }

  lemma {:induction false} NoInvalid(tasks: seq<TaskView>)
    requires forall i :: 0 <= i < |tasks| ==> ParseStatus(tasks[i].status).Some?
    ensures CountInvalid(tasks) == 0
  {
    if |tasks| > 0 {
      NoInvalid(tasks[..|tasks| - 1]);
    }
  }

  lemma {:induction false} CountOfAppend(a: seq<TaskView>, b: seq<TaskView>, name: string)
    ensures CountOf(a + b, name) == CountOf(a, name) + CountOf(b, name)
  {
    if |b| > 0 {
      assert (a + b)[..|a + b| - 1] == a + b[..|b| - 1];
      CountOfAppend(a, b[..|b| - 1], name);
    } else {
      assert a + b == a;
    }
  }

  /** Taking out the element at `k` takes out its multiset entry. */
  lemma RemoveAtMultiset(b: seq<TaskView>, k: int)
    requires 0 <= k < |b|
    ensures multiset(b[..k] + b[k + 1..]) == multiset(b) - multiset{b[k]}
  {
    assert b == b[..k] + [b[k]] + b[k + 1..];
  }

  /** Taking out the element at `k` takes out its count. */
  lemma RemoveAtCount(b: seq<TaskView>, k: int, name: string)
    requires 0 <= k < |b|
    ensures CountOf(b, name) == CountOf(b[..k] + b[k + 1..], name) + (if b[k].status == name then 1 else 0)
  {
    var x := b[k];
    assert b == b[..k] + ([x] + b[k + 1..]);
    CountOfAppend(b[..k], [x] + b[k + 1..], name);
    CountOfAppend([x], b[k + 1..], name);
    CountOfAppend(b[..k], b[k + 1..], name);
    assert [x][..0] == [];
  }

  /** Counting depends only on which tasks there are, not on their order. */
  lemma {:induction false} CountOfPermutation(a: seq<TaskView>, b: seq<TaskView>, name: string)
    requires multiset(a) == multiset(b)
    ensures CountOf(a, name) == CountOf(b, name)
  {
    if |a| > 0 {
      var x := a[|a| - 1];
      var a' := a[..|a| - 1];
      assert a == a' + [x];
      assert multiset(a') == multiset(a) - multiset{x};
      assert x in multiset(b);
      var k :| 0 <= k < |b| && b[k] == x;
      RemoveAtMultiset(b, k);
      RemoveAtCount(b, k, name);
      CountOfPermutation(a', b[..k] + b[k + 1..], name);
    } else {
      assert |multiset(b)| == 0;
    }
  }

  /** The dashboard's statistics do not depend on the order of the tasks. */
  lemma StatsPermutationInvariant(a: seq<TaskView>, b: seq<TaskView>)
    requires multiset(a) == multiset(b)
    ensures StatsOf(a) == StatsOf(b)
  {
    CountOfPermutation(a, b, "WAITING");
    CountOfPermutation(a, b, "DOWNLOADING");
    CountOfPermutation(a, b, "CONVERTING");
    CountOfPermutation(a, b, "UPLOADING");
    CountOfPermutation(a, b, "FINISHED");
    CountOfPermutation(a, b, "FAILED");
  }

  datatype Dashboard = Dashboard(machines: seq<Json>, tasks: seq<TaskView>, taskStats: TaskStats)

  /**
   * `getDashboardData`: the machine list and the task list, both loaded,
   * and the counts of exactly the tasks returned. A 401 on either fails
   * the whole load.
   */
  method GetDashboardData(machinesAt: Http<Option<seq<Json>>>, queuesAt: Http<Option<seq<QueueRef>>>,
                          tasksAt: string -> Http<Option<seq<TaskView>>>, ls: TokenStore.Storage)
    returns (r: Loaded<Dashboard>, ls': TokenStore.Storage)
    ensures var all := GetAllTasks(queuesAt, tasksAt, ls);
      r.AuthFailed? <==> LoadList(machinesAt).AuthFailed? || all.tasks.AuthFailed?
    ensures r.AuthFailed? ==> TokenStore.GetToken(ls').None?
    ensures r.Loaded? ==>
      && ls' == ls
      && r.value.machines == LoadList(machinesAt).value
      && r.value.tasks == GetAllTasks(queuesAt, tasksAt, ls).tasks.value
      && r.value.taskStats == StatsOf(r.value.tasks)
  {
    var machines := LoadList(machinesAt);
    var all := GetAllTasks(queuesAt, tasksAt, AfterLoad(machinesAt, ls));
    ls' := all.storage;
    if machines.AuthFailed? || all.tasks.AuthFailed? {
      return AuthFailed, ls';
    }
    var stats := CalculateTaskStats(all.tasks.value);
    r := Loaded(Dashboard(machines.value, all.tasks.value, stats));
  }
}
