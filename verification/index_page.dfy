/**
 * The pure helpers of the dashboard page: a task's progress, the three
 * task lists the page shows (running, waiting, recently ended), the
 * reconnection back-off and the status chips.
 */
module IndexPage {
  import opened Values
  import opened Store
  import opened Seqs
  import opened ApiService

  /**
   * `calculateTaskProgress`: a running task shows its stage's `progress`
   * when that is truthy and 0 otherwise; a finished one 100; a failed, a
   * waiting or an unknown one 0.
   */
  function Progress(t: TaskView): (p: Json)
    ensures t.status == "FINISHED" ==> p == JNum(100)
    ensures t.status !in {"DOWNLOADING", "CONVERTING", "UPLOADING", "FINISHED"} ==> p == JNum(0)
    ensures var info := StageInfo(t);
      t.status in {"DOWNLOADING", "CONVERTING", "UPLOADING"} ==>
        p == (if Present(OptField(info, "progress")) then OptField(info, "progress").value else JNum(0))
  {
    if t.status == "FINISHED" then JNum(100)
    else if t.status in {"DOWNLOADING", "CONVERTING", "UPLOADING"} then
      var v := OptField(StageInfo(t), "progress");
      if Present(v) then v.value else JNum(0)
    else JNum(0)
  }

  /** The stage payload a running status reads its progress from. */
  function StageInfo(t: TaskView): Option<Json>
  {
    if t.status == "DOWNLOADING" then t.downloadInfo
    else if t.status == "CONVERTING" then t.convertInfo
    else if t.status == "UPLOADING" then t.uploadInfo
    else None
  }

  /**
   * The progress depends only on the status and, for a running task, on
   * the payload of its own stage: the other stages' payloads never matter.
   */
  lemma ProgressReadsOwnStage(t: TaskView, t': TaskView)
    requires t'.status == t.status
    requires IsActive(t) ==> StageInfo(t') == StageInfo(t)
    ensures Progress(t') == Progress(t)
  {
  }

  predicate IsActive(t: TaskView)
  {
    t.status in {"DOWNLOADING", "CONVERTING", "UPLOADING"}
  }

  predicate IsWaiting(t: TaskView)
  {
    t.status == "WAITING"
  }

  predicate IsEnded(t: TaskView)
  {
    t.status in {"FINISHED", "FAILED"}
  }

  function Priority(t: TaskView): int
  {
    t.priority
  }

  function UpdatedAt(t: TaskView): int
  {
    t.updatedAt
  }

  /** The running tasks, in the order of the task list. */
  function ActiveTasks(tasks: seq<TaskView>): (r: seq<TaskView>)
    ensures forall k :: 0 <= k < |r| ==> IsActive(r[k])
    ensures forall t :: t in multiset(tasks) && IsActive(t) ==> multiset(r)[t] == multiset(tasks)[t]
    ensures multiset(r) <= multiset(tasks)
  {
    forall t | t in multiset(tasks) && IsActive(t)
      ensures multiset(Filter(tasks, IsActive))[t] == multiset(tasks)[t]
    {
      FilterCount(tasks, IsActive, t);
    }
    Filter(tasks, IsActive)
  }

  /** The running list of a concatenation is the running lists one after the other: order is kept. */
  lemma ActiveKeepsOrder(a: seq<TaskView>, b: seq<TaskView>)
    ensures ActiveTasks(a + b) == ActiveTasks(a) + ActiveTasks(b)
  {
    FilterAppend(a, b, IsActive);
  }

  /** The waiting tasks, highest priority first. */
  function WaitingTasks(tasks: seq<TaskView>): (r: seq<TaskView>)
    ensures SortedDesc(r, Priority)
    ensures multiset(r) == multiset(Filter(tasks, IsWaiting))
    ensures forall k :: 0 <= k < |r| ==> IsWaiting(r[k])
  {
    var w := Filter(tasks, IsWaiting);
    var r := SortDesc(w, Priority);
    assert forall k :: 0 <= k < |r| ==> r[k] in multiset(w);
    r
  }

  /** Waiting tasks of equal priority keep their order in the task list. */
  lemma WaitingKeepsListOrder(tasks: seq<TaskView>, v: int)
    ensures Filter(WaitingTasks(tasks), KeyIs(Priority, v)) == Filter(Filter(tasks, IsWaiting), KeyIs(Priority, v))
  {
    SortDescStable(Filter(tasks, IsWaiting), Priority, v);
  }

  const RecentLimit := 10

  /** The ended tasks, most recently updated first, at most ten. */
  function RecentTasks(tasks: seq<TaskView>): (r: seq<TaskView>)
    ensures |r| <= RecentLimit
    ensures SortedDesc(r, UpdatedAt)
    ensures multiset(r) <= multiset(Filter(tasks, IsEnded))
    ensures |r| == if |Filter(tasks, IsEnded)| < RecentLimit then |Filter(tasks, IsEnded)| else RecentLimit
  {
    var sorted := SortDesc(Filter(tasks, IsEnded), UpdatedAt);
    TakeSorted(sorted, RecentLimit, UpdatedAt);
    Take(sorted, RecentLimit)
  }

  /**
   * The recent list holds the most recent ended tasks: every ended task
   * left out was updated no later than every task shown.
   */
  lemma RecentAreMostRecent(tasks: seq<TaskView>, t: TaskView)
    ensures t in multiset(Filter(tasks, IsEnded)) - multiset(RecentTasks(tasks)) ==>
      forall r :: r in RecentTasks(tasks) ==> t.updatedAt <= r.updatedAt
  {
    if t in multiset(Filter(tasks, IsEnded)) - multiset(RecentTasks(tasks)) {
      TakeKeepsTop(SortDesc(Filter(tasks, IsEnded), UpdatedAt), RecentLimit, UpdatedAt, t);
    }
  }

  /**
   * Among ended tasks updated at the same moment, the ones shown are the
   * first of them in the task list: a tie for the last place goes to the
   * earlier task.
   */
  lemma RecentKeepsListOrder(tasks: seq<TaskView>, v: int)
    ensures Filter(RecentTasks(tasks), KeyIs(UpdatedAt, v)) <= Filter(Filter(tasks, IsEnded), KeyIs(UpdatedAt, v))
  {
    var sorted := SortDesc(Filter(tasks, IsEnded), UpdatedAt);
    FilterPrefix(Take(sorted, RecentLimit), sorted, KeyIs(UpdatedAt, v));
    SortDescStable(Filter(tasks, IsEnded), UpdatedAt, v);
  }

  const RetryStep := 2000
  const RetryCap := 10000

  /** The wait before the next reconnection attempt: 2 s per failure so far, at most 10 s. */
  function RetryDelay(retryCount: int): (d: int)
    ensures d <= RetryCap
    ensures d == retryCount * RetryStep || d == RetryCap
    ensures d == RetryCap <==> retryCount * RetryStep >= RetryCap
  {
    if retryCount * RetryStep < RetryCap then retryCount * RetryStep else RetryCap
  }

  /** The back-off never shrinks as failures accumulate and reaches its cap after five. */
  lemma RetryDelayMonotone(m: int, n: int)
    requires m <= n
    ensures RetryDelay(m) <= RetryDelay(n)
    ensures n >= 5 ==> RetryDelay(n) == RetryCap
    ensures 0 < n < 5 ==> RetryDelay(n) == n * RetryStep
  {
  }

  datatype Color = Success | Warning | Danger | Primary | Secondary

  datatype Chip = Chip(color: Color, text: string)

  /** The status chip of each of the six statuses. */
  function StatusChip(st: TaskStatus): Chip
  {
    match st
    case WAITING => Chip(Secondary, "等待中")
    case DOWNLOADING => Chip(Primary, "下载中")
    case CONVERTING => Chip(Warning, "转换中")
    case UPLOADING => Chip(Primary, "上传中")
    case FINISHED => Chip(Success, "已完成")
    case FAILED => Chip(Danger, "失败")
  }

  /**
   * `statusMap[status]` on the status string: a chip for the six names.
   * `None` stands for the TypeError `statusMap[status].color` throws on
   * any other string; the page only renders chips for tasks of its
   * filtered lists, whose statuses are among the six.
   */
  function ChipFor(status: string): (c: Option<Chip>)
    ensures c.Some? <==> ParseStatus(status).Some?
    ensures forall st :: StatusName(st) == status ==> c == Some(StatusChip(st))
  {
    match ParseStatus(status)
    case Some(st) => Some(StatusChip(st))
    case None => None
  }

  /** The map is total over the six statuses, and no two statuses share a chip text. */
  lemma ChipMapTotal(a: TaskStatus, b: TaskStatus)
    ensures ChipFor(StatusName(a)) == Some(StatusChip(a))
    ensures a != b ==> StatusChip(a).text != StatusChip(b).text
  {
    ParseStatusName(a);
  }
}
