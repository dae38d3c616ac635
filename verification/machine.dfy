/**
 * The client-facing machine administration: the machine list with derived
 * liveness, creation with input validation and uniqueness, deletion, the
 * details view and the statistics view with its task-status histogram.
 */
module Machines {
  import opened Values
  import opened Strings
  import opened Store
  import opened Liveness
  import Auth

  /** A machine record with its liveness at `now`. */
  function View(m: Machine, now: Millis): MachineView
  {
    MachineView(m, IsOnline(m.heartbeat, now))
  }

  /** Neighbouring entries are in ascending name order. */
  predicate SortedByName(vs: seq<MachineView>)
  {
    forall i :: 0 < i < |vs| ==> LexLe(vs[i - 1].machine.name, vs[i].machine.name)
  }

  function InsertByName(vs: seq<MachineView>, v: MachineView): (r: seq<MachineView>)
    requires SortedByName(vs)
    ensures SortedByName(r)
    ensures multiset(r) == multiset(vs) + multiset{v}
    ensures |r| == |vs| + 1
    ensures r[0] == v || (|vs| > 0 && r[0] == vs[0])
  {
    if |vs| == 0 then [v]
    else if LexLe(v.machine.name, vs[0].machine.name) then [v] + vs
    else
      LexLeTotal(v.machine.name, vs[0].machine.name);
      var rest := InsertByName(vs[1..], v);
      assert vs == [vs[0]] + vs[1..];
      [vs[0]] + rest
  }

  /** Insertion sort by name: a sorted permutation of `vs`. */
  function SortByName(vs: seq<MachineView>): (r: seq<MachineView>)
    ensures SortedByName(r)
    ensures multiset(r) == multiset(vs)
    ensures |r| == |vs|
  {
    if |vs| == 0 then []
    else
      assert vs == vs[..|vs| - 1] + [vs[|vs| - 1]];
      InsertByName(SortByName(vs[..|vs| - 1]), vs[|vs| - 1])
  }

  /** The keys of `m`, each once, in some order. */
  method KeysOf(m: map<string, Machine>) returns (keys: seq<string>)
    ensures forall k :: k in keys <==> k in m
    ensures |keys| == |m|
  {
    keys := [];
    var todo := m.Keys;
    while todo != {}
      invariant todo <= m.Keys
      invariant forall k :: k in keys <==> k in m && k !in todo
      invariant |keys| + |todo| == |m|
      decreases todo
    {
      var k :| k in todo;
      keys := keys + [k];
      todo := todo - {k};
    }
  }

  /** Each listed view is the view of a machine of `ms`, and each machine of `ms` is listed. */
  lemma ViewsListed(keys: seq<string>, ms: map<string, Machine>, now: Millis, unsorted: seq<MachineView>, vs: seq<MachineView>)
    requires forall k :: k in keys <==> k in ms
    requires |unsorted| == |keys|
    requires forall i :: 0 <= i < |keys| ==> keys[i] in ms && unsorted[i] == View(ms[keys[i]], now)
    requires multiset(vs) == multiset(unsorted)
    ensures forall i :: 0 <= i < |vs| ==>
      vs[i].machine in ms.Values && vs[i].isOnline == IsOnline(vs[i].machine.heartbeat, now)
    ensures forall k :: k in ms ==> View(ms[k], now) in vs
  {
    forall i | 0 <= i < |vs|
      ensures vs[i].machine in ms.Values && vs[i].isOnline == IsOnline(vs[i].machine.heartbeat, now)
    {
      assert vs[i] in multiset(vs);
      assert vs[i] in unsorted;
      var j :| 0 <= j < |unsorted| && unsorted[j] == vs[i];
      assert keys[j] in ms;
    }
    forall k | k in ms
      ensures View(ms[k], now) in vs
    {
      assert k in keys;
      var j :| 0 <= j < |keys| && keys[j] == k;
      assert unsorted[j] in multiset(unsorted);
    }
  }

  /** `keys` lists every key of `m` once. */
  predicate ListsKeysOnce(keys: seq<string>, m: map<string, Machine>)
  {
    && |keys| == |m|
    && (forall k :: k in keys ==> k in m)
    && (forall k :: k in m ==> k in keys)
  }

  /** The views of the machines stored under `keys`, in that order. */
  function ViewsAt(m: map<string, Machine>, keys: seq<string>, now: Millis): (vs: seq<MachineView>)
    requires forall k :: k in keys ==> k in m
    ensures |vs| == |keys|
    ensures forall i :: 0 <= i < |keys| ==> vs[i] == View(m[keys[i]], now)
  {
    seq(|keys|, i requires 0 <= i < |keys| => View(m[keys[i]], now))
  }

  /**
   * `getMachines`: every machine, in ascending name order, each record as
   * stored with `isOnline` added: a permutation of the stored machines'
   * views, one per id, so records that happen to be equal are each listed.
   */
  method GetMachines(s: Store, now: Millis) returns (views: seq<MachineView>)
    ensures |views| == |s.machines|
    ensures SortedByName(views)
    ensures exists keys :: ListsKeysOnce(keys, s.machines) && multiset(views) == multiset(ViewsAt(s.machines, keys, now))
    ensures forall i :: 0 <= i < |views| ==>
      views[i].machine in s.machines.Values && views[i].isOnline == IsOnline(views[i].machine.heartbeat, now)
    ensures forall k :: k in s.machines ==> View(s.machines[k], now) in views
  {
    var ms := s.machines;
    var keys := KeysOf(ms);
    var unsorted := ViewsAt(ms, keys, now);
    views := SortByName(unsorted);
    ViewsListed(keys, ms, now, unsorted, views);
    assert ListsKeysOnce(keys, ms);
  }

  const BlankMessage: string := "名称和 IP 地址不能为空"
  const DuplicateMessage: string := "具有相同名称或 IP 的机器已存在"
  const NotFoundMessage: string := "机器未找到"

  /** `!v || typeof v !== 'string' || v.trim() === ''` for one field of the body. */
  predicate BadText(v: Option<Json>)
  {
    !Present(v) || !v.value.JStr? || Trim(v.value.s) == ""
  }

  /** A new machine would clash with a stored one on a unique column (id, name, ip or token). */
  predicate Clashes(s: Store, id: string, name: string, ip: string, token: string)
  {
    || id in s.machines
    || exists k :: k in s.machines && (s.machines[k].name == name || s.machines[k].ip == ip || s.machines[k].token == token)
  }

  /**
   * `createMachine`: 400 unless name and ip are non-blank strings; the
   * trimmed values are stored; 409 when a unique column clashes. `newId`
   * and `newToken` stand for the store's generated id and token.
   */
  function CreateMachine(s: Store, body: Option<Json>, newId: string, newToken: string): (out: Step)
    ensures body.None? || body == Some(JNull) ==> out == Step(Fail(500, "创建机器失败"), s)
    ensures (body.Some? && body.value != JNull &&
      (BadText(Field(body.value, "name")) || BadText(Field(body.value, "ip")))) ==>
      out == Step(Fail(400, BlankMessage), s)
    ensures StatusOf(out.response) == 201 ==>
      && body.Some? && !BadText(Field(body.value, "name")) && !BadText(Field(body.value, "ip"))
      && var name, ip := Trim(body.value.fields["name"].s), Trim(body.value.fields["ip"].s);
        && name != "" && ip != ""
        && !Clashes(s, newId, name, ip, newToken)
        && out.store.machines.Keys == s.machines.Keys + {newId}
        && (forall k :: k in s.machines ==> out.store.machines[k] == s.machines[k])
        && out.store.tasks == s.tasks && out.store.queues == s.queues
        && out.response == Json(201, MachineReply(out.store.machines[newId]))
        && out.store.machines[newId] == Machine(newId, name, ip, newToken, None, None, None, None, 0, 0)
    ensures StatusOf(out.response) != 201 ==> out.store == s
    ensures (body.Some? && body.value != JNull &&
      !BadText(Field(body.value, "name")) && !BadText(Field(body.value, "ip"))) ==>
      var name, ip := Trim(body.value.fields["name"].s), Trim(body.value.fields["ip"].s);
      StatusOf(out.response) == (if Clashes(s, newId, name, ip, newToken) then 409 else 201)
  {
    if body.None? || body.value.JNull? then Step(Fail(500, "创建机器失败"), s)
    else
      var name, ip := Field(body.value, "name"), Field(body.value, "ip");
      if BadText(name) || BadText(ip) then Step(Fail(400, BlankMessage), s)
      else
        var n, i := Trim(name.value.s), Trim(ip.value.s);
        TrimEmptyIffAllSpace(name.value.s);
        if Clashes(s, newId, n, i, newToken) then Step(Fail(409, DuplicateMessage), s)
        else
          var m := Machine(newId, n, i, newToken, None, None, None, None, 0, 0);
          Step(Json(201, MachineReply(m)), s.(machines := s.machines[newId := m]))
  }

  /**
   * A machine just created is admitted by the machine guard with its new
   * token, as exactly the record created: the token uniqueness the 409
   * enforces means no other stored machine can answer for it.
   */
  lemma CreatedMachineIsAdmitted(s: Store, body: Option<Json>, newId: string, newToken: string,
                                 lookup: string -> Option<Machine>)
    requires StatusOf(CreateMachine(s, body, newId, newToken).response) == 201
    requires ' ' !in newToken
    requires Auth.LooksUpStore(lookup, CreateMachine(s, body, newId, newToken).store)
    ensures Auth.MachineAuth(Some(Auth.BearerPrefix + newToken), lookup)
      == Auth.Admit(CreateMachine(s, body, newId, newToken).store.machines[newId])
  {
    var out := CreateMachine(s, body, newId, newToken);
    var m := out.store.machines[newId];
    Auth.BearerTokenRoundTrip(newToken);
    assert m in out.store.machines.Values;
    var found := lookup(newToken);
    assert found.Some?;
    var k :| k in out.store.machines && out.store.machines[k] == found.value;
  }

  /** `deleteMachine`: 404 for an unknown id, otherwise the record is removed. */
  function DeleteMachine(s: Store, id: string): (out: Step)
    ensures id !in s.machines ==> out == Step(Fail(404, NotFoundMessage), s)
    ensures id in s.machines ==>
      && out.response == Json(200, MessageReply("机器已删除"))
      && out.store.machines.Keys == s.machines.Keys - {id}
      && (forall k :: k in out.store.machines ==> out.store.machines[k] == s.machines[k])
      && out.store.tasks == s.tasks && out.store.queues == s.queues
  {
    if id !in s.machines then Step(Fail(404, NotFoundMessage), s)
    else Step(Json(200, MessageReply("机器已删除")), s.(machines := s.machines - {id}))
  }

  /**
   * `getMachineDetails`: 404 for an unknown id; otherwise the selected
   * columns with liveness, its label, and the uptime in whole seconds.
   */
  function GetMachineDetails(s: Store, id: string, now: Millis): (resp: Response)
    ensures id !in s.machines ==> resp == Fail(404, NotFoundMessage)
    ensures id in s.machines ==>
      var m := s.machines[id];
      && resp.Json? && resp.status == 200 && resp.reply.DetailsReply?
      && var d := resp.reply.details;
        && d.id == m.id && d.name == m.name && d.ip == m.ip
        && d.deviceInfo == m.deviceInfo && d.encoder == m.encoder
        && d.heartbeat == m.heartbeat && d.firstHeartbeat == m.firstHeartbeat
        && (d.isOnline <==> m.heartbeat.Some? && now - m.heartbeat.value < 120000)
        && (d.statusText == "在线" <==> d.isOnline)
        && (d.statusText == "离线" <==> !d.isOnline)
        && (m.firstHeartbeat.None? ==> d.uptime == 0)
        && (m.firstHeartbeat.Some? ==> d.uptime * 1000 <= now - m.firstHeartbeat.value < d.uptime * 1000 + 1000)
        && d.runningTasksCount == 0
  {
    if id !in s.machines then Fail(404, NotFoundMessage)
    else
      var m := s.machines[id];
      var online := IsOnline(m.heartbeat, now);
      Json(200, DetailsReply(Details(m.id, m.name, m.ip, m.deviceInfo, m.encoder, m.heartbeat,
        m.firstHeartbeat, online, StatusLabel(online), Uptime(m.firstHeartbeat, now), 0)))
  }

  /**
   * Deleting a machine just created restores the store as it was, and
   * its details are then a 404.
   */
  lemma DeleteUndoesCreate(s: Store, body: Option<Json>, newId: string, newToken: string, now: Millis)
    requires StatusOf(CreateMachine(s, body, newId, newToken).response) == 201
    ensures var created := CreateMachine(s, body, newId, newToken).store;
      && DeleteMachine(created, newId).response.Json?
      && DeleteMachine(created, newId).store == s
      && GetMachineDetails(DeleteMachine(created, newId).store, newId, now) == Fail(404, NotFoundMessage)
  {
    var created := CreateMachine(s, body, newId, newToken).store;
    var after := DeleteMachine(created, newId).store;
    assert newId !in s.machines;
    assert after.machines == s.machines;
  }

  /** The ids of the tasks with status `st`. */
  function WithStatus(tasks: map<string, Task>, st: TaskStatus): set<string>
  {
    set k | k in tasks && tasks[k].status == st
  }

  const AllStatuses: seq<TaskStatus> := [WAITING, DOWNLOADING, CONVERTING, UPLOADING, FINISHED, FAILED]

  /** `groupBy status` with counts: each status that occurs, mapped to its number of tasks. */
  function Histogram(tasks: map<string, Task>): (h: map<TaskStatus, nat>)
    ensures forall st :: st in h <==> |WithStatus(tasks, st)| > 0
    ensures forall st :: st in h ==> h[st] == |WithStatus(tasks, st)|
  {
    map st | st in AllStatuses && |WithStatus(tasks, st)| > 0 :: |WithStatus(tasks, st)|
  }

  /** The sum of a histogram's counts. */
  function Total(h: map<TaskStatus, nat>, sts: seq<TaskStatus>): nat
  {
    if |sts| == 0 then 0 else (if sts[0] in h then h[sts[0]] else 0) + Total(h, sts[1..])
  }

  lemma {:induction false} TotalIsCount(tasks: map<string, Task>, sts: seq<TaskStatus>)
    requires forall i, j :: 0 <= i < j < |sts| ==> sts[i] != sts[j]
    ensures Total(Histogram(tasks), sts) == |set k | k in tasks && tasks[k].status in sts|
  {
    if |sts| > 0 {
      var a := WithStatus(tasks, sts[0]);
      var b := set k | k in tasks && tasks[k].status in sts[1..];
      assert a !! b;
      assert (set k | k in tasks && tasks[k].status in sts) == a + b;
      TotalIsCount(tasks, sts[1..]);
    } else {
      assert (set k | k in tasks && tasks[k].status in sts) == {};
    }
  }

  /** The histogram's counts add up to the number of tasks. */
  lemma HistogramSumsToTaskCount(tasks: map<string, Task>)
    ensures Total(Histogram(tasks), AllStatuses) == |tasks|
  {
    TotalIsCount(tasks, AllStatuses);
    assert (set k | k in tasks && tasks[k].status in AllStatuses) == tasks.Keys;
  }

  /**
   * `getMachineStats`: 404 for an unknown id; otherwise the global status
   * histogram with the per-machine counts fixed at 0.
   */
  function GetMachineStats(s: Store, id: string): (resp: Response)
    ensures id !in s.machines ==> resp == Fail(404, NotFoundMessage)
    ensures id in s.machines ==>
      && resp.Json? && resp.status == 200 && resp.reply.StatsReply?
      && var st := resp.reply.stats;
        && st.machineId == id
        && st.completedTasksCount == 0 && st.failedTasksCount == 0
        && (forall x :: x in st.globalTaskStats <==> exists k :: k in s.tasks && s.tasks[k].status == x)
        && (forall x :: x in st.globalTaskStats ==> st.globalTaskStats[x] == |WithStatus(s.tasks, x)|)
        && Total(st.globalTaskStats, AllStatuses) == |s.tasks|
  {
    if id !in s.machines then Fail(404, NotFoundMessage)
    else
      HistogramSumsToTaskCount(s.tasks);
      var h := Histogram(s.tasks);
      assert forall x :: x in h <==> exists k :: k in s.tasks && s.tasks[k].status == x by {
        forall x ensures x in h <==> exists k :: k in s.tasks && s.tasks[k].status == x {
          if exists k :: k in s.tasks && s.tasks[k].status == x {
            var k :| k in s.tasks && s.tasks[k].status == x;
            assert k in WithStatus(s.tasks, x);
          }
        }
      }
      Json(200, StatsReply(MachineStats(id, 0, 0, h)))
  }
}
