# VideoConvertQueue in Dafny

VideoConvertQueue is a coordinator for video-conversion work. Clients put
tasks into named queues. Worker machines authenticate with a bearer token,
fetch the next WAITING task, start it, report the download, convert and
upload stages, and finish by completing or failing it. Workers keep
themselves visible with `online` and `heartbeat` calls. The coordinator
also derives views from that state:
- a machine list with liveness;
- machine details and statistics;
- a browser dashboard with task counts, progress and task lists.

Beside this core the repository has a demonstration user controller, a
logger with file rotation, a response envelope, two authentication guards
and the browser's token store. All of them are modelled here.

The model is functional:
- The database is three maps keyed by id: `Store(queues, tasks, machines)`.
- Every handler is a pure function from a store (and its request) to a
  `Step(response, store)`.
- A store update whose `where` matches no row throws. The worker handlers
  catch that and answer 500 with the store unchanged. The queue handlers
  have no `catch`, so the same failure is `Unhandled`.
- Request bodies are `Option<Json>`. `None` is a body that does not parse.
- Generated ids, tokens and time stamps are parameters. So are the clock
  (integer milliseconds), the HTTP responses the browser receives, token
  verification and the machine lookup.

Modules:
- `Values`: JSON values and JavaScript truthiness.
- `Strings`: trimming, code-point order, splitting and decimal printing.
- `Seqs`: filtering, flattening and sorting.
- `Store`: the records, the store and the responses.
- `Liveness`: the online and uptime rules.
- `Runner` and `RunnerProps`: the worker protocol and its properties.
- `Queues`: queue administration.
- `Machines`: machine administration.
- `ApiService` and `IndexPage`: the dashboard client.
- `Users`: the user controller.
- `Logger`: the logger.
- `ResponseEnvelope`: the response envelope.
- `Auth`: both guards.
- `TokenStore`: the browser token store.

The model follows the code as written:
- `getTask` looks at every queue.
- `startTask` claims a task whatever its status or owner.
- `completeTask` and `failTask` match the task by id alone and have no
  terminal-state check.
- `heartbeat` never writes `firstHeartbeat`.
- `deleteTask` returns no response.
- `createUser` spreads the body after the generated id, so a body `id`
  replaces it.

## Model

| member | source | states |
|---|---|---|
| Store.ParseStatus | frontend/src/types/api.ts:20-26 | a string parses to a status only as that status's own wire name |
| Store.ParseStatusName | frontend/src/types/api.ts:20-26 | printing any of the six statuses and parsing the name gives the same status back |
| Store.ParseStatusSome | frontend/src/types/api.ts:20-26 | a string is accepted exactly when it is one of the six status names |
| Runner.GetTask | src/controllers/runner.ts:49-58 | always a 200; a task reply is a WAITING task that ranks first among all WAITING tasks (highest priority, earliest creation among ties); the "no task" message comes exactly when no task is WAITING |
| Runner.ListQueue | src/controllers/runner.ts:35-39 | a 200 listing every stored queue under its id, each record as stored |
| RunnerProps.ListQueueUnaffectedByWorkers | src/controllers/runner.ts:35-39 | no worker call (start, report, complete, fail, online, heartbeat) changes what `listQueue` answers |
| Runner.StartTask | src/controllers/runner.ts:74-92 | an unknown id is a 500 with the store unchanged; otherwise the task becomes DOWNLOADING and owned by the caller whatever it was before, every other field and every other record stays as it was, and the reply carries the new task |
| Runner.ReadField | src/controllers/runner.ts:101-104 | destructuring a body field: an unparsable or null body is unreadable (it throws), an absent key is undefined, a present key gives its value |
| Runner.ReportStage | src/controllers/runner.ts:101-181 | an undefined payload is a 400 and an unreadable body or a task the caller does not own (an unknown id included) is a 500, each with the store unchanged; otherwise only that stage's payload and the status change, to the stage's status, and ownership, the other stages and all other records stay as they were |
| Runner.CompleteTask | src/controllers/runner.ts:190-221 | an undefined result is a 400; a missing task or caller record is a 500 with nothing changed; otherwise the task becomes FINISHED with the result and the caller's success count rises by exactly one, both in the same step, with no owner check and nothing else changed |
| Runner.FailTask | src/controllers/runner.ts:230-261 | the same for failing: FAILED with the error and the failure count raised by exactly one, or a 400 or 500 with nothing changed |
| Runner.Online | src/controllers/runner.ts:269-283 | `firstHeartbeat` is written with the current time only when the caller has none; a caller that has one gets its record back and nothing changes |
| Runner.Heartbeat | src/controllers/runner.ts:291-310 | 400 unless `deviceInfo` is an object and `encoder` a string; otherwise only `heartbeat`, `deviceInfo` and `encoder` of the caller change; an unparsable body or an unknown caller is a 500 with nothing changed |
| RunnerProps.DispatchKeepsKeys | src/controllers/runner.ts:74-310 | no worker call adds or removes a task or machine, none touches the queues, and records stay stored under their own ids |
| RunnerProps.CountersMoveOnlyOnTerminalCalls | src/controllers/runner.ts:205-255 | for every machine and every worker call, the success count rises by one exactly when a complete call by that machine answers 200, the failure count likewise for fail, and otherwise neither moves |
| RunnerProps.StageReportKeepsOwnership | src/controllers/runner.ts:106-115 | a stage report never changes any task's owner and never changes any machine record |
| RunnerProps.FirstHeartbeatWrittenOnce | src/controllers/runner.ts:270-279 | once a machine has a `firstHeartbeat`, no worker call changes it |
| RunnerProps.OnlineIdempotent | src/controllers/runner.ts:270-279 | going online a second time changes nothing |
| RunnerProps.StartTakesOverAnyTask | src/controllers/runner.ts:76-82 | starting a FINISHED task owned by another machine succeeds and hands the task to the caller |
| RunnerProps.CompleteTwiceCountsTwice | src/controllers/runner.ts:195-215 | completing the same task twice succeeds both times and credits the caller twice |
| RunnerProps.ForeignReportRejected | src/controllers/runner.ts:106-121 | a machine that does not own a task gets a 400 or 500 for a stage report, and the store is unchanged |
| Queues.TasksOf | src/controllers/queue.ts:20-27 | selects exactly the stored tasks whose `queueId` is the queue, unchanged |
| Queues.GetTasks | src/controllers/queue.ts:20-27 | a 200 listing exactly the tasks of the route's queue |
| Queues.CreateTask | src/controllers/queue.ts:33-44 | exactly one new task, WAITING, unowned, with the given name and priority in the route's queue and no priority ceiling; nothing else changes; a clashing id is an uncaught failure |
| Queues.DeleteTask | src/controllers/queue.ts:50-58 | removes the task only when it is in the route's queue, touching nothing else and answering nothing; otherwise an uncaught failure with the store unchanged |
| Queues.ReadStatus | src/controllers/queue.ts:66-76 | the body's status is absent, one of the six names (read as that status), or rejected |
| Queues.UpdateTaskStatus | src/controllers/queue.ts:64-78 | for a task of the route's queue only `status` changes, to any of the six with no transition check; an absent status leaves the row as it was; anything else is an uncaught failure with the store unchanged |
| Queues.CreateThenList | src/controllers/queue.ts:20-44 | after enqueueing, the queue's listing is the old listing plus the new WAITING task with its name, priority and no owner |
| Queues.DeleteLeavesOtherQueues | src/controllers/queue.ts:50-58 | deleting from one queue leaves every other queue's listing as it was |
| Queues.ListingsDisjoint | src/controllers/queue.ts:20-27 | no task is listed by two different queues |
| Queues.UpdateKeepsListings | src/controllers/queue.ts:64-78 | a status update never moves a task between queue listings |
| Liveness.OnlineBoundary | src/controllers/machine.ts:18-23 | the window is strict: a heartbeat 119 s old is online, one 120 s or 121 s old is offline, none is offline |
| Liveness.OnlineMonotone | src/controllers/machine.ts:18-23 | a newer heartbeat or an earlier clock never turns an online machine offline |
| Liveness.Uptime | src/controllers/machine.ts:103 | the whole number of seconds since the first heartbeat, rounded down, and 0 when there is none |
| Liveness.UptimeMonotone | src/controllers/machine.ts:103 | uptime never decreases as the clock advances |
| Liveness.StatusLabel | src/controllers/machine.ts:110 | '在线' exactly when online and '离线' exactly when offline |
| Machines.SortByName | src/controllers/machine.ts:15-17 | the result is a permutation of its input in ascending name order |
| Machines.KeysOf | src/controllers/machine.ts:15-17 | lists every stored machine id exactly once |
| Machines.GetMachines | src/controllers/machine.ts:15-29 | a permutation of the stored machines' views, one per id, in ascending name order, each record as stored with `isOnline` following the liveness rule |
| Machines.CreateMachine | src/controllers/machine.ts:40-56 | 400 unless name and ip are non-blank strings; with valid input, 409 exactly when a unique column clashes and 201 otherwise; a 201 stores exactly one new machine with the trimmed name and ip, fresh counters and nothing else changed; every other status leaves the store unchanged |
| Machines.CreatedMachineIsAdmitted | src/controllers/machine.ts:40-56 | a machine just created, presenting its new space-free token, is admitted by the machine guard as exactly the created record, because the token clash check leaves no other holder |
| Machines.DeleteMachine | src/controllers/machine.ts:63-74 | 404 for an unknown id; otherwise exactly that machine is removed |
| Machines.DeleteUndoesCreate | src/controllers/machine.ts:63-74 | deleting a machine right after creating it restores the store, and its details are then a 404 |
| Machines.GetMachineDetails | src/controllers/machine.ts:82-113 | 404 for an unknown id; otherwise the stored columns, liveness by the 120 s rule, the matching label, the uptime in floored seconds and a running count of 0 |
| Machines.Histogram | src/controllers/machine.ts:131-138 | each status that occurs maps to its number of tasks, and no other status is present |
| Machines.TotalIsCount | src/controllers/machine.ts:131-138 | a histogram's counts over distinct statuses add up to the number of tasks with one of those statuses |
| Machines.HistogramSumsToTaskCount | src/controllers/machine.ts:131-145 | the histogram's counts add up to the number of tasks |
| Machines.GetMachineStats | src/controllers/machine.ts:126-152 | 404 for an unknown id; otherwise the global histogram, summing to the task count, with per-machine counts fixed at 0 |
| ApiService.HandleResponse | frontend/src/services/api.ts:24-39 | a 401, checked first, clears the stored token and is an authentication error; any other non-2xx is an API error with its status and the token kept; only a 2xx body is parsed, and one that is not JSON is an error |
| ApiService.LoadList | frontend/src/services/api.ts:44-56 | authentication failure exactly on 401; a 2xx response with a parsed, present list yields exactly that list; every other non-401 outcome (error status, unparsable body, missing list) yields the empty list |
| ApiService.AfterLoad | frontend/src/services/api.ts:44-56 | a list load leaves the token store as response classification does |
| ApiService.GetAllTasks | frontend/src/services/api.ts:112-130 | a 401 on the queue list or any queue's tasks fails the whole load and clears the token; otherwise the queues' task lists concatenated in queue order |
| ApiService.TasksInQueueOrder | frontend/src/services/api.ts:112-130 | the tasks of queue i appear after those of every earlier queue and before those of every later one, in their own load's order |
| ApiService.AllTasksFromQueues | frontend/src/services/api.ts:115-122 | a task is on the dashboard exactly when it is in the loaded list of some queue |
| ApiService.CalculateTaskStats | frontend/src/services/api.ts:135-153 | each of the six counts is the number of tasks carrying that status name |
| ApiService.CountsPartitionTasks | frontend/src/services/api.ts:145-150 | every task is counted once under its status or is skipped as invalid |
| ApiService.StatsTotalBound | frontend/src/services/api.ts:147 | the counts add up to at most the number of tasks, and to exactly that when every status is valid |
| ApiService.NoInvalid | frontend/src/services/api.ts:147 | when every status is one of the six, no task is skipped |
| ApiService.CountOfAppend | frontend/src/services/api.ts:145-150 | counting a concatenation is adding the counts of the parts |
| ApiService.CountOfPermutation | frontend/src/services/api.ts:145-150 | a status count depends only on which tasks there are, not on their order |
| ApiService.StatsPermutationInvariant | frontend/src/services/api.ts:145-150 | the statistics are the same for any reordering of the task list |
| ApiService.GetDashboardData | frontend/src/services/api.ts:158-196 | fails exactly when the machine load or the task load fails authentication, leaving no token; otherwise the loaded machines and tasks, the token store unchanged, and the statistics of exactly the returned tasks |
| IndexPage.Progress | frontend/src/pages/index.tsx:132-147 | 100 for FINISHED; for a running status the progress from that stage's payload, or 0 when absent or falsy; 0 for every other status |
| IndexPage.ProgressReadsOwnStage | frontend/src/pages/index.tsx:132-146 | two tasks with the same status, and for a running status the same payload for that stage, have the same progress: other stages' payloads never matter |
| IndexPage.ActiveTasks | frontend/src/pages/index.tsx:185-187 | only running tasks, and every running task with its multiplicity |
| IndexPage.ActiveKeepsOrder | frontend/src/pages/index.tsx:185-187 | the running list keeps the task list's order: filtering a concatenation is concatenating the filtered parts |
| IndexPage.WaitingTasks | frontend/src/pages/index.tsx:233-235 | exactly the WAITING tasks, highest priority first |
| IndexPage.WaitingKeepsListOrder | frontend/src/pages/index.tsx:233-235 | waiting tasks of equal priority appear in their task-list order |
| IndexPage.RecentTasks | frontend/src/pages/index.tsx:259-265 | ended tasks only, most recently updated first, exactly ten of them or all when fewer |
| IndexPage.RecentKeepsListOrder | frontend/src/pages/index.tsx:259-265 | among ended tasks updated at the same moment, those shown are the first of them in task-list order, so a tie for the last place goes to the earlier task |
| IndexPage.RecentAreMostRecent | frontend/src/pages/index.tsx:259-265 | every ended task left out was updated no later than every task shown |
| IndexPage.RetryDelay | frontend/src/pages/index.tsx:96 | 2 s per failure so far, or the 10 s cap exactly when that product reaches 10 s |
| IndexPage.RetryDelayMonotone | frontend/src/pages/index.tsx:96 | the back-off never shrinks as failures accumulate and stays at 10 s from the fifth failure on |
| IndexPage.ChipFor | frontend/src/pages/index.tsx:108-129 | a chip exactly for the six status names, the status's own chip for each |
| IndexPage.ChipMapTotal | frontend/src/pages/index.tsx:108-122 | the chip map is total over the six statuses and no two statuses share a chip text |
| Users.FindIndex | src/controllers/user.ts:229 | the first index with the id, or -1 when no user has it |
| Users.GetUsers | src/controllers/user.ts:92-94 | the whole list in a success envelope, the list unchanged |
| Users.GetUser | src/controllers/user.ts:130-139 | 200 exactly when some user has the id, answering with the first such user; 404 otherwise; the list unchanged |
| Users.NewUser | src/controllers/user.ts:167-172 | id length + 1 unless the body brings its own, every body key, and both time stamps set to now |
| Users.CreateUser | src/controllers/user.ts:164-176 | appends exactly one new record and answers with it; the existing records are unchanged; a body that is not JSON throws |
| Users.Updated | src/controllers/user.ts:221-227 | keeps `id` and `createdAt`, takes `name` and `email` from the body unless null or undefined there, stamps `updatedAt`, and drops every other key |
| Users.UpdateUser | src/controllers/user.ts:212-232 | 404 with the list unchanged for a missing id; otherwise only the first matching record is replaced, the length unchanged; an unparsable or null body throws |
| Users.DeleteUser | src/controllers/user.ts:264-274 | 404 with the list unchanged for a missing id; otherwise exactly the first match is removed, the others keep their order |
| Users.UpdateThenGet | src/controllers/user.ts:130-139 | after an update, fetching the same id answers with the updated record |
| Users.FindIndexUnique | src/controllers/user.ts:266 | the first match is the only index before which nothing matches |
| Users.DeleteThenGet | src/controllers/user.ts:264-274 | after a delete, fetching the id succeeds exactly when a later user had the same id |
| Users.IdRepeatsAfterDelete | src/controllers/user.ts:168 | ids are not unique: when the last of n users has id n, deleting an earlier user and creating one gives the new user id n, which the last user already has |
| ResponseEnvelope.Success | src/core/response.ts:39-48 | status 200, the success status, the message defaulting to "Success", the data passed through, no request id and no error log |
| ResponseEnvelope.Error | src/core/response.ts:59-76 | the error status with the message and no data, HTTP 400 unless given, and a fresh request id exactly for server errors |
| ResponseEnvelope.RepliesTraceable | src/core/response.ts:66-73 | a reply carries a request id exactly when it asks for an error log (`ErrorLog`) under that id with the reply's message, and only server errors ask for one |
| ResponseEnvelope.SuccessIsNotError | src/core/response.ts:39-76 | a success body never equals an error body |
| Auth.BearerToken | src/decorators/auth.ts:19 | the token taken from a bearer header contains no space |
| Auth.BearerTokenIsFirstWord | src/decorators/auth.ts:19 | the token is the header's text after "Bearer " up to the next space |
| Auth.BearerTokenRoundTrip | src/decorators/auth.ts:19 | a space-free token survives the round trip through a bearer header |
| Auth.ClientAuth | src/decorators/auth.ts:12-31 | 401 for a missing or non-bearer header, 403 for a token that does not verify, otherwise the handler runs with the token's priority ceiling |
| Auth.MachineAuth | src/decorators/authmachine.ts:11-29 | 401 'Unauthorized' for a missing or non-bearer header, 401 'Invalid token' when no machine holds the token, otherwise the handler runs with the matched machine |
| Auth.MachineAuthAdmitsHolder | src/decorators/authmachine.ts:17-29 | a stored machine presenting its own space-free token is admitted as a machine holding that token |
| Auth.MachineAuthOnlyHolders | src/decorators/authmachine.ts:19-29 | the machine guard admits a caller exactly when some stored machine holds the presented token |
| TokenStore.GetToken | frontend/src/services/auth.ts:10-12 | the value under `auth_token`, or none when that key is absent |
| TokenStore.SetToken | frontend/src/services/auth.ts:17-19 | writes `auth_token` and leaves every other key as it was |
| TokenStore.ClearToken | frontend/src/services/auth.ts:24-26 | removes `auth_token` and leaves every other key as it was |
| TokenStore.GetAuthHeaders | frontend/src/services/auth.ts:38-41 | a bearer `Authorization` header with the token exactly when the token is present and non-empty, no header otherwise |
| TokenStore.SetThenGet | frontend/src/services/auth.ts:10-33 | reading after setting gives the token set, and the client counts as authenticated exactly when it is non-empty |
| TokenStore.ClearThenGet | frontend/src/services/auth.ts:10-41 | after clearing there is no token, no authentication and no header |
| TokenStore.ClearIdempotent | frontend/src/services/auth.ts:24-26 | clearing twice is clearing once |
| TokenStore.HeaderCarriesToken | frontend/src/services/auth.ts:38-41 | the header the client sends for a space-free token passes the server's bearer check, and the server extracts that token from it |
| TokenStore.ClientAuthOfStoredToken | src/decorators/auth.ts:12-31 | the client guard's answer to the headers the client builds: 401 with no truthy token stored; for a stored space-free token, 403 when it does not verify, otherwise its priority ceiling |
| Logger.Rank | src/core/logger.ts:23-28 | level values lie between 0 and 3 |
| Logger.LevelOrder | src/core/logger.ts:23-28 | DEBUG < INFO < WARN < ERROR, and the value determines the level |
| Logger.DefaultConfig | src/core/logger.ts:208-217 | INFO and file output in production, DEBUG and console only otherwise; the directory is `LOG_DIR` unless unset or empty, then `logs`; 10 MiB, 5 files, colour on, every category |
| Logger.Override | src/core/logger.ts:228-230 | a supplied property overrides the default, an explicitly undefined one included; a missing one keeps the default |
| Logger.Merge | src/core/logger.ts:227-232 | no configuration means the defaults; otherwise every supplied property overrides, and the categories fall back to the default list when not given |
| Logger.MergeFullOverride | src/core/logger.ts:227-232 | a configuration that names every property is taken as it is |
| Logger.OrDefault | src/core/logger.ts:126-127 | an absent or zero setting gives the default, any other value is kept |
| Logger.Build | src/core/logger.ts:236-249 | a console output exactly when enabled; a file output exactly when enabled with a non-empty directory, with 10 MiB and 5 files for absent or zero settings |
| Logger.GetInstance | src/core/logger.ts:251-256 | the first call builds the logger from its configuration or the defaults; later calls return that logger and ignore theirs |
| Logger.ProductionDefaults | src/core/logger.ts:208-256 | without a configuration, the production logger passes INFO and above to a colour console and to 10 MiB, 5-file logs under `logs` |
| Logger.SetLevel | src/core/logger.ts:258-260 | only the threshold changes |
| Logger.PassesUpward | src/core/logger.ts:282-283 | a gate passing a level passes every higher level of the same category |
| Logger.SetLevelGate | src/core/logger.ts:258-283 | after setting a level, an enabled category passes exactly the levels from it up |
| Logger.StampRequestId | src/core/logger.ts:285-287 | a context without a truthy request id gets the generated one, one with it is kept, and no context stays none |
| Logger.StampIdempotent | src/core/logger.ts:285-287 | a stamped context carries a truthy request id, and stamping again changes nothing |
| Logger.MakeEntry | src/core/logger.ts:157-164 | the entry names the level and category and carries the context's request id exactly when it is truthy there |
| Logger.NumberedDistinct | src/core/logger.ts:182-197 | different copy numbers give different paths, none of them the file itself |
| Logger.Rename | src/core/logger.ts:192 | the file moves to the new path, replacing what was there, and every other path is untouched |
| Logger.RotateIfNeeded | src/core/logger.ts:173-202 | nothing changes unless the file exists and has reached the size limit; then the oldest copy is gone, copy i becomes copy i + 1, the file becomes copy 1 and nothing else changes |
| Logger.RotationLosesOnlyOldest | src/core/logger.ts:182-197 | a rotation loses only the oldest copy: every other file's content is still somewhere |
| Logger.DayFileInjective | src/core/logger.ts:141-143 | a day file's path determines its category and its date |
| Logger.CopiesOfOneCategory | src/core/logger.ts:141-143 | a numbered copy's path determines the category it belongs to |
| Logger.DayFilesDistinct | src/core/logger.ts:141-143 | different categories or days never share a day file, no numbered copy is a day file, and copies of different categories never collide, so rotating one file touches no other |
| Logger.WriteFile | src/core/logger.ts:145-171 | the day's file of the category gets the line: appended when missing or below `maxSize`; otherwise rotated as `IsRotation` describes and started afresh with the line; with `maxFiles < 1` the copy numbered `maxFiles` is deleted and the file moved to copy 1; nothing else changes |
| Logger.Log | src/core/logger.ts:282-293 | a message that fails the level or category gate has no effect; one that passes gets its context stamped, is one console entry when the console output exists, and is written to the day's file exactly as `WriteFile` writes it when the file output exists (the file system is untouched otherwise) |
| Logger.EntriesCarryRequestId | src/core/logger.ts:163 | every entry logged with a context carries a request id: the context's own, or the generated one |
| Strings.Trim | src/controllers/machine.ts:47 | `trim()`: drops the leading and trailing white space and nothing else |
| Strings.TrimEmptyIffAllSpace | src/controllers/machine.ts:42-45 | a string trims to empty exactly when it is all white space |
| Strings.TrimIdempotent | src/controllers/machine.ts:47 | trimming twice is trimming once |
| Strings.Split | src/decorators/auth.ts:19 | `split(' ')`: the parts joined by the separator give the string back, and no part contains it |
| Seqs.Filter | frontend/src/pages/index.tsx:185-187 | `filter`: only elements satisfying the predicate, drawn from the input |
| Seqs.FilterCount | frontend/src/pages/index.tsx:185-187 | `filter` keeps every copy of a passing element and no copy of a failing one |
| Seqs.FilterAppend | frontend/src/pages/index.tsx:185-187 | filtering distributes over concatenation, so it keeps the input order |
| Seqs.FlattenMembership | frontend/src/services/api.ts:115-122 | an element is in the concatenation exactly when it is in one of the lists |
| Seqs.FlattenAt | frontend/src/services/api.ts:115-122 | the i-th list sits in `.flat()` after every earlier list and before every later one |
| Seqs.SortDesc | frontend/src/pages/index.tsx:233-235 | a permutation of its input in non-increasing key order |
| Seqs.SortDescStable | frontend/src/pages/index.tsx:233-235 | the sort is stable, as JavaScript's `sort` is: the elements of each key come out in input order |
| Seqs.FilterPrefix | frontend/src/pages/index.tsx:265 | filtering a prefix gives a prefix of the filtered list |
| Seqs.Take | frontend/src/pages/index.tsx:265 | `slice(0, n)`: the first n elements, or all when fewer |

## Left out

- The HTTP framework, route registration, request parsing and the wire
  format of `c.json`. Handlers receive parsed bodies and return a status
  and a reply.
- Store failures other than "no row matches" (connection loss, foreign-key
  failures when deleting a machine that owns tasks). Each handler's
  `catch` would turn them into its 500.
- The automatic `updatedAt` stamping of the store. Its schema is not part
  of this model. Task `updatedAt` changes only where a handler writes it.
- The unique columns of the machine table (id, name, ip and token) are
  assumed: its schema is not part of this model. `Machines.Clashes`
  answers 409 on a clash in any of them, although the 409 message names
  only name and IP.
- The database collation: names are ordered by code point (`LexLe`).
- `getMinio` and the object-storage configuration: file reading and
  foreign libraries.
- Machines.SortByName: its stability is not proved. The database's
  tie-breaking among equal names is unspecified anyway.
- Concurrency: handlers are sequential transitions. `Promise.all` in the
  dashboard is modelled as two independent loads.
- Floating point: stage progress, priorities and times are integers.
  `Number(...)` on a path id is `Option<int>`, with `None` for `NaN`.
- `path.join` normalisation of the log path: the path is the plain
  concatenation with "/".
- Logger.StampRequestId: a context that is not an object (a string or
  number passed as context) is not modelled. Contexts are objects or
  absent.
- `addOutput` and custom log outputs. The console output's colours and
  formatting are also left out: the console is modelled as the list of
  entries it receives.
- Logger.WriteFile: the byte size of a JSON line is a parameter, since
  the model has no JSON serialiser.
- The date-rollover check in the file output: the date is a parameter.
- The logging side effect of server errors in the response envelope. It
  is modelled as the `ErrorLog` record the reply asks for.
- ResponseEnvelope.RepliesTraceable: the write of the error log itself is
  not modelled. `error` starts `logError` without awaiting it, and
  `logError` only prints its own failures. Those include the static logger
  never being initialised and the `error` category being disabled. So the
  log can be missing silently even when the reply carries a request id.
- Token verification and the machine lookup of the guards. Both read the
  store and are parameters; `Auth.LooksUpStore` states what a lookup that
  reads the store must do.
- The dashboard page's rendering, hooks and timers. Only its pure helpers
  are modelled.
- Queues.CreateTask: the request body's validation of `name` and
  `priority` is not modelled. The handler receives them already read.
