# lumn: the durable execution queue, the pipeline executor and their neighbours

lumn runs workflows written in Lua.  A daemon keeps an execution queue per workflow in SQLite; triggers
enqueue, one worker per started workflow claims, runs and records.  This project models that daemon and
the executor it calls, and proves what they keep over every input, every run and every interleaving.

| part | files | what is proved |
|---|---|---|
| tables and store | `Tables`, `Store`, `Retention`, `Worker` | every transaction keeps the coupling of executions and queue rows; the store's methods perform these transactions; retention is exact; one wake-up drains the queue in order |
| daemon protocol | `Protocol`, `ClaimSafety`, `Partition`, `Waiters`, `Wakeups`, `OwnInserts`, `Knowledge`, `Retirement`, `SoleWorkers`, `OneStart`, `Reaching`, `Waking`, `ParallelRuns`, `LostWakeups`, `Publishers`, `MissedReports`, `QueueBound`, `Running`, `Clocks`, `Alone`, `Stopping`, `Shutdown`, `SingleSteps` | a state machine of goroutines, crash and boot; at most one claim per execution, what a stop has waited for, times in order, finished rows for ever, no execution lost, waiters, wake-ups, the queue bound, exactly when a workflow can run twice at once, and a run from the empty database for each documented promise that fails; what each request does on its own, told by columns and flags |
| executor | `Flow`, `NodeLaws`, `Registry`, `Executor`, `TriggerData`, `Engine` | the key-rewriting loop refines a recursive semantics that composes; what each kind of node does to a running flow, failures included; what a run starts from; which registry keys are live at every point; what the final report says |
| deep copy | `LuaHeap`, `CloneInput`, `ClonePanic`, `CloneOutput`, `Clone` | what is refused and with what outcome, what the copy equals, what it is made of, and that writing to it reaches nothing else |
| smaller machines | `Selectors`, `Debounce`, `Scheduler`, `Routes` | the two selector resolvers, the file watcher, the scheduler loop and the route table against declarative specifications |

`Base` and `Reports` hold shared datatypes.  `dafny verify dfyconfig.toml` verifies the whole project.

The protocol's steps follow `internal/daemon/daemon.go`: `Protocol.EnqueueStep` lines 478-535, `Protocol.WorkerStep`
lines 803-834, `Protocol.StopStep` lines 166-201, 339-418 and 602-636, `Protocol.StartStep` lines 547-600,
`Protocol.DeliveryStep` lines 854-865.  One step is one lock section, one SQL transaction or one channel operation;
everything between two steps can be interleaved, and a crash loses memory and keeps the tables.  A request enters the
protocol with the first of its steps that writes, or that looks the workflow map up.  `Flow.RunFlow` is the
semantics that `internal/executor/executor.go:39-173` is proved against.

## Assumptions

- One daemon process per database, and store operations do not fail with an I/O error.
- Foreign keys cascade as the schema declares (`sql/migrations/20260329153340-initial_lumnd_schema.sql:21-44`);
  SQLite switches this on per connection, which the model takes for granted.
- `AUTOINCREMENT` ids are never reused.
- The status of a row that a request has read before it enters the protocol is one the row had at some earlier moment.
  So an upsert or a delete may come at any time: the start found no row or an inactive one, the delete an inactive one.
  A stop works on the object that the workflow map has when it enters, a shutdown on all of them.  A restore may build an
  object for any stored workflow at any time, two shutdowns may overlap, and a row that is active since before the boot
  may be taken for one that was read inactive: there the protocol has more runs than the
  program, so what is proved of every run holds of the program's.  The runs that are exhibited (`LostWakeups`,
  `MissedReports`, `QueueBound`, `ParallelRuns.RestartCanRunTwo`) use no restore and no shutdown; in them the first start
  finds no row, a stop finds its workflow active and registered, and a later start finds an inactive row.  The states that
  `ParallelRuns.UncleanStartCanRunTwo`, `QueueBound.RaceReachesBound` and `OwnInserts.ForeignInsertStrands` continue from
  may have come about with them.
- Lua callbacks are arbitrary functions of their arguments and the Lua state.  They cannot reach the registry.
- A Lua number is an integer or a float; `IsInteger` holds of the integer subtype.  Table keys are normalised as
  Lua does it (no NaN, no float that has an integer form), and the raw length is some border of the table.
- A timer's expiry and its callback are one step; timers are never early; the clock does not go back
  (in the file watcher and the scheduler only; the queue theorems hold for any clock readings, except
  `Workers.InsertionOrder` and the two of `Clocks`, which say so).

## Where the code and its documentation differ

The model follows the code.

- `.specs/daemon-triggers.md:19` promises that one workflow never runs twice in parallel.  A worker goroutine outlives the
  stop of its object.  It is retired if it is between runs, its object is out of the workflow map, and the object is
  either not accepting with no stop left that could open it again, or asleep with no goroutine left that could notify
  it (`Retirement.Retired`).  If every start, on putting its object into the map, finds the other workers of the workflow
  retired, no workflow ever runs twice (`SoleWorkers.CleanRunsNeverRunTwo`).  If one does not, two runs at once can come
  about without any other start (`ParallelRuns.UncleanStartCanRunTwo`): the start and the two workers go on, and whoever
  holds the old object opens or notifies it.  Only where that is an enqueue that would be refused does the continuation
  hold more: the first step of a start, a delete of the full queue's workflow, or a stop of the other object that the
  enqueue found.  `ParallelRuns.NextStartSafeIffClean` puts both directions together, and
  `ParallelRuns.RestartCanRunTwo` is a restart that fails in this way: the old worker has passed `isAccepting`
  (`internal/daemon/daemon.go:811`) when the stop sees its object idle.
- `.specs/daemon-triggers.md:226` promises that executions beyond the queue limit are discarded.  The check and the
  insert are separate steps: `QueueBound.QueueStaysBounded` is the bound that holds, `QueueBound.RaceReachesBound`
  reaches it from any state with the racing goroutines at the check, and `QueueBound.BoundIsReached` from the empty
  database, for every limit and every number of goroutines.
- `.specs/daemon-triggers.md:225` promises that queued executions are processed after the current one.  A queued
  execution can be left with its worker asleep: `LostWakeups.WakeupCanBeLost` is such a run,
  `Wakeups.LostWakeupIffLateForeign` says exactly when, and `OwnInserts.NoLostWakeup` gives the condition on the
  enqueue under which it cannot happen.
- `.specs/daemon-triggers.md:94` promises that a manual execution returns its result.  The waiter is registered
  after the enqueue has notified the worker (`internal/daemon/daemon.go:498`): `Waiters.DeliveredIffRegistered`
  says exactly which publications arrive, `MissedReports.ReportCanBeMissed` is a run in which one does not, and by
  `MissedReports.MissedForever` no later step makes up for it.
- `docs/reference/primitives/tap.md:19` promises a copy of the item.  An integral float outside the int64 range is
  changed by the copy: `Clones.CloneEqualIffTame` is exact, `Clones.CloneLosesBigFloat` is an instance.
- `README.md:176` promises unique id prefixes as selectors.  The store matches with LIKE, the command line with a
  prefix test; `Selectors.ResolversAgreeIff` says for exactly which selectors they always agree.
- `docs/reference/primitives/filter.md:22` says that later steps are not executed once the batch is empty; in the
  code a later tap runs once without input and a later call refills the batch.  `Flow.EmptyBatchStandsIff`: the rest
  of the flow does nothing, whatever its callbacks, exactly if it consists of set and filter nodes.

## Model

| member | source | states |
|---|---|---|
| Tables.CreateCoupled | internal/store/store.go:381-418 | inserting an execution and its queue row keeps: queued iff exactly one queue row of the same workflow; the queued ids grow by exactly the new id |
| Tables.ClaimCoupled | internal/store/store.go:420-452 | a claim keeps the coupling and takes exactly one id out of the queue |
| Tables.CompleteCoupled | internal/store/sqlc/executions.sql.go:13-19 | the unconditional update keeps the coupling if the row is running or gone, and leaves the queue alone |
| Tables.CancelCoupled | internal/store/store.go:469-516 | a cancel keeps the coupling and takes exactly the workflow's queued ids out of the queue |
| Tables.DeleteWorkflowCoupled | sql/migrations/20260329153340-initial_lumnd_schema.sql:21-44 | the cascade from workflows keeps the coupling |
| Tables.DeleteFinishedCoupled | internal/store/sqlc/executions.sql.go:86-120 | deleting finished executions keeps the coupling and every queue row |
| Stores.Store.CreateQueuedExecution | internal/store/store.go:381-418 | one queued execution and one queue row, with fresh ids, the given workflow and trigger and the time of the call, or nothing at all when the workflow is gone |
| Stores.Store.ClaimNextQueueItem | internal/store/store.go:420-452 | the row that comes first by (queued_at, id) leaves the queue and its execution is running; nothing happens iff the workflow has no row |
| Stores.Store.CompleteExecution | internal/store/store.go:454-467 | the row's status and report are the given ones and its finish time is the time of the call, whatever the old status was; its other columns and everything else stay |
| Stores.Store.CancelQueuedExecutions | internal/store/store.go:469-516 | returns exactly the queued ids, each once; each of them ends, at the time of the call, as an error with the workflow's name and version and the message; their rows are gone, nothing else changes |
| Stores.Store.MarkStaleRunningExecutions | internal/store/store.go:518-538 | afterwards nothing is running; exactly the running rows became errors with the message, each at its own reading of the clock |
| Stores.Store.DeleteExecutionOverflowByWorkflow | internal/store/sqlc/executions.sql.go:86-96 | deletes exactly the finished rows of the workflow that K or more finished rows of it are newer than |
| Stores.Store.DeleteExecutionsOlderThan | internal/store/sqlc/executions.sql.go:115-120 | deletes exactly the finished rows before the cutoff |
| Stores.Store.ApplyRetention | internal/store/store.go:575-604 | told by the options and the clock: a row stays iff it is not finished, or it finished no longer than maxDays times 24 hours ago (or maxDays is not positive) and fewer than maxExecutions finished rows of its workflow are newer (or maxExecutions is not positive); queue and workflows untouched |
| Stores.LongerKeepsMore | internal/store/store.go:575-604 | a larger or no limit on the age never deletes more |
| Stores.Store.DeleteWorkflow | internal/store/store.go:128-130 | the workflow, its executions and its queue rows are gone, nothing else |
| Stores.Store.QueueCount | internal/store/sqlc/queue.sql.go:13-17 | one pass over the rows counts exactly the workflow's |
| Retention.RankedPosition | internal/store/sqlc/executions.sql.go:86-96 | the position of a row in the statement's order is the number of rows newer than it |
| Retention.OverflowIsRank | internal/store/sqlc/executions.sql.go:86-96 | LIMIT -1 OFFSET K selects exactly the finished rows that K or more finished rows of the workflow precede |
| Retention.RetentionCommutes | internal/store/store.go:575-604 | the two deletes commute, and either order gives the declarative survivors |
| Retention.RetentionIdempotent | internal/store/store.go:575-604 | a second retention with the same limits deletes nothing |
| Retention.RetentionCount | internal/store/sqlc/executions.sql.go:86-96 | min(K, n) of the n finished rows of a workflow are left |
| Workers.DrainQueue | internal/daemon/daemon.go:811-832 | one wake-up without interference ends, claims every queued row of the workflow once in (queued_at, id) order and leaves each finished, with its own report and its own times of start and finish |
| Workers.EnqueueExecution | internal/daemon/daemon.go:512-535 | with nobody else at the queue: refused exactly when the workflow is stopping, its queue is full or it is gone; otherwise one more row of the workflow, and the limit holds |
| Workers.InsertionOrder | internal/store/sqlc/queue.sql.go:86-92 | while the clock does not go back that order is insertion order |
| ClaimSafety.AtMostOnce | internal/daemon/daemon.go:803-834 | in every run, crashes and boots included, no execution is claimed twice |
| ClaimSafety.FinishedForever | internal/store/sqlc/executions.sql.go:252-258 | a finished execution keeps its whole row for ever or is deleted, and a deleted id never returns, although both status updates are unconditional |
| ClaimSafety.RunningIffHeld | internal/daemon/daemon.go:137 | in every reachable state the tables are coupled; while the daemon is up an execution is running iff exactly one live worker holds it |
| ClaimSafety.NextKeepsClaims | internal/daemon/daemon.go:512-834 | the invariant behind these is kept by every step of every goroutine, by retention, crash and boot repair |
| Running.RunningIffInUse | internal/daemon/daemon.go:898-902 | in every reachable state an object's `running` is set iff a worker of it stands between setRunning(true) and setRunning(false) |
| Running.StopWaitsForRuns | internal/daemon/daemon.go:905-917 | in every reachable state a step of a waiting stop stays, or goes past an object that no worker is using, or gives up and opens the objects again, or, past all of them, starts to cancel; it changes nothing else |
| Stopping.GiveUpAlone | internal/daemon/daemon.go:353-358 | a stop that times out leaves all its objects accepting and notified and changes nothing else |
| Stopping.StopAlone | internal/daemon/daemon.go:602-636 | a stop or delete of an idle object, left alone: the object is closed and out of the map, exactly the workflow's queued executions end as errors with the message and their waiters get that report, and the row says stopped or all rows of the workflow are gone |
| Shutdown.ShutdownAlone | internal/daemon/daemon.go:166-201 | a shutdown of idle workflows, left alone: every object of its list is closed and out of the map, the rows of their workflows say stopped, exactly what was queued for them has ended with the message, and the waiters of these executions have that report |
| Stopping.BootAlone | internal/store/store.go:518-538 | a boot ends exactly the rows left running, each as an error with the message at its own reading of the clock, and changes nothing else |
| Clocks.TimesStayInOrder | internal/store/sqlc/executions.sql.go:252-258 | in every run in which the clock does not go back each row has queued at <= started at <= finished at |
| Clocks.ClaimsAreFirstIn | internal/store/sqlc/queue.sql.go:86-92 | and the row that a claim takes is the oldest of its workflow by id, in every reachable state |
| Alone.TurnAlone | internal/daemon/daemon.go:811-832 | a turn of the worker, left alone: the first row leaves the queue, its execution has the times of the claim and of the completion and the run's report, its waiter gets that report on a channel then closed, and the flag `running` is clear again |
| Alone.EnqueueAlone | internal/daemon/daemon.go:512-535 | an enqueue, left alone: if the workflow is started, accepting and has room, one more queued execution and a notified object; nothing at all otherwise |
| Alone.ExecAlone | internal/daemon/daemon.go:478-510 | the same for a manual execution, which also needs a manual trigger and goes on to wait on a fresh channel |
| Alone.StartAlone | internal/daemon/daemon.go:547-600 | a start, left alone: the row says stopped before the object is there, and at the end active; a new accepting, notified object is in the map and its worker waits |
| SingleSteps.LookupFinds | internal/daemon/daemon.go:512-516 | an enqueue goes on only to an object that the map has under a stored workflow, its own or one that the same text selects; else it ends |
| SingleSteps.ParkedMoves | internal/daemon/daemon.go:804-809 | a sleeping worker wakes by its token, uses it up, and ends once its object is stopped; with neither it cannot move |
| SingleSteps.AgeStep | internal/store/store.go:575-604 | retention by age, at any moment of any run, takes exactly the executions that finished before the cutoff |
| SingleSteps.CountStep | internal/store/store.go:575-604 | retention by count leaves exactly the workflow's finished executions that fewer than K are newer than |
| SingleSteps.RequestsMayCome | internal/daemon/daemon.go:166-418 | no interleaving is left out: in every state every request may come, with any stop of a started workflow, a shutdown in any order, and a crash |
| SingleSteps.ReadyForRequests | internal/daemon/daemon.go:166-418 | every reachable state meets what the laws of single requests ask of tables and waiters, and the map has each object under its own workflow |
| Partition.EveryExecutionAccounted | internal/daemon/daemon.go:602-612 | claimed, cancelled, deleted while queued and still queued partition the executions ever created, in every reachable state |
| Partition.CancelledNeverRuns | internal/store/store.go:469-516 | a cancelled execution is never claimed, before or after, and stays an error with the message of its stop |
| Waiters.PublishNeverBlocks | internal/daemon/daemon.go:854-865 | a publisher that is about to send or close neither blocks nor panics, even after the caller's timeout |
| Waiters.DeliveredIffRegistered | internal/daemon/daemon.go:854-865 | in every reachable state a publication reaches its waiter, report and close, in the publisher's next three steps iff the waiter is registered; otherwise it leaves everything as it was |
| Waiters.OneReportAndItIsPersisted | internal/daemon/daemon.go:496-509 | per execution at most one send and one close, and a delivered report is the one in the table |
| Waiters.NoWaiterOutlivesItsCall | internal/daemon/daemon.go:867-871 | every entry of the waiter map belongs to a call still under way |
| Wakeups.LostWakeupIffLateForeign | internal/daemon/daemon.go:803-819 | in every reachable state a worker sleeps on a non-empty queue, with no token and no notify under way, exactly if it is idle and a queued row was inserted for another workflow object after its activation |
| OwnInserts.NoLostWakeup | internal/daemon/daemon.go:512-535 | in a run whose inserts are all made for the workflow object registered at that moment no registered workflow loses a wake-up |
| OwnInserts.ForeignInsertStrands | internal/daemon/daemon.go:530-534 | from any state with an enqueue of an older object before its insert and an idle worker, that enqueue's own steps lose the wake-up, for a trigger always, for a manual execution iff the object it looked up is not the idle one |
| LostWakeups.WakeupCanBeLost | internal/daemon/daemon.go:390-418 | a run from the empty database that ends with a lost wake-up |
| Publishers.NextPublishes | internal/daemon/daemon.go:829-831 | every step keeps: at most one goroutine publishes an execution, once, and only after it has left the queue for good |
| MissedReports.MissedForever | internal/daemon/daemon.go:854-871 | in every reachable state: after a publication that finds no waiter, of a run or of a cancelled execution, nothing is ever sent for it and its channel is never closed, whatever happens next |
| MissedReports.ReportCanBeMissed | internal/daemon/daemon.go:496-509 | a run from the empty database that ends with a manual execution finished, published and its caller waiting on a channel that stays silent |
| Retirement.NextRetires | internal/daemon/daemon.go:803-821 | short of a crash no step brings a retired worker back: it stays retired or ends |
| SoleWorkers.CleanRunsNeverRunTwo | internal/daemon/daemon.go:580-584 | in every run from the empty database in which each start, on putting its object into the workflow map, finds every other worker of the workflow retired, no two workers of one workflow ever hold an execution, and no two of its rows are running while the daemon is up |
| ParallelRuns.UncleanStartCanRunTwo | internal/daemon/daemon.go:580-584 | from every reachable state in which a start puts its object into the map and another announced worker of the workflow is not retired there is a continuation, without a crash and without another object built or put into the map, to two workers of the workflow that both hold an execution |
| ParallelRuns.NextStartSafeIffClean | internal/daemon/daemon.go:580-584 | after a run whose starts were clean, the next start allows such a continuation iff it finds a worker that is not retired |
| ParallelRuns.RestartCanRunTwo | internal/daemon/daemon.go:811-821 | a run from the empty database with one start and one restart: the old worker stands past `isAccepting` when its object is stopped, and from the announcement of the new object on both workers can claim without another start |
| QueueBound.QueueStaysBounded | internal/daemon/daemon.go:521-529 | with at most n goroutines past the check at any time, queue length plus those goroutines never exceed max(what was there, limit - 1 + n) |
| QueueBound.SerialEnqueuersKeepLimit | internal/daemon/daemon.go:521-529 | with one at a time the queue never exceeds the limit |
| QueueBound.RaceReachesBound | internal/daemon/daemon.go:521-529 | from any state with n goroutines at the check of a queue one below the limit, their own steps take it to limit - 1 + n |
| QueueBound.BoundIsReached | internal/daemon/daemon.go:521-529 | for every n and every limit a run from the empty database takes a queue to limit - 1 + n |
| Flow.FlowComposes | internal/executor/executor.go:57-166 | running a concatenation of flows is running them one after the other |
| Flow.FirstErrorWins | internal/executor/executor.go:57-166 | after an error or a panic the rest of the flow has no effect |
| NodeLaws.SetNode | internal/executor/executor.go:71-93 | a flow of one set calls its function on the items in order; if no call fails or gives nil each item is replaced by its result, otherwise the flow ends with that error at the first such item |
| NodeLaws.FilterNode | internal/executor/executor.go:94-135 | a flow of one filter asks about the items in order; exactly the items answered true are left, in order, or the flow ends with the error of the first call that fails or gives no boolean |
| NodeLaws.TapNode | internal/executor/executor.go:136-156 | a flow of one tap invokes its callable on a copy of every item in order, once without input on an empty batch, and leaves the batch; the first copy or call that fails ends the flow with its error |
| NodeLaws.CallNode | internal/executor/executor.go:59-70 | a flow of one call invokes its callable once without input and builds the batch from the result, element by element iff its keys are 1..m; the first callback that fails ends the flow with its error |
| NodeLaws.UnknownNode | internal/executor/executor.go:157-164 | an unknown primitive ends the flow with exit code 4 |
| TriggerData.RunStartsWithTrigger | internal/executor/executor.go:46-50 | a run starts from a new state table whose one field holds a copy of the trigger data in new tables, with `type` set to none if it was not given; no older table and nothing else changes |
| Flow.SetIsPointwise | internal/executor/executor.go:71-93 | set calls its function on the items in order, threading the Lua state, and puts each result, never nil, in its item's place |
| Flow.FilterIsStable | internal/executor/executor.go:94-135 | filter asks for a boolean on every item in order and keeps exactly the items answered true, in order |
| Flow.TapKeepsBatch | internal/executor/executor.go:136-156 | tap leaves the batch as it was |
| Flow.ItemsInIsLastCall | internal/executor/executor.go:68-70 | items_in is the size of the batch right after the last successful call, whatever fails after it, a later call included |
| Flow.ItemsOutAtMostIn | internal/executor/executor.go:168 | the batch is never larger than items_in |
| Flow.EmptyBatchStandsIff | internal/executor/executor.go:57-166 | from an empty batch the rest of a flow leaves the stage as it is for all callbacks iff it consists of set and filter nodes |
| Flow.BuildTakesProperApart | internal/executor/executor.go:175-200 | on a well-formed heap a call takes apart exactly the tables with key set 1..m, into m items in index order (the empty table into none); anything else becomes one item |
| Flow.EmptyUntilCall | internal/executor/executor.go:72-97 | an empty batch stays empty until the next call |
| Registry.Runtime.StoreRef | internal/lua/runtime.go:138-145 | a key never handed out before; storing nil leaves it without an entry |
| Registry.Runtime.DeleteRef | internal/lua/runtime.go:147-150 | the key is no longer live and reads as nil |
| Registry.Runtime.PushRef | internal/lua/runtime.go:152-154 | the value behind the key, nil if there is none; pushing a key that is not live is noted |
| Registry.Runtime.SetExecutionState | internal/lua/runtime.go:156-164 | the execution state is the value behind the key, or cleared |
| Registry.Runtime.ArrayValueRef | internal/lua/runtime.go:245-252 | the element at an index, nil included, under one new key |
| Registry.Runtime.CallCallable | internal/lua/runtime.go:172-199 | runs the callable on the values behind the keys and stores its result under one new key, or leaves the registry as it was |
| Registry.Runtime.CallFunction | internal/lua/runtime.go:201-228 | the same for a function of one argument |
| Registry.Runtime.TableHasOnlyArrayKeys | internal/lua/runtime.go:954-976 | the early-exit count decides whether the keys are n integers in 1..n |
| Registry.Runtime.RefIsPureArrayTable | internal/lua/runtime.go:236-243 | a table, and its keys pass that test for its raw length |
| Registry.Runtime.ToGoValue | internal/lua/runtime.go:884-913 | computes the conversion for the tables on the current path, and restores the path set |
| Registry.Runtime.TableToGoValue | internal/lua/runtime.go:915-952 | both loops of a table's conversion, with the order in which errors and the panic arise |
| Registry.Runtime.PushGoValue | internal/lua/runtime.go:978-1019 | builds the value in the heap, table by table, whatever order Go gives the keys of its maps |
| Registry.Runtime.CloneRef | internal/lua/runtime.go:261-272 | for every such order the copy is stored under one new key; a refused value changes nothing |
| Executor.DeleteItemRefs | internal/executor/executor.go:254-262 | deletes exactly the given keys |
| Executor.SetNode | internal/executor/executor.go:71-93 | refines the semantics of set; the batch's keys are rewritten in place and stay exactly the live ones, also when it fails |
| Executor.FilterNode | internal/executor/executor.go:94-135 | refines the semantics of filter; inside the loop exactly the kept prefix and the unvisited suffix are live |
| Executor.TapNode | internal/executor/executor.go:136-156 | refines the semantics of tap; copies and results leave no key behind |
| Executor.CallResultToItem | internal/executor/executor.go:202-223 | the item's key takes the place of the result's key, or the result's key is gone |
| Executor.BuildCallItems | internal/executor/executor.go:175-200 | refines the expansion of a result; on failure everything it allocated is freed |
| Executor.CallNode | internal/executor/executor.go:59-70 | refines call; the old batch is deleted only after the new one is built, and survives a failing call |
| Executor.RunNodes | internal/executor/executor.go:57-172 | the node loop agrees with the semantics, which the laws of each kind of node pin down, in Lua state, batch, report and error |
| Executor.Run | internal/executor/executor.go:39-173 | the whole run refines the semantics; no dead key is ever pushed; besides the keys from before exactly the last batch's keys stay live, since the deferred deletion captured the empty batch |
| Engine.RunTarget | internal/engine/engine.go:137-164 | a loading error gives an error report of no items with exactly that error's five fields and its exit code; a failed flow the same with the batch size of its last call; a finished one `empty` iff it has nodes and no items are left, else `ok`, with exit code 0 |
| Engine.ReportIsCoherent | internal/engine/engine.go:137-164 | whatever the callbacks do: status error iff exactly one error is reported iff the exit code is not 0; items out never exceed items in; an `ok` flow with nodes has items |
| CloneInput.PureArrayIffProper | internal/lua/runtime.go:954-976 | by pigeonhole, whichever border the raw length reports, the test accepts exactly the tables whose keys are 1..m |
| CloneInput.AcceptsIffNoBadPath | internal/lua/runtime.go:884-952 | a table is converted iff no chain of tables from it repeats a table, meets an unsupported value or meets a key that is no scalar; shared tables on no cycle are accepted |
| ClonePanic.PanicsIffTableKeyFirst | internal/lua/runtime.go:915-952 | the conversion panics iff following first obstacles leads to a table whose first obstacle is a convertible table used as a key; every other refusal is an error |
| CloneInput.ToGoMirrors | internal/lua/runtime.go:915-952 | the Go value holds the whole structure and nothing else |
| CloneOutput.PushCopies | internal/lua/runtime.go:978-1019 | pushing builds an entry-by-entry copy in new tables, keeps the heap well-formed and touches no old table |
| CloneOutput.SetKeepsHeap | internal/lua/runtime.go:997-1015 | a raw set, of nil too, keeps the heap well-formed and changes exactly one entry of one table |
| Clones.CloneEqualIffTame | internal/lua/runtime.go:261-272 | in whatever order map keys were visited, the copy equals the original at every depth iff no integral float outside the int64 range is reached from it |
| Clones.CloneLosesBigFloat | internal/lua/runtime.go:990-995 | 2^63 as a float becomes the smallest integer |
| Clones.WritesToCopyAreIsolated | internal/executor/executor.go:145-156 | no sequence of writes through the copy changes any value that existed before the clone |
| Selectors.SelectWorkflowID | internal/cli/cli.go:685-728 | exact id, then name with `latest` preferred, then a unique prefix, whatever the order of the list |
| Selectors.ResolveWorkflowSelector | internal/store/store.go:195-285 | the same meaning with LIKE candidates, from the rows of its three queries |
| Selectors.LikeMeans | internal/store/store.go:248 | the recursive matcher accepts exactly the texts that can be cut into one piece for every character of the pattern: any text for `%`, one character for `_`, else that character up to the case of ASCII letters |
| Selectors.ResolutionUnique | internal/store/store.go:195-285 | with unique ids and unique (name, version) that meaning leaves no choice |
| Selectors.ResolvedIdIsStable | internal/cli/cli.go:685-690 | resolving a resolved id gives the same workflow |
| Selectors.ResolversAgreeIff | internal/cli/cli.go:710-727 | over ids of eight lower-case hexadecimal digits the two resolvers agree on every table iff the selector has no `%`, `_` or A-F, or has a character that no such id can match, or is too wide |
| Debounce.BurstsAreEnds | internal/daemon/daemon.go:761-779 | the specified firings are those of the ends of maximal runs of touches with gaps below the debounce |
| Debounce.MatchIff | internal/daemon/daemon.go:1053-1082 | an event is wanted as a creation, else as a write, else as a removal or renaming, if its name is accepted and the trigger asks for that kind or for any; a change of mode alone never |
| Debounce.Watcher.Advance | internal/daemon/daemon.go:765-778 | exactly the due timers expire, earliest first, each enqueuing its file with its last kind |
| Debounce.Watcher.Fire | internal/daemon/daemon.go:765-778 | one expiry enqueues its file with its last kind and forgets timer and kind together |
| Debounce.Watcher.OnEvent | internal/daemon/daemon.go:751-781 | a matched event starts or resets its file's timer to the debounce from now and replaces its kind; any other event changes nothing; timers and kinds have the same keys |
| Debounce.Watch | internal/daemon/daemon.go:742-795 | for every trace the enqueued firings are, once each and in order of time, exactly those of the matched events that no other matched event of the file follows within the debounce, at the event's time plus the debounce and with its kind |
| Scheduler.RunScheduler | internal/daemon/daemon.go:653-709 | the first planned time is the stored one, else the plan's next after the start; a restart with a stored time in the past attempts it at once; each later fire comes when its timer, set for the time left, goes off; the next planned time is the plan's next after the fire; nothing fires after the stop |
| Scheduler.TimesIncrease | internal/daemon/daemon.go:676-693 | planned times and fires alternate and strictly increase |
| Scheduler.WindowBound | internal/daemon/daemon.go:954-963 | an interval d fires at most floor(T/d) + 1 times in any window of length T |
| Scheduler.EverySlotServedOnce | internal/daemon/daemon.go:942-944 | every slot of the plan is served by exactly one fire: missed slots are coalesced into the late one, none is skipped otherwise |
| Routes.KeyClash | internal/daemon/daemon.go:1158-1160 | two different (method, path) pairs share a key exactly when one method is the other followed by a space and a text that the other path starts with |
| Routes.SpacelessKeyInjective | internal/daemon/daemon.go:1158-1160 | methods without spaces make the key injective |
| Routes.ParseIff | internal/daemon/daemon.go:991-1004 | a webhook is valid iff its path starts with /hooks/; it answers POST if no method is given, and else the given one with its letters in capitals |
| Routes.ParsedKeyInjective | internal/daemon/daemon.go:991-1003 | for two webhooks that the parser accepts, equal keys mean equal method and equal path |
| Routes.DeclaredIsRouted | internal/daemon/daemon.go:1162-1175 | every webhook that a managed workflow declares is routed to it under exactly its method and path |
| Routes.NoTwoOwners | internal/daemon/daemon.go:1162-1175 | managed workflows that declare webhooks with the same key are one workflow, and the webhooks have the same method and path |
| Routes.TableDetermined | internal/daemon/daemon.go:1162-1194 | the whole route table is determined by the managed workflows and their triggers |
| Routes.Registry.Register | internal/daemon/daemon.go:1162-1175 | refused exactly when another workflow holds the key |
| Routes.Registry.Unregister | internal/daemon/daemon.go:1177-1184 | removes the route only if it is the workflow's own |
| Routes.Registry.RemoveWorkflow | internal/daemon/daemon.go:1186-1194 | removes all routes of the workflow and no other |
| Routes.Registry.Activate | internal/daemon/daemon.go:547-600 | succeeds iff every trigger can start, and then owns exactly its claims; otherwise the table is as before |
| Routes.Registry.Stop | internal/daemon/daemon.go:602-636 | the workflow is no longer managed and has no route; other routes stay |
| Routes.Registry.Start | internal/daemon/daemon.go:253-337 | a managed workflow is stopped first, and stays stopped if its new triggers cannot start |

## Left out

- HTTP handlers, the client, sockets, PID and log files, configuration files, argument parsing: I/O.
- The Lua VM, its sandbox and value stack, fsnotify, cron parsing, JSON and SQLite itself: opaque, with the contracts above.
- Module and target resolution in the file system, and `dag.Build`: the executor starts from a list of nodes whose keys are live.
- The triggers table and its next-run column, except as the scheduler's stored start.
- Durations in reports, and the `errkind` wrapping of errors that are not typed: Lua callbacks fail with typed errors here.
- The engine inside the protocol: its report is any finished report; `Engine.ReportIsCoherent` says what reports it gives.
- Two concurrent stops of one workflow: the second close of the stop channel panics in the code; in `Protocol.StopStep` that goroutine just ends.
- An empty queue after a stop: an enqueue past `internal/daemon/daemon.go:517` may insert after the cancel, so no such claim is made.
- The outcome of the attempt at a missed slot on restore: the enqueue at `internal/daemon/daemon.go:666` runs before the workflow is registered; `Scheduler.RunScheduler` has the attempt.
- The order of next runs in the workflow list (`internal/daemon/api.go:186`), which compares texts.
- A debounce timer that has expired while its callback still waits for the lock: expiry and callback are one step.
- Debounce.Watcher.Stop: does not model timers that expire during the stop, for the same reason.
- Registry.Runtime.PushGoValue: takes the amd64 result for converting a float outside the int64 range, which Go leaves to the platform; `Clones.CloneEqualIffTame` needs only that the result is an int64.
- Executor.Run: does not model the text quoting of an unknown primitive's name.
- The lookup of a workflow in `Protocol.EnqueueStep`: a deleted workflow's id resolves to any workflow the choice names, an over-approximation of the selector lookup.
- TriggerData.RunStartsWithTrigger: speaks of data without null values; a null leaves its key out of the Lua table.
- Routes.ParseIff: does not model capitals of letters outside ASCII.
- Selectors.ResolveWorkflowSelector: takes the rows of its queries as arguments instead of running SQL.
- Routes.Registry.Activate: takes the outcome of scheduler and file watcher triggers as given, and no store error between two triggers, after which the code would not undo.
