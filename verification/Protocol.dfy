/** The daemon as a state machine over the tables.  One step is one SQL transaction, one critical
    section or one channel operation of one goroutine; a crash loses all memory and keeps the tables.
    Request goroutines start at any time, so every interleaving of the handlers is a run. */
module Protocol {
  import opened Base
  import opened Reports
  import opened Tables
  import opened Retention

  // ---------------------------------------------------------------- goroutines

  /** Where a goroutine stands; the comment gives what it is about to do. */
  datatype Pc =
    // enqueueExecution and ExecWorkflow; `manual` is the workflow object ExecWorkflow looked up first
    | ExecLookup(wf: string)                                     // find the managed workflow for exec
    | Lookup(wf: string, manual: Option<nat>)                    // find the managed workflow
    | Gate(wf: string, m: nat, manual: Option<nat>)              // isAccepting
    | Count(wf: string, m: nat, manual: Option<nat>)             // QueueCount against QueueLimit
    | Insert(wf: string, m: nat, manual: Option<nat>)            // CreateQueuedExecution
    | NotifyInsert(m: nat, e: nat, manual: Option<nat>)          // notify
    | Register(e: nat, m: nat)                                   // put the waiter into the map
    | NotifyManual(e: nat, m: nat)                               // notify again
    | Await(e: nat)                                              // receive the report or time out
    | Unregister(e: nat)                                         // deleteWaiter
    // workerLoop
    | Parked(m: nat)                                             // select on notifyCh and stopCh
    | LoopCheck(m: nat)                                          // isAccepting
    | ClaimNext(m: nat)                                          // ClaimNextQueueItem
    | SetRunning(m: nat, e: nat)                                 // setRunning(true)
    | Execute(m: nat, e: nat)                                    // RunTargetWithOptions
    | Record(m: nat, e: nat, report: Report)                     // CompleteExecution
    | ClearRunning(m: nat)                                       // setRunning(false)
    // StopWorkflow, DeleteWorkflow, RestartWorkflow and Shutdown over the workflow objects `ms`
    | StopGate(ms: seq<nat>, i: nat, drop: Option<string>)       // setAccepting(false)
    | StopWait(ms: seq<nat>, i: nat, drop: Option<string>)       // waitIdle
    | Reopen(ms: seq<nat>, i: nat)                               // setAccepting(true) after a timeout
    | ReopenNotify(ms: seq<nat>, i: nat)                         // notify after a timeout
    | CancelAll(ms: seq<nat>, i: nat, drop: Option<string>)      // CancelQueuedExecutions
    | Inform(ms: seq<nat>, i: nat, ids: seq<nat>, drop: Option<string>) // GetExecution of the next cancelled id
    | CloseStop(ms: seq<nat>, i: nat, drop: Option<string>)      // close(stopCh)
    | MarkStopped(ms: seq<nat>, i: nat, drop: Option<string>)    // SetWorkflowStatus
    | Forget(ms: seq<nat>, i: nat, drop: Option<string>)         // delete from the workflow map
    | DropWorkflow(wf: string)                                   // store.DeleteWorkflow
    // StartWorkflow and restoreActiveWorkflows
    | Upsert(wf: string, row: Workflow)                          // UpsertWorkflow, stopped
    | SpawnWorker(wf: string, hasManual: bool)                   // build the object, start its worker
    | Announce(m: nat)                                           // put it into the workflow map
    | Activate(m: nat, row: Workflow)                            // UpsertWorkflow, active
    | NotifyActive(m: nat)                                       // notify

  /** publishWaiter, which a goroutine runs to the end before it goes on. */
  datatype Delivery =
    | Quiet
    | Take(e: nat, report: Report)   // look up and remove the waiter
    | Send(e: nat, report: Report)   // send on the channel
    | Close(e: nat)                  // close the channel

  datatype Thread = Thread(at: Pc, delivery: Delivery)

  datatype Managed = Managed(workflow: string, manual: bool, accepting: bool, running: bool,
                             token: bool, stopped: bool, worker: nat, activator: nat)

  /** A channel of capacity one: what was ever sent, how much was received, how often it was closed. */
  datatype Channel = Channel(sent: seq<Report>, received: nat, closes: nat)

  datatype Phase = Down | Repairing(left: seq<nat>) | Up

  /** What happened so far.  No step reads it. */
  datatype Log = Log(claims: multiset<nat>,           // execution ids, once per claim
                     cancelled: map<nat, string>,     // by CancelQueuedExecutions, with the message
                     dropped: set<nat>,               // queued when their workflow was deleted
                     holder: map<nat, nat>,           // the worker between claim and completion
                     creator: map<nat, nat>,          // the goroutine that inserted an execution
                     sender: map<nat, nat>,           // the goroutine that took the waiter
                     origin: map<nat, nat>,           // the workflow object a queue row was inserted for
                     woken: map<nat, nat>)            // next queue id when an activation notified

  /** Everything the goroutines share. */
  datatype Shared = Shared(db: Db, managed: map<nat, Managed>, registered: map<string, nat>,
                           waiters: set<nat>, channels: map<nat, Channel>, nextManaged: nat, log: Log)

  datatype State = State(phase: Phase, threads: map<nat, Thread>, nextThread: nat, sh: Shared)

  /** Everything a step leaves to the outside: clocks, select, timeouts, row order, the engine's report. */
  datatype Choice = Choice(now: Time, flag: bool, report: Report, row: nat, ids: seq<nat>, name: string,
      message: string)

  /** What one step of a goroutine yields: the shared state, where it goes on, and a goroutine it starts. */
  datatype Outcome = Outcome(sh: Shared, next: Option<Thread>, spawn: Option<Pc>)

  // ---------------------------------------------------------------- small updates

  function Goto(sh: Shared, pc: Pc): Outcome {
    Outcome(sh, Some(Thread(pc, Quiet)), None)
  }

  function Exit(sh: Shared): Outcome {
    Outcome(sh, None, None)
  }

  function WithWaiter(sh: Shared, e: nat): Shared {
    sh.(waiters := sh.waiters + {e}, channels := sh.channels[e := Channel([], 0, 0)])
  }

  function WithToken(sh: Shared, m: nat, value: bool): (r: Shared)
    ensures r == sh.(managed := r.managed)
  {
    if m in sh.managed then sh.(managed := sh.managed[m := sh.managed[m].(token := value)]) else sh
  }

  function WithAccepting(sh: Shared, m: nat, value: bool): (r: Shared)
    ensures r == sh.(managed := r.managed)
  {
    if m in sh.managed then sh.(managed := sh.managed[m := sh.managed[m].(accepting := value)]) else sh
  }

  function WithRunning(sh: Shared, m: nat, value: bool): (r: Shared)
    ensures r == sh.(managed := r.managed)
  {
    if m in sh.managed then sh.(managed := sh.managed[m := sh.managed[m].(running := value)]) else sh
  }

  function WithStopped(sh: Shared, m: nat): (r: Shared)
    ensures r == sh.(managed := r.managed)
  {
    if m in sh.managed then sh.(managed := sh.managed[m := sh.managed[m].(stopped := true)]) else sh
  }

  function WorkflowOf(sh: Shared, m: nat): string {
    if m in sh.managed then sh.managed[m].workflow else ""
  }

  // ---------------------------------------------------------------- one step of one goroutine

  /** enqueueExecution and ExecWorkflow, run by goroutine `t`. */
  ghost function EnqueueStep(sh: Shared, at: Pc, t: nat, c: Choice, limit: nat): Outcome {
    match at
    case ExecLookup(wf) =>
      if wf in sh.db.workflows && wf in sh.registered && sh.registered[wf] in sh.managed
        && sh.managed[sh.registered[wf]].manual
      then Goto(sh, Lookup(wf, Some(sh.registered[wf])))
      else Exit(sh)
    case Lookup(wf, manual) =>
      // the id is resolved as a selector: a deleted id may still be another workflow's name or id prefix
      var found := if wf in sh.db.workflows then wf else c.name;
      if found in sh.db.workflows && found in sh.registered
      then Goto(sh, Gate(wf, sh.registered[found], manual))
      else Exit(sh)
    case Gate(wf, m, manual) =>
      if m in sh.managed && sh.managed[m].accepting then Goto(sh, Count(wf, m, manual)) else Exit(sh)
    case Count(wf, m, manual) =>
      if |QueueOf(sh.db, wf)| < limit then Goto(sh, Insert(wf, m, manual)) else Exit(sh)
    case Insert(wf, m, manual) =>
      if wf !in sh.db.workflows then Exit(sh)
      else
        var e, q := sh.db.nextExecution, sh.db.nextQueue;
        Goto(sh.(db := Create(sh.db, wf, if manual.Some? then "manual" else "trigger", c.now).value,
                 log := sh.log.(creator := sh.log.creator[e := t], origin := sh.log.origin[q := m])),
             NotifyInsert(m, e, manual))
    case NotifyInsert(m, e, manual) =>
      if manual.Some? then Goto(WithToken(sh, m, true), Register(e, manual.value)) else Exit(WithToken(sh, m, true))
    case Register(e, m) => Goto(WithWaiter(sh, e), NotifyManual(e, m))
    case NotifyManual(e, m) => Goto(WithToken(sh, m, true), Await(e))
    case Await(e) =>
      // a receive takes the buffered report, or reports a closed channel; otherwise the wait times out
      if c.flag && e in sh.channels && |sh.channels[e].sent| > sh.channels[e].received
      then Goto(sh.(channels := sh.channels[e := sh.channels[e].(received := sh.channels[e].received + 1)]),
        Unregister(e))
      else Goto(sh, Unregister(e))
    case Unregister(e) => Exit(sh.(waiters := sh.waiters - {e}))
    case _ => Goto(sh, at)
  }

  /** workerLoop, run by goroutine `t`. */
  ghost function WorkerStep(sh: Shared, at: Pc, t: nat, c: Choice): Outcome {
    match at
    case Parked(m) =>
      if c.flag && m in sh.managed && sh.managed[m].token then Goto(WithToken(sh, m, false), LoopCheck(m))
      else if !c.flag && m in sh.managed && sh.managed[m].stopped then Exit(sh)
      else Goto(sh, at)
    case LoopCheck(m) =>
      if m in sh.managed && sh.managed[m].accepting then Goto(sh, ClaimNext(m)) else Goto(sh, Parked(m))
    case ClaimNext(m) =>
      if !HasQueued(sh.db, WorkflowOf(sh, m)) then Goto(sh, Parked(m))
      else if !IsNext(sh.db, WorkflowOf(sh, m), c.row) then Goto(sh, at)
      else
        var e := sh.db.queue[c.row].execution;
        Goto(sh.(db := Claim(sh.db, c.row, c.now),
                 log := sh.log.(claims := sh.log.claims + multiset{e}, holder := sh.log.holder[e := t])),
             SetRunning(m, e))
    case SetRunning(m, e) => Goto(WithRunning(sh, m, true), Execute(m, e))
    case Execute(m, e) => if c.report.status.Finished() then Goto(sh, Record(m, e, c.report)) else Goto(sh, at)
    case Record(m, e, report) =>
      Outcome(sh.(db := Complete(sh.db, e, report.status, report, c.now),
        log := sh.log.(holder := sh.log.holder - {e})),
              Some(Thread(ClearRunning(m), Take(e, report))), None)
    case ClearRunning(m) => Goto(WithRunning(sh, m, false), LoopCheck(m))
    case _ => Goto(sh, at)
  }

  /** Stop, delete, restart and shutdown. */
  ghost function StopStep(sh: Shared, at: Pc, c: Choice): Outcome {
    match at
    case StopGate(ms, i, drop) =>
      if i < |ms| then Goto(WithAccepting(sh, ms[i], false), StopGate(ms, i + 1, drop))
        else Goto(sh, StopWait(ms, 0, drop))
    case StopWait(ms, i, drop) =>
      if i >= |ms| then Goto(sh, CancelAll(ms, 0, drop))
      else if !c.flag then Goto(sh, Reopen(ms, 0))
      else if ms[i] in sh.managed && !sh.managed[ms[i]].running then Goto(sh, StopWait(ms, i + 1, drop))
      else Goto(sh, at)
    case Reopen(ms, i) =>
      if i < |ms| then Goto(WithAccepting(sh, ms[i], true), ReopenNotify(ms, i)) else Exit(sh)
    case ReopenNotify(ms, i) =>
      if i < |ms| then Goto(WithToken(sh, ms[i], true), Reopen(ms, i + 1)) else Exit(sh)
    case CancelAll(ms, i, drop) =>
      if i >= |ms| then (if drop.Some? then Goto(sh, DropWorkflow(drop.value)) else Exit(sh))
      else
        var wf := WorkflowOf(sh, ms[i]);
        if !(NoDup(c.ids) && Elements(c.ids) == QueuedOf(sh.db, wf)) then Goto(sh, at)
        else
          Goto(sh.(db := Cancel(sh.db, wf, c.message, c.now),
                   log := sh.log.(cancelled := sh.log.cancelled + map e | e in QueuedOf(sh.db, wf) :: c.message)),
               Inform(ms, i, c.ids, drop))
    case Inform(ms, i, ids, drop) =>
      if ids == [] then Goto(sh, CloseStop(ms, i, drop))
      else if ids[0] in sh.db.executions && sh.db.executions[ids[0]].report.Some?
      then Outcome(sh, Some(Thread(Inform(ms, i, ids[1..], drop),
        Take(ids[0], sh.db.executions[ids[0]].report.value))), None)
      else Goto(sh, Inform(ms, i, ids[1..], drop))
    case CloseStop(ms, i, drop) =>
      // closing a closed channel panics, which ends this goroutine
      if i < |ms| && ms[i] in sh.managed && !sh.managed[ms[i]].stopped
      then Goto(WithStopped(sh, ms[i]), MarkStopped(ms, i, drop))
      else Exit(sh)
    case MarkStopped(ms, i, drop) =>
      if i < |ms| then Goto(sh.(db := SetActive(sh.db, WorkflowOf(sh, ms[i]), false)), Forget(ms, i, drop))
        else Exit(sh)
    case Forget(ms, i, drop) =>
      if i < |ms| then Goto(sh.(registered := sh.registered - {WorkflowOf(sh, ms[i])}), CancelAll(ms, i + 1, drop))
        else Exit(sh)
    case DropWorkflow(wf) =>
      Exit(sh.(db := DeleteWorkflow(sh.db, wf), log := sh.log.(dropped := sh.log.dropped + QueuedOf(sh.db, wf))))
    case _ => Goto(sh, at)
  }

  /** StartWorkflow and restoreActiveWorkflows, run by goroutine `t`; `spawned` is the worker it starts. */
  function StartStep(sh: Shared, at: Pc, t: nat, spawned: nat, c: Choice): Outcome {
    match at
    case Upsert(wf, row) =>
      Goto(sh.(db := UpsertWorkflow(sh.db, wf, row.(active := false))), SpawnWorker(wf, c.flag))
    case SpawnWorker(wf, hasManual) =>
      var m := sh.nextManaged;
      Outcome(sh.(managed := sh.managed[m := Managed(wf, hasManual, true, false, false, false, spawned, t)],
        nextManaged := m + 1),
              Some(Thread(Announce(m), Quiet)), Some(Parked(m)))
    case Announce(m) =>
      Goto(sh.(registered := sh.registered[WorkflowOf(sh, m) := m]), Activate(m, Workflow(c.name, c.message, true)))
    case Activate(m, row) =>
      Goto(sh.(db := UpsertWorkflow(sh.db, WorkflowOf(sh, m), row.(active := true))), NotifyActive(m))
    case NotifyActive(m) =>
      Exit(WithToken(sh, m, true).(log := sh.log.(woken := sh.log.woken[m := sh.db.nextQueue])))
    case _ => Goto(sh, at)
  }

  /** publishWaiter, run by goroutine `t`.  A send that finds the buffer full or the channel closed does not return. */
  function DeliveryStep(sh: Shared, th: Thread, t: nat): Outcome {
    match th.delivery
    case Quiet => Outcome(sh, Some(th), None)
    case Take(e, report) =>
      if e in sh.waiters
      then Outcome(sh.(waiters := sh.waiters - {e}, log := sh.log.(sender := sh.log.sender[e := t])),
                   Some(Thread(th.at, Send(e, report))), None)
      else Goto(sh, th.at)
    case Send(e, report) =>
      if SendReady(sh, e)
      then Outcome(sh.(channels := sh.channels[e := sh.channels[e].(sent := sh.channels[e].sent + [report])]),
                   Some(Thread(th.at, Close(e))), None)
      else Outcome(sh, Some(th), None)
    case Close(e) =>
      if CloseReady(sh, e)
      then Goto(sh.(channels := sh.channels[e := sh.channels[e].(closes := sh.channels[e].closes + 1)]), th.at)
      else Outcome(sh, Some(th), None)
  }

  /** Publishing touches neither the tables nor the workflow objects. */
  lemma DeliveryLeaves(sh: Shared, th: Thread, t: nat)
    ensures var r := DeliveryStep(sh, th, t).sh;
      r == sh.(waiters := r.waiters, channels := r.channels, log := sh.log.(sender := r.log.sender))
  {
  }

  /** A send on a channel of capacity one neither blocks nor panics. */
  predicate SendReady(sh: Shared, e: nat) {
    e in sh.channels && |sh.channels[e].sent| == sh.channels[e].received && sh.channels[e].closes == 0
  }

  predicate CloseReady(sh: Shared, e: nat) {
    e in sh.channels && sh.channels[e].closes == 0
  }

  // ---------------------------------------------------------------- the whole machine

  datatype Action =
    | Step(t: nat, c: Choice)                      // a goroutine goes on
    | Request(pc: Pc)                              // a trigger, an API call or a restore starts a goroutine
    | RetainAge(cutoff: Time)                      // the first DELETE of ApplyRetention
    | RetainCount(wf: string, keep: nat)           // the second, for one workflow
    | Crash
    | BootList(ids: seq<nat>)                      // ListStaleRunningExecutions
    | BootRepair(now: Time, message: string)       // CompleteExecution of the next stale row
    | BootDone

  /** A stop works on the object that the workflow map has under its workflow, a shutdown on all of them. */
  ghost predicate MayStop(sh: Shared, ms: seq<nat>, drop: Option<string>) {
    || (|ms| == 1 && ms[0] in sh.registered.Values
       && (drop.Some? ==> drop.value in sh.registered && sh.registered[drop.value] == ms[0]))
    || (drop.None? && NoDup(ms) && Elements(ms) == sh.registered.Values)
  }

  /** The goroutines that may start from outside. */
  ghost predicate MayStart(sh: Shared, pc: Pc) {
    match pc
    case ExecLookup(_) => true
    case Lookup(_, manual) => manual.None?
    case StopGate(ms, i, drop) => i == 0 && MayStop(sh, ms, drop)
    case DropWorkflow(_) => true
    case Upsert(_, _) => true
    case SpawnWorker(wf, _) => wf in sh.db.workflows
    case _ => false
  }

  ghost predicate Enabled(s: State, a: Action) {
    match a
    case Step(t, c) => s.phase.Up? && t in s.threads
    case Request(pc) => s.phase.Up? && MayStart(s.sh, pc)
    case RetainAge(_) => s.phase.Up?
    case RetainCount(_, _) => s.phase.Up?
    case Crash => true
    case BootList(ids) => s.phase.Down? && NoDup(ids) && Elements(ids) == StaleIds(s.sh.db)
    case BootRepair(_, _) => s.phase.Repairing? && s.phase.left != []
    case BootDone => s.phase == Repairing([])
  }

  predicate InEnqueue(at: Pc) {
    at.ExecLookup? || at.Lookup? || at.Gate? || at.Count? || at.Insert? || at.NotifyInsert?
    || at.Register? || at.NotifyManual? || at.Await? || at.Unregister?
  }

  predicate InWorker(at: Pc) {
    at.Parked? || at.LoopCheck? || at.ClaimNext? || at.SetRunning? || at.Execute? || at.Record? || at.ClearRunning?
  }

  predicate InStop(at: Pc) {
    at.StopGate? || at.StopWait? || at.Reopen? || at.ReopenNotify? || at.CancelAll? || at.Inform?
    || at.CloseStop? || at.MarkStopped? || at.Forget? || at.DropWorkflow?
  }

  ghost function ThreadStep(sh: Shared, th: Thread, t: nat, spawned: nat, c: Choice, limit: nat): Outcome {
    if !th.delivery.Quiet? then DeliveryStep(sh, th, t)
    else if InEnqueue(th.at) then EnqueueStep(sh, th.at, t, c, limit)
    else if InWorker(th.at) then WorkerStep(sh, th.at, t, c)
    else if InStop(th.at) then StopStep(sh, th.at, c)
    else StartStep(sh, th.at, t, spawned, c)
  }

  function Apply(s: State, t: nat, o: Outcome): State {
    var threads := if o.next.Some? then s.threads[t := o.next.value] else s.threads - {t};
    if o.spawn.Some?
    then s.(sh := o.sh, threads := threads[s.nextThread := Thread(o.spawn.value, Quiet)],
      nextThread := s.nextThread + 1)
    else s.(sh := o.sh, threads := threads)
  }

  function Begun(s: State, pc: Pc): State {
    s.(threads := s.threads[s.nextThread := Thread(pc, Quiet)], nextThread := s.nextThread + 1)
  }

  function Crashed(s: State): State {
    s.(phase := Down, threads := map[],
       sh := s.sh.(managed := map[], registered := map[], waiters := {}, channels := map[],
                   log := s.sh.log.(holder := map[], sender := map[], creator := map[])))
  }

  /** The message of the boot repair belongs to the workflow's current row. */
  function Repair(db: Db, e: nat, now: Time, message: string): Db {
    if e in db.executions && db.executions[e].workflow in db.workflows
    then Complete(db, e, Error, StaleReport(db.workflows[db.executions[e].workflow], message), now)
    else db
  }

  function WithDb(s: State, db: Db): State {
    s.(sh := s.sh.(db := db))
  }

  ghost function Next(s: State, a: Action, limit: nat): State
    requires Enabled(s, a)
  {
    match a
    case Step(t, c) => Apply(s, t, ThreadStep(s.sh, s.threads[t], t, s.nextThread, c, limit))
    case Request(pc) => Begun(s, pc)
    case RetainAge(cutoff) => WithDb(s, DeleteExecutions(s.sh.db, OlderIds(s.sh.db.executions, cutoff)))
    case RetainCount(wf, keep) => WithDb(s, DeleteExecutions(s.sh.db, OverflowIds(s.sh.db.executions, wf, keep)))
    case Crash => Crashed(s)
    case BootList(ids) => s.(phase := Repairing(ids))
    case BootRepair(now, message) =>
      WithDb(s.(phase := Repairing(s.phase.left[1..])), Repair(s.sh.db, s.phase.left[0], now, message))
    case BootDone => s.(phase := Up)
  }

  lemma StepIs(s: State, t: nat, c: Choice, limit: nat)
    requires Enabled(s, Step(t, c))
    ensures Next(s, Step(t, c), limit) == Apply(s, t, ThreadStep(s.sh, s.threads[t], t, s.nextThread, c, limit))
  {
  }

  lemma RequestIs(s: State, pc: Pc, limit: nat)
    requires Enabled(s, Request(pc))
    ensures MayStart(s.sh, pc) && Next(s, Request(pc), limit) == Begun(s, pc)
  {
  }

  /** Retention and boot change the tables alone. */
  lemma OutsideTables(s: State, a: Action, limit: nat)
    requires Enabled(s, a) && !a.Step? && !a.Request? && !a.Crash?
    ensures var r := Next(s, a, limit);
      r.threads == s.threads && r.nextThread == s.nextThread && r.sh == s.sh.(db := r.sh.db)
  {
    hide OlderIds, OverflowIds, DeleteExecutions, Repair;
  }

  // ---------------------------------------------------------------- runs

  /** The daemon before its first boot, on the empty tables the migrations create. */
  ghost predicate Init(s: State) {
    && s.phase.Down? && s.threads == map[]
    && s.sh == Shared(EMPTY, map[], map[], {}, map[], 0, Log(multiset{}, map[], {}, map[], map[], map[], map[], map[]))
  }

  ghost predicate Run(s: State, actions: seq<Action>, limit: nat)
    decreases |actions|
  {
    actions != [] ==> Enabled(s, actions[0]) && Run(Next(s, actions[0], limit), actions[1..], limit)
  }

  ghost function After(s: State, actions: seq<Action>, limit: nat): State
    requires Run(s, actions, limit)
    decreases |actions|
  {
    if actions == [] then s else After(Next(s, actions[0], limit), actions[1..], limit)
  }
}
