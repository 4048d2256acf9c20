/** When does one workflow never run twice at once?  In every run in which each start, on putting its object into
    the workflow map, finds every other worker goroutine of the workflow retired. */
module SoleWorkers {
  import opened Base
  import opened Reports
  import opened Tables
  import opened Retention
  import opened Protocol
  import opened ClaimSafety
  import opened Partition
  import opened Waiters
  import opened Wakeups
  import opened OwnInserts
  import opened Knowledge
  import opened Retirement

  /** The goroutine is the worker of an object of the workflow. */
  predicate Serves(s: State, t: nat, wf: string) {
    t in s.threads && WorkerAt(s.threads[t].at).Some? && WorkflowOf(s.sh, WorkerAt(s.threads[t].at).value) == wf
  }

  // ---------------------------------------------------------------- what a worker holds

  /** A worker holds an execution of its own object's workflow. */
  predicate HoldsOwn(sh: Shared, at: Pc) {
    Holds(at).Some? && Holds(at).value in sh.db.executions ==>
      WorkerAt(at).Some? && sh.db.executions[Holds(at).value].workflow == WorkflowOf(sh, WorkerAt(at).value)
  }

  ghost predicate AllHoldOwn(s: State) {
    forall t :: t in s.threads ==> HoldsOwn(s.sh, s.threads[t].at)
  }

  /** No execution changes its workflow. */
  ghost predicate SameOwners(d: Db, r: Db) {
    forall e :: e in r.executions && e in d.executions ==> r.executions[e].workflow == d.executions[e].workflow
  }

  lemma HeldStays(sh: Shared, r: Shared, at: Pc)
    requires HoldsOwn(sh, at) && SameObjects(sh, r) && SameOwners(sh.db, r.db)
    requires Holds(at).Some? && Holds(at).value in r.db.executions ==> Holds(at).value in sh.db.executions
    requires WorkerAt(at).Some? ==> WorkerAt(at).value in sh.managed
    ensures HoldsOwn(r, at)
  {
  }

  /** The goroutine that moves holds afterwards what it held before, or nothing, or the row it has just claimed. */
  ghost predicate OwnMove(at: Pc, o: Outcome) {
    o.next.Some? ==>
      || HoldsOwn(o.sh, o.next.value.at)
      || (Holds(o.next.value.at) == Holds(at) && WorkerAt(o.next.value.at) == WorkerAt(at))
  }

  lemma KeepHeld(s: State, t: nat, o: Outcome)
    requires AllHoldOwn(s) && RolesSound(s) && HoldersKnown(s) && HoldersRun(s) && t in s.threads
      && OwnMove(s.threads[t].at, o)
    requires SameObjects(s.sh, o.sh) && SameOwners(s.sh.db, o.sh.db) && Ages(s.sh.db, o.sh.db)
    requires o.spawn.Some? ==> Holds(o.spawn.value).None?
    ensures AllHoldOwn(Apply(s, t, o))
  {
    var r := Apply(s, t, o);
    forall u | u in s.threads ensures HoldsOwn(o.sh, s.threads[u].at) {
      hide SameOwners, SameObjects;
      HeldStays(s.sh, o.sh, s.threads[u].at);
    }
    hide RolesSound, HoldersKnown, HoldersRun, Ages, SameOwners, SameObjects;
  }

  // ---------------------------------------------------------------- the steps

  lemma EnqueueOwners(sh: Shared, at: Pc, t: nat, c: Choice, limit: nat)
    requires InEnqueue(at) && ExecutionsSound(sh.db)
    ensures SameOwners(sh.db, EnqueueStep(sh, at, t, c, limit).sh.db)
  {
    hide QueueOf, WithToken, Create, SameOwners, ExecutionsSound;
    if at.Insert? && at.wf in sh.db.workflows {
      CreateOwners(sh.db, at.wf, if at.manual.Some? then "manual" else "trigger", c.now);
    }
    SameTables(sh.db, EnqueueStep(sh, at, t, c, limit).sh.db);
  }

  lemma CreateOwners(d: Db, wf: string, trigger: string, now: Time)
    requires ExecutionsSound(d) && wf in d.workflows
    ensures SameOwners(d, Create(d, wf, trigger, now).value)
  {
  }

  lemma EnqueueServant(sh: Shared, at: Pc, t: nat, c: Choice, limit: nat)
    requires InEnqueue(at)
    ensures var o := EnqueueStep(sh, at, t, c, limit);
      o.spawn.None? && SameObjects(sh, o.sh) && (o.next.Some? ==> HoldsOwn(o.sh, o.next.value.at))
  {
    hide QueueOf, WithToken, SameObjects, Create;
    if at.NotifyInsert? || at.NotifyManual? {
      TokenKeepsObjects(sh, at.m, true);
    }
    ManagedAlone(sh, EnqueueStep(sh, at, t, c, limit).sh);
  }

  lemma ManagedAlone(sh: Shared, r: Shared)
    ensures r.managed == sh.managed ==> SameObjects(sh, r)
  {
  }

  lemma ClaimOwners(d: Db, q: nat, now: Time)
    requires q in d.queue
    ensures SameOwners(d, Claim(d, q, now))
  {
  }

  lemma CompleteOwners(d: Db, e: nat, status: Status, report: Report, now: Time)
    ensures SameOwners(d, Complete(d, e, status, report, now))
  {
  }

  lemma WorkerTables(sh: Shared, at: Pc, t: nat, c: Choice)
    requires InWorker(at)
    ensures var r := WorkerStep(sh, at, t, c).sh.db;
      || r == sh.db
      || (at.ClaimNext? && IsNext(sh.db, WorkflowOf(sh, at.m), c.row) && c.row in sh.db.queue
         && r == Claim(sh.db, c.row, c.now))
      || (at.Record? && r == Complete(sh.db, at.e, at.report.status, at.report, c.now))
  {
    if at.ClaimNext? && IsNext(sh.db, WorkflowOf(sh, at.m), c.row) {
      NextIsQueued(sh.db, WorkflowOf(sh, at.m), c.row);
    }
    hide Claim, Complete, IsNext, HasQueued, WithToken, WithRunning, WorkflowOf;
  }

  lemma WorkerOwners(sh: Shared, at: Pc, t: nat, c: Choice)
    requires InWorker(at)
    ensures SameOwners(sh.db, WorkerStep(sh, at, t, c).sh.db)
  {
    WorkerTables(sh, at, t, c);
    hide WorkerStep, IsNext, Claim, Complete, SameOwners;
    if at.ClaimNext? && c.row in sh.db.queue {
      ClaimOwners(sh.db, c.row, c.now);
    } else if at.Record? {
      CompleteOwners(sh.db, at.e, at.report.status, at.report, c.now);
    }
    SameTables(sh.db, WorkerStep(sh, at, t, c).sh.db);
  }

  lemma SameTables(d: Db, r: Db)
    ensures r == d ==> SameOwners(d, r)
  {
  }

  lemma WorkerServant(sh: Shared, at: Pc, t: nat, c: Choice)
    requires InWorker(at)
    ensures WorkerStep(sh, at, t, c).spawn.None?
  {
    hide Claim, Complete, IsNext, HasQueued, WithToken, WithRunning, WorkflowOf;
  }

  /** The claimed row is one of the worker's own workflow. */
  lemma WorkerMoves(sh: Shared, at: Pc, t: nat, c: Choice)
    requires InWorker(at) && RowsSound(sh.db)
    ensures OwnMove(at, WorkerStep(sh, at, t, c))
  {
    if at.ClaimNext? && IsNext(sh.db, WorkflowOf(sh, at.m), c.row) {
      NextIsQueued(sh.db, WorkflowOf(sh, at.m), c.row);
      ClaimOwners(sh.db, c.row, c.now);
    } else {
      hide Claim, Complete, IsNext, HasQueued, WithToken, WithRunning, WorkflowOf, RowsSound;
    }
  }

  lemma CancelOwners(d: Db, wf: string, message: string, now: Time)
    ensures SameOwners(d, Cancel(d, wf, message, now)) && SameOwners(d, DeleteWorkflow(d, wf))
    ensures SameOwners(d, SetActive(d, wf, false))
  {
    hide QueuedOf;
  }

  lemma StopOwners(sh: Shared, at: Pc, c: Choice)
    requires InStop(at)
    ensures SameOwners(sh.db, StopStep(sh, at, c).sh.db)
  {
    StopTables(sh, at, c);
    hide *;
    SameTables(sh.db, StopStep(sh, at, c).sh.db);
    if (at.CancelAll? || at.MarkStopped?) && at.i < |at.ms| {
      CancelOwners(sh.db, WorkflowOf(sh, at.ms[at.i]), c.message, c.now);
    } else if at.DropWorkflow? {
      CancelOwners(sh.db, at.wf, c.message, c.now);
    }
  }

  lemma NoWorker(at: Pc)
    requires InStop(at)
    ensures WorkerAt(at).None? && Holds(at).None?
  {
  }

  lemma StopServant(sh: Shared, at: Pc, c: Choice)
    requires InStop(at)
    ensures var o := StopStep(sh, at, c); o.spawn.None? && (o.next.Some? ==> HoldsOwn(o.sh, o.next.value.at))
  {
    StopStays(sh, at, c);
    hide StopStep;
    NoWorker(at);
    if StopStep(sh, at, c).next.Some? {
      NoWorker(StopStep(sh, at, c).next.value.at);
    }
  }

  lemma StartServant(sh: Shared, at: Pc, t: nat, n: nat, c: Choice)
    requires !InEnqueue(at) && !InWorker(at) && !InStop(at) && !at.SpawnWorker?
    ensures var o := StartStep(sh, at, t, n, c);
      o.spawn.None? && SameObjects(sh, o.sh) && SameOwners(sh.db, o.sh.db)
        && (o.next.Some? ==> HoldsOwn(o.sh, o.next.value.at))
  {
  }

  lemma DeliveryServant(sh: Shared, th: Thread, t: nat)
    ensures var o := DeliveryStep(sh, th, t);
      o.spawn.None? && SameObjects(sh, o.sh) && SameOwners(sh.db, o.sh.db) && OwnMove(th.at, o)
  {
  }

  lemma MoveIsOwn(at: Pc, o: Outcome)
    requires o.next.Some? ==> HoldsOwn(o.sh, o.next.value.at)
    ensures OwnMove(at, o)
  {
  }

  lemma KeepOwn(s: State, t: nat, o: Outcome)
    requires AllHoldOwn(s) && ClaimInv(s) && WakeInv(s) && t in s.threads && o.spawn.None?
      && OwnMove(s.threads[t].at, o)
    requires SameObjects(s.sh, o.sh) && SameOwners(s.sh.db, o.sh.db) && Ages(s.sh.db, o.sh.db)
    ensures AllHoldOwn(Apply(s, t, o))
  {
    hide AllHoldOwn, SameOwners, SameObjects, OwnMove, Ages, RolesSound, ObjectsSound, AllAwake,
      HoldersKnown, HoldersRun,
      ClaimedOnce, PhaseSound, Coupled;
    KeepHeld(s, t, o);
  }

  lemma SpawnOwn(s: State, t: nat, c: Choice)
    requires AllHoldOwn(s) && WakeInv(s) && ClaimInv(s) && t in s.threads && s.threads[t].at.SpawnWorker?
    ensures AllHoldOwn(Apply(s, t, StartStep(s.sh, s.threads[t].at, t, s.nextThread, c)))
  {
    var o := StartStep(s.sh, s.threads[t].at, t, s.nextThread, c);
    SpawnShared(s, t, c);
    hide RolesSound, ObjectsSound, AllAwake, AllHoldOwn, OwnMove, SameObjects, SameOwners, HoldersKnown,
      HoldersRun, Coupled,
      ClaimedOnce, PhaseSound, Ages;
    KeepHeld(s, t, o);
  }

  lemma SpawnShared(s: State, t: nat, c: Choice)
    requires ObjectsSound(s) && t in s.threads && s.threads[t].at.SpawnWorker?
    ensures var o := StartStep(s.sh, s.threads[t].at, t, s.nextThread, c);
      SameObjects(s.sh, o.sh) && SameOwners(s.sh.db, o.sh.db) && OwnMove(s.threads[t].at, o) && Ages(s.sh.db, o.sh.db)
      && Holds(o.spawn.value).None?
  {
    assert s.sh.nextManaged !in s.sh.managed;
    hide ObjectsSound;
  }

  lemma ThreadOwn(s: State, t: nat, c: Choice, limit: nat)
    requires AllHoldOwn(s) && ClaimInv(s) && WakeInv(s) && s.phase.Up? && t in s.threads
    ensures AllHoldOwn(Apply(s, t, ThreadStep(s.sh, s.threads[t], t, s.nextThread, c, limit)))
  {
    var th := s.threads[t];
    ThreadAges(s, t, c, limit);
    assert Coupled(s.sh.db);
    hide AllHoldOwn, ClaimInv, WakeInv, SameObjects, SameOwners, OwnMove, Ages, HoldsOwn, Coupled, RowsSound,
      ExecutionsSound,
      DeliveryStep, EnqueueStep, WorkerStep, StopStep, StartStep;
    if !th.delivery.Quiet? {
      DeliveryServant(s.sh, th, t);
      KeepOwn(s, t, DeliveryStep(s.sh, th, t));
    } else if InEnqueue(th.at) {
      EnqueueServant(s.sh, th.at, t, c, limit);
      CoupledSound(s.sh.db);
      EnqueueOwners(s.sh, th.at, t, c, limit);
      MoveIsOwn(th.at, EnqueueStep(s.sh, th.at, t, c, limit));
      KeepOwn(s, t, EnqueueStep(s.sh, th.at, t, c, limit));
    } else if InWorker(th.at) {
      WorkerServant(s.sh, th.at, t, c);
      WorkerManaged(s.sh, th.at, t, c);
      WorkerOwners(s.sh, th.at, t, c);
      CoupledSound(s.sh.db);
      WorkerMoves(s.sh, th.at, t, c);
      KeepOwn(s, t, WorkerStep(s.sh, th.at, t, c));
    } else if InStop(th.at) {
      StopServant(s.sh, th.at, c);
      StopManaged(s.sh, th.at, c);
      StopOwners(s.sh, th.at, c);
      MoveIsOwn(th.at, StopStep(s.sh, th.at, c));
      KeepOwn(s, t, StopStep(s.sh, th.at, c));
    } else if th.at.SpawnWorker? {
      SpawnOwn(s, t, c);
    } else {
      StartServant(s.sh, th.at, t, s.nextThread, c);
      MoveIsOwn(th.at, StartStep(s.sh, th.at, t, s.nextThread, c));
      KeepOwn(s, t, StartStep(s.sh, th.at, t, s.nextThread, c));
    }
  }

  lemma CoupledSound(d: Db)
    requires Coupled(d)
    ensures RowsSound(d) && ExecutionsSound(d)
  {
  }

  lemma RequestOwn(s: State, pc: Pc)
    requires AllHoldOwn(s) && MayStart(s.sh, pc) && HoldersKnown(s)
    ensures AllHoldOwn(Begun(s, pc))
  {
    var r := Begun(s, pc);
    assert WorkerAt(pc).None? && Holds(pc).None?;
    assert forall u, wf :: Serves(r, u, wf) ==> Serves(s, u, wf);
  }

  /** A step of the tables alone. */
  lemma TablesOwn(s: State, r: State)
    requires AllHoldOwn(s) && r.threads == s.threads && r.sh == s.sh.(db := r.sh.db)
    requires SameOwners(s.sh.db, r.sh.db) && Ages(s.sh.db, r.sh.db) && HoldersKnown(s) && HoldersRun(s)
    ensures AllHoldOwn(r)
  {
    assert forall u, wf :: Serves(r, u, wf) ==> Serves(s, u, wf);
    hide Serves;
    forall t | t in r.threads ensures HoldsOwn(r.sh, r.threads[t].at) {
      assert HoldsOwn(s.sh, s.threads[t].at);
    }
  }

  lemma OutsideOwners(s: State, a: Action, limit: nat)
    requires Enabled(s, a) && !a.Step? && !a.Crash? && !a.Request?
    ensures SameOwners(s.sh.db, Next(s, a, limit).sh.db)
  {
    hide OlderIds, OverflowIds, StaleIds, Elements, NoDup;
  }

  lemma NextOwn(s: State, a: Action, limit: nat)
    requires AllHoldOwn(s) && ClaimInv(s) && WakeInv(s) && Enabled(s, a)
    ensures AllHoldOwn(Next(s, a, limit))
  {
    NextAges(s, a, limit);
    hide AllHoldOwn, WakeInv, ThreadStep, OlderIds, OverflowIds, DeleteExecutions, Repair, Ages, SameOwners,
      Coupled, ClaimedOnce,
      HoldersKnown, HoldersRun, PhaseSound, Crashed;
    match a
    case Step(t, c) => ThreadOwn(s, t, c, limit);
    case Request(pc) => RequestOwn(s, pc);
    case Crash => CrashOwn(s);
    case _ =>
      OutsideOwners(s, a, limit);
      TablesOwn(s, Next(s, a, limit));
  }

  lemma CrashOwn(s: State)
    ensures AllHoldOwn(Crashed(s))
  {
  }

  // ---------------------------------------------------------------- at most one live worker

  /** The worker of an object that was announced and that can still come to claim. */
  ghost predicate Live(s: State, t: nat, wf: string) {
    && Serves(s, t, wf)
    && !Unannounced(s, WorkerAt(s.threads[t].at).value) && !Retired(s, t, WorkerAt(s.threads[t].at).value)
  }

  ghost predicate OneLiveEach(s: State) {
    forall t, u, wf :: Live(s, t, wf) && Live(s, u, wf) ==> t == u
  }

  /** Every other announced worker of the object's workflow is retired. */
  ghost predicate OthersRetired(r: State, n: nat) {
    forall u :: Live(r, u, WorkflowOf(r.sh, n)) ==> WorkerAt(r.threads[u].at) == Some(n)
  }

  /** The next step of the goroutine puts its object into the workflow map. */
  predicate Announces(s: State, t: nat) {
    t in s.threads && s.threads[t].delivery.Quiet? && s.threads[t].at.Announce?
  }

  /** Whenever a start has put its object into the workflow map, the other workers of the workflow are retired. */
  ghost predicate CleanRun(s: State, actions: seq<Action>, limit: nat)
    requires Run(s, actions, limit)
    decreases |actions|
  {
    actions != [] ==>
      && (actions[0].Step? && Announces(s, actions[0].t) ==>
         OthersRetired(Next(s, actions[0], limit), s.threads[actions[0].t].at.m))
      && CleanRun(Next(s, actions[0], limit), actions[1..], limit)
  }

  /** A goroutine becomes no worker, and a new worker is that of a fresh object. */
  ghost predicate NoNewWorker(at: Pc, o: Outcome) {
    && (o.next.Some? && WorkerAt(o.next.value.at).Some? ==> WorkerAt(o.next.value.at) == WorkerAt(at))
    && (o.spawn.Some? ==> o.spawn.value.Parked? && o.next.Some? && o.next.value.at == Announce(o.spawn.value.m))
  }

  lemma EnqueueNoWorker(sh: Shared, at: Pc, t: nat, c: Choice, limit: nat)
    requires InEnqueue(at)
    ensures NoNewWorker(at, EnqueueStep(sh, at, t, c, limit))
  {
    hide QueueOf, WithToken, Create;
  }

  lemma StartNoWorker(sh: Shared, at: Pc, t: nat, n: nat, c: Choice)
    requires !InEnqueue(at) && !InWorker(at) && !InStop(at) && sh.nextManaged !in sh.managed
    ensures NoNewWorker(at, StartStep(sh, at, t, n, c)) && SameObjects(sh, StartStep(sh, at, t, n, c).sh)
  {
  }

  lemma ThreadNoWorker(s: State, t: nat, c: Choice, limit: nat)
    requires ObjectsSound(s) && t in s.threads
    ensures var o := ThreadStep(s.sh, s.threads[t], t, s.nextThread, c, limit);
      NoNewWorker(s.threads[t].at, o) && SameObjects(s.sh, o.sh)
  {
    var th := s.threads[t];
    assert s.sh.nextManaged !in s.sh.managed;
    hide ObjectsSound, SameObjects, DeliveryStep, EnqueueStep, WorkerStep, StopStep, StartStep;
    if !th.delivery.Quiet? {
      DeliveryServant(s.sh, th, t);
      DeliveryStays(s.sh, th, t);
    } else if InEnqueue(th.at) {
      EnqueueServant(s.sh, th.at, t, c, limit);
      EnqueueNoWorker(s.sh, th.at, t, c, limit);
    } else if InWorker(th.at) {
      WorkerPlaces(s.sh, th.at, t, c);
      WorkerManaged(s.sh, th.at, t, c);
    } else if InStop(th.at) {
      StopStays(s.sh, th.at, c);
      StopManaged(s.sh, th.at, c);
    } else {
      StartNoWorker(s.sh, th.at, t, s.nextThread, c);
    }
  }

  /** A worker of the next state that is not new worked for the same object before. */
  lemma ServedBefore(s: State, t: nat, o: Outcome, u: nat, wf: string)
    requires RolesSound(s) && t in s.threads && NoNewWorker(s.threads[t].at, o) && SameObjects(s.sh, o.sh)
    requires Serves(Apply(s, t, o), u, wf) && (u == s.nextThread ==> o.spawn.None?)
    ensures Serves(s, u, wf) && WorkerAt(s.threads[u].at) == WorkerAt(Apply(s, t, o).threads[u].at)
  {
    var m := WorkerAt(Apply(s, t, o).threads[u].at).value;
    assert WorkerAt(s.threads[u].at) == Some(m) && m in s.sh.managed;
    hide RolesSound, NoNewWorker;
  }

  /** The worker that a step starts serves a fresh object. */
  lemma NewWorkerFresh(s: State, t: nat, o: Outcome)
    requires t in s.threads && t != s.nextThread && NoNewWorker(s.threads[t].at, o) && o.spawn.Some?
    ensures Unannounced(Apply(s, t, o), o.spawn.value.m)
  {
    assert Apply(s, t, o).threads[t].at == Announce(o.spawn.value.m);
  }

  /** A fresh object stays fresh until its start announces it. */
  lemma StaysFresh(s: State, t: nat, c: Choice, limit: nat, m: nat)
    requires PublishersPlaced(s) && t in s.threads && s.nextThread !in s.threads && Unannounced(s, m)
    requires !(Announces(s, t) && s.threads[t].at.m == m)
    ensures Unannounced(Apply(s, t, ThreadStep(s.sh, s.threads[t], t, s.nextThread, c, limit)), m)
  {
    var v :| v in s.threads && s.threads[v].at == Announce(m);
    assert v != t;
    hide ThreadStep, PublishersPlaced;
    var r := Apply(s, t, ThreadStep(s.sh, s.threads[t], t, s.nextThread, c, limit));
    assert r.threads[v].at == Announce(m);
  }

  lemma LiveBefore(s: State, t: nat, c: Choice, limit: nat, u: nat, wf: string)
    requires ClaimInv(s) && WakeInv(s) && KnowInv(s) && s.phase.Up? && t in s.threads
    requires Live(Next(s, Step(t, c), limit), u, wf)
    requires !(Announces(s, t) && WorkerAt(Next(s, Step(t, c), limit).threads[u].at) == Some(s.threads[t].at.m))
    ensures Live(s, u, wf)
  {
    var r, o := Next(s, Step(t, c), limit), ThreadStep(s.sh, s.threads[t], t, s.nextThread, c, limit);
    StepIs(s, t, c, limit);
    FreshThread(s);
    hide Next, ThreadStep, ClaimInv, KnowInv, AllAwake, ObjectsSound, NoNewWorker, SameObjects, Retired, Unannounced;
    ThreadNoWorker(s, t, c, limit);
    if u == s.nextThread && o.spawn.Some? {
      NewWorkerFresh(s, t, o);
      assert false;
    }
    ServedBefore(s, t, o, u, wf);
    var m := WorkerAt(s.threads[u].at).value;
    if Retired(s, u, m) {
      NextRetires(s, Step(t, c), limit, u, m);
    }
    if Unannounced(s, m) {
      StaysFresh(s, t, c, limit, m);
    }
  }

  /** A workflow object has one worker goroutine. */
  lemma OneWorkerPerObject(s: State, t: nat, u: nat)
    requires RolesSound(s) && t in s.threads && u in s.threads
    requires WorkerAt(s.threads[t].at).Some? && WorkerAt(s.threads[t].at) == WorkerAt(s.threads[u].at)
    ensures t == u
  {
  }

  lemma StepSole(s: State, t: nat, c: Choice, limit: nat)
    requires ClaimInv(s) && WakeInv(s) && KnowInv(s) && OneLiveEach(s) && s.phase.Up? && t in s.threads
    requires RolesSound(Next(s, Step(t, c), limit))
    requires Announces(s, t) ==> OthersRetired(Next(s, Step(t, c), limit), s.threads[t].at.m)
    ensures OneLiveEach(Next(s, Step(t, c), limit))
  {
    var r := Next(s, Step(t, c), limit);
    hide Next, ClaimInv, WakeInv, KnowInv, RolesSound, Retired, Unannounced;
    forall u, v, wf | Live(r, u, wf) && Live(r, v, wf) ensures u == v {
      if Announces(s, t) && wf == WorkflowOf(r.sh, s.threads[t].at.m) {
        OneWorkerPerObject(r, u, v);
      } else {
        LiveBefore(s, t, c, limit, u, wf);
        LiveBefore(s, t, c, limit, v, wf);
        hide Live;
      }
    }
  }

  lemma BegunFresh(s: State, pc: Pc, m: nat)
    requires s.nextThread !in s.threads
    ensures Unannounced(s, m) ==> Unannounced(Begun(s, pc), m)
  {
    if v :| v in s.threads && s.threads[v].at == Announce(m) {
      assert Begun(s, pc).threads[v].at == Announce(m);
    }
  }

  lemma RequestLive(s: State, pc: Pc, u: nat, wf: string)
    requires ClaimInv(s) && KnowInv(s) && MayStart(s.sh, pc) && Live(Begun(s, pc), u, wf)
    ensures Live(s, u, wf)
  {
    FreshThread(s);
    var r := Begun(s, pc);
    assert WorkerAt(pc).None?;
    hide MayStart, ClaimInv, KnowInv, Retired;
    assert Serves(s, u, wf);
    var m := WorkerAt(s.threads[u].at).value;
    if Retired(s, u, m) {
      RequestRetires(s, pc, u, m);
    }
    BegunFresh(s, pc, m);
  }

  lemma TablesLive(s: State, r: State, u: nat, wf: string)
    requires r.threads == s.threads && r.sh == s.sh.(db := r.sh.db) && Live(r, u, wf)
    ensures Live(s, u, wf)
  {
    hide Retired;
    var m := WorkerAt(s.threads[u].at).value;
    if Retired(s, u, m) {
      TablesRetire(s, r, u, m);
    }
  }

  lemma NextSole(s: State, a: Action, limit: nat)
    requires ClaimInv(s) && WakeInv(s) && KnowInv(s) && OneLiveEach(s) && Enabled(s, a)
    requires a.Step? && Announces(s, a.t) ==> OthersRetired(Next(s, a, limit), s.threads[a.t].at.m)
    ensures OneLiveEach(Next(s, a, limit))
  {
    var r := Next(s, a, limit);
    if a.Step? {
      NextWakes(s, a, limit);
      WakeRoles(r);
      hide *;
      StepSole(s, a.t, a.c, limit);
    } else if a.Request? {
      RequestIs(s, a.pc, limit);
      hide Next, Live, MayStart, Begun, ClaimInv, WakeInv, KnowInv;
      forall u, wf | Live(r, u, wf) ensures Live(s, u, wf) { RequestLive(s, a.pc, u, wf); }
    } else if a.Crash? {
      hide ClaimInv, WakeInv, KnowInv, Retired, Unannounced;
    } else {
      OutsideTables(s, a, limit);
      hide Next, Live, ClaimInv, WakeInv, KnowInv;
      forall u, wf | Live(r, u, wf) ensures Live(s, u, wf) { TablesLive(s, r, u, wf); }
    }
  }

  lemma WakeRoles(s: State)
    requires WakeInv(s)
    ensures RolesSound(s)
  {
  }

  // ---------------------------------------------------------------- runs

  /** What holds in every reachable state. */
  ghost predicate Sound(s: State) {
    ClaimInv(s) && WakeInv(s) && WaiterInv(s) && KnowInv(s) && AllHoldOwn(s)
  }

  lemma InitSound(s: State)
    requires Init(s)
    ensures Sound(s)
  {
    InitClaims(s);
    InitWakes(s);
    InitWaits(s);
    InitKnows(s);
    hide ClaimInv, WakeInv, WaiterInv, KnowInv;
  }

  lemma NextSound(s: State, a: Action, limit: nat)
    requires Sound(s) && Enabled(s, a)
    ensures Sound(Next(s, a, limit))
  {
    hide ClaimInv, WakeInv, WaiterInv, KnowInv, AllHoldOwn, Enabled, Next;
    NextKeepsClaims(s, a, limit);
    NextWakes(s, a, limit);
    NextWaits(s, a, limit);
    NextKnows(s, a, limit);
    NextOwn(s, a, limit);
  }

  lemma {:induction false} RunSound(s: State, actions: seq<Action>, limit: nat)
    requires Sound(s) && Run(s, actions, limit)
    ensures Sound(After(s, actions, limit))
    decreases |actions|
  {
    hide Sound, Next, Enabled;
    if actions != [] {
      NextSound(s, actions[0], limit);
      RunSound(Next(s, actions[0], limit), actions[1..], limit);
    }
  }

  lemma {:induction false} RunSole(s: State, actions: seq<Action>, limit: nat)
    requires Sound(s) && OneLiveEach(s) && Run(s, actions, limit) && CleanRun(s, actions, limit)
    ensures OneLiveEach(After(s, actions, limit))
    decreases |actions|
  {
    hide ClaimInv, WakeInv, WaiterInv, KnowInv, AllHoldOwn, OneLiveEach, OthersRetired, Next, Enabled;
    if actions != [] {
      NextSole(s, actions[0], limit);
      NextSound(s, actions[0], limit);
      RunSole(Next(s, actions[0], limit), actions[1..], limit);
    }
  }

  // ---------------------------------------------------------------- theorem

  /** Two workers of one workflow have each claimed an execution and not completed it. */
  ghost predicate TwoAtOnce(r: State, wf: string) {
    exists t, u :: t != u && Serves(r, t, wf) && Serves(r, u, wf) && Holds(r.threads[t].at).Some?
      && Holds(r.threads[u].at).Some?
  }

  predicate RunningOf(r: State, e: nat, wf: string) {
    e in r.sh.db.executions && r.sh.db.executions[e].status == Running && r.sh.db.executions[e].workflow == wf
  }

  lemma FreshAsBuilt(s: State, m: nat)
    requires FreshSound(s)
    ensures Unannounced(s, m) ==> AsBuilt(s, m)
  {
    if v :| v in s.threads && s.threads[v].at == Announce(m) {
      assert AsBuilt(s, s.threads[v].at.m);
    }
  }

  /** Whoever holds an execution is a live worker. */
  lemma HoldersLive(s: State, t: nat, wf: string)
    requires KnowInv(s) && RolesSound(s) && Serves(s, t, wf) && Holds(s.threads[t].at).Some?
    ensures Live(s, t, wf)
  {
    var m := WorkerAt(s.threads[t].at).value;
    FreshAsBuilt(s, m);
  }

  lemma SoleNeverTwo(s: State, wf: string)
    requires Sound(s) && OneLiveEach(s)
    ensures !TwoAtOnce(s, wf)
  {
    WakeRoles(s);
    hide ClaimInv, WakeInv, WaiterInv, KnowInv, AllHoldOwn, RolesSound, Live;
    forall t, u | Serves(s, t, wf) && Serves(s, u, wf) && Holds(s.threads[t].at).Some? && Holds(s.threads[u].at).Some?
      ensures t == u {
      HoldersLive(s, t, wf);
      HoldersLive(s, u, wf);
    }
  }

  /** Two running rows of one workflow are held by two of its workers. */
  lemma RunningRowsHeld(s: State, wf: string, e: nat, f: nat)
    requires Sound(s) && s.phase.Up? && RunningOf(s, e, wf) && RunningOf(s, f, wf) && e != f
    ensures TwoAtOnce(s, wf)
  {
    var t, u := s.sh.log.holder[e], s.sh.log.holder[f];
    assert HoldsOwn(s.sh, s.threads[t].at) && HoldsOwn(s.sh, s.threads[u].at);
    hide WakeInv, WaiterInv, KnowInv, Coupled, HoldersKnown, ClaimedOnce;
    assert Serves(s, t, wf) && Serves(s, u, wf);
  }

  /** In every run whose starts find the other workers of their workflow retired, no workflow ever runs twice at
      once: no two of its workers hold an execution, and no two of its rows are running while the daemon is up. */
  lemma {:induction false} CleanRunsNeverRunTwo(s: State, actions: seq<Action>, limit: nat, wf: string)
    requires Init(s) && Run(s, actions, limit) && CleanRun(s, actions, limit)
    ensures var r := After(s, actions, limit);
      && !TwoAtOnce(r, wf)
      && (r.phase.Up? ==> forall e, f :: RunningOf(r, e, wf) && RunningOf(r, f, wf) ==> e == f)
  {
    InitSound(s);
    assert OneLiveEach(s);
    RunSound(s, actions, limit);
    RunSole(s, actions, limit);
    var r := After(s, actions, limit);
    hide Run, After, CleanRun, Sound, OneLiveEach, Init, TwoAtOnce;
    SoleNeverTwo(r, wf);
    if r.phase.Up? {
      forall e, f | RunningOf(r, e, wf) && RunningOf(r, f, wf) ensures e == f {
        if e != f { RunningRowsHeld(r, wf, e, f); }
      }
    }
  }
}
