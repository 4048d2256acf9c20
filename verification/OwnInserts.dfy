/** While every insert is made for the workflow object that is registered at that moment, no registered
    workflow ever sleeps on a non-empty queue; and one insert for another object is enough to make it. */
module OwnInserts {
  import opened Base
  import opened Reports
  import opened Tables
  import opened Retention
  import opened Protocol
  import opened ClaimSafety
  import opened Wakeups

  /** Between the lookup and the insert the registered workflow object was not replaced. */
  predicate InsertsForRegistered(sh: Shared, at: Pc) {
    match at
    case Insert(wf, m, _) => wf in sh.registered && sh.registered[wf] == m
    case _ => true
  }

  ghost predicate GuardedRun(s: State, actions: seq<Action>, limit: nat)
    requires Run(s, actions, limit)
    decreases |actions|
  {
    actions != [] ==>
      && (actions[0].Step? ==> InsertsForRegistered(s.sh, s.threads[actions[0].t].at))
      && GuardedRun(Next(s, actions[0], limit), actions[1..], limit)
  }

  /** Every registered object owns all rows of its workflow inserted since its activation. */
  ghost predicate OwnRows(sh: Shared) {
    forall wf :: wf in sh.registered ==>
      var m := sh.registered[wf];
      && m in sh.managed && sh.managed[m].workflow == wf
      && (m in sh.log.woken ==>
            forall q :: q in sh.db.queue && sh.db.queue[q].workflow == wf && sh.log.woken[m] <= q ==>
              q in sh.log.origin && sh.log.origin[q] == m)
  }

  lemma CalmOwns(sh: Shared, r: Shared)
    requires OwnRows(sh) && QueueShrinks(sh.db, r.db) && ObjectsCalm(sh, r)
    requires forall wf :: wf in r.registered ==> wf in sh.registered && r.registered[wf] == sh.registered[wf]
    ensures OwnRows(r)
  {
  }

  lemma InsertOwns(sh: Shared, r: Shared, wf: string, m: nat, row: QueueRow)
    requires OwnRows(sh) && InsertsRow(sh, r, m, row) && row.workflow == wf
    requires wf in sh.registered && sh.registered[wf] == m
    ensures OwnRows(r)
  {
  }

  lemma EnqueueOwns(sh: Shared, at: Pc, t: nat, c: Choice, limit: nat)
    requires OwnRows(sh) && InEnqueue(at) && InsertsForRegistered(sh, at)
    ensures OwnRows(EnqueueStep(sh, at, t, c, limit).sh)
  {
    hide OwnRows, QueueOf, WithToken, Calm;
    var r := EnqueueStep(sh, at, t, c, limit).sh;
    if at.Insert? && at.wf in sh.db.workflows {
      InsertOwns(sh, r, at.wf, at.m, QueueRow(sh.db.nextExecution, at.wf, if at.manual.Some? then "manual"
        else "trigger", c.now));
    } else {
      hide Create;
      EnqueueCalm(sh, at, t, c, limit);
      CalmParts(sh, at, EnqueueStep(sh, at, t, c, limit));
      CalmOwns(sh, r);
    }
  }

  lemma CalmParts(sh: Shared, at: Pc, o: Outcome)
    requires Calm(sh, at, o)
    ensures QueueShrinks(sh.db, o.sh.db) && ObjectsCalm(sh, o.sh)
  {
  }

  /** The same workflow objects, and perhaps more. */
  ghost predicate SameObjects(sh: Shared, r: Shared) {
    r.managed.Keys >= sh.managed.Keys && forall m :: m in sh.managed ==> r.managed[m].workflow == sh.managed[m].workflow
  }

  /** No new row, no object lost, nothing new registered. */
  ghost predicate Harmless(sh: Shared, r: Shared) {
    && QueueShrinks(sh.db, r.db) && SameObjects(sh, r)
    && r.log.woken == sh.log.woken && r.log.origin == sh.log.origin
    && (forall wf :: wf in r.registered ==> wf in sh.registered && r.registered[wf] == sh.registered[wf])
  }

  lemma HarmlessOwns(sh: Shared, r: Shared)
    requires OwnRows(sh) && Harmless(sh, r)
    ensures OwnRows(r)
  {
  }

  lemma CalmObjects(sh: Shared, r: Shared)
    requires ObjectsCalm(sh, r)
    ensures SameObjects(sh, r)
  {
  }

  lemma TokenKeepsObjects(sh: Shared, m: nat, value: bool)
    ensures SameObjects(sh, WithToken(sh, m, value)) && SameObjects(sh, WithAccepting(sh, m, value))
  {
  }

  lemma WorkerManaged(sh: Shared, at: Pc, t: nat, c: Choice)
    requires InWorker(at)
    ensures SameObjects(sh, WorkerStep(sh, at, t, c).sh)
  {
    if at.Parked? && c.flag && at.m in sh.managed && sh.managed[at.m].token {
      TokenKeepsObjects(sh, at.m, false);
      hide SameObjects, WithToken;
    } else {
      WorkerObjects(sh, at, t, c);
      hide WorkerStep, ObjectsCalm, SameObjects;
      CalmObjects(sh, WorkerStep(sh, at, t, c).sh);
    }
  }

  /** A worker moves flags of its own object, and rows out of the queue. */
  lemma WorkerHarmless(sh: Shared, at: Pc, t: nat, c: Choice)
    requires InWorker(at)
    ensures Harmless(sh, WorkerStep(sh, at, t, c).sh)
  {
    WorkerQueue(sh, at, t, c);
    WorkerManaged(sh, at, t, c);
    hide HasQueued, IsNext, Claim, Complete, QueueShrinks, SameObjects, WithToken, WithRunning, WorkflowOf;
  }

  lemma StopManaged(sh: Shared, at: Pc, c: Choice)
    requires InStop(at)
    ensures SameObjects(sh, StopStep(sh, at, c).sh)
  {
    if at.Reopen? && at.i < |at.ms| {
      TokenKeepsObjects(sh, at.ms[at.i], true);
      hide SameObjects, WithAccepting;
    } else {
      StopObjects(sh, at, c);
      hide StopStep, ObjectsCalm, SameObjects;
      CalmObjects(sh, StopStep(sh, at, c).sh);
    }
  }

  lemma StopHarmless(sh: Shared, at: Pc, c: Choice)
    requires InStop(at)
    ensures Harmless(sh, StopStep(sh, at, c).sh)
  {
    StopQueue(sh, at, c);
    StopManaged(sh, at, c);
    hide NoDup, Elements, QueuedOf, Cancel, DeleteWorkflow, SetActive, QueueShrinks, SameObjects, WithToken,
      WithAccepting, WithStopped, WorkflowOf;
  }

  lemma AnnounceOwns(sh: Shared, m: nat)
    requires OwnRows(sh) && m in sh.managed && m !in sh.log.woken
    ensures OwnRows(sh.(registered := sh.registered[WorkflowOf(sh, m) := m]))
  {
  }

  lemma ActiveOwns(sh: Shared, m: nat)
    requires OwnRows(sh) && RowsSound(sh.db)
    ensures OwnRows(Activated(sh, m))
  {
  }

  lemma StartOwns(s: State, t: nat, c: Choice)
    requires OwnRows(s.sh) && RowsSound(s.sh.db) && RolesSound(s) && ObjectsSound(s) && t in s.threads
    requires !InEnqueue(s.threads[t].at) && !InWorker(s.threads[t].at) && !InStop(s.threads[t].at)
    ensures OwnRows(StartStep(s.sh, s.threads[t].at, t, s.nextThread, c).sh)
  {
    var at := s.threads[t].at;
    var r := StartStep(s.sh, at, t, s.nextThread, c).sh;
    if at.Announce? {
      assert ActivatorAt(at) == Some(at.m);
      AnnounceOwns(s.sh, at.m);
    } else if at.NotifyActive? {
      ActiveOwns(s.sh, at.m);
    } else {
      assert s.sh.nextManaged !in s.sh.managed;
      hide RolesSound, ObjectsSound, RowsSound;
      HarmlessOwns(s.sh, r);
    }
    hide RolesSound, ObjectsSound, RowsSound, OwnRows;
  }

  lemma DeliveryOwns(sh: Shared, th: Thread, t: nat)
    requires OwnRows(sh)
    ensures OwnRows(DeliveryStep(sh, th, t).sh)
  {
    DeliveryLeaves(sh, th, t);
    hide OwnRows, DeliveryStep;
    HarmlessOwns(sh, DeliveryStep(sh, th, t).sh);
  }

  lemma ThreadOwns(s: State, t: nat, c: Choice, limit: nat)
    requires OwnRows(s.sh) && RowsSound(s.sh.db) && RolesSound(s) && ObjectsSound(s) && t in s.threads
    requires InsertsForRegistered(s.sh, s.threads[t].at)
    ensures OwnRows(ThreadStep(s.sh, s.threads[t], t, s.nextThread, c, limit).sh)
  {
    hide OwnRows, RowsSound, RolesSound, ObjectsSound, Harmless, DeliveryStep, EnqueueStep, WorkerStep,
      StopStep, StartStep;
    var th := s.threads[t];
    if !th.delivery.Quiet? {
      DeliveryOwns(s.sh, th, t);
    } else if InEnqueue(th.at) {
      EnqueueOwns(s.sh, th.at, t, c, limit);
    } else if InWorker(th.at) {
      WorkerHarmless(s.sh, th.at, t, c);
      HarmlessOwns(s.sh, WorkerStep(s.sh, th.at, t, c).sh);
    } else if InStop(th.at) {
      StopHarmless(s.sh, th.at, c);
      HarmlessOwns(s.sh, StopStep(s.sh, th.at, c).sh);
    } else {
      StartOwns(s, t, c);
    }
  }

  lemma NextOwns(s: State, a: Action, limit: nat)
    requires ClaimInv(s) && WakeInv(s) && OwnRows(s.sh) && Enabled(s, a)
    requires a.Step? ==> InsertsForRegistered(s.sh, s.threads[a.t].at)
    ensures OwnRows(Next(s, a, limit).sh)
  {
    hide OwnRows, RowsSound, RolesSound, ObjectsSound, AllAwake, HoldersKnown, HoldersRun, ClaimedOnce,
      PhaseSound, ThreadStep,
      OlderIds, OverflowIds, DeleteExecutions, Repair, QueueShrinks, QueuedHaveRows, ExecutionsSound;
    match a
    case Step(t, c) => ThreadOwns(s, t, c, limit);
    case Request(pc) =>
    case Crash => CrashOwns(s);
    case _ =>
      OutsideShrinks(s, a, limit);
      HarmlessOwns(s.sh, Next(s, a, limit).sh);
  }

  lemma CrashOwns(s: State)
    ensures OwnRows(Crashed(s).sh)
  {
  }

  lemma {:induction false} RunOwns(s: State, actions: seq<Action>, limit: nat)
    requires ClaimInv(s) && WakeInv(s) && OwnRows(s.sh) && Run(s, actions, limit) && GuardedRun(s, actions, limit)
    ensures var r := After(s, actions, limit); ClaimInv(r) && WakeInv(r) && OwnRows(r.sh)
    decreases |actions|
  {
    hide ClaimInv, WakeInv, OwnRows, Next, InsertsForRegistered;
    if actions != [] {
      NextKeepsClaims(s, actions[0], limit);
      NextWakes(s, actions[0], limit);
      NextOwns(s, actions[0], limit);
      RunOwns(Next(s, actions[0], limit), actions[1..], limit);
    }
  }

  /** In a run whose inserts are all for the registered object, no registered workflow loses a wake-up. */
  lemma {:induction false} NoLostWakeup(s: State, actions: seq<Action>, limit: nat, wf: string)
    requires Init(s) && Run(s, actions, limit) && GuardedRun(s, actions, limit)
    requires wf in After(s, actions, limit).sh.registered
    ensures !LostWakeup(After(s, actions, limit), After(s, actions, limit).sh.registered[wf])
  {
    InitClaims(s);
    InitWakes(s);
    RunOwns(s, actions, limit);
    var r := After(s, actions, limit);
    var m := r.sh.registered[wf];
    LostWakeupIffLateForeign(s, actions, limit, m);
    hide Run, After, GuardedRun, ClaimInv, RolesSound, ObjectsSound, AllAwake, Idle, LostWakeup;
    assert !exists q :: LateForeign(r.sh, q, m);
  }

  /** The goroutine's next `n` steps. */
  function Own(t: nat, c: Choice, n: nat): seq<Action> {
    if n == 0 then [] else [Step(t, c)] + Own(t, c, n - 1)
  }

  /** The other direction: from any state in which an enqueue stands before its insert with one workflow
      object while the worker of another object of the same workflow is idle, that enqueue's own steps up to
      its last notify leave the idle worker asleep on its row, unless it is a manual execution that looked the
      idle object up and so notifies it in the end. */
  lemma ForeignInsertStrands(s: State, t: nat, m: nat, c: Choice, limit: nat)
    requires s.phase.Up? && t in s.threads && s.threads[t].delivery.Quiet? && s.threads[t].at.Insert?
    requires s.threads[t].at.wf in s.sh.db.workflows
    requires Idle(s, m) && s.sh.managed[m].workflow == s.threads[t].at.wf && s.threads[t].at.m != m
    ensures var own := Own(t, c, if s.threads[t].at.manual.None? then 2 else 4);
      Run(s, own, limit) && (LostWakeup(After(s, own, limit), m) <==> s.threads[t].at.manual != Some(m))
  {
    var at, e := s.threads[t].at, s.sh.db.nextExecution;
    var r := Next(s, Step(t, c), limit);
    StrandInsert(s, t, m, c, limit);
    hide Next, Run, After, Own, Idle, LostWakeup, HasQueued;
    if at.manual.None? {
      TriggerTail(r, t, m, c, limit, s, at.m, e);
      RunOwn(s, t, c, 2, limit);
    } else {
      ManualTail(r, t, m, c, limit, s, at.m, e, at.manual.value);
      RunOwn(s, t, c, 4, limit);
    }
  }

  lemma RunOwn(s: State, t: nat, c: Choice, n: nat, limit: nat)
    requires n > 0 && s.phase.Up? && t in s.threads && Run(Next(s, Step(t, c), limit), Own(t, c, n - 1), limit)
    ensures Run(s, Own(t, c, n), limit)
    ensures After(s, Own(t, c, n), limit) == After(Next(s, Step(t, c), limit), Own(t, c, n - 1), limit)
  {
    hide Next;
    assert Own(t, c, n)[1..] == Own(t, c, n - 1);
  }

  /** The insert itself: a row for the workflow, and the goroutine before its notify of the other object. */
  lemma StrandInsert(s: State, t: nat, m: nat, c: Choice, limit: nat)
    requires s.phase.Up? && t in s.threads && s.threads[t].delivery.Quiet? && s.threads[t].at.Insert?
    requires s.threads[t].at.wf in s.sh.db.workflows && m in s.sh.managed
      && s.sh.managed[m].workflow == s.threads[t].at.wf
    ensures var r := Next(s, Step(t, c), limit); var at := s.threads[t].at;
      && r.phase.Up? && r.sh.managed == s.sh.managed && HasQueued(r.sh.db, s.sh.managed[m].workflow)
      && r.threads == s.threads[t := Thread(NotifyInsert(at.m, s.sh.db.nextExecution, at.manual), Quiet)]
  {
    var r := Next(s, Step(t, c), limit);
    assert r.sh.db.queue[s.sh.db.nextQueue].workflow == s.sh.managed[m].workflow;
  }

  /** A goroutine that has left or waits for a report is about to notify nobody. */
  lemma Gone(s: State, f: State, t: nat, m: nat)
    requires f.threads == s.threads - {t} || exists e :: f.threads == s.threads[t := Thread(Await(e), Quiet)]
    ensures (Pending(f, m) ==> Pending(s, m)) && (ManualPending(f, m) ==> ManualPending(s, m))
  {
    if u :| u in f.threads && NotifyDue(f.threads[u].at, m) {
      assert u in s.threads && NotifyDue(s.threads[u].at, m);
    }
    if u :| u in f.threads && ManualDue(f.threads[u].at, m) {
      assert u in s.threads && ManualDue(s.threads[u].at, m);
    }
  }

  /** A trigger's enqueue after its insert: one notify, and it is gone. */
  lemma {:induction false} TriggerTail(r: State, t: nat, m: nat, c: Choice, limit: nat, s: State, x: nat, e: nat)
    requires r.phase.Up? && Idle(s, m) && x != m && t in s.threads && s.threads[t].at.Insert?
    requires r.sh.managed == s.sh.managed && HasQueued(r.sh.db, s.sh.managed[m].workflow)
    requires r.threads == s.threads[t := Thread(NotifyInsert(x, e, None), Quiet)]
    ensures Run(r, Own(t, c, 1), limit) && LostWakeup(After(r, Own(t, c, 1), limit), m)
  {
    var f := Next(r, Step(t, c), limit);
    assert f == r.(sh := WithToken(r.sh, x, true), threads := r.threads - {t});
    assert f.threads == s.threads - {t};
    assert m in f.sh.managed && f.sh.managed[m] == s.sh.managed[m] && f.sh.db == r.sh.db;
    assert !s.sh.managed[m].token;
    hide Next, Run, After, Own, Idle, LostWakeup, HasQueued, WithToken;
    NoneOwn(f, t, c, limit);
    RunOwn(r, t, c, 1, limit);
    StaysIdle(s, f, t, m);
  }

  /** One step of an enqueue that goes on. */
  lemma EnqueueGoesOn(s: State, t: nat, at: Pc, c: Choice, limit: nat, sh: Shared, next: Pc)
    requires s.phase.Up? && t in s.threads && s.threads[t] == Thread(at, Quiet) && InEnqueue(at)
    requires EnqueueStep(s.sh, at, t, c, limit) == Goto(sh, next)
    ensures Next(s, Step(t, c), limit) == s.(sh := sh, threads := s.threads[t := Thread(next, Quiet)])
  {
    hide EnqueueStep;
  }

  /** The three steps of a manual execution after its insert. */
  lemma {:induction false} ManualRun(r: State, t: nat, c: Choice, limit: nat, x: nat, e: nat, y: nat)
    requires r.phase.Up? && t in r.threads && r.threads[t] == Thread(NotifyInsert(x, e, Some(y)), Quiet)
    ensures Run(r, Own(t, c, 3), limit)
    ensures After(r, Own(t, c, 3), limit)
         == r.(sh := WithToken(WithWaiter(WithToken(r.sh, x, true), e), y, true),
           threads := r.threads[t := Thread(Await(e), Quiet)])
  {
    var sh1 := WithToken(r.sh, x, true);
    var sh2 := WithWaiter(sh1, e);
    var sh3 := WithToken(sh2, y, true);
    var r1 := r.(sh := sh1, threads := r.threads[t := Thread(Register(e, y), Quiet)]);
    var r2 := r.(sh := sh2, threads := r.threads[t := Thread(NotifyManual(e, y), Quiet)]);
    var r3 := r.(sh := sh3, threads := r.threads[t := Thread(Await(e), Quiet)]);
    hide Next, WithToken, Run, After, Own;
    EnqueueGoesOn(r, t, NotifyInsert(x, e, Some(y)), c, limit, sh1, Register(e, y));
    EnqueueGoesOn(r1, t, Register(e, y), c, limit, sh2, NotifyManual(e, y));
    EnqueueGoesOn(r2, t, NotifyManual(e, y), c, limit, sh3, Await(e));
    hide EnqueueStep;
    assert r2.threads == r1.threads[t := Thread(NotifyManual(e, y), Quiet)];
    assert r3.threads == r2.threads[t := Thread(Await(e), Quiet)];
    NoneOwn(r3, t, c, limit);
    RunOwn(r2, t, c, 1, limit);
    RunOwn(r1, t, c, 2, limit);
    RunOwn(r, t, c, 3, limit);
  }

  lemma {:induction false} NoneOwn(s: State, t: nat, c: Choice, limit: nat)
    ensures Run(s, Own(t, c, 0), limit) && After(s, Own(t, c, 0), limit) == s
  {
  }

  /** Past its notifies the goroutine has set the tokens of the two objects, and of no other. */
  lemma TwoTokens(sh: Shared, x: nat, e: nat, y: nat, m: nat)
    requires m in sh.managed && m != x
    ensures var r := WithToken(WithWaiter(WithToken(sh, x, true), e), y, true);
      r.db == sh.db && m in r.managed && r.managed[m] == if y == m then sh.managed[m].(token := true) else sh.managed[m]
  {
  }

  /** Whether the idle object stays asleep on its row depends on its token alone. */
  lemma StaysIdle(s: State, f: State, t: nat, m: nat)
    requires Idle(s, m) && t in s.threads && s.threads[t].at.Insert?
    requires f.threads == s.threads - {t} || exists e :: f.threads == s.threads[t := Thread(Await(e), Quiet)]
    requires m in f.sh.managed && f.sh.managed[m] == s.sh.managed[m].(token := f.sh.managed[m].token)
    requires HasQueued(f.sh.db, s.sh.managed[m].workflow)
    ensures LostWakeup(f, m) <==> !f.sh.managed[m].token
  {
    Gone(s, f, t, m);
    hide Pending, ManualPending, HasQueued;
  }

  lemma {:induction false} ManualTail(r: State, t: nat, m: nat, c: Choice, limit: nat, s: State, x: nat, e: nat, y: nat)
    requires r.phase.Up? && Idle(s, m) && x != m && t in s.threads && s.threads[t].at.Insert?
    requires r.sh.managed == s.sh.managed && HasQueued(r.sh.db, s.sh.managed[m].workflow)
    requires r.threads == s.threads[t := Thread(NotifyInsert(x, e, Some(y)), Quiet)]
    ensures Run(r, Own(t, c, 3), limit) && (LostWakeup(After(r, Own(t, c, 3), limit), m) <==> y != m)
  {
    ManualRun(r, t, c, limit, x, e, y);
    TwoTokens(r.sh, x, e, y, m);
    var f := After(r, Own(t, c, 3), limit);
    assert f.threads == s.threads[t := Thread(Await(e), Quiet)];
    assert !s.sh.managed[m].token;
    hide Run, After, Own, HasQueued, Idle, LostWakeup, WithToken, WithWaiter;
    StaysIdle(s, f, t, m);
  }
}
