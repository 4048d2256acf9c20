/** What every step of the daemon keeps about claims: no execution is claimed twice, a finished one
    never changes again, and a running one belongs to exactly one live worker. */
module ClaimSafety {
  import opened Base
  import opened Reports
  import opened Tables
  import opened Retention
  import opened Protocol

  /** The execution a worker has claimed and not yet completed. */
  function Holds(at: Pc): Option<nat> {
    match at
    case SetRunning(_, e) => Some(e)
    case Execute(_, e) => Some(e)
    case Record(_, e, _) => Some(e)
    case _ => None
  }

  ghost predicate HoldersKnown(s: State) {
    forall t :: t in s.threads ==>
      && t < s.nextThread
      && (Holds(s.threads[t].at).Some? ==>
            Holds(s.threads[t].at).value in s.sh.log.holder && s.sh.log.holder[Holds(s.threads[t].at).value] == t)
      && (s.threads[t].at.Record? ==> s.threads[t].at.report.status.Finished())
  }

  ghost predicate HoldersRun(s: State) {
    forall e :: e in s.sh.log.holder ==>
      && s.sh.log.holder[e] in s.threads && Holds(s.threads[s.sh.log.holder[e]].at) == Some(e)
      && e in s.sh.log.claims && e < s.sh.db.nextExecution
      && (e in s.sh.db.executions ==> s.sh.db.executions[e].status == Running)
  }

  ghost predicate ClaimedOnce(sh: Shared) {
    forall e :: e in sh.log.claims ==> sh.log.claims[e] == 1 && e < sh.db.nextExecution && e !in QueuedIds(sh.db)
  }

  ghost predicate PhaseSound(s: State) {
    match s.phase
    case Up => forall e :: e in s.sh.db.executions && s.sh.db.executions[e].status == Running ==> e in s.sh.log.holder
    case Down => s.threads == map[] && s.sh.log.holder == map[]
    case Repairing(left) =>
      && s.threads == map[] && s.sh.log.holder == map[] && NoDup(left)
      && forall e :: e in Elements(left) <==> e in s.sh.db.executions && s.sh.db.executions[e].status == Running
  }

  ghost predicate ClaimInv(s: State) {
    Coupled(s.sh.db) && HoldersKnown(s) && HoldersRun(s) && ClaimedOnce(s.sh) && PhaseSound(s)
  }

  // ---------------------------------------------------------------- steps that neither claim nor complete

  /** The goroutine neither takes nor gives up a claim. */
  ghost predicate NeutralMove(sh: Shared, th: Thread, o: Outcome) {
    && o.sh.log.holder == sh.log.holder && o.sh.log.claims == sh.log.claims
    && (o.spawn.Some? ==> Holds(o.spawn.value).None?)
    && (o.next.None? ==> Holds(th.at).None?)
    && (o.next.Some? ==>
          && Holds(o.next.value.at) == Holds(th.at)
          && (o.next.value.at.Record? ==> o.next.value.at == th.at || o.next.value.at.report.status.Finished()))
  }

  /** No running row appears or disappears otherwise than by deletion, and no old execution is queued again. */
  ghost predicate NeutralDb(d: Db, r: Db) {
    && Coupled(r) && Ages(d, r)
    && (forall e :: e in QueuedIds(r) ==> e in QueuedIds(d) || e >= d.nextExecution)
    && (forall e :: e in r.executions && e in d.executions ==>
       (r.executions[e].status == Running <==> d.executions[e].status == Running))
    && (forall e :: e in r.executions && e !in d.executions ==>
       e >= d.nextExecution && r.executions[e].status != Running)
  }

  lemma FrameKnown(s: State, t: nat, o: Outcome)
    requires HoldersKnown(s) && t in s.threads && NeutralMove(s.sh, s.threads[t], o)
    ensures HoldersKnown(Apply(s, t, o))
  {
  }

  lemma HeldRowsStay(s: State, d: Db)
    requires HoldersRun(s) && NeutralDb(s.sh.db, d)
    ensures forall e :: e in s.sh.log.holder ==>
      e < d.nextExecution && (e in d.executions ==> d.executions[e].status == Running)
  {
    hide Coupled, QueuedIds;
  }

  lemma FrameRun(s: State, t: nat, o: Outcome)
    requires HoldersRun(s) && s.nextThread !in s.threads && t in s.threads && NeutralMove(s.sh, s.threads[t], o)
    requires forall e :: e in s.sh.log.holder ==>
      e < o.sh.db.nextExecution && (e in o.sh.db.executions ==> o.sh.db.executions[e].status == Running)
    ensures HoldersRun(Apply(s, t, o))
  {
    var r := Apply(s, t, o);
    forall e | e in r.sh.log.holder
      ensures r.sh.log.holder[e] in r.threads && Holds(r.threads[r.sh.log.holder[e]].at) == Some(e)
    {
      var u := s.sh.log.holder[e];
      assert u in s.threads && Holds(s.threads[u].at) == Some(e);
    }
  }

  lemma FrameOnce(sh: Shared, r: Shared)
    requires ClaimedOnce(sh) && r.log.claims == sh.log.claims && NeutralDb(sh.db, r.db)
    ensures ClaimedOnce(r)
  {
    hide Coupled, QueuedIds;
  }

  lemma Frame(s: State, t: nat, o: Outcome)
    requires ClaimInv(s) && s.phase.Up? && t in s.threads
    requires NeutralMove(s.sh, s.threads[t], o) && NeutralDb(s.sh.db, o.sh.db)
    ensures ClaimInv(Apply(s, t, o))
  {
    hide Coupled, QueuedIds;
    FreshThread(s);
    FrameKnown(s, t, o);
    HeldRowsStay(s, o.sh.db);
    FrameRun(s, t, o);
    FrameOnce(s.sh, o.sh);
    hide HoldersKnown, HoldersRun, ClaimedOnce;
  }

  lemma FreshThread(s: State)
    requires HoldersKnown(s)
    ensures s.nextThread !in s.threads
  {
  }

  lemma DbSame(d: Db)
    requires Coupled(d)
    ensures NeutralDb(d, d)
  {
  }

  lemma CreateNeutral(d: Db, wf: string, trigger: string, now: Time)
    requires Coupled(d) && wf in d.workflows
    ensures NeutralDb(d, Create(d, wf, trigger, now).value)
  {
    CreateCoupled(d, wf, trigger, now);
  }

  lemma CancelNeutral(d: Db, wf: string, message: string, now: Time)
    requires Coupled(d)
    ensures NeutralDb(d, Cancel(d, wf, message, now))
  {
    CancelCoupled(d, wf, message, now);
  }

  lemma DeleteNeutral(d: Db, wf: string)
    requires Coupled(d)
    ensures NeutralDb(d, DeleteWorkflow(d, wf))
  {
    DeleteWorkflowCoupled(d, wf);
  }

  lemma WorkflowWriteNeutral(d: Db, r: Db)
    requires Coupled(d) && r == d.(workflows := r.workflows) && d.workflows.Keys <= r.workflows.Keys
    ensures NeutralDb(d, r)
  {
    WorkflowWriteCoupled(d, r);
  }

  lemma EnqueueMove(sh: Shared, at: Pc, t: nat, c: Choice, limit: nat)
    requires InEnqueue(at)
    ensures NeutralMove(sh, Thread(at, Quiet), EnqueueStep(sh, at, t, c, limit))
  {
  }

  lemma EnqueueDb(sh: Shared, at: Pc, t: nat, c: Choice, limit: nat)
    requires Coupled(sh.db) && InEnqueue(at)
    ensures NeutralDb(sh.db, EnqueueStep(sh, at, t, c, limit).sh.db)
  {
    hide Coupled, NeutralDb, Create;
    DbSame(sh.db);
    if at.Insert? && at.wf in sh.db.workflows {
      CreateNeutral(sh.db, at.wf, if at.manual.Some? then "manual" else "trigger", c.now);
    }
  }

  lemma WorkerIdle(sh: Shared, at: Pc, t: nat, c: Choice)
    requires InWorker(at) && !at.Record? && (at.ClaimNext? ==> !IsNext(sh.db, WorkflowOf(sh, at.m), c.row))
    ensures NeutralMove(sh, Thread(at, Quiet), WorkerStep(sh, at, t, c))
    ensures WorkerStep(sh, at, t, c).sh.db == sh.db
  {
  }

  lemma StopMove(sh: Shared, at: Pc, c: Choice)
    requires InStop(at)
    ensures NeutralMove(sh, Thread(at, Quiet), StopStep(sh, at, c))
  {
    hide NoDup, Elements, QueuedOf, Cancel, DeleteWorkflow;
  }

  /** What a stop writes to the tables. */
  lemma StopTables(sh: Shared, at: Pc, c: Choice)
    requires InStop(at)
    ensures StopStep(sh, at, c).sh.db ==
      if at.CancelAll? && at.i < |at.ms| && NoDup(c.ids)
        && Elements(c.ids) == QueuedOf(sh.db, WorkflowOf(sh, at.ms[at.i]))
      then Cancel(sh.db, WorkflowOf(sh, at.ms[at.i]), c.message, c.now)
      else if at.DropWorkflow? then DeleteWorkflow(sh.db, at.wf)
      else if at.MarkStopped? && at.i < |at.ms| then SetActive(sh.db, WorkflowOf(sh, at.ms[at.i]), false)
      else sh.db
  {
    hide NoDup, Elements, QueuedOf, Cancel, DeleteWorkflow, SetActive, WithToken, WithAccepting,
      WithStopped, WorkflowOf;
  }

  lemma SetActiveNeutral(d: Db, wf: string, active: bool)
    requires Coupled(d)
    ensures NeutralDb(d, SetActive(d, wf, active))
  {
    hide Coupled, NeutralDb;
    WorkflowWriteNeutral(d, SetActive(d, wf, active));
  }

  lemma StopDb(sh: Shared, at: Pc, c: Choice)
    requires Coupled(sh.db) && InStop(at)
    ensures NeutralDb(sh.db, StopStep(sh, at, c).sh.db)
  {
    StopTables(sh, at, c);
    hide *;
    DbSame(sh.db);
    if at.CancelAll? && at.i < |at.ms| {
      CancelNeutral(sh.db, WorkflowOf(sh, at.ms[at.i]), c.message, c.now);
    } else if at.DropWorkflow? {
      DeleteNeutral(sh.db, at.wf);
    } else if at.MarkStopped? && at.i < |at.ms| {
      SetActiveNeutral(sh.db, WorkflowOf(sh, at.ms[at.i]), false);
    }
  }

  lemma StartMove(sh: Shared, at: Pc, t: nat, spawned: nat, c: Choice)
    requires !InEnqueue(at) && !InWorker(at) && !InStop(at)
    ensures NeutralMove(sh, Thread(at, Quiet), StartStep(sh, at, t, spawned, c))
  {
  }

  lemma StartDb(sh: Shared, at: Pc, t: nat, spawned: nat, c: Choice)
    requires Coupled(sh.db) && !InEnqueue(at) && !InWorker(at) && !InStop(at)
    ensures NeutralDb(sh.db, StartStep(sh, at, t, spawned, c).sh.db)
  {
    hide Coupled, NeutralDb;
    WorkflowWriteNeutral(sh.db, StartStep(sh, at, t, spawned, c).sh.db);
  }

  lemma DeliveryMove(sh: Shared, th: Thread, t: nat)
    ensures NeutralMove(sh, th, DeliveryStep(sh, th, t))
    ensures DeliveryStep(sh, th, t).sh.db == sh.db
  {
  }

  /** Every step but a claim and a completion is neutral. */
  lemma ThreadNeutral(sh: Shared, th: Thread, t: nat, spawned: nat, c: Choice, limit: nat)
    requires Coupled(sh.db)
    requires th.delivery.Quiet? ==>
      !th.at.Record? && (th.at.ClaimNext? ==> !IsNext(sh.db, WorkflowOf(sh, th.at.m), c.row))
    ensures NeutralMove(sh, th, ThreadStep(sh, th, t, spawned, c, limit))
    ensures NeutralDb(sh.db, ThreadStep(sh, th, t, spawned, c, limit).sh.db)
  {
    hide Coupled, NeutralDb, NeutralMove, IsNext, DeliveryStep, EnqueueStep, WorkerStep, StopStep, StartStep;
    DbSame(sh.db);
    if !th.delivery.Quiet? {
      DeliveryMove(sh, th, t);
    } else {
      assert th == Thread(th.at, Quiet);
      if InEnqueue(th.at) {
        EnqueueMove(sh, th.at, t, c, limit);
        EnqueueDb(sh, th.at, t, c, limit);
      } else if InWorker(th.at) {
        WorkerIdle(sh, th.at, t, c);
      } else if InStop(th.at) {
        StopMove(sh, th.at, c);
        StopDb(sh, th.at, c);
      } else {
        StartMove(sh, th.at, t, spawned, c);
        StartDb(sh, th.at, t, spawned, c);
      }
    }
  }

  // ---------------------------------------------------------------- the claim and the completion

  lemma ClaimedRow(d: Db, q: nat)
    requires Coupled(d) && q in d.queue
    ensures var e := d.queue[q].execution;
      e in QueuedIds(d) && e in d.executions && d.executions[e].status == Queued && e < d.nextExecution
  {
  }

  /** The claim puts execution `e` into the hands of worker `t`. */
  function Taken(s: State, t: nat, m: nat, e: nat, r: Db): State {
    Apply(s, t, Goto(s.sh.(db := r,
      log := s.sh.log.(claims := s.sh.log.claims + multiset{e}, holder := s.sh.log.holder[e := t])),
                     SetRunning(m, e)))
  }

  lemma TakenHolders(s: State, t: nat, m: nat, e: nat, r: Db, now: Time)
    requires HoldersKnown(s) && HoldersRun(s) && t in s.threads && Holds(s.threads[t].at).None?
    requires e !in s.sh.log.holder && e < s.sh.db.nextExecution == r.nextExecution && e in s.sh.db.executions
    requires r.executions == MarkRunning(s.sh.db.executions, e, now)
    ensures HoldersKnown(Taken(s, t, m, e, r)) && HoldersRun(Taken(s, t, m, e, r))
  {
    assert Taken(s, t, m, e, r).threads == s.threads[t := Thread(SetRunning(m, e), Quiet)];
  }

  lemma TakenOnce(s: State, t: nat, m: nat, e: nat, r: Db)
    requires ClaimedOnce(s.sh) && e !in s.sh.log.claims && e < s.sh.db.nextExecution == r.nextExecution
    requires QueuedIds(r) == QueuedIds(s.sh.db) - {e}
    ensures ClaimedOnce(Taken(s, t, m, e, r).sh)
  {
    hide QueuedIds;
  }

  lemma ClaimKeepsParts(s: State, t: nat, m: nat, e: nat, r: Db, now: Time)
    requires ClaimInv(s) && s.phase.Up? && t in s.threads && Holds(s.threads[t].at).None?
    requires e in QueuedIds(s.sh.db) && e in s.sh.db.executions && s.sh.db.executions[e].status == Queued
      && e < s.sh.db.nextExecution
    requires Coupled(r) && QueuedIds(r) == QueuedIds(s.sh.db) - {e} && r.nextExecution == s.sh.db.nextExecution
    requires r.executions == MarkRunning(s.sh.db.executions, e, now)
    ensures ClaimInv(Taken(s, t, m, e, r))
  {
    hide Coupled, QueuedIds;
    Unclaimed(s, e);
    TakenHolders(s, t, m, e, r, now);
    TakenOnce(s, t, m, e, r);
    hide HoldersKnown, HoldersRun, ClaimedOnce;
  }

  lemma Unclaimed(s: State, e: nat)
    requires HoldersRun(s) && ClaimedOnce(s.sh) && e in QueuedIds(s.sh.db)
    ensures e !in s.sh.log.claims && e !in s.sh.log.holder
  {
    hide QueuedIds;
  }

  lemma ClaimKeeps(s: State, t: nat, c: Choice)
    requires ClaimInv(s) && s.phase.Up? && t in s.threads && s.threads[t].at.ClaimNext?
    requires IsNext(s.sh.db, WorkflowOf(s.sh, s.threads[t].at.m), c.row)
    ensures ClaimInv(Apply(s, t, WorkerStep(s.sh, s.threads[t].at, t, c)))
  {
    hide HoldersKnown, HoldersRun, ClaimedOnce, PhaseSound, Coupled, QueuedIds;
    var e := s.sh.db.queue[c.row].execution;
    ClaimCoupled(s.sh.db, c.row, c.now);
    ClaimedRow(s.sh.db, c.row);
    ClaimKeepsParts(s, t, s.threads[t].at.m, e, Claim(s.sh.db, c.row, c.now), c.now);
  }

  /** The completion: only the holder gets here. */
  lemma GiveUp(s: State, t: nat, next: Thread, e: nat, status: Status, report: Report, now: Time)
    requires ClaimInv(s) && s.phase.Up? && t in s.threads && Holds(s.threads[t].at) == Some(e) && Holds(next.at).None?
    requires status.Finished()
    requires Coupled(Complete(s.sh.db, e, status, report, now))
    requires QueuedIds(Complete(s.sh.db, e, status, report, now)) == QueuedIds(s.sh.db)
    ensures ClaimInv(Apply(s, t, Outcome(s.sh.(db := Complete(s.sh.db, e, status, report, now),
                                               log := s.sh.log.(holder := s.sh.log.holder - {e})), Some(next), None)))
  {
    hide Coupled, QueuedIds;
  }

  /** Whoever holds an execution finds its row still running, or gone. */
  lemma HolderRow(s: State, t: nat, e: nat)
    requires HoldersKnown(s) && HoldersRun(s) && t in s.threads && Holds(s.threads[t].at) == Some(e)
    ensures e in s.sh.db.executions ==> s.sh.db.executions[e].status == Running
    ensures s.threads[t].at.Record? ==> s.threads[t].at.report.status.Finished()
  {
  }

  lemma RecordKeeps(s: State, t: nat, c: Choice)
    requires ClaimInv(s) && s.phase.Up? && t in s.threads && s.threads[t].at.Record?
    ensures ClaimInv(Apply(s, t, WorkerStep(s.sh, s.threads[t].at, t, c)))
  {
    hide Coupled, HoldersKnown, HoldersRun, ClaimedOnce, PhaseSound, QueuedIds;
    var at := s.threads[t].at;
    HolderRow(s, t, at.e);
    CompleteCoupled(s.sh.db, at.e, at.report.status, at.report, c.now);
    GiveUp(s, t, Thread(ClearRunning(at.m), Take(at.e, at.report)), at.e, at.report.status, at.report, c.now);
  }

  lemma ThreadKeeps(s: State, t: nat, c: Choice, limit: nat)
    requires ClaimInv(s) && s.phase.Up? && t in s.threads
    ensures ClaimInv(Apply(s, t, ThreadStep(s.sh, s.threads[t], t, s.nextThread, c, limit)))
  {
    hide Coupled, HoldersKnown, HoldersRun, ClaimedOnce, PhaseSound, IsNext,
      NeutralMove, NeutralDb, DeliveryStep, EnqueueStep, WorkerStep, StopStep, StartStep;
    var th := s.threads[t];
    if th.delivery.Quiet? && th.at.ClaimNext? && IsNext(s.sh.db, WorkflowOf(s.sh, th.at.m), c.row) {
      ClaimKeeps(s, t, c);
    } else if th.delivery.Quiet? && th.at.Record? {
      RecordKeeps(s, t, c);
    } else {
      ThreadNeutral(s.sh, th, t, s.nextThread, c, limit);
      Frame(s, t, ThreadStep(s.sh, th, t, s.nextThread, c, limit));
    }
  }

  // ---------------------------------------------------------------- everything else

  lemma RequestKeeps(s: State, pc: Pc)
    requires ClaimInv(s) && s.phase.Up? && MayStart(s.sh, pc)
    ensures ClaimInv(Begun(s, pc))
  {
    hide Coupled;
  }

  lemma RetentionKeeps(s: State, gone: set<nat>)
    requires ClaimInv(s) && s.phase.Up?
    requires forall e :: e in gone && e in s.sh.db.executions ==> s.sh.db.executions[e].status.Finished()
    ensures ClaimInv(WithDb(s, DeleteExecutions(s.sh.db, gone)))
  {
    hide Coupled;
    DeleteFinishedCoupled(s.sh.db, gone);
  }

  lemma BootListKeeps(s: State, ids: seq<nat>)
    requires ClaimInv(s) && Enabled(s, BootList(ids))
    ensures ClaimInv(s.(phase := Repairing(ids)))
  {
    assert forall e :: e in StaleIds(s.sh.db) <==> e in s.sh.db.executions && s.sh.db.executions[e].status == Running;
  }

  lemma FirstOfRest(left: seq<nat>)
    requires NoDup(left) && left != []
    ensures left[0] in Elements(left) && Elements(left[1..]) == Elements(left) - {left[0]} && NoDup(left[1..])
  {
    assert left == [left[0]] + left[1..];
  }

  lemma RepairCoupled(d: Db, e: nat, now: Time, message: string)
    requires Coupled(d) && e in d.executions && d.executions[e].status == Running
    ensures Coupled(Repair(d, e, now, message)) && QueuedIds(Repair(d, e, now, message)) == QueuedIds(d)
    ensures Repair(d, e, now, message).executions.Keys == d.executions.Keys
    ensures forall x :: x in d.executions && x != e ==> Repair(d, e, now, message).executions[x] == d.executions[x]
    ensures Repair(d, e, now, message).executions[e].status == Error
  {
    CompleteCoupled(d, e, Error, StaleReport(d.workflows[d.executions[e].workflow], message), now);
  }

  lemma BootRepairKeeps(s: State, now: Time, message: string)
    requires ClaimInv(s) && s.phase.Repairing? && s.phase.left != []
    ensures ClaimInv(WithDb(s.(phase := Repairing(s.phase.left[1..])), Repair(s.sh.db, s.phase.left[0], now, message)))
  {
    hide Coupled, Elements, NoDup;
    FirstOfRest(s.phase.left);
    RepairCoupled(s.sh.db, s.phase.left[0], now, message);
  }

  /** Every step of the daemon keeps the invariant. */
  lemma NextKeepsClaims(s: State, a: Action, limit: nat)
    requires ClaimInv(s) && Enabled(s, a)
    ensures ClaimInv(Next(s, a, limit))
  {
    hide ThreadStep, Coupled, OverflowIds, DeleteExecutions;
    match a
    case Step(t, c) => ThreadKeeps(s, t, c, limit);
    case Request(pc) => RequestKeeps(s, pc);
    case RetainAge(cutoff) => RetentionKeeps(s, OlderIds(s.sh.db.executions, cutoff));
    case RetainCount(wf, keep) =>
      OverflowSize(s.sh.db.executions, wf, keep);
      RetentionKeeps(s, OverflowIds(s.sh.db.executions, wf, keep));
    case Crash =>
    case BootList(ids) => BootListKeeps(s, ids);
    case BootRepair(now, message) => BootRepairKeeps(s, now, message);
    case BootDone =>
  }

  lemma InitClaims(s: State)
    requires Init(s)
    ensures ClaimInv(s)
  {
  }

  // ---------------------------------------------------------------- finished rows are final

  lemma ClaimAges(d: Db, q: nat, now: Time)
    requires Coupled(d) && q in d.queue
    ensures Ages(d, Claim(d, q, now))
  {
  }

  lemma CompleteAges(d: Db, e: nat, status: Status, report: Report, now: Time)
    requires e in d.executions ==> d.executions[e].status == Running
    ensures Ages(d, Complete(d, e, status, report, now))
  {
  }

  lemma ThreadAges(s: State, t: nat, c: Choice, limit: nat)
    requires ClaimInv(s) && t in s.threads
    ensures Ages(s.sh.db, ThreadStep(s.sh, s.threads[t], t, s.nextThread, c, limit).sh.db)
  {
    hide Coupled, ClaimedOnce, PhaseSound, IsNext, Ages, HasQueued, HoldersKnown, HoldersRun,
      NeutralMove, DeliveryStep, EnqueueStep, StopStep, StartStep;
    var th := s.threads[t];
    if th.delivery.Quiet? && th.at.ClaimNext? && IsNext(s.sh.db, WorkflowOf(s.sh, th.at.m), c.row) {
      NextIsQueued(s.sh.db, WorkflowOf(s.sh, th.at.m), c.row);
      ClaimAges(s.sh.db, c.row, c.now);
    } else if th.delivery.Quiet? && th.at.Record? {
      HolderRow(s, t, th.at.e);
      CompleteAges(s.sh.db, th.at.e, th.at.report.status, th.at.report, c.now);
    } else {
      ThreadNeutral(s.sh, th, t, s.nextThread, c, limit);
    }
  }

  lemma NextIsQueued(d: Db, wf: string, q: nat)
    requires IsNext(d, wf, q)
    ensures q in d.queue && HasQueued(d, wf)
  {
  }

  lemma NextAges(s: State, a: Action, limit: nat)
    requires ClaimInv(s) && Enabled(s, a)
    ensures Ages(s.sh.db, Next(s, a, limit).sh.db)
  {
    hide ThreadStep, Coupled, OverflowIds;
    match a
    case Step(t, c) => ThreadAges(s, t, c, limit);
    case RetainCount(wf, keep) => OverflowSize(s.sh.db.executions, wf, keep);
    case BootRepair(now, message) =>
      assert s.phase.left[0] in Elements(s.phase.left);
    case _ =>
  }

  // ---------------------------------------------------------------- theorems about every run

  lemma {:induction false} RunKeepsClaims(s: State, actions: seq<Action>, limit: nat)
    requires ClaimInv(s) && Run(s, actions, limit)
    ensures ClaimInv(After(s, actions, limit)) && Ages(s.sh.db, After(s, actions, limit).sh.db)
    decreases |actions|
  {
    hide ClaimInv, Next, Ages;
    if actions != [] {
      var r := Next(s, actions[0], limit);
      NextKeepsClaims(s, actions[0], limit);
      NextAges(s, actions[0], limit);
      RunKeepsClaims(r, actions[1..], limit);
      AgesTransitive(s.sh.db, r.sh.db, After(r, actions[1..], limit).sh.db);
    } else {
      AgesSelf(s);
    }
  }

  lemma AgesSelf(s: State)
    ensures Ages(s.sh.db, s.sh.db)
  {
  }

  /** In every run, crashes and reboots included, every execution is claimed at most once. */
  lemma {:induction false} AtMostOnce(s: State, actions: seq<Action>, limit: nat, e: nat)
    requires Init(s) && Run(s, actions, limit)
    ensures After(s, actions, limit).sh.log.claims[e] <= 1
  {
    InitClaims(s);
    RunKeepsClaims(s, actions, limit);
    hide Run, After;
  }

  /** Once an execution is ok, empty or error, every later state has the very same row or none at all,
      and an id without a row never gets one again. */
  lemma {:induction false} FinishedForever(s: State, before: seq<Action>, after: seq<Action>, limit: nat, e: nat)
    requires Init(s) && Run(s, before, limit) && Run(After(s, before, limit), after, limit)
    ensures var mid := After(s, before, limit).sh.db; var end := After(After(s, before, limit), after, limit).sh.db;
      && (e in mid.executions && mid.executions[e].status.Finished() && e in end.executions ==>
         end.executions[e] == mid.executions[e])
      && (e < mid.nextExecution && e !in mid.executions ==> e !in end.executions)
  {
    InitClaims(s);
    RunKeepsClaims(s, before, limit);
    RunKeepsClaims(After(s, before, limit), after, limit);
    hide Run, After;
  }

  /** In every reachable state the tables are coupled, and while the daemon is up an execution is running
      iff exactly one live worker has claimed it and not yet completed it, or its row was deleted meanwhile. */
  lemma {:induction false} RunningIffHeld(s: State, actions: seq<Action>, limit: nat, e: nat)
    requires Init(s) && Run(s, actions, limit)
    ensures var r := After(s, actions, limit);
      && Coupled(r.sh.db)
      && (r.phase.Up? && e in r.sh.db.executions ==>
            (r.sh.db.executions[e].status == Running <==>
             exists t :: t in r.threads && Holds(r.threads[t].at) == Some(e)))
      && (forall t, u ::
            t in r.threads && u in r.threads && Holds(r.threads[t].at) == Some(e) == Holds(r.threads[u].at) ==> t == u)
  {
    InitClaims(s);
    RunKeepsClaims(s, actions, limit);
    hide Run, After, Coupled;
  }
}
