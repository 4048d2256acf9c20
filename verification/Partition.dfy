/** Where every execution ever created has gone: claimed, cancelled, still queued, or queued in a
    workflow that was deleted.  No step reads this history; the partition is what the steps amount to. */
module Partition {
  import opened Base
  import opened Reports
  import opened Tables
  import opened Retention
  import opened Protocol
  import opened ClaimSafety

  ghost predicate Accounted(sh: Shared) {
    forall e: nat ::
      && (e < sh.db.nextExecution <==>
            e in sh.log.claims || e in sh.log.cancelled || e in sh.log.dropped || e in QueuedIds(sh.db))
      && !(e in sh.log.claims && (e in sh.log.cancelled || e in sh.log.dropped || e in QueuedIds(sh.db)))
      && !(e in sh.log.cancelled && (e in sh.log.dropped || e in QueuedIds(sh.db)))
      && !(e in sh.log.dropped && e in QueuedIds(sh.db))
  }

  /** The row CancelQueuedExecutions leaves: an error with the given message, never started. */
  predicate CancelledRow(x: Execution, message: string) {
    && x.status == Error && x.startedAt.None?
    && x.report.Some? && |x.report.value.errors| == 1 && x.report.value.errors[0].message == message
  }

  ghost predicate CancelledRows(sh: Shared) {
    forall e :: e in sh.log.cancelled && e in sh.db.executions ==>
      CancelledRow(sh.db.executions[e], sh.log.cancelled[e])
  }

  /** The step moved no execution from one part to another. */
  ghost predicate NoTransfer(sh: Shared, r: Shared) {
    && r.log.claims == sh.log.claims && r.log.cancelled == sh.log.cancelled && r.log.dropped == sh.log.dropped
    && r.db.nextExecution == sh.db.nextExecution && QueuedIds(r.db) == QueuedIds(sh.db)
  }

  lemma NoTransferKeeps(sh: Shared, r: Shared)
    requires Accounted(sh) && NoTransfer(sh, r)
    ensures Accounted(r)
  {
    hide QueuedIds;
  }

  lemma AgesKeepsCancelled(sh: Shared, r: Shared)
    requires CancelledRows(sh) && Ages(sh.db, r.db) && r.log.cancelled == sh.log.cancelled
    requires forall e :: e in sh.log.cancelled ==> e < sh.db.nextExecution
    ensures CancelledRows(r)
  {
  }

  lemma EnqueueStays(sh: Shared, at: Pc, t: nat, c: Choice, limit: nat)
    requires InEnqueue(at) && (at.Insert? ==> at.wf !in sh.db.workflows)
    ensures NoTransfer(sh, EnqueueStep(sh, at, t, c, limit).sh)
  {
    hide QueuedIds, QueueOf, WithToken, Create;
  }

  lemma EnqueueTransfer(sh: Shared, at: Pc, t: nat, c: Choice, limit: nat)
    requires Coupled(sh.db) && Accounted(sh) && InEnqueue(at)
    ensures Accounted(EnqueueStep(sh, at, t, c, limit).sh)
    ensures EnqueueStep(sh, at, t, c, limit).sh.log.cancelled == sh.log.cancelled
  {
    hide Coupled, QueuedIds, QueueOf, Accounted, WithToken;
    var r := EnqueueStep(sh, at, t, c, limit).sh;
    if at.Insert? && at.wf in sh.db.workflows {
      CreateCoupled(sh.db, at.wf, if at.manual.Some? then "manual" else "trigger", c.now);
      CreateAccounted(sh, r);
    } else {
      hide EnqueueStep;
      EnqueueStays(sh, at, t, c, limit);
      NoTransferKeeps(sh, r);
    }
  }

  lemma CreateAccounted(sh: Shared, r: Shared)
    requires Accounted(sh) && r.log.claims == sh.log.claims && r.log.cancelled == sh.log.cancelled
      && r.log.dropped == sh.log.dropped
    requires r.db.nextExecution == sh.db.nextExecution + 1
      && QueuedIds(r.db) == QueuedIds(sh.db) + {sh.db.nextExecution}
    ensures Accounted(r)
  {
    hide QueuedIds;
  }

  lemma ClaimAccounted(sh: Shared, r: Shared, e: nat)
    requires Accounted(sh) && e in QueuedIds(sh.db)
    requires r.log.claims == sh.log.claims + multiset{e} && r.log.cancelled == sh.log.cancelled
      && r.log.dropped == sh.log.dropped
    requires r.db.nextExecution == sh.db.nextExecution && QueuedIds(r.db) == QueuedIds(sh.db) - {e}
    ensures Accounted(r)
  {
    hide QueuedIds;
  }

  lemma WorkerStays(sh: Shared, at: Pc, t: nat, c: Choice)
    requires InWorker(at) && !at.Record? && (at.ClaimNext? ==> !IsNext(sh.db, WorkflowOf(sh, at.m), c.row))
    ensures NoTransfer(sh, WorkerStep(sh, at, t, c).sh)
  {
    hide QueuedIds, IsNext, HasQueued, WithToken, WithRunning, WorkflowOf;
  }

  lemma WorkerTransfer(sh: Shared, at: Pc, t: nat, c: Choice)
    requires Coupled(sh.db) && Accounted(sh) && InWorker(at)
    requires at.Record? ==>
      at.report.status.Finished() && (at.e in sh.db.executions ==> sh.db.executions[at.e].status == Running)
    ensures Accounted(WorkerStep(sh, at, t, c).sh)
    ensures WorkerStep(sh, at, t, c).sh.log.cancelled == sh.log.cancelled
  {
    hide Coupled, QueuedIds, Accounted;
    var r := WorkerStep(sh, at, t, c).sh;
    if at.ClaimNext? && IsNext(sh.db, WorkflowOf(sh, at.m), c.row) {
      NextIsQueued(sh.db, WorkflowOf(sh, at.m), c.row);
      ClaimCoupled(sh.db, c.row, c.now);
      ClaimedRow(sh.db, c.row);
      ClaimAccounted(sh, r, sh.db.queue[c.row].execution);
    } else if at.Record? {
      CompleteCoupled(sh.db, at.e, at.report.status, at.report, c.now);
      NoTransferKeeps(sh, r);
    } else {
      WorkerStays(sh, at, t, c);
      hide WorkerStep;
      NoTransferKeeps(sh, r);
    }
  }

  lemma CancelAccounted(sh: Shared, r: Shared, wf: string, message: string)
    requires Accounted(sh) && r.log.claims == sh.log.claims && r.log.dropped == sh.log.dropped
    requires r.log.cancelled == sh.log.cancelled + map e | e in QueuedOf(sh.db, wf) :: message
    requires r.db.nextExecution == sh.db.nextExecution && QueuedIds(r.db) == QueuedIds(sh.db) - QueuedOf(sh.db, wf)
    ensures Accounted(r)
  {
    assert QueuedOf(sh.db, wf) <= QueuedIds(sh.db);
    hide QueuedIds, QueuedOf;
  }

  lemma CancelRows(sh: Shared, r: Shared, wf: string, message: string, now: Time)
    requires Coupled(sh.db) && CancelledRows(sh) && Accounted(sh)
    requires r.db == Cancel(sh.db, wf, message, now)
    requires r.log.cancelled == sh.log.cancelled + map e | e in QueuedOf(sh.db, wf) :: message
    ensures CancelledRows(r)
  {
    forall e | e in r.log.cancelled && e in r.db.executions
      ensures CancelledRow(r.db.executions[e], r.log.cancelled[e]) {
      if e in QueuedOf(sh.db, wf) {
        var q :| q in sh.db.queue && sh.db.queue[q].workflow == wf && sh.db.queue[q].execution == e;
        assert RowShape(sh.db.executions[e]);
      } else {
        assert r.db.executions[e] == sh.db.executions[e];
      }
    }
  }

  lemma DropAccounted(sh: Shared, r: Shared, wf: string)
    requires Accounted(sh) && r.log.claims == sh.log.claims && r.log.cancelled == sh.log.cancelled
    requires r.log.dropped == sh.log.dropped + QueuedOf(sh.db, wf)
    requires r.db.nextExecution == sh.db.nextExecution && QueuedIds(r.db) == QueuedIds(sh.db) - QueuedOf(sh.db, wf)
    ensures Accounted(r)
  {
    assert QueuedOf(sh.db, wf) <= QueuedIds(sh.db);
    hide QueuedIds, QueuedOf;
  }

  /** A stop is about to run CancelQueuedExecutions, and the choice of row order is a possible one. */
  ghost predicate Cancels(sh: Shared, at: Pc, c: Choice) {
    at.CancelAll? && at.i < |at.ms| && NoDup(c.ids) && Elements(c.ids) == QueuedOf(sh.db, WorkflowOf(sh, at.ms[at.i]))
  }

  lemma StopTransfer(sh: Shared, at: Pc, c: Choice)
    requires Coupled(sh.db) && Accounted(sh) && CancelledRows(sh) && InStop(at)
    ensures Accounted(StopStep(sh, at, c).sh)
    ensures !Cancels(sh, at, c) ==> StopStep(sh, at, c).sh.log.cancelled == sh.log.cancelled
    ensures Cancels(sh, at, c) ==> CancelledRows(StopStep(sh, at, c).sh)
  {
    hide Coupled, QueuedIds, Accounted, CancelledRows, QueuedOf, Cancel, DeleteWorkflow, NoDup, Elements;
    var r := StopStep(sh, at, c).sh;
    if Cancels(sh, at, c) {
      var wf := WorkflowOf(sh, at.ms[at.i]);
      CancelCoupled(sh.db, wf, c.message, c.now);
      CancelNext(sh.db, wf, c.message, c.now);
      CancelAccounted(sh, r, wf, c.message);
      CancelRows(sh, r, wf, c.message, c.now);
    } else if at.DropWorkflow? {
      DeleteWorkflowCoupled(sh.db, at.wf);
      DeleteNext(sh.db, at.wf);
      DropAccounted(sh, r, at.wf);
    } else {
      WorkflowWriteCoupled(sh.db, r.db);
      NoTransferKeeps(sh, r);
    }
  }

  lemma CancelNext(d: Db, wf: string, message: string, now: Time)
    ensures Cancel(d, wf, message, now).nextExecution == d.nextExecution
  {
  }

  lemma DeleteNext(d: Db, wf: string)
    ensures DeleteWorkflow(d, wf).nextExecution == d.nextExecution
  {
  }

  lemma StartTransfer(sh: Shared, at: Pc, t: nat, spawned: nat, c: Choice)
    requires Coupled(sh.db) && Accounted(sh) && !InEnqueue(at) && !InWorker(at) && !InStop(at)
    ensures Accounted(StartStep(sh, at, t, spawned, c).sh)
    ensures StartStep(sh, at, t, spawned, c).sh.log.cancelled == sh.log.cancelled
  {
    hide Coupled, QueuedIds, Accounted;
    var r := StartStep(sh, at, t, spawned, c).sh;
    WorkflowWriteCoupled(sh.db, r.db);
    NoTransferKeeps(sh, r);
  }

  lemma DeliveryTransfer(sh: Shared, th: Thread, t: nat)
    requires Accounted(sh)
    ensures Accounted(DeliveryStep(sh, th, t).sh)
    ensures DeliveryStep(sh, th, t).sh.log.cancelled == sh.log.cancelled
  {
    hide QueuedIds, Accounted;
    NoTransferKeeps(sh, DeliveryStep(sh, th, t).sh);
  }

  ghost predicate PartitionInv(s: State) {
    ClaimInv(s) && Accounted(s.sh) && CancelledRows(s.sh)
  }

  lemma CancelledOld(sh: Shared)
    requires Accounted(sh)
    ensures forall e :: e in sh.log.cancelled ==> e < sh.db.nextExecution
  {
    hide QueuedIds;
  }

  lemma ThreadAccounts(s: State, t: nat, c: Choice, limit: nat)
    requires PartitionInv(s) && s.phase.Up? && t in s.threads
    ensures Accounted(ThreadStep(s.sh, s.threads[t], t, s.nextThread, c, limit).sh)
    ensures CancelledRows(ThreadStep(s.sh, s.threads[t], t, s.nextThread, c, limit).sh)
  {
    hide Coupled, HoldersKnown, HoldersRun, ClaimedOnce, PhaseSound, Accounted, CancelledRows, Cancels, Ages,
      DeliveryStep, EnqueueStep, WorkerStep, StopStep, StartStep;
    var th := s.threads[t];
    var r := ThreadStep(s.sh, th, t, s.nextThread, c, limit).sh;
    if !th.delivery.Quiet? {
      DeliveryTransfer(s.sh, th, t);
    } else if InEnqueue(th.at) {
      EnqueueTransfer(s.sh, th.at, t, c, limit);
    } else if InWorker(th.at) {
      if th.at.Record? {
        HolderRow(s, t, th.at.e);
      }
      WorkerTransfer(s.sh, th.at, t, c);
    } else if InStop(th.at) {
      StopTransfer(s.sh, th.at, c);
    } else {
      StartTransfer(s.sh, th.at, t, s.nextThread, c);
    }
    if r.log.cancelled == s.sh.log.cancelled {
      ThreadAges(s, t, c, limit);
      CancelledOld(s.sh);
      AgesKeepsCancelled(s.sh, r);
    }
  }

  lemma NextAccounts(s: State, a: Action, limit: nat)
    requires PartitionInv(s) && Enabled(s, a)
    ensures PartitionInv(Next(s, a, limit))
  {
    hide Coupled, HoldersKnown, HoldersRun, ClaimedOnce, Accounted, CancelledRows, Ages, ThreadStep,
      OverflowIds, QueuedIds;
    NextKeepsClaims(s, a, limit);
    var r := Next(s, a, limit);
    if a.Step? {
      ThreadAccounts(s, a.t, a.c, limit);
    } else {
      NextAges(s, a, limit);
      OutsideKeepsQueue(s, a, limit);
      NoTransferKeeps(s.sh, r.sh);
      CancelledOld(s.sh);
      AgesKeepsCancelled(s.sh, r.sh);
    }
  }

  /** Requests, retention, crashes and the boot repair move no execution between the parts. */
  lemma OutsideKeepsQueue(s: State, a: Action, limit: nat)
    requires ClaimInv(s) && Enabled(s, a) && !a.Step?
    ensures NoTransfer(s.sh, Next(s, a, limit).sh)
  {
    hide Coupled, HoldersKnown, HoldersRun, ClaimedOnce, ThreadStep, OverflowIds, OlderIds, DeleteExecutions;
    match a
    case RetainAge(cutoff) => RetainQueue(s.sh.db, OlderIds(s.sh.db.executions, cutoff)) by {
      OlderFinished(s.sh.db.executions, cutoff);
    }
    case RetainCount(wf, keep) => RetainQueue(s.sh.db, OverflowIds(s.sh.db.executions, wf, keep)) by {
      OverflowSize(s.sh.db.executions, wf, keep);
    }
    case BootRepair(now, message) =>
      FirstOfRest(s.phase.left);
      RepairCoupled(s.sh.db, s.phase.left[0], now, message);
    case _ =>
  }

  lemma OlderFinished(executions: map<nat, Execution>, cutoff: Time)
    ensures forall e :: e in OlderIds(executions, cutoff) ==> e in executions && executions[e].status.Finished()
  {
  }

  lemma RetainQueue(d: Db, gone: set<nat>)
    requires Coupled(d) && forall e :: e in gone && e in d.executions ==> d.executions[e].status.Finished()
    ensures QueuedIds(DeleteExecutions(d, gone)) == QueuedIds(d)
    ensures DeleteExecutions(d, gone).nextExecution == d.nextExecution
  {
    DeleteFinishedCoupled(d, gone);
  }

  // ---------------------------------------------------------------- theorems

  lemma {:induction false} RunAccounts(s: State, actions: seq<Action>, limit: nat)
    requires PartitionInv(s) && Run(s, actions, limit)
    ensures PartitionInv(After(s, actions, limit))
    decreases |actions|
  {
    hide PartitionInv, Next;
    if actions != [] {
      NextAccounts(s, actions[0], limit);
      RunAccounts(Next(s, actions[0], limit), actions[1..], limit);
    }
  }

  lemma InitAccounts(s: State)
    requires Init(s)
    ensures PartitionInv(s)
  {
  }

  /** In every reachable state each execution ever created is in exactly one of the four parts. */
  lemma {:induction false} EveryExecutionAccounted(s: State, actions: seq<Action>, limit: nat, e: nat)
    requires Init(s) && Run(s, actions, limit)
    ensures var r := After(s, actions, limit).sh;
      (if e in r.log.claims then 1 else 0) + (if e in r.log.cancelled then 1 else 0)
      + (if e in r.log.dropped then 1 else 0) + (if e in QueuedIds(r.db) then 1 else 0)
      == if e < r.db.nextExecution then 1 else 0
  {
    InitAccounts(s);
    RunAccounts(s, actions, limit);
    hide Run, After, ClaimInv, QueuedIds, CancelledRows;
  }

  /** A cancelled execution is never run, before or after, and as long as its row exists it is an error
      with the message of the stop that cancelled it. */
  lemma {:induction false} CancelledNeverRuns(s: State, before: seq<Action>, after: seq<Action>, limit: nat, e: nat)
    requires Init(s) && Run(s, before, limit) && Run(After(s, before, limit), after, limit)
    requires e in After(s, before, limit).sh.log.cancelled
    ensures var r := After(After(s, before, limit), after, limit).sh;
      e !in r.log.claims && e in r.log.cancelled
      && (e in r.db.executions ==> CancelledRow(r.db.executions[e], r.log.cancelled[e]))
  {
    var mid := After(s, before, limit);
    InitAccounts(s);
    RunAccounts(s, before, limit);
    RunAccounts(mid, after, limit);
    CancelledStays(mid, after, limit, e);
    hide Run, After, ClaimInv, QueuedIds;
  }

  lemma {:induction false} CancelledStays(s: State, actions: seq<Action>, limit: nat, e: nat)
    requires Run(s, actions, limit) && e in s.sh.log.cancelled
    ensures e in After(s, actions, limit).sh.log.cancelled
    decreases |actions|
  {
    hide Next;
    if actions != [] {
      CancelledGrows(s, actions[0], limit, e);
      CancelledStays(Next(s, actions[0], limit), actions[1..], limit, e);
    }
  }

  lemma StopGrows(sh: Shared, at: Pc, c: Choice, e: nat)
    requires e in sh.log.cancelled
    ensures e in StopStep(sh, at, c).sh.log.cancelled
  {
    hide NoDup, Elements, QueuedOf, Cancel, DeleteWorkflow, SetActive, WithToken, WithAccepting,
      WithStopped, WorkflowOf;
  }

  lemma EnqueueGrows(sh: Shared, at: Pc, t: nat, c: Choice, limit: nat, e: nat)
    requires InEnqueue(at) && e in sh.log.cancelled
    ensures e in EnqueueStep(sh, at, t, c, limit).sh.log.cancelled
  {
    hide QueueOf, Create, WithToken;
  }

  lemma WorkerGrows(sh: Shared, at: Pc, t: nat, c: Choice, e: nat)
    requires InWorker(at) && e in sh.log.cancelled
    ensures e in WorkerStep(sh, at, t, c).sh.log.cancelled
  {
    hide IsNext, HasQueued, Claim, Complete, WithToken, WithRunning, WorkflowOf;
  }

  lemma StartGrows(sh: Shared, at: Pc, t: nat, spawned: nat, c: Choice, e: nat)
    requires e in sh.log.cancelled
    ensures e in StartStep(sh, at, t, spawned, c).sh.log.cancelled
  {
    hide UpsertWorkflow, WithToken, WorkflowOf;
  }

  lemma DeliveryGrows(sh: Shared, th: Thread, t: nat, e: nat)
    requires e in sh.log.cancelled
    ensures e in DeliveryStep(sh, th, t).sh.log.cancelled
  {
  }

  lemma CancelledGrows(s: State, a: Action, limit: nat, e: nat)
    requires Enabled(s, a) && e in s.sh.log.cancelled
    ensures e in Next(s, a, limit).sh.log.cancelled
  {
    hide EnqueueStep, WorkerStep, StopStep, StartStep, DeliveryStep, OverflowIds, OlderIds, DeleteExecutions, Repair;
    if a.Step? {
      var th := s.threads[a.t];
      StopGrows(s.sh, th.at, a.c, e);
      if InEnqueue(th.at) {
        EnqueueGrows(s.sh, th.at, a.t, a.c, limit, e);
      } else if InWorker(th.at) {
        WorkerGrows(s.sh, th.at, a.t, a.c, e);
      }
      StartGrows(s.sh, th.at, a.t, s.nextThread, a.c, e);
      DeliveryGrows(s.sh, th, a.t, e);
    }
  }
}
