/** Runs in which the clock does not go back: the times of every row are in order, and every worker claims in the
    order of insertion. */
module Clocks {
  import opened Base
  import opened Reports
  import opened Tables
  import opened Retention
  import opened Protocol
  import opened ClaimSafety
  import opened Wakeups
  import opened SoleWorkers

  /** The clock reading an action may take. */
  function Reading(a: Action): Option<Time> {
    match a
    case Step(_, c) => Some(c.now)
    case BootRepair(now, _) => Some(now)
    case _ => None
  }

  function Later(a: Action, from: Time): Time {
    if Reading(a).Some? then Reading(a).value else from
  }

  /** The readings of the run start at `from` and never go back. */
  predicate Forward(actions: seq<Action>, from: Time)
    decreases |actions|
  {
    actions != [] ==> from <= Later(actions[0], from) && Forward(actions[1..], Later(actions[0], from))
  }

  function Last(actions: seq<Action>, from: Time): Time
    decreases |actions|
  {
    if actions == [] then from else Last(actions[1..], Later(actions[0], from))
  }

  // ---------------------------------------------------------------- the invariant

  /** Queued before started before finished, and none of it in the future. */
  predicate RowInOrder(x: Execution, now: Time) {
    && x.queuedAt <= now
    && (x.startedAt.Some? ==> x.queuedAt <= x.startedAt.value <= now)
    && (x.finishedAt.Some? ==> x.queuedAt <= x.finishedAt.value <= now)
    && (x.startedAt.Some? && x.finishedAt.Some? ==> x.startedAt.value <= x.finishedAt.value)
  }

  ghost predicate TimesInOrder(db: Db, now: Time) {
    && (forall e :: e in db.executions ==> RowInOrder(db.executions[e], now))
    && (forall q :: q in db.queue ==> q < db.nextQueue && db.queue[q].queuedAt <= now)
    && (forall p, q :: p in db.queue && q in db.queue && p < q ==> db.queue[p].queuedAt <= db.queue[q].queuedAt)
  }

  lemma LaterStill(db: Db, from: Time, now: Time)
    requires TimesInOrder(db, from) && from <= now
    ensures TimesInOrder(db, now)
  {
  }

  lemma CreateTimes(db: Db, wf: string, trigger: string, now: Time)
    requires TimesInOrder(db, now) && wf in db.workflows
    ensures TimesInOrder(Create(db, wf, trigger, now).value, now)
  {
  }

  lemma ClaimTimes(db: Db, q: nat, now: Time)
    requires TimesInOrder(db, now) && q in db.queue
    ensures TimesInOrder(Claim(db, q, now), now)
  {
  }

  lemma CompleteTimes(db: Db, e: nat, status: Status, report: Report, now: Time)
    requires TimesInOrder(db, now)
    ensures TimesInOrder(Complete(db, e, status, report, now), now)
  {
  }

  lemma CancelTimes(db: Db, wf: string, message: string, now: Time)
    requires TimesInOrder(db, now)
    ensures TimesInOrder(Cancel(db, wf, message, now), now)
  {
    hide QueuedOf;
  }

  /** Rows that are left and did not change. */
  ghost predicate Fewer(d: Db, r: Db) {
    && d.nextQueue == r.nextQueue
    && (forall e :: e in r.executions ==> e in d.executions && r.executions[e] == d.executions[e])
    && (forall q :: q in r.queue ==> q in d.queue && r.queue[q] == d.queue[q])
  }

  lemma FewerTimes(d: Db, r: Db, now: Time)
    requires TimesInOrder(d, now) && Fewer(d, r)
    ensures TimesInOrder(r, now)
  {
  }

  // ---------------------------------------------------------------- the steps

  lemma EnqueueTimes(sh: Shared, at: Pc, t: nat, c: Choice, limit: nat)
    requires InEnqueue(at) && TimesInOrder(sh.db, c.now)
    ensures TimesInOrder(EnqueueStep(sh, at, t, c, limit).sh.db, c.now)
  {
    hide TimesInOrder, Create, QueueOf, WithToken;
    if at.Insert? && at.wf in sh.db.workflows {
      CreateTimes(sh.db, at.wf, if at.manual.Some? then "manual" else "trigger", c.now);
    }
  }

  lemma WorkerTimes(sh: Shared, at: Pc, t: nat, c: Choice)
    requires InWorker(at) && TimesInOrder(sh.db, c.now)
    ensures TimesInOrder(WorkerStep(sh, at, t, c).sh.db, c.now)
  {
    WorkerTables(sh, at, t, c);
    hide TimesInOrder, WorkerStep, Claim, Complete, IsNext;
    if at.ClaimNext? && c.row in sh.db.queue {
      ClaimTimes(sh.db, c.row, c.now);
    } else if at.Record? {
      CompleteTimes(sh.db, at.e, at.report.status, at.report, c.now);
    }
  }

  lemma DropTimes(db: Db, wf: string, now: Time)
    requires TimesInOrder(db, now)
    ensures TimesInOrder(DeleteWorkflow(db, wf), now) && TimesInOrder(SetActive(db, wf, false), now)
  {
    FewerTimes(db, DeleteWorkflow(db, wf), now);
    FewerTimes(db, SetActive(db, wf, false), now);
    hide TimesInOrder;
  }

  lemma StopTimes(sh: Shared, at: Pc, c: Choice)
    requires InStop(at) && TimesInOrder(sh.db, c.now)
    ensures TimesInOrder(StopStep(sh, at, c).sh.db, c.now)
  {
    StopTables(sh, at, c);
    hide *;
    if (at.CancelAll? || at.MarkStopped?) && at.i < |at.ms| {
      CancelTimes(sh.db, WorkflowOf(sh, at.ms[at.i]), c.message, c.now);
      DropTimes(sh.db, WorkflowOf(sh, at.ms[at.i]), c.now);
    } else if at.DropWorkflow? {
      DropTimes(sh.db, at.wf, c.now);
    }
  }

  lemma StartTimes(sh: Shared, at: Pc, t: nat, n: nat, c: Choice)
    requires !InEnqueue(at) && !InWorker(at) && !InStop(at) && TimesInOrder(sh.db, c.now)
    ensures TimesInOrder(StartStep(sh, at, t, n, c).sh.db, c.now)
  {
    FewerTimes(sh.db, StartStep(sh, at, t, n, c).sh.db, c.now);
    hide TimesInOrder;
  }

  lemma ThreadTimes(s: State, t: nat, c: Choice, limit: nat)
    requires t in s.threads && TimesInOrder(s.sh.db, c.now)
    ensures TimesInOrder(ThreadStep(s.sh, s.threads[t], t, s.nextThread, c, limit).sh.db, c.now)
  {
    var th := s.threads[t];
    hide TimesInOrder, DeliveryStep, EnqueueStep, WorkerStep, StopStep, StartStep;
    if !th.delivery.Quiet? {
      DeliveryLeaves(s.sh, th, t);
    } else if InEnqueue(th.at) {
      EnqueueTimes(s.sh, th.at, t, c, limit);
    } else if InWorker(th.at) {
      WorkerTimes(s.sh, th.at, t, c);
    } else if InStop(th.at) {
      StopTimes(s.sh, th.at, c);
    } else {
      StartTimes(s.sh, th.at, t, s.nextThread, c);
    }
  }

  lemma RepairTimes(db: Db, e: nat, now: Time, message: string)
    requires TimesInOrder(db, now)
    ensures TimesInOrder(Repair(db, e, now, message), now)
  {
    if e in db.executions && db.executions[e].workflow in db.workflows {
      CompleteTimes(db, e, Error, StaleReport(db.workflows[db.executions[e].workflow], message), now);
    }
    hide TimesInOrder;
  }

  lemma OutsideTimes(s: State, a: Action, limit: nat, now: Time)
    requires Enabled(s, a) && !a.Step? && !a.BootRepair? && TimesInOrder(s.sh.db, now)
    ensures TimesInOrder(Next(s, a, limit).sh.db, now)
  {
    assert Fewer(s.sh.db, Next(s, a, limit).sh.db) by {
      hide OlderIds, OverflowIds, StaleIds, Elements, NoDup, MayStart;
    }
    hide Next;
    FewerTimes(s.sh.db, Next(s, a, limit).sh.db, now);
  }

  lemma NextTimes(s: State, a: Action, limit: nat, from: Time)
    requires Enabled(s, a) && TimesInOrder(s.sh.db, from) && from <= Later(a, from)
    ensures TimesInOrder(Next(s, a, limit).sh.db, Later(a, from))
  {
    LaterStill(s.sh.db, from, Later(a, from));
    if a.Step? {
      StepIs(s, a.t, a.c, limit);
      hide TimesInOrder, Next, ThreadStep;
      ThreadTimes(s, a.t, a.c, limit);
    } else if a.BootRepair? {
      hide TimesInOrder, Repair;
      RepairTimes(s.sh.db, s.phase.left[0], a.now, a.message);
    } else {
      hide TimesInOrder, Next, Enabled;
      OutsideTimes(s, a, limit, from);
    }
  }

  lemma {:induction false} RunTimes(s: State, actions: seq<Action>, limit: nat, from: Time)
    requires Run(s, actions, limit) && Forward(actions, from) && TimesInOrder(s.sh.db, from)
    ensures TimesInOrder(After(s, actions, limit).sh.db, Last(actions, from))
    decreases |actions|
  {
    hide TimesInOrder, Next, Enabled;
    if actions != [] {
      NextTimes(s, actions[0], limit, from);
      RunTimes(Next(s, actions[0], limit), actions[1..], limit, Later(actions[0], from));
    }
  }

  // ---------------------------------------------------------------- theorems

  /** While the clock does not go back, every row was queued before it started and started before it finished. */
  lemma {:induction false} TimesStayInOrder(s: State, actions: seq<Action>, limit: nat, from: Time, e: nat)
    requires Init(s) && Run(s, actions, limit) && Forward(actions, from)
      && e in After(s, actions, limit).sh.db.executions
    ensures var x := After(s, actions, limit).sh.db.executions[e];
      && (x.startedAt.Some? ==> x.queuedAt <= x.startedAt.value)
      && (x.finishedAt.Some? ==> x.queuedAt <= x.finishedAt.value <= Last(actions, from))
      && (x.startedAt.Some? && x.finishedAt.Some? ==> x.startedAt.value <= x.finishedAt.value)
  {
    assert TimesInOrder(s.sh.db, from);
    RunTimes(s, actions, limit, from);
    hide Run, After, Forward, Last;
  }

  /** And every worker claims in the order of insertion: no older row of its workflow is left behind. */
  lemma {:induction false} ClaimsAreFirstIn(s: State, actions: seq<Action>, limit: nat, from: Time, wf: string,
      q: nat, p: nat)
    requires Init(s) && Run(s, actions, limit) && Forward(actions, from)
    requires var db := After(s, actions, limit).sh.db; IsNext(db, wf, q) && p in db.queue && db.queue[p].workflow == wf
    ensures q <= p
  {
    assert TimesInOrder(s.sh.db, from);
    RunTimes(s, actions, limit, from);
    hide Run, After, Forward, Last;
  }
}
