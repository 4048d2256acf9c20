/** What a stop, a deletion and the repair at boot do when they are left alone, told by columns and flags. */
module Stopping {
  import opened Base
  import opened Reports
  import opened Tables
  import opened Retention
  import opened Stores
  import opened Protocol
  import opened ClaimSafety
  import opened Waiters
  import opened Wakeups
  import opened Reaching
  import opened Alone

  // ---------------------------------------------------------------- a stop

  /** The report a cancelled execution ends with. */
  function StopReport(w: Workflow, message: string): Report {
    Report(w.name, w.version, Error, 0, 0, [ReportError("generic", "", 0, message, "")])
  }

  /** The object is closed for good and out of the workflow map. */
  ghost predicate ShutDown(sh: Shared, r: Shared, wf: string, m: nat) {
    && m in sh.managed && r.managed == sh.managed[m := sh.managed[m].(accepting := false, stopped := true)]
    && r.registered == sh.registered - {wf}
  }

  /** Every waiter of a cancelled execution got its report and was let go; no other was touched. */
  ghost predicate CancelledHeard(sh: Shared, r: Shared, wf: string, message: string) {
    && (forall e :: e in r.waiters <==> e in sh.waiters && !WasQueued(sh.db, wf, e))
    && r.channels.Keys == sh.channels.Keys
    && forall e :: e in sh.channels ==>
         if e in sh.waiters && WasQueued(sh.db, wf, e)
         then wf in sh.db.workflows && r.channels[e] == Channel([StopReport(sh.db.workflows[wf], message)], 0, 1)
         else r.channels[e] == sh.channels[e]
  }

  /** The row says stopped, and the workflow's queued executions have ended. */
  ghost predicate RowStopped(before: Db, after: Db, wf: string, message: string, now: Time) {
    && CancelledNow(before, after.(workflows := before.workflows), wf, message, now)
    && after.workflows == if wf in before.workflows
                          then before.workflows[wf := Workflow(before.workflows[wf].name,
                            before.workflows[wf].version, false)]
                          else before.workflows
  }

  /** Workflow, executions and queue rows are gone, and nothing else. */
  ghost predicate RowsGone(before: Db, after: Db, wf: string) {
    && after.workflows == before.workflows - {wf}
    && (forall e :: e in after.executions <==> e in before.executions && before.executions[e].workflow != wf)
    && (forall e :: e in after.executions ==> after.executions[e] == before.executions[e])
    && (forall q :: q in after.queue <==> q in before.queue && before.queue[q].workflow != wf)
    && (forall q :: q in after.queue ==> after.queue[q] == before.queue[q])
  }

  lemma {:induction false} Listed(ids: set<nat>) returns (r: seq<nat>)
    ensures NoDup(r) && Elements(r) == ids
    decreases |ids|
  {
    r := [];
    if ids != {} {
      var e :| e in ids;
      r := Listed(ids - {e});
      NoDupAppend(r, e);
      r := r + [e];
    }
  }

  lemma StopMove(s0: State, s: State, t: nat, c: Choice, pc: Pc, sh: Shared, next: Pc, limit: nat)
    requires s.phase.Up? && Leads(s0, At(s, t, pc), t, limit) && InStop(pc) && StopStep(s.sh, pc, c) == Goto(sh, next)
    ensures Leads(s0, At(s.(sh := sh), t, next), t, limit)
  {
    hide Leads, StopStep;
    Move(s0, s, t, c, pc, sh, next, limit);
  }

  /** setAccepting(false) and the wait for an object that nobody uses. */
  lemma CloseAlone(s0: State, b: State, t: nat, m: nat, drop: Option<string>, c: Choice, limit: nat)
    requires b.phase.Up? && t !in b.threads && m in b.sh.managed && !b.sh.managed[m].running && c.flag
    requires Leads(s0, At(b, t, StopGate([m], 0, drop)), t, limit)
    ensures Leads(s0, At(b.(sh := b.sh.(managed := b.sh.managed[m := b.sh.managed[m].(accepting := false)])), t,
                         CancelAll([m], 0, drop)), t, limit)
  {
    hide Leads;
    var sh1 := WithAccepting(b.sh, m, false);
    StopMove(s0, b, t, c, StopGate([m], 0, drop), sh1, StopGate([m], 1, drop), limit);
    StopMove(s0, b.(sh := sh1), t, c, StopGate([m], 1, drop), sh1, StopWait([m], 0, drop), limit);
    hide StopStep;
    WaitAlone(s0, b.(sh := sh1), t, m, drop, c, limit);
  }

  lemma WaitAlone(s0: State, b: State, t: nat, m: nat, drop: Option<string>, c: Choice, limit: nat)
    requires b.phase.Up? && t !in b.threads && m in b.sh.managed && !b.sh.managed[m].running && c.flag
    requires Leads(s0, At(b, t, StopWait([m], 0, drop)), t, limit)
    ensures Leads(s0, At(b, t, CancelAll([m], 0, drop)), t, limit)
  {
    hide Leads;
    StopMove(s0, b, t, c, StopWait([m], 0, drop), b.sh, StopWait([m], 1, drop), limit);
    StopMove(s0, b, t, c, StopWait([m], 1, drop), b.sh, CancelAll([m], 0, drop), limit);
  }

  ghost function Cancelled(sh: Shared, wf: string, message: string, now: Time): Shared {
    sh.(db := Cancel(sh.db, wf, message, now),
        log := sh.log.(cancelled := sh.log.cancelled + map e | e in QueuedOf(sh.db, wf) :: message))
  }

  /** CancelQueuedExecutions and the publications that follow it. */
  lemma CancelAlone(s0: State, b: State, t: nat, ms: seq<nat>, i: nat, wf: string,
      drop: Option<string>, c: Choice, limit: nat) returns (r: State)
    requires b.phase.Up? && t !in b.threads && i < |ms| && ms[i] in b.sh.managed
      && b.sh.managed[ms[i]].workflow == wf
    requires Coupled(b.sh.db) && FreshWaiters(b.sh)
    requires Leads(s0, At(b, t, CancelAll(ms, i, drop)), t, limit)
    ensures Leads(s0, At(r, t, CloseStop(ms, i, drop)), t, limit) && r == b.(sh := r.sh)
    ensures r.sh.db == Cancel(b.sh.db, wf, c.message, c.now)
    ensures r.sh.managed == b.sh.managed && r.sh.registered == b.sh.registered
    ensures CancelledHeard(b.sh, r.sh, wf, c.message) && FreshWaiters(r.sh)
  {
    var ids := Listed(QueuedOf(b.sh.db, wf));
    CancelledMean(b.sh.db, wf, c.message, c.now);
    ElementsAre(ids);
    var b1 := b.(sh := Cancelled(b.sh, wf, c.message, c.now));
    hide Leads, Coupled, NoDup, Elements, Cancel, QueuedOf;
    Move(s0, b, t, c.(ids := ids), CancelAll(ms, i, drop), b1.sh, Inform(ms, i, ids, drop), limit);
    hide ThreadStep;
    CancelledReported(b.sh.db, b1.sh.db, wf, c.message, c.now, ids);
    r := InformAlone(s0, b1, t, ms, i, ids, drop, c, limit);
    AllHeard(b.sh, b1.sh, r.sh, wf, c.message, c.now, ids);
    hide CancelledHeard, HeardAll, FreshWaiters, CancelledNow;
  }

  lemma CancelledReported(before: Db, after: Db, wf: string, message: string, now: Time, ids: seq<nat>)
    requires Coupled(before) && CancelledNow(before, after, wf, message, now)
    requires forall e :: e in ids <==> WasQueued(before, wf, e)
    ensures forall e :: e in ids ==>
      e in after.executions && wf in before.workflows
      && after.executions[e].report == Some(StopReport(before.workflows[wf], message))
  {
    assert forall q :: q in before.queue ==> before.queue[q].execution in before.executions;
    hide Coupled;
  }

  lemma AllHeard(sh: Shared, mid: Shared, r: Shared, wf: string, message: string, now: Time, ids: seq<nat>)
    requires Coupled(sh.db) && CancelledNow(sh.db, mid.db, wf, message, now)
    requires mid.waiters == sh.waiters && mid.channels == sh.channels && HeardAll(mid.db, mid, r, ids)
    requires forall e :: e in ids <==> WasQueued(sh.db, wf, e)
    ensures CancelledHeard(sh, r, wf, message)
  {
    CancelledReported(sh.db, mid.db, wf, message, now, ids);
    ElementsAre(ids);
    hide Coupled, CancelledNow, WasQueued, Elements;
  }

  /** close(stopCh), SetWorkflowStatus and the delete from the workflow map. */
  lemma FinalizeAlone(s0: State, b: State, t: nat, ms: seq<nat>, i: nat, wf: string,
      drop: Option<string>, c: Choice, limit: nat)
    requires b.phase.Up? && t !in b.threads && i < |ms| && ms[i] in b.sh.managed
      && b.sh.managed[ms[i]].workflow == wf && !b.sh.managed[ms[i]].stopped
    requires Leads(s0, At(b, t, CloseStop(ms, i, drop)), t, limit)
    ensures Leads(s0, At(b.(sh := Finalized(b.sh, ms[i], wf)), t, CancelAll(ms, i + 1, drop)), t, limit)
  {
    hide Leads, SetActive;
    var sh1 := WithStopped(b.sh, ms[i]);
    StopMove(s0, b, t, c, CloseStop(ms, i, drop), sh1, MarkStopped(ms, i, drop), limit);
    hide StopStep;
    ForgetAlone(s0, b.(sh := sh1), t, ms, i, wf, drop, c, limit);
  }

  lemma ForgetAlone(s0: State, b: State, t: nat, ms: seq<nat>, i: nat, wf: string,
      drop: Option<string>, c: Choice, limit: nat)
    requires b.phase.Up? && t !in b.threads && i < |ms| && ms[i] in b.sh.managed
      && b.sh.managed[ms[i]].workflow == wf
    requires Leads(s0, At(b, t, MarkStopped(ms, i, drop)), t, limit)
    ensures Leads(s0, At(b.(sh := b.sh.(db := SetActive(b.sh.db, wf, false), registered := b.sh.registered - {wf})), t,
                         CancelAll(ms, i + 1, drop)), t, limit)
  {
    hide Leads, SetActive;
    var sh2 := b.sh.(db := SetActive(b.sh.db, wf, false));
    StopMove(s0, b, t, c, MarkStopped(ms, i, drop), sh2, Forget(ms, i, drop), limit);
    var sh3 := sh2.(registered := sh2.registered - {wf});
    StopMove(s0, b.(sh := sh2), t, c, Forget(ms, i, drop), sh3, CancelAll(ms, i + 1, drop), limit);
  }

  function Finalized(sh: Shared, m: nat, wf: string): Shared
    requires m in sh.managed
  {
    sh.(managed := sh.managed[m := sh.managed[m].(stopped := true)], db := SetActive(sh.db, wf, false),
        registered := sh.registered - {wf})
  }

  /** A stop of an idle workflow, left alone: its queued executions end with an error and are published, the object
      is closed and forgotten, and the row says stopped; a deletion then removes the workflow with all its rows. */
  lemma StopAlone(s: State, t: nat, m: nat, wf: string, drop: bool, c: Choice, limit: nat) returns (r: State)
    requires s.phase.Up? && t in s.threads && s.threads[t].delivery.Quiet?
    requires s.threads[t].at == StopGate([m], 0, if drop then Some(wf) else None)
    requires m in s.sh.managed && s.sh.managed[m].workflow == wf && !s.sh.managed[m].running && !s.sh.managed[m].stopped
    requires Coupled(s.sh.db) && FreshWaiters(s.sh) && c.flag
    ensures Leads(s, r, t, limit) && r.threads == s.threads - {t}
    ensures ShutDown(s.sh, r.sh, wf, m) && CancelledHeard(s.sh, r.sh, wf, c.message)
    ensures if drop then RowsGone(s.sh.db, r.sh.db, wf) else RowStopped(s.sh.db, r.sh.db, wf, c.message, c.now)
  {
    var b, d := Without(s, t), if drop then Some(wf) else None;
    BackIn(s, t, StopGate([m], 0, d), limit);
    hide Leads, Coupled, FreshWaiters, Cancel, SetActive, DeleteWorkflow, CancelledHeard, RowStopped,
      RowsGone, WasQueued;
    var b3 := StopsToEnd(s, b, t, m, wf, d, c, limit);
    StoppedMeans(s.sh.db, wf, c.message, c.now);
    hide ThreadStep;
    if drop {
      r := DropAlone(s, b3, t, m, wf, c, limit);
      HeardStays(s.sh, s.sh, b3.sh, r.sh, wf, c.message);
      GoneMeans(s.sh.db, wf, c.message, c.now);
    } else {
      EndAlone(s, b3, t, m, c, limit);
      r := b3;
    }
  }

  /** The stop up to its last step. */
  lemma StopsToEnd(s0: State, b: State, t: nat, m: nat, wf: string, d: Option<string>, c: Choice, limit: nat)
      returns (r: State)
    requires b.phase.Up? && t !in b.threads && Leads(s0, At(b, t, StopGate([m], 0, d)), t, limit)
    requires m in b.sh.managed && b.sh.managed[m].workflow == wf && !b.sh.managed[m].running && !b.sh.managed[m].stopped
    requires Coupled(b.sh.db) && FreshWaiters(b.sh) && c.flag
    ensures Leads(s0, At(r, t, CancelAll([m], 1, d)), t, limit) && r == b.(sh := r.sh)
    ensures ShutDown(b.sh, r.sh, wf, m) && CancelledHeard(b.sh, r.sh, wf, c.message)
    ensures r.sh.db == SetActive(Cancel(b.sh.db, wf, c.message, c.now), wf, false)
  {
    hide Leads, Coupled, FreshWaiters, Cancel, SetActive, CancelledHeard, ThreadStep;
    CloseAlone(s0, b, t, m, d, c, limit);
    var b1 := b.(sh := b.sh.(managed := b.sh.managed[m := b.sh.managed[m].(accepting := false)]));
    SameWaiters(b.sh, b1.sh);
    var b2 := CancelAlone(s0, b1, t, [m], 0, wf, d, c, limit);
    FinalizeAlone(s0, b2, t, [m], 0, wf, d, c, limit);
    r := b2.(sh := Finalized(b2.sh, m, wf));
    HeardStays(b.sh, b1.sh, b2.sh, r.sh, wf, c.message);
  }

  lemma SameWaiters(sh: Shared, r: Shared)
    requires FreshWaiters(sh) && r.waiters == sh.waiters && r.channels == sh.channels
    ensures FreshWaiters(r)
  {
  }

  lemma HeardStays(a: Shared, b: Shared, c: Shared, d: Shared, wf: string, message: string)
    requires CancelledHeard(b, c, wf, message) && a.db == b.db && a.waiters == b.waiters && a.channels == b.channels
    requires c.waiters == d.waiters && c.channels == d.channels
    ensures CancelledHeard(a, d, wf, message)
  {
    hide WasQueued;
  }

  lemma EndAlone(s0: State, b: State, t: nat, m: nat, c: Choice, limit: nat)
    requires b.phase.Up? && t !in b.threads && Leads(s0, At(b, t, CancelAll([m], 1, None)), t, limit)
    ensures Leads(s0, b, t, limit)
  {
    hide Leads;
    End(s0, b, t, c, CancelAll([m], 1, None), b.sh, limit);
  }

  lemma DropAlone(s0: State, b: State, t: nat, m: nat, wf: string, c: Choice, limit: nat) returns (r: State)
    requires b.phase.Up? && t !in b.threads && Leads(s0, At(b, t, CancelAll([m], 1, Some(wf))), t, limit)
    ensures Leads(s0, r, t, limit) && r == b.(sh := r.sh) && r.sh.db == DeleteWorkflow(b.sh.db, wf)
    ensures r.sh == b.sh.(db := r.sh.db, log := r.sh.log)
  {
    hide Leads, DeleteWorkflow, QueuedOf;
    Move(s0, b, t, c, CancelAll([m], 1, Some(wf)), b.sh, DropWorkflow(wf), limit);
    var sh := b.sh.(db := DeleteWorkflow(b.sh.db, wf),
      log := b.sh.log.(dropped := b.sh.log.dropped + QueuedOf(b.sh.db, wf)));
    End(s0, b, t, c, DropWorkflow(wf), sh, limit);
    r := b.(sh := sh);
  }

  lemma StoppedMeans(db: Db, wf: string, message: string, now: Time)
    requires Coupled(db)
    ensures RowStopped(db, SetActive(Cancel(db, wf, message, now), wf, false), wf, message, now)
  {
    CancelledMean(db, wf, message, now);
    var mid := Cancel(db, wf, message, now);
    hide Coupled, Cancel, CancelledNow;
    CancelKeepsWorkflows(db, wf, message, now);
    assert SetActive(mid, wf, false).(workflows := db.workflows) == mid;
  }

  lemma CancelKeepsWorkflows(db: Db, wf: string, message: string, now: Time)
    ensures Cancel(db, wf, message, now).workflows == db.workflows
  {
  }

  lemma GoneMeans(db: Db, wf: string, message: string, now: Time)
    requires Coupled(db)
    ensures RowsGone(db, DeleteWorkflow(SetActive(Cancel(db, wf, message, now), wf, false), wf), wf)
  {
    CancelledMean(db, wf, message, now);
    CancelKeepsWorkflows(db, wf, message, now);
    var mid := Cancel(db, wf, message, now);
    QueuedBelong(db, wf);
    hide Coupled, Cancel;
    DeletedMean(db, mid, SetActive(mid, wf, false), wf, message, now);
  }

  lemma QueuedBelong(db: Db, wf: string)
    requires Coupled(db)
    ensures forall e :: WasQueued(db, wf, e) ==> e in db.executions && db.executions[e].workflow == wf
    ensures forall q :: q in db.queue ==>
      db.queue[q].execution in db.executions && db.executions[db.queue[q].execution].workflow == db.queue[q].workflow
  {
  }

  lemma DeletedMean(db: Db, mid: Db, r: Db, wf: string, message: string, now: Time)
    requires CancelledNow(db, mid, wf, message, now) && r == mid.(workflows := r.workflows)
    requires r.workflows - {wf} == db.workflows - {wf}
    requires forall e :: WasQueued(db, wf, e) ==> e in db.executions && db.executions[e].workflow == wf
    requires forall q :: q in db.queue ==>
      db.queue[q].execution in db.executions && db.executions[db.queue[q].execution].workflow == db.queue[q].workflow
    ensures RowsGone(db, DeleteWorkflow(r, wf), wf)
  {
    hide WasQueued;
  }

  /** A stop that times out in its wait, left alone: all its objects accept again and are notified, and everything
      else is as it was. */
  lemma GiveUpAlone(s: State, t: nat, ms: seq<nat>, i: nat, drop: Option<string>, c: Choice, limit: nat)
      returns (r: State)
    requires s.phase.Up? && t in s.threads && s.threads[t] == Thread(StopWait(ms, i, drop), Quiet)
      && i < |ms| && !c.flag
    ensures Leads(s, r, t, limit) && r.threads == s.threads - {t} && OpenedAgain(s.sh, r.sh, ms)
  {
    var b := Without(s, t);
    BackIn(s, t, StopWait(ms, i, drop), limit);
    hide Leads, OpenedAgain;
    StopMove(s, b, t, c, StopWait(ms, i, drop), b.sh, Reopen(ms, 0), limit);
    r := ReopenAlone(s, b, t, ms, 0, c, limit);
    assert ms[0..] == ms;
  }

  // ---------------------------------------------------------------- the boot

  lemma RepairIs(db: Db, done: set<nat>, e: nat, message: string, clock: nat -> Time)
    requires Coupled(Repaired(db, done, message, clock)) && e in StaleIds(db) && e !in done
    ensures Repair(Repaired(db, done, message, clock), e, clock(e), message) == Repaired(db, done + {e}, message, clock)
    ensures Coupled(Repaired(db, done + {e}, message, clock))
  {
    RepairStep(db, done, e, message, clock);
    hide Coupled, Repaired;
  }

  function Booting(s: State, left: seq<nat>, db: Db): State {
    s.(phase := Repairing(left), sh := s.sh.(db := db))
  }

  lemma {:induction false} BootLoop(s: State, ids: seq<nat>, i: nat, message: string, clock: nat -> Time, limit: nat)
    requires NoDup(ids) && Elements(ids) == StaleIds(s.sh.db) && i <= |ids|
    requires Coupled(Repaired(s.sh.db, Elements(ids[..i]), message, clock))
    requires Reaches(s, Booting(s, ids[i..], Repaired(s.sh.db, Elements(ids[..i]), message, clock)), limit)
    ensures Reaches(s, Booting(s, [], Repaired(s.sh.db, StaleIds(s.sh.db), message, clock)), limit)
    decreases |ids| - i
  {
    hide Reaches, Coupled, Repaired, StaleIds;
    if i == |ids| {
      assert ids[..i] == ids && ids[i..] == [];
    } else {
      var e, done := ids[i], Elements(ids[..i]);
      NoDupTake(ids, i);
      assert e in Elements(ids);
      RepairIs(s.sh.db, done, e, message, clock);
      var a := Booting(s, ids[i..], Repaired(s.sh.db, done, message, clock));
      ReachesStep(s, a, BootRepair(clock(e), message), limit);
      assert ids[i..][1..] == ids[i + 1..] && ids[i..][0] == e;
      hide Repair, NoDup;
      BootLoop(s, ids, i + 1, message, clock, limit);
    }
  }

  /** The boot after a crash: exactly the rows left running end with an error, each at its own reading, nothing else
      in the tables changes, and the daemon is up. */
  lemma BootAlone(s: State, message: string, clock: nat -> Time, limit: nat) returns (r: State)
    requires s.phase.Down? && Coupled(s.sh.db)
    ensures Reaches(s, r, limit) && r.phase.Up? && r == s.(phase := Up, sh := s.sh.(db := r.sh.db))
    ensures RepairedNow(s.sh.db, r.sh.db, message, clock)
  {
    var ids := Listed(StaleIds(s.sh.db));
    RepairedMean(s.sh.db, message, clock);
    NoneRepaired(s.sh.db, message, clock);
    assert ids[..0] == [] && ids[0..] == ids && Elements<nat>([]) == {};
    hide Reaches, Coupled, Repaired, RepairedNow;
    ReachesItself(s, limit);
    ReachesStep(s, s, BootList(ids), limit);
    BootLoop(s, ids, 0, message, clock, limit);
    var db := Repaired(s.sh.db, StaleIds(s.sh.db), message, clock);
    ReachesStep(s, Booting(s, [], db), BootDone, limit);
    r := s.(phase := Up, sh := s.sh.(db := db));
  }

  lemma NoneRepaired(db: Db, message: string, clock: nat -> Time)
    ensures Repaired(db, {}, message, clock) == db
  {
    assert Repaired(db, {}, message, clock).executions == db.executions;
  }
}
