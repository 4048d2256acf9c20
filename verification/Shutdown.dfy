/** What a shutdown does when it is left alone: a stop of every workflow of its list, one after the other. */
module Shutdown {
  import opened Base
  import opened Reports
  import opened Tables
  import opened Retention
  import opened Stores
  import opened Protocol
  import opened ClaimSafety
  import opened Waiters
  import opened Wakeups
  import opened Reaching
  import opened Alone
  import opened Stopping

  // ---------------------------------------------------------------- what it leaves behind

  /** The objects of the list are stopped; the others are as they were. */
  ghost predicate ObjectsStopped(before: map<nat, Managed>, after: map<nat, Managed>, ms: set<nat>) {
    && after.Keys == before.Keys
    && forall m :: m in before ==> after[m] == if m in ms then before[m].(stopped := true) else before[m]
  }

  ghost predicate Forgotten(before: map<string, nat>, after: map<string, nat>, wfs: set<string>) {
    after == map wf | wf in before && wf !in wfs :: before[wf]
  }

  /** The execution waits in the queue of one of the workflows. */
  predicate Hit(db: Db, wfs: set<string>, e: nat) {
    e in db.executions && db.executions[e].status == Queued && db.executions[e].workflow in wfs
  }

  /** Of these workflows the rows say stopped, the queues are empty, and what was queued has ended with an error. */
  ghost predicate RowsStopped(before: Db, after: Db, wfs: set<string>, message: string, now: Time) {
    && after == before.(workflows := after.workflows, queue := after.queue, executions := after.executions)
    && after.queue == (map q | q in before.queue && before.queue[q].workflow !in wfs :: before.queue[q])
    && after.workflows.Keys == before.workflows.Keys
    && (forall wf :: wf in before.workflows ==>
          var w := before.workflows[wf];
          after.workflows[wf] == Workflow(w.name, w.version, w.active && wf !in wfs))
    && after.executions.Keys == before.executions.Keys
    && forall e :: e in before.executions ==> EndedIf(before, after.executions[e], wfs, e, message, now)
  }

  ghost predicate EndedIf(before: Db, y: Execution, wfs: set<string>, e: nat, message: string, now: Time)
    requires e in before.executions
  {
    var x := before.executions[e];
    if Hit(before, wfs, e)
    then && x.workflow in before.workflows
         && y == Execution(x.workflow, x.trigger, Error, x.queuedAt, None, Some(now),
                           Some(StopReport(before.workflows[x.workflow], message)))
    else y == x
  }

  /** The waiters of the executions that ended got their reports and were let go; no other was touched. */
  ghost predicate WaitersTold(sh: Shared, r: Shared, wfs: set<string>, message: string) {
    && (forall e :: e in r.waiters <==> e in sh.waiters && !Hit(sh.db, wfs, e))
    && r.channels.Keys == sh.channels.Keys
    && forall e :: e in sh.channels ==> ToldIf(sh, r.channels[e], wfs, e, message)
  }

  ghost predicate ToldIf(sh: Shared, y: Channel, wfs: set<string>, e: nat, message: string)
    requires e in sh.channels
  {
    if e in sh.waiters && Hit(sh.db, wfs, e)
    then && sh.db.executions[e].workflow in sh.db.workflows
         && y == Channel([StopReport(sh.db.workflows[sh.db.executions[e].workflow], message)], 0, 1)
    else y == sh.channels[e]
  }

  ghost predicate AllStopped(sh: Shared, r: Shared, ms: set<nat>, wfs: set<string>, message: string, now: Time) {
    && ObjectsStopped(sh.managed, r.managed, ms) && Forgotten(sh.registered, r.registered, wfs)
    && RowsStopped(sh.db, r.db, wfs, message, now) && WaitersTold(sh, r, wfs, message)
  }

  // ---------------------------------------------------------------- none, one and more

  lemma NoneStopped(sh: Shared, message: string, now: Time)
    ensures AllStopped(sh, sh, {}, {}, message, now)
  {
  }

  lemma RowsJoin(a: Db, b: Db, c: Db, v: set<string>, w: set<string>, message: string, now: Time)
    requires RowsStopped(a, b, v, message, now) && RowsStopped(b, c, w, message, now) && v !! w
    ensures RowsStopped(a, c, v + w, message, now)
  {
    forall e | e in a.executions ensures EndedIf(a, c.executions[e], v + w, e, message, now) {
      assert EndedIf(a, b.executions[e], v, e, message, now) && EndedIf(b, c.executions[e], w, e, message, now);
    }
    hide EndedIf;
  }

  lemma HitNext(a: Db, b: Db, v: set<string>, w: set<string>, message: string, now: Time, e: nat)
    requires RowsStopped(a, b, v, message, now) && v !! w
    ensures Hit(b, w, e) <==> Hit(a, w, e)
    ensures Hit(a, v + w, e) <==> Hit(a, v, e) || Hit(a, w, e)
    ensures Hit(a, v, e) ==> !Hit(a, w, e)
    ensures Hit(a, w, e) ==> b.executions[e] == a.executions[e]
    ensures a.workflows.Keys == b.workflows.Keys
    ensures forall wf :: wf in w && wf in a.workflows ==>
      b.workflows[wf].name == a.workflows[wf].name && b.workflows[wf].version == a.workflows[wf].version
  {
    if e in a.executions {
      assert EndedIf(a, b.executions[e], v, e, message, now);
    }
  }

  lemma WaitersJoin(a: Shared, b: Shared, c: Shared, v: set<string>, w: set<string>, message: string, now: Time)
    requires RowsStopped(a.db, b.db, v, message, now) && v !! w
    requires WaitersTold(a, b, v, message) && WaitersTold(b, c, w, message)
    ensures WaitersTold(a, c, v + w, message)
  {
    forall e ensures e in c.waiters <==> e in a.waiters && !Hit(a.db, v + w, e) {
      HitNext(a.db, b.db, v, w, message, now, e);
      hide Hit;
    }
    forall e | e in a.channels ensures ToldIf(a, c.channels[e], v + w, e, message) {
      assert ToldIf(a, b.channels[e], v, e, message) && ToldIf(b, c.channels[e], w, e, message);
      HitNext(a.db, b.db, v, w, message, now, e);
      hide RowsStopped, WaitersTold;
    }
    hide ToldIf, RowsStopped, Hit;
  }

  lemma StoppedJoin(a: Shared, b: Shared, c: Shared, l: set<nat>, ms: set<nat>, v: set<string>, w: set<string>,
      message: string, now: Time)
    requires AllStopped(a, b, l, v, message, now) && AllStopped(b, c, ms, w, message, now) && v !! w
    ensures AllStopped(a, c, l + ms, v + w, message, now)
  {
    RowsJoin(a.db, b.db, c.db, v, w, message, now);
    WaitersJoin(a, b, c, v, w, message, now);
    hide RowsStopped, WaitersTold;
  }

  lemma HitIsQueued(db: Db, wf: string, e: nat)
    requires Coupled(db)
    ensures Hit(db, {wf}, e) <==> WasQueued(db, wf, e)
  {
    if Hit(db, {wf}, e) {
      assert HasRow(db, e);
    }
  }

  lemma RowsOfOne(db: Db, r: Db, wf: string, message: string, now: Time)
    requires Coupled(db) && RowStopped(db, r, wf, message, now)
    ensures RowsStopped(db, r, {wf}, message, now)
  {
    forall e ensures Hit(db, {wf}, e) <==> WasQueued(db, wf, e) { HitIsQueued(db, wf, e); }
    hide WasQueued;
    assert forall e :: Hit(db, {wf}, e) ==> db.executions[e].workflow == wf;
    hide Coupled, Hit;
    assert forall e :: e in db.executions ==> EndedIf(db, r.executions[e], {wf}, e, message, now);
    hide EndedIf;
  }

  lemma WaitersOfOne(sh: Shared, r: Shared, wf: string, message: string)
    requires Coupled(sh.db) && CancelledHeard(sh, r, wf, message)
    ensures WaitersTold(sh, r, {wf}, message)
  {
    forall e ensures Hit(sh.db, {wf}, e) <==> WasQueued(sh.db, wf, e) { HitIsQueued(sh.db, wf, e); }
    hide WasQueued, Coupled;
    assert forall e :: Hit(sh.db, {wf}, e) ==> sh.db.executions[e].workflow == wf;
    hide Hit;
  }

  // ---------------------------------------------------------------- the steps

  /** setAccepting(false) for the objects from `i` on. */
  ghost predicate Closing(before: map<nat, Managed>, after: map<nat, Managed>, ms: seq<nat>) {
    && after.Keys == before.Keys
    && forall m :: m in before ==> after[m] == if m in ms then before[m].(accepting := false) else before[m]
  }

  lemma NoneClosed(managed: map<nat, Managed>)
    ensures Closing(managed, managed, [])
  {
  }

  lemma CloseMore(sh: Shared, after: map<nat, Managed>, ms: seq<nat>)
    requires ms != [] && Closing(WithAccepting(sh, ms[0], false).managed, after, ms[1..])
    ensures Closing(sh.managed, after, ms)
  {
    assert forall m :: m in ms <==> m == ms[0] || m in ms[1..];
  }

  lemma {:induction false} GatesAlone(s0: State, b: State, t: nat, ms: seq<nat>, i: nat, drop: Option<string>,
      c: Choice, limit: nat) returns (r: State)
    requires b.phase.Up? && t !in b.threads && i <= |ms| && Leads(s0, At(b, t, StopGate(ms, i, drop)), t, limit)
    ensures Leads(s0, At(r, t, StopWait(ms, 0, drop)), t, limit) && r == b.(sh := b.sh.(managed := r.sh.managed))
    ensures Closing(b.sh.managed, r.sh.managed, ms[i..])
    decreases |ms| - i
  {
    hide Leads, WithAccepting, Closing;
    if i == |ms| {
      Stopping.StopMove(s0, b, t, c, StopGate(ms, i, drop), b.sh, StopWait(ms, 0, drop), limit);
      r := b;
      NoneClosed(b.sh.managed);
      assert ms[i..] == [];
    } else {
      var sh1 := WithAccepting(b.sh, ms[i], false);
      Stopping.StopMove(s0, b, t, c, StopGate(ms, i, drop), sh1, StopGate(ms, i + 1, drop), limit);
      r := GatesAlone(s0, b.(sh := sh1), t, ms, i + 1, drop, c, limit);
      assert ms[i..][0] == ms[i] && ms[i..][1..] == ms[i + 1..];
      CloseMore(b.sh, r.sh.managed, ms[i..]);
    }
  }

  lemma {:induction false} WaitsAlone(s0: State, b: State, t: nat, ms: seq<nat>, i: nat, drop: Option<string>,
      c: Choice, limit: nat)
    requires b.phase.Up? && t !in b.threads && i <= |ms| && c.flag
    requires forall j :: 0 <= j < |ms| ==> ms[j] in b.sh.managed && !b.sh.managed[ms[j]].running
    requires Leads(s0, At(b, t, StopWait(ms, i, drop)), t, limit)
    ensures Leads(s0, At(b, t, CancelAll(ms, 0, drop)), t, limit)
    decreases |ms| - i
  {
    hide Leads;
    if i == |ms| {
      Stopping.StopMove(s0, b, t, c, StopWait(ms, i, drop), b.sh, CancelAll(ms, 0, drop), limit);
    } else {
      Stopping.StopMove(s0, b, t, c, StopWait(ms, i, drop), b.sh, StopWait(ms, i + 1, drop), limit);
      hide StopStep;
      WaitsAlone(s0, b, t, ms, i + 1, drop, c, limit);
    }
  }

  /** Cancel, publications and close of one object of the list. */
  lemma OneAlone(s0: State, b: State, t: nat, ms: seq<nat>, i: nat, c: Choice, limit: nat) returns (r: State)
    requires b.phase.Up? && t !in b.threads && i < |ms| && ms[i] in b.sh.managed && !b.sh.managed[ms[i]].stopped
    requires Coupled(b.sh.db) && FreshWaiters(b.sh) && Leads(s0, At(b, t, CancelAll(ms, i, None)), t, limit)
    ensures Leads(s0, At(r, t, CancelAll(ms, i + 1, None)), t, limit) && r == b.(sh := r.sh)
    ensures Coupled(r.sh.db) && FreshWaiters(r.sh)
    ensures AllStopped(b.sh, r.sh, {ms[i]}, {b.sh.managed[ms[i]].workflow}, c.message, c.now)
  {
    var m, wf := ms[i], b.sh.managed[ms[i]].workflow;
    hide Leads, Coupled, FreshWaiters, Cancel, SetActive, CancelledHeard, RowStopped, RowsStopped, WaitersTold;
    var b2 := CancelAlone(s0, b, t, ms, i, wf, None, c, limit);
    FinalizeAlone(s0, b2, t, ms, i, wf, None, c, limit);
    r := b2.(sh := Finalized(b2.sh, m, wf));
    Stopping.SameWaiters(b2.sh, r.sh);
    HeardStays(b.sh, b.sh, b2.sh, r.sh, wf, c.message);
    StoppedMeans(b.sh.db, wf, c.message, c.now);
    RowsOfOne(b.sh.db, r.sh.db, wf, c.message, c.now);
    WaitersOfOne(b.sh, r.sh, wf, c.message);
    StillCoupled(b.sh.db, wf, c.message, c.now);
  }

  lemma StillCoupled(db: Db, wf: string, message: string, now: Time)
    requires Coupled(db)
    ensures Coupled(SetActive(Cancel(db, wf, message, now), wf, false))
  {
    CancelCoupled(db, wf, message, now);
    hide Coupled, Cancel;
    WorkflowWriteCoupled(Cancel(db, wf, message, now), SetActive(Cancel(db, wf, message, now), wf, false));
  }

  /** The workflows of the objects from `i` on. */
  ghost function Names(managed: map<nat, Managed>, ms: seq<nat>, i: nat): (r: set<string>)
    ensures forall wf :: wf in r <==> exists j :: i <= j < |ms| && ms[j] in managed && managed[ms[j]].workflow == wf
  {
    set j | i <= j < |ms| && ms[j] in managed :: managed[ms[j]].workflow
  }

  /** Live objects of different workflows. */
  ghost predicate Stoppable(managed: map<nat, Managed>, ms: seq<nat>, i: nat) {
    && (forall j :: i <= j < |ms| ==> ms[j] in managed && !managed[ms[j]].stopped)
    && forall j, k :: i <= j < k < |ms| ==> managed[ms[j]].workflow != managed[ms[k]].workflow
  }

  lemma NextStoppable(a: map<nat, Managed>, b: map<nat, Managed>, ms: seq<nat>, i: nat)
    requires i < |ms| && Stoppable(a, ms, i) && ObjectsStopped(a, b, {ms[i]})
    ensures Stoppable(b, ms, i + 1) && Names(b, ms, i + 1) == Names(a, ms, i + 1)
    ensures {a[ms[i]].workflow} !! Names(a, ms, i + 1)
    ensures Names(a, ms, i) == {a[ms[i]].workflow} + Names(a, ms, i + 1)
  {
    forall j | i < j < |ms| ensures ms[j] in a && b[ms[j]] == a[ms[j]] {
      assert a[ms[i]].workflow != a[ms[j]].workflow;
    }
  }

  lemma {:induction false} StopsAlone(s0: State, b: State, t: nat, ms: seq<nat>, i: nat, c: Choice, limit: nat)
      returns (r: State)
    requires b.phase.Up? && t !in b.threads && i <= |ms| && Stoppable(b.sh.managed, ms, i)
    requires Coupled(b.sh.db) && FreshWaiters(b.sh) && Leads(s0, At(b, t, CancelAll(ms, i, None)), t, limit)
    ensures Leads(s0, r, t, limit) && r == b.(sh := r.sh)
    ensures AllStopped(b.sh, r.sh, Elements(ms[i..]), Names(b.sh.managed, ms, i), c.message, c.now)
    decreases |ms| - i
  {
    hide Leads, Coupled, FreshWaiters, AllStopped;
    if i == |ms| {
      End(s0, b, t, c, CancelAll(ms, i, None), b.sh, limit);
      r := b;
      NoneStopped(b.sh, c.message, c.now);
      assert Elements(ms[i..]) == {} && Names(b.sh.managed, ms, i) == {};
    } else {
      hide ThreadStep;
      var b1 := OneAlone(s0, b, t, ms, i, c, limit);
      assert ObjectsStopped(b.sh.managed, b1.sh.managed, {ms[i]}) by {
        StoppedObjects(b.sh, b1.sh, {ms[i]}, {b.sh.managed[ms[i]].workflow}, c.message, c.now);
      }
      NextStoppable(b.sh.managed, b1.sh.managed, ms, i);
      hide ObjectsStopped, Stoppable;
      r := StopsAlone(s0, b1, t, ms, i + 1, c, limit);
      StoppedJoin(b.sh, b1.sh, r.sh, {ms[i]}, Elements(ms[i + 1..]), {b.sh.managed[ms[i]].workflow},
        Names(b.sh.managed, ms, i + 1), c.message, c.now);
      assert ms[i..] == [ms[i]] + ms[i + 1..];
      assert Elements(ms[i..]) == {ms[i]} + Elements(ms[i + 1..]);
    }
  }

  lemma StoppedObjects(a: Shared, b: Shared, ms: set<nat>, wfs: set<string>, message: string, now: Time)
    requires AllStopped(a, b, ms, wfs, message, now)
    ensures ObjectsStopped(a.managed, b.managed, ms)
  {
  }

  /** A shutdown, or a stop of one workflow, whose objects nobody uses, left alone: all its objects are closed and
      out of the workflow map; the rows of their workflows say stopped; exactly what was queued for them has ended,
      now, with an error that carries the message; and the waiters of these executions have that report. */
  lemma ShutdownAlone(s: State, t: nat, ms: seq<nat>, c: Choice, limit: nat) returns (r: State)
    requires s.phase.Up? && t in s.threads && s.threads[t] == Thread(StopGate(ms, 0, None), Quiet)
    requires Stoppable(s.sh.managed, ms, 0) && forall m :: m in ms ==> !s.sh.managed[m].running
    requires Coupled(s.sh.db) && FreshWaiters(s.sh) && c.flag
    ensures Leads(s, r, t, limit) && r.threads == s.threads - {t}
    ensures r.sh.managed.Keys == s.sh.managed.Keys && forall m :: m in s.sh.managed ==>
      r.sh.managed[m] ==
        if m in ms then s.sh.managed[m].(accepting := false, stopped := true) else s.sh.managed[m]
    ensures var wfs := set m | m in ms :: s.sh.managed[m].workflow;
      && r.sh.registered == (map wf | wf in s.sh.registered && wf !in wfs :: s.sh.registered[wf])
      && RowsStopped(s.sh.db, r.sh.db, wfs, c.message, c.now) && WaitersTold(s.sh, r.sh, wfs, c.message)
  {
    var b := Without(s, t);
    BackIn(s, t, StopGate(ms, 0, None), limit);
    assert forall m :: m in ms ==> m in s.sh.managed;
    hide Leads, Coupled, FreshWaiters, Stoppable, RowsStopped, WaitersTold;
    var b1 := GatesAlone(s, b, t, ms, 0, None, c, limit);
    assert ms[0..] == ms;
    assert forall m :: m in s.sh.managed ==> m in b1.sh.managed && b1.sh.managed[m].running == s.sh.managed[m].running;
    WaitsAlone(s, b1, t, ms, 0, None, c, limit);
    Stopping.SameWaiters(s.sh, b1.sh);
    ClosedStoppable(s.sh.managed, b1.sh.managed, ms);
    r := StopsAlone(s, b1, t, ms, 0, c, limit);
    var wfs := set m | m in ms :: s.sh.managed[m].workflow;
    assert Names(b1.sh.managed, ms, 0) == wfs;
    ToldSame(s.sh, b1.sh, r.sh, wfs, c.message);
    assert forall m :: m in ms <==> m in Elements(ms);
  }

  lemma ClosedStoppable(a: map<nat, Managed>, b: map<nat, Managed>, ms: seq<nat>)
    requires Stoppable(a, ms, 0) && Closing(a, b, ms)
    ensures Stoppable(b, ms, 0) && Names(b, ms, 0) == set m | m in ms :: a[m].workflow
  {
    assert forall j :: 0 <= j < |ms| ==> ms[j] in a && b[ms[j]].workflow == a[ms[j]].workflow;
    forall wf ensures wf in Names(b, ms, 0) <==> wf in set m | m in ms :: a[m].workflow {
      if m :| m in ms && a[m].workflow == wf {
        var j :| 0 <= j < |ms| && ms[j] == m;
      }
    }
  }

  lemma ToldSame(a: Shared, b: Shared, r: Shared, wfs: set<string>, message: string)
    requires WaitersTold(b, r, wfs, message) && a.db == b.db && a.waiters == b.waiters && a.channels == b.channels
    ensures WaitersTold(a, r, wfs, message)
  {
    hide Hit;
    assert forall e :: e in a.channels ==> ToldIf(b, r.channels[e], wfs, e, message);
  }
}
