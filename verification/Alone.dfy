/** What one goroutine does when it is left alone: an enqueue, a manual execution, a turn of a worker, a start, a
    stop, a stop that gives up.  Each is told by the columns and flags it leaves behind. */
module Alone {
  import opened Base
  import opened Reports
  import opened Tables
  import opened Retention
  import opened Stores
  import opened Protocol
  import opened ClaimSafety
  import opened Waiters
  import opened Wakeups
  import opened Reaching

  // ---------------------------------------------------------------- own steps

  /** The goroutine's own steps lead from `s` to `r`. */
  ghost predicate Leads(s: State, r: State, t: nat, limit: nat) {
    exists actions :: Run(s, actions, limit) && After(s, actions, limit) == r && OnlySteps(actions, t)
  }

  predicate OnlySteps(actions: seq<Action>, t: nat) {
    forall i :: 0 <= i < |actions| ==> actions[i].Step? && actions[i].t == t
  }

  lemma LeadsItself(s: State, t: nat, limit: nat)
    ensures Leads(s, s, t, limit)
  {
    assert Run(s, [], limit) && After(s, [], limit) == s && OnlySteps([], t);
  }

  lemma LeadsStep(s0: State, s: State, t: nat, c: Choice, limit: nat)
    requires Leads(s0, s, t, limit) && s.phase.Up? && t in s.threads
    ensures Leads(s0, Apply(s, t, ThreadStep(s.sh, s.threads[t], t, s.nextThread, c, limit)), t, limit)
  {
    var actions :| Run(s0, actions, limit) && After(s0, actions, limit) == s && OnlySteps(actions, t);
    var a := Step(t, c);
    StepIs(s, t, c, limit);
    hide Next, ThreadStep, Apply;
    OneStep(s, a, limit);
    RunJoins(s0, actions, [a], limit);
    assert OnlySteps(actions + [a], t);
  }

  lemma {:induction false} OneStep(s: State, a: Action, limit: nat)
    requires Enabled(s, a)
    ensures Run(s, [a], limit) && After(s, [a], limit) == Next(s, a, limit)
  {
    hide Next, Enabled;
    assert [a][1..] == [];
    assert Run(Next(s, a, limit), [a][1..], limit);
  }

  /** One step that goes on at `next`. */
  lemma Move(s0: State, s: State, t: nat, c: Choice, pc: Pc, sh: Shared, next: Pc, limit: nat)
    requires s.phase.Up? && Leads(s0, At(s, t, pc), t, limit)
    requires ThreadStep(s.sh, Thread(pc, Quiet), t, s.nextThread, c, limit) == Goto(sh, next)
    ensures Leads(s0, At(s.(sh := sh), t, next), t, limit)
  {
    hide Leads, ThreadStep;
    var r := At(s, t, pc);
    LeadsStep(s0, r, t, c, limit);
    assert r.threads[t := Thread(next, Quiet)] == s.threads[t := Thread(next, Quiet)];
  }

  /** The last step. */
  lemma End(s0: State, s: State, t: nat, c: Choice, pc: Pc, sh: Shared, limit: nat)
    requires s.phase.Up? && t !in s.threads && Leads(s0, At(s, t, pc), t, limit)
    requires ThreadStep(s.sh, Thread(pc, Quiet), t, s.nextThread, c, limit) == Exit(sh)
    ensures Leads(s0, s.(sh := sh), t, limit)
  {
    hide Leads, ThreadStep;
    var r := At(s, t, pc);
    LeadsStep(s0, r, t, c, limit);
    assert r.threads - {t} == s.threads;
  }

  /** The state without the goroutine. */
  function Without(s: State, t: nat): State {
    s.(threads := s.threads - {t})
  }

  lemma BackIn(s: State, t: nat, pc: Pc, limit: nat)
    requires t in s.threads && s.threads[t] == Thread(pc, Quiet)
    ensures At(Without(s, t), t, pc) == s && Leads(s, At(Without(s, t), t, pc), t, limit)
  {
    assert (s.threads - {t})[t := s.threads[t]] == s.threads;
    LeadsItself(s, t, limit);
  }

  // ---------------------------------------------------------------- an enqueue

  /** An enqueue may insert: the workflow is there and started, its object accepts, its queue has room. */
  ghost predicate MayEnqueue(s: State, wf: string, limit: nat) {
    && wf in s.sh.db.workflows && wf in s.sh.registered && s.sh.registered[wf] in s.sh.managed
    && s.sh.managed[s.sh.registered[wf]].accepting
    && |set q | q in s.sh.db.queue && s.sh.db.queue[q].workflow == wf| < limit
  }

  /** The tables with one more execution, and the object notified. */
  ghost predicate Enqueued(s: State, r: State, wf: string, trigger: string, now: Time) {
    && BothInserted(s.sh.db, r.sh.db, s.sh.db.nextExecution, wf, trigger, now)
    && r.sh.registered == s.sh.registered && wf in s.sh.registered && s.sh.registered[wf] in s.sh.managed
    && r.sh.managed == s.sh.managed[s.sh.registered[wf] := s.sh.managed[s.sh.registered[wf]].(token := true)]
  }

  /** The checks of an enqueue: it comes to stand before its insert exactly if it may insert, and ends otherwise. */
  lemma ChecksAlone(s0: State, b: State, t: nat, wf: string, manual: Option<nat>, c: Choice, limit: nat)
    requires b.phase.Up? && t !in b.threads && Leads(s0, At(b, t, Lookup(wf, manual)), t, limit)
      && wf in b.sh.db.workflows
    ensures if MayEnqueue(b, wf, limit)
            then Leads(s0, At(b, t, Insert(wf, b.sh.registered[wf], manual)), t, limit)
            else Leads(s0, b, t, limit)
  {
    hide Leads, Create, WithToken, WithWaiter;
    var sh := b.sh;
    QueueRows(sh.db, wf);
    if wf !in sh.registered {
      End(s0, b, t, c, Lookup(wf, manual), sh, limit);
    } else {
      Move(s0, b, t, c, Lookup(wf, manual), sh, Gate(wf, sh.registered[wf], manual), limit);
      GateAlone(s0, b, t, wf, manual, c, limit);
      hide ThreadStep, QueueOf;
    }
  }

  lemma GateAlone(s0: State, b: State, t: nat, wf: string, manual: Option<nat>, c: Choice, limit: nat)
    requires b.phase.Up? && t !in b.threads && wf in b.sh.db.workflows && wf in b.sh.registered
    requires Leads(s0, At(b, t, Gate(wf, b.sh.registered[wf], manual)), t, limit)
    ensures if MayEnqueue(b, wf, limit)
            then Leads(s0, At(b, t, Insert(wf, b.sh.registered[wf], manual)), t, limit)
            else Leads(s0, b, t, limit)
  {
    hide Leads, Create, WithToken, WithWaiter;
    var sh, m := b.sh, b.sh.registered[wf];
    QueueRows(sh.db, wf);
    if !(m in sh.managed && sh.managed[m].accepting) {
      End(s0, b, t, c, Gate(wf, m, manual), sh, limit);
    } else {
      Move(s0, b, t, c, Gate(wf, m, manual), sh, Count(wf, m, manual), limit);
      if |QueueOf(sh.db, wf)| >= limit {
        End(s0, b, t, c, Count(wf, m, manual), sh, limit);
      } else {
        Move(s0, b, t, c, Count(wf, m, manual), sh, Insert(wf, m, manual), limit);
      }
    }
  }

  lemma InsertAlone(s0: State, b: State, t: nat, wf: string, m: nat, manual: Option<nat>, c: Choice, limit: nat)
    requires b.phase.Up? && t !in b.threads && wf in b.sh.db.workflows
      && Leads(s0, At(b, t, Insert(wf, m, manual)), t, limit)
    ensures Leads(s0, At(b.(sh := Inserting(b.sh, wf, m, t, if manual.Some? then "manual" else "trigger", c.now)),
                         t, NotifyInsert(m, b.sh.db.nextExecution, manual)), t, limit)
  {
    hide Leads, Create;
    Move(s0, b, t, c, Insert(wf, m, manual),
         Inserting(b.sh, wf, m, t, if manual.Some? then "manual" else "trigger", c.now),
         NotifyInsert(m, b.sh.db.nextExecution, manual), limit);
  }

  lemma InsertedMeans(s: State, r: State, wf: string, t: nat, trigger: string, now: Time)
    requires Coupled(s.sh.db) && wf in s.sh.db.workflows && wf in s.sh.registered && s.sh.registered[wf] in s.sh.managed
    requires var m := s.sh.registered[wf];
      r.sh.db == Inserting(s.sh, wf, m, t, trigger, now).db && r.sh.registered == s.sh.registered
      && r.sh.managed == s.sh.managed[m := s.sh.managed[m].(token := true)]
    ensures Enqueued(s, r, wf, trigger, now)
  {
    CreateInserts(s.sh.db, wf, trigger, now);
    hide Coupled, Create, BothInserted;
  }

  /** A trigger's enqueue, left alone: one more queued execution and a notified object, or nothing at all. */
  lemma EnqueueAlone(s: State, t: nat, wf: string, c: Choice, limit: nat) returns (r: State)
    requires s.phase.Up? && t in s.threads && s.threads[t] == Thread(Lookup(wf, None), Quiet)
    requires wf in s.sh.db.workflows && Coupled(s.sh.db)
    ensures Leads(s, r, t, limit) && r.threads == s.threads - {t}
    ensures if MayEnqueue(s, wf, limit)
            then Enqueued(s, r, wf, "trigger", c.now) && r.sh.waiters == s.sh.waiters && r.sh.channels == s.sh.channels
            else r.sh == s.sh
  {
    var b := Without(s, t);
    BackIn(s, t, Lookup(wf, None), limit);
    hide Leads, Coupled, Create;
    ChecksAlone(s, b, t, wf, None, c, limit);
    r := b;
    if MayEnqueue(s, wf, limit) {
      var m, e := s.sh.registered[wf], s.sh.db.nextExecution;
      InsertAlone(s, b, t, wf, m, None, c, limit);
      var sh1 := Inserting(s.sh, wf, m, t, "trigger", c.now);
      End(s, b.(sh := sh1), t, c, NotifyInsert(m, e, None), WithToken(sh1, m, true), limit);
      r := b.(sh := WithToken(sh1, m, true));
      InsertedMeans(s, r, wf, t, "trigger", c.now);
    }
    hide Enqueued, ThreadStep;
  }

  function Inserting(sh: Shared, wf: string, m: nat, t: nat, trigger: string, now: Time): Shared
    requires wf in sh.db.workflows
  {
    sh.(db := Create(sh.db, wf, trigger, now).value,
        log := sh.log.(creator := sh.log.creator[sh.db.nextExecution := t],
          origin := sh.log.origin[sh.db.nextQueue := m]))
  }

  /** A manual execution, left alone up to its wait: refused unless the workflow has a manual trigger and may be
      enqueued to; otherwise one more execution, a waiter with a fresh channel, and a notified object. */
  lemma ExecAlone(s: State, t: nat, wf: string, c: Choice, limit: nat) returns (r: State)
    requires s.phase.Up? && t in s.threads && s.threads[t] == Thread(ExecLookup(wf), Quiet) && Coupled(s.sh.db)
    ensures Leads(s, r, t, limit)
    ensures if MayEnqueue(s, wf, limit) && s.sh.managed[s.sh.registered[wf]].manual
            then && Enqueued(s, r, wf, "manual", c.now)
                 && var e := s.sh.db.nextExecution;
                    r.threads == s.threads[t := Thread(Await(e), Quiet)]
                    && r.sh.waiters == s.sh.waiters + {e} && r.sh.channels == s.sh.channels[e := Channel([], 0, 0)]
            else r.sh == s.sh && r.threads == s.threads - {t}
  {
    var b := Without(s, t);
    BackIn(s, t, ExecLookup(wf), limit);
    hide Leads, Coupled, Create, Enqueued;
    r := b;
    if !(wf in s.sh.db.workflows && wf in s.sh.registered && s.sh.registered[wf] in s.sh.managed
         && s.sh.managed[s.sh.registered[wf]].manual) {
      End(s, b, t, c, ExecLookup(wf), s.sh, limit);
    } else {
      var m := s.sh.registered[wf];
      Move(s, b, t, c, ExecLookup(wf), s.sh, Lookup(wf, Some(m)), limit);
      hide ThreadStep;
      ChecksAlone(s, b, t, wf, Some(m), c, limit);
      if MayEnqueue(s, wf, limit) {
        r := ExecInserts(s, b, t, wf, m, c, limit);
        assert r.threads == s.threads[t := Thread(Await(s.sh.db.nextExecution), Quiet)];
        InsertedMeans(s, r, wf, t, "manual", c.now);
      }
    }
  }

  lemma ExecInserts(s0: State, b: State, t: nat, wf: string, m: nat, c: Choice, limit: nat) returns (r: State)
    requires b.phase.Up? && t !in b.threads && wf in b.sh.db.workflows && m in b.sh.managed
    requires Leads(s0, At(b, t, Insert(wf, m, Some(m))), t, limit)
    ensures var e := b.sh.db.nextExecution;
      && Leads(s0, r, t, limit) && r.threads == b.threads[t := Thread(Await(e), Quiet)]
      && r.sh.db == Inserting(b.sh, wf, m, t, "manual", c.now).db && r.sh.registered == b.sh.registered
      && r.sh.managed == b.sh.managed[m := b.sh.managed[m].(token := true)]
      && r.sh.waiters == b.sh.waiters + {e} && r.sh.channels == b.sh.channels[e := Channel([], 0, 0)]
  {
    hide Leads, Create;
    InsertAlone(s0, b, t, wf, m, Some(m), c, limit);
    r := ExecWaits(s0, b.(sh := Inserting(b.sh, wf, m, t, "manual", c.now)), t, m, b.sh.db.nextExecution, c, limit);
  }

  lemma ExecWaits(s0: State, b: State, t: nat, m: nat, e: nat, c: Choice, limit: nat) returns (r: State)
    requires b.phase.Up? && Leads(s0, At(b, t, NotifyInsert(m, e, Some(m))), t, limit) && m in b.sh.managed
    ensures Leads(s0, r, t, limit)
    ensures r == At(b.(sh := b.sh.(managed := b.sh.managed[m := b.sh.managed[m].(token := true)],
                                   waiters := b.sh.waiters + {e}, channels := b.sh.channels[e := Channel([], 0, 0)])),
                                     t, Await(e))
  {
    hide Leads;
    var sh2 := WithToken(b.sh, m, true);
    Move(s0, b, t, c, NotifyInsert(m, e, Some(m)), sh2, Register(e, m), limit);
    var sh3 := WithWaiter(sh2, e);
    Move(s0, b.(sh := sh2), t, c, Register(e, m), sh3, NotifyManual(e, m), limit);
    var sh4 := WithToken(sh3, m, true);
    Move(s0, b.(sh := sh3), t, c, NotifyManual(e, m), sh4, Await(e), limit);
    r := At(b.(sh := sh4), t, Await(e));
    assert sh4.managed == b.sh.managed[m := b.sh.managed[m].(token := true)];
  }

  // ---------------------------------------------------------------- a start

  /** The new object is in the workflow map, accepting and notified, with a parked worker, and the row says active. */
  ghost predicate StartedUp(s: State, r: State, t: nat, wf: string, c: Choice) {
    var m, w := s.sh.nextManaged, s.nextThread;
    && r.threads == (s.threads - {t})[w := Thread(Parked(m), Quiet)]
    && r.sh.db == s.sh.db.(workflows := s.sh.db.workflows[wf := Workflow(c.name, c.message, true)])
    && r.sh.managed == s.sh.managed[m := Managed(wf, c.flag, true, false, true, false, w, t)]
    && r.sh.registered == s.sh.registered[wf := m]
    && r.sh.waiters == s.sh.waiters && r.sh.channels == s.sh.channels
  }

  /** A start, left alone: after its first step the row says stopped; at its end the workflow is started up. */
  lemma StartAlone(s: State, t: nat, wf: string, row: Workflow, c: Choice, limit: nat) returns (mid: State, r: State)
    requires s.phase.Up? && t in s.threads && s.threads[t] == Thread(Upsert(wf, row), Quiet)
    requires s.nextThread !in s.threads && s.sh.nextManaged !in s.sh.managed
    ensures Leads(s, mid, t, limit) && t in mid.threads && mid.threads[t].at == SpawnWorker(wf, c.flag)
    ensures mid.sh.db == s.sh.db.(workflows := s.sh.db.workflows[wf := Workflow(row.name, row.version, false)])
    ensures mid.sh == s.sh.(db := mid.sh.db)
    ensures Leads(s, r, t, limit) && StartedUp(s, r, t, wf, c)
  {
    var b := Without(s, t);
    BackIn(s, t, Upsert(wf, row), limit);
    hide Leads;
    var sh1 := s.sh.(db := UpsertWorkflow(s.sh.db, wf, row.(active := false)));
    Move(s, b, t, c, Upsert(wf, row), sh1, SpawnWorker(wf, c.flag), limit);
    mid := At(b.(sh := sh1), t, SpawnWorker(wf, c.flag));
    hide ThreadStep, StartedUp;
    r := StartGoesOn(s, b.(sh := sh1), t, wf, c, limit);
    StartedFromRow(s, b.(sh := sh1), r, t, wf, row.(active := false), c);
  }

  lemma StartedFromRow(s: State, b: State, r: State, t: nat, wf: string, w: Workflow, c: Choice)
    requires StartedUp(b, r, t, wf, c) && b == Without(s, t).(sh := s.sh.(db := UpsertWorkflow(s.sh.db, wf, w)))
    ensures StartedUp(s, r, t, wf, c)
  {
    assert b.threads - {t} == s.threads - {t};
    assert b.sh.db.workflows[wf := Workflow(c.name, c.message, true)]
        == s.sh.db.workflows[wf := Workflow(c.name, c.message, true)];
  }

  lemma StartGoesOn(s0: State, b: State, t: nat, wf: string, c: Choice, limit: nat) returns (r: State)
    requires b.phase.Up? && t !in b.threads && t != b.nextThread
    requires Leads(s0, At(b, t, SpawnWorker(wf, c.flag)), t, limit)
    ensures Leads(s0, r, t, limit) && StartedUp(b, r, t, wf, c)
  {
    hide Leads, Announced;
    var m := b.sh.nextManaged;
    var b2 := SpawnAlone(s0, b, t, wf, c, limit);
    StartAnnounces(s0, b2, t, m, c, limit);
    r := b2.(sh := Announced(b2.sh, m, wf, c));
    AnnouncedMeans(b2.sh, m, wf, c);
    assert b.threads - {t} == b.threads;
  }

  lemma AnnouncedMeans(sh: Shared, m: nat, wf: string, c: Choice)
    requires m in sh.managed
    ensures var r := Announced(sh, m, wf, c);
      && r.db == sh.db.(workflows := sh.db.workflows[wf := Workflow(c.name, c.message, true)])
      && r.managed == sh.managed[m := sh.managed[m].(token := true)] && r.registered == sh.registered[wf := m]
      && r.waiters == sh.waiters && r.channels == sh.channels
  {
  }

  lemma SpawnAlone(s0: State, b: State, t: nat, wf: string, c: Choice, limit: nat) returns (r: State)
    requires b.phase.Up? && t !in b.threads && t != b.nextThread
      && Leads(s0, At(b, t, SpawnWorker(wf, c.flag)), t, limit)
    ensures var m, w := b.sh.nextManaged, b.nextThread;
      && r == b.(sh := b.sh.(managed := b.sh.managed[m := Managed(wf, c.flag, true, false, false, false, w, t)],
         nextManaged := m + 1),
                 threads := b.threads[w := Thread(Parked(m), Quiet)], nextThread := w + 1)
      && Leads(s0, At(r, t, Announce(m)), t, limit)
  {
    hide Leads;
    var m, w := b.sh.nextManaged, b.nextThread;
    r := b.(sh := b.sh.(managed := b.sh.managed[m := Managed(wf, c.flag, true, false, false, false, w, t)],
      nextManaged := m + 1),
            threads := b.threads[w := Thread(Parked(m), Quiet)], nextThread := w + 1);
    var a := At(b, t, SpawnWorker(wf, c.flag));
    LeadsStep(s0, a, t, c, limit);
    assert a.threads[t := Thread(Announce(m), Quiet)][w := Thread(Parked(m), Quiet)] == At(r, t, Announce(m)).threads;
  }

  function Announced(sh: Shared, m: nat, wf: string, c: Choice): Shared {
    Activated(sh.(registered := sh.registered[wf := m],
                  db := UpsertWorkflow(sh.db, wf, Workflow(c.name, c.message, true))), m)
  }

  lemma StartAnnounces(s0: State, b: State, t: nat, m: nat, c: Choice, limit: nat)
    requires b.phase.Up? && t !in b.threads && m in b.sh.managed && Leads(s0, At(b, t, Announce(m)), t, limit)
    ensures Leads(s0, b.(sh := Announced(b.sh, m, b.sh.managed[m].workflow, c)), t, limit)
  {
    hide Leads;
    var wf, row := b.sh.managed[m].workflow, Workflow(c.name, c.message, true);
    var sh1 := b.sh.(registered := b.sh.registered[wf := m]);
    Move(s0, b, t, c, Announce(m), sh1, Activate(m, row), limit);
    hide ThreadStep, Activated;
    ActivateAlone(s0, b.(sh := sh1), t, m, row, c, limit);
  }

  lemma ActivateAlone(s0: State, b: State, t: nat, m: nat, row: Workflow, c: Choice, limit: nat)
    requires b.phase.Up? && t !in b.threads && m in b.sh.managed && row.active
    requires Leads(s0, At(b, t, Activate(m, row)), t, limit)
    ensures var sh := b.sh.(db := UpsertWorkflow(b.sh.db, b.sh.managed[m].workflow, row));
      Leads(s0, b.(sh := Activated(sh, m)), t, limit)
  {
    hide Leads;
    var sh := b.sh.(db := UpsertWorkflow(b.sh.db, b.sh.managed[m].workflow, row));
    assert row.(active := true) == row;
    hide UpsertWorkflow;
    Move(s0, b, t, c, Activate(m, row), sh, NotifyActive(m), limit);
    End(s0, b.(sh := sh), t, c, NotifyActive(m), Activated(sh, m), limit);
  }

  // ---------------------------------------------------------------- a stop that gives up

  /** The objects of the list accept again and are notified; everything else is as it was. */
  ghost predicate OpenedAgain(sh: Shared, r: Shared, ms: seq<nat>) {
    && r == sh.(managed := r.managed) && r.managed.Keys == sh.managed.Keys
    && forall m :: m in sh.managed ==>
         r.managed[m] == if m in ms then sh.managed[m].(accepting := true, token := true) else sh.managed[m]
  }

  lemma OpenOne(sh: Shared, m: nat)
    ensures OpenedAgain(sh, WithToken(WithAccepting(sh, m, true), m, true), [m])
  {
  }

  lemma OpenMore(a: Shared, b: Shared, c: Shared, ms: seq<nat>)
    requires ms != [] && OpenedAgain(a, b, [ms[0]]) && OpenedAgain(b, c, ms[1..])
    ensures OpenedAgain(a, c, ms)
  {
    assert forall m :: m in ms <==> m == ms[0] || m in ms[1..];
  }

  /** A stop whose wait has timed out, left alone: all its objects accept again and are notified. */
  lemma {:induction false} ReopenAlone(s0: State, b: State, t: nat, ms: seq<nat>, i: nat, c: Choice, limit: nat)
      returns (r: State)
    requires b.phase.Up? && t !in b.threads && i <= |ms| && Leads(s0, At(b, t, Reopen(ms, i)), t, limit)
    ensures Leads(s0, r, t, limit) && r == b.(sh := r.sh) && OpenedAgain(b.sh, r.sh, ms[i..])
    decreases |ms| - i
  {
    hide Leads, WithAccepting, WithToken, OpenedAgain;
    if i == |ms| {
      End(s0, b, t, c, Reopen(ms, i), b.sh, limit);
      r := b;
      NoneOpened(b.sh);
      assert ms[i..] == [];
    } else {
      var sh1 := WithAccepting(b.sh, ms[i], true);
      Move(s0, b, t, c, Reopen(ms, i), sh1, ReopenNotify(ms, i), limit);
      var sh2 := WithToken(sh1, ms[i], true);
      Move(s0, b.(sh := sh1), t, c, ReopenNotify(ms, i), sh2, Reopen(ms, i + 1), limit);
      r := ReopenAlone(s0, b.(sh := sh2), t, ms, i + 1, c, limit);
      OpenOne(b.sh, ms[i]);
      assert ms[i..][0] == ms[i] && ms[i..][1..] == ms[i + 1..];
      OpenMore(b.sh, sh2, r.sh, ms[i..]);
    }
  }

  lemma NoneOpened(sh: Shared)
    ensures OpenedAgain(sh, sh, [])
  {
  }

  // ---------------------------------------------------------------- publishing

  /** The report reached the waiter of `e` and its channel was closed, or there was no waiter. */
  ghost predicate Heard(sh: Shared, r: Shared, e: nat, report: Report) {
    && r.waiters == sh.waiters - {e}
    && r.channels == (if e in sh.waiters then sh.channels[e := Channel([report], 0, 1)] else sh.channels)
    && r == sh.(waiters := r.waiters, channels := r.channels, log := r.log) && r.log == sh.log.(sender := r.log.sender)
  }

  ghost predicate FreshWaiters(sh: Shared) {
    forall e :: e in sh.waiters ==> e in sh.channels && sh.channels[e] == Channel([], 0, 0)
  }

  function Publishing(b: State, t: nat, pc: Pc, d: Delivery): State {
    b.(threads := b.threads[t := Thread(pc, d)])
  }

  lemma PublishAlone(s0: State, b: State, t: nat, pc: Pc, e: nat, report: Report, c: Choice, limit: nat)
      returns (r: State)
    requires b.phase.Up? && t !in b.threads && FreshWaiters(b.sh)
    requires Leads(s0, Publishing(b, t, pc, Take(e, report)), t, limit)
    ensures r == b.(sh := r.sh) && Heard(b.sh, r.sh, e, report) && FreshWaiters(r.sh)
      && Leads(s0, At(r, t, pc), t, limit)
  {
    hide Leads;
    var a := Publishing(b, t, pc, Take(e, report));
    LeadsStep(s0, a, t, c, limit);
    if e !in b.sh.waiters {
      r := b;
      assert a.threads[t := Thread(pc, Quiet)] == At(b, t, pc).threads;
      assert b.sh.waiters - {e} == b.sh.waiters;
    } else {
      var sh1 := b.sh.(waiters := b.sh.waiters - {e}, log := b.sh.log.(sender := b.sh.log.sender[e := t]));
      var a1 := Publishing(b.(sh := sh1), t, pc, Send(e, report));
      assert a.threads[t := Thread(pc, Send(e, report))] == a1.threads;
      LeadsStep(s0, a1, t, c, limit);
      r := HeardAlone(s0, b.(sh := sh1), t, pc, e, report, c, limit);
    }
  }

  lemma HeardAlone(s0: State, b: State, t: nat, pc: Pc, e: nat, report: Report, c: Choice, limit: nat)
      returns (r: State)
    requires b.phase.Up? && t !in b.threads && e in b.sh.channels && b.sh.channels[e] == Channel([], 0, 0)
    requires Leads(s0, Publishing(b, t, pc, Send(e, report)), t, limit)
    ensures r == b.(sh := b.sh.(channels := b.sh.channels[e := Channel([report], 0, 1)]))
      && Leads(s0, At(r, t, pc), t, limit)
  {
    hide Leads;
    var a := Publishing(b, t, pc, Send(e, report));
    LeadsStep(s0, a, t, c, limit);
    assert [] + [report] == [report];
    var sh1 := b.sh.(channels := b.sh.channels[e := Channel([report], 0, 0)]);
    var a1 := Publishing(b.(sh := sh1), t, pc, Close(e));
    assert a.threads[t := Thread(pc, Close(e))] == a1.threads;
    LeadsStep(s0, a1, t, c, limit);
    r := b.(sh := b.sh.(channels := b.sh.channels[e := Channel([report], 0, 1)]));
    assert a1.threads[t := Thread(pc, Quiet)] == At(r, t, pc).threads;
    assert sh1.channels[e := Channel([report], 0, 1)] == b.sh.channels[e := Channel([report], 0, 1)];
  }

  // ---------------------------------------------------------------- a turn of the worker

  /** The first queued row is gone, and its execution ran from `started` to `finished` and ended with the report. */
  ghost predicate RanFirst(before: Db, after: Db, wf: string, q: nat, report: Report, started: Time, finished: Time) {
    && q in before.queue && before.queue[q].workflow == wf && before.queue[q].execution in before.executions
    && (forall p :: p in before.queue && before.queue[p].workflow == wf ==>
          before.queue[q].queuedAt < before.queue[p].queuedAt
          || (before.queue[q].queuedAt == before.queue[p].queuedAt && q <= p))
    && var e, x := before.queue[q].execution, before.executions[before.queue[q].execution];
       after == before.(queue := before.queue - {q},
                        executions := before.executions[e := Execution(x.workflow, x.trigger, report.status, x.queuedAt,
                                                                       Some(started), Some(finished), Some(report))])
  }

  lemma TurnMeans(db: Db, wf: string, q: nat, report: Report, started: Time, finished: Time)
    requires Coupled(db) && IsNext(db, wf, q)
    ensures var e := db.queue[q].execution;
      RanFirst(db, Complete(Claim(db, q, started), e, report.status, report, finished), wf, q, report,
        started, finished)
  {
    var e := db.queue[q].execution;
    ClaimTakesFirst(db, q, wf, started);
    hide Coupled;
    var x := db.executions[e];
    var y := Execution(wf, x.trigger, Status.Running, x.queuedAt, Some(started), None, None);
    var z := Execution(wf, x.trigger, report.status, x.queuedAt, Some(started), Some(finished), Some(report));
    assert db.executions[e := y][e := z] == db.executions[e := z];
    hide IsNext;
  }

  /** One turn of the worker loop, left alone: the first row is run and completed, its report is published, and the
      worker is back before its check. */
  lemma TurnAlone(s: State, t: nat, m: nat, wf: string, q: nat, report: Report, started: Time,
      finished: Time, limit: nat)
      returns (r: State)
    requires s.phase.Up? && t in s.threads && s.threads[t] == Thread(ClaimNext(m), Quiet)
    requires m in s.sh.managed && s.sh.managed[m].workflow == wf && Coupled(s.sh.db) && FreshWaiters(s.sh)
    requires IsNext(s.sh.db, wf, q) && report.status.Finished()
    ensures Leads(s, r, t, limit) && r.threads == s.threads[t := Thread(LoopCheck(m), Quiet)]
    ensures RanFirst(s.sh.db, r.sh.db, wf, q, report, started, finished)
    ensures r.sh.managed == s.sh.managed[m := s.sh.managed[m].(running := false)] && r.sh.registered == s.sh.registered
    ensures var e := s.sh.db.queue[q].execution;
      && r.sh.waiters == s.sh.waiters - {e}
      && r.sh.channels == if e in s.sh.waiters then s.sh.channels[e := Channel([report], 0, 1)] else s.sh.channels
  {
    var b := Without(s, t);
    BackIn(s, t, ClaimNext(m), limit);
    TurnMeans(s.sh.db, wf, q, report, started, finished);
    NextIsQueued(s.sh.db, wf, q);
    hide Leads, Coupled, RanFirst, Complete, MarkRunning;
    var e := s.sh.db.queue[q].execution;
    var c := ANY.(now := started, row := q);
    var sh1 := ClaimedAt(s.sh, t, q, started);
    Move(s, b, t, c, ClaimNext(m), sh1, SetRunning(m, e), limit);
    hide IsNext, ThreadStep;
    r := RunsAlone(s, b.(sh := sh1), t, m, e, report, finished, limit);
    assert (s.threads - {t})[t := Thread(LoopCheck(m), Quiet)] == s.threads[t := Thread(LoopCheck(m), Quiet)];
  }

  function ClaimedAt(sh: Shared, t: nat, q: nat, now: Time): Shared
    requires q in sh.db.queue
  {
    var e := sh.db.queue[q].execution;
    sh.(db := Claim(sh.db, q, now),
      log := sh.log.(claims := sh.log.claims + multiset{e}, holder := sh.log.holder[e := t]))
  }

  lemma RunsAlone(s0: State, b: State, t: nat, m: nat, e: nat, report: Report, finished: Time, limit: nat)
      returns (r: State)
    requires b.phase.Up? && t !in b.threads && m in b.sh.managed && FreshWaiters(b.sh) && report.status.Finished()
    requires Leads(s0, At(b, t, SetRunning(m, e)), t, limit)
    ensures Leads(s0, r, t, limit) && r.threads == b.threads[t := Thread(LoopCheck(m), Quiet)]
    ensures r.sh.db == Complete(b.sh.db, e, report.status, report, finished)
    ensures r.sh.managed == b.sh.managed[m := b.sh.managed[m].(running := false)] && r.sh.registered == b.sh.registered
    ensures r.sh.waiters == b.sh.waiters - {e}
    ensures r.sh.channels == if e in b.sh.waiters then b.sh.channels[e := Channel([report], 0, 1)] else b.sh.channels
  {
    hide Leads, Complete;
    var c := ANY.(now := finished, report := report);
    var sh2 := WithRunning(b.sh, m, true);
    Move(s0, b, t, c, SetRunning(m, e), sh2, Execute(m, e), limit);
    Move(s0, b.(sh := sh2), t, c, Execute(m, e), sh2, Record(m, e, report), limit);
    r := RecordsAlone(s0, b.(sh := sh2), t, m, e, report, c, limit);
    assert sh2.managed[m := b.sh.managed[m].(running := false)]
      == b.sh.managed[m := b.sh.managed[m].(running := false)];
    hide ThreadStep;
  }

  lemma RecordsAlone(s0: State, b: State, t: nat, m: nat, e: nat, report: Report, c: Choice, limit: nat)
      returns (r: State)
    requires b.phase.Up? && t !in b.threads && m in b.sh.managed && FreshWaiters(b.sh)
    requires Leads(s0, At(b, t, Record(m, e, report)), t, limit)
    ensures Leads(s0, r, t, limit) && r.threads == b.threads[t := Thread(LoopCheck(m), Quiet)]
    ensures r.sh.db == Complete(b.sh.db, e, report.status, report, c.now)
    ensures r.sh.managed == b.sh.managed[m := b.sh.managed[m].(running := false)] && r.sh.registered == b.sh.registered
    ensures r.sh.waiters == b.sh.waiters - {e}
    ensures r.sh.channels == if e in b.sh.waiters then b.sh.channels[e := Channel([report], 0, 1)] else b.sh.channels
  {
    hide Leads, Complete;
    var a := At(b, t, Record(m, e, report));
    LeadsStep(s0, a, t, c, limit);
    var sh1 := b.sh.(db := Complete(b.sh.db, e, report.status, report, c.now),
      log := b.sh.log.(holder := b.sh.log.holder - {e}));
    assert a.threads[t := Thread(ClearRunning(m), Take(e, report))]
        == Publishing(b.(sh := sh1), t, ClearRunning(m), Take(e, report)).threads;
    var p := PublishAlone(s0, b.(sh := sh1), t, ClearRunning(m), e, report, c, limit);
    var sh2 := WithRunning(p.sh, m, false);
    Move(s0, p, t, c, ClearRunning(m), sh2, LoopCheck(m), limit);
    r := At(p.(sh := sh2), t, LoopCheck(m));
  }

  // ---------------------------------------------------------------- a stop

  /** Every one of the executions was published to its waiter. */
  ghost predicate HeardAll(db: Db, sh: Shared, r: Shared, ids: seq<nat>) {
    && r == sh.(waiters := r.waiters, channels := r.channels, log := r.log)
    && r.waiters == sh.waiters - Elements(ids) && r.channels.Keys == sh.channels.Keys
    && forall e :: e in sh.channels ==>
         r.channels[e] == if e in sh.waiters && e in ids && e in db.executions && db.executions[e].report.Some?
                          then Channel([db.executions[e].report.value], 0, 1) else sh.channels[e]
  }

  lemma HeardMore(db: Db, a: Shared, b: Shared, c: Shared, ids: seq<nat>)
    requires ids != [] && NoDup(ids) && FreshWaiters(a) && ids[0] in db.executions && db.executions[ids[0]].report.Some?
    requires Heard(a, b, ids[0], db.executions[ids[0]].report.value) && HeardAll(db, b, c, ids[1..])
    ensures HeardAll(db, a, c, ids)
  {
    assert forall e :: e in ids <==> e == ids[0] || e in ids[1..];
    assert ids[0] !in ids[1..];
    assert Elements(ids) == {ids[0]} + Elements(ids[1..]);
    hide NoDup, Elements;
  }

  /** publishWaiter for each of the cancelled executions. */
  lemma {:induction false} InformAlone(s0: State, b: State, t: nat, ms: seq<nat>, i: nat, ids: seq<nat>,
      drop: Option<string>, c: Choice, limit: nat) returns (r: State)
    requires b.phase.Up? && t !in b.threads && FreshWaiters(b.sh) && NoDup(ids)
    requires forall e :: e in ids ==> e in b.sh.db.executions && b.sh.db.executions[e].report.Some?
    requires Leads(s0, At(b, t, Inform(ms, i, ids, drop)), t, limit)
    ensures Leads(s0, At(r, t, CloseStop(ms, i, drop)), t, limit) && r == b.(sh := r.sh)
    ensures HeardAll(b.sh.db, b.sh, r.sh, ids) && FreshWaiters(r.sh)
    decreases |ids|
  {
    hide Leads;
    if ids == [] {
      Move(s0, b, t, c, Inform(ms, i, ids, drop), b.sh, CloseStop(ms, i, drop), limit);
      r := b;
      assert b.sh.waiters - Elements(ids) == b.sh.waiters;
    } else {
      var e, rest := ids[0], Inform(ms, i, ids[1..], drop);
      var report := b.sh.db.executions[e].report.value;
      var a := At(b, t, Inform(ms, i, ids, drop));
      LeadsStep(s0, a, t, c, limit);
      assert a.threads[t := Thread(rest, Take(e, report))] == Publishing(b, t, rest, Take(e, report)).threads;
      hide ThreadStep;
      var p := PublishAlone(s0, b, t, rest, e, report, c, limit);
      NoDupRest(ids);
      hide NoDup;
      r := InformAlone(s0, p, t, ms, i, ids[1..], drop, c, limit);
      hide FreshWaiters, HeardAll, Heard;
      HeardMore(b.sh.db, b.sh, p.sh, r.sh, ids);
    }
  }

  lemma NoDupRest(ids: seq<nat>)
    requires NoDup(ids) && ids != []
    ensures NoDup(ids[1..])
  {
  }
}
