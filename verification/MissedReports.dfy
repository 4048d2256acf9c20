/** A report published before its waiter is registered is lost for good, and there is a run in which that
    happens to a manual execution. */
module MissedReports {
  import opened Base
  import opened Reports
  import opened Tables
  import opened Retention
  import opened Protocol
  import opened ClaimSafety
  import opened Waiters
  import opened Wakeups
  import opened OwnInserts
  import opened Reaching
  import opened Publishers

  /** Nothing was sent for `e`, and its channel is open. */
  predicate Unheard(sh: Shared, e: nat) {
    e in sh.channels ==> sh.channels[e].sent == [] && sh.channels[e].closes == 0
  }

  /** `e` was claimed, cancelled or deleted, nobody publishes it any more, and nothing was sent for it or closed. */
  ghost predicate Silent(s: State, e: nat) {
    Left(s.sh.db, e) && Unheard(s.sh, e) && forall t :: t in s.threads ==> Mute(s.threads[t], e)
  }

  // ---------------------------------------------------------------- a silent execution stays silent

  lemma EnqueueUnheard(sh: Shared, at: Pc, t: nat, c: Choice, limit: nat, e: nat)
    requires InEnqueue(at) && Unheard(sh, e)
    ensures Unheard(EnqueueStep(sh, at, t, c, limit).sh, e)
  {
    hide QueueOf, Create, WithToken;
  }

  lemma StartUnheard(sh: Shared, at: Pc, t: nat, n: nat, c: Choice, e: nat)
    requires !InEnqueue(at) && !InWorker(at) && !InStop(at) && Unheard(sh, e)
    ensures Unheard(StartStep(sh, at, t, n, c).sh, e)
  {
    hide UpsertWorkflow, WorkflowOf;
  }

  lemma DeliveryUnheard(sh: Shared, th: Thread, t: nat, e: nat)
    requires Mute(th, e) && !th.delivery.Quiet? && Unheard(sh, e)
    ensures Unheard(DeliveryStep(sh, th, t).sh, e)
  {
  }

  lemma ThreadUnheard(s: State, t: nat, c: Choice, limit: nat, e: nat)
    requires t in s.threads && Mute(s.threads[t], e) && Unheard(s.sh, e)
    ensures Unheard(ThreadStep(s.sh, s.threads[t], t, s.nextThread, c, limit).sh, e)
  {
    var th := s.threads[t];
    hide Mute, DeliveryStep, EnqueueStep, WorkerStep, StopStep, StartStep;
    if !th.delivery.Quiet? {
      DeliveryUnheard(s.sh, th, t, e);
    } else if InEnqueue(th.at) {
      EnqueueUnheard(s.sh, th.at, t, c, limit, e);
    } else if InWorker(th.at) {
      WorkerShared(s.sh, th.at, t, c);
    } else if InStop(th.at) {
      StopShared(s.sh, th.at, c);
    } else {
      StartUnheard(s.sh, th.at, t, s.nextThread, c, e);
    }
  }

  lemma ThreadSilent(s: State, t: nat, c: Choice, limit: nat, e: nat)
    requires ClaimInv(s) && PublishInv(s) && Silent(s, e) && t in s.threads
    ensures Silent(Apply(s, t, ThreadStep(s.sh, s.threads[t], t, s.nextThread, c, limit)), e)
  {
    var o := ThreadStep(s.sh, s.threads[t], t, s.nextThread, c, limit);
    FreshThread(s);
    hide ThreadStep, HoldersKnown, HoldersRun, ClaimedOnce, PhaseSound, Coupled, Speaks, NoneComesBack,
      OnceEach, Unheard;
    ThreadSpeaks(s, t, c, limit);
    ThreadLeaves(s, t, c, limit);
    ThreadUnheard(s, t, c, limit, e);
    LeftKept(s.sh.db, o.sh.db, e);
    hide PublishInv;
    AllStayMute(s, t, o, e);
  }

  lemma AllStayMute(s: State, t: nat, o: Outcome, e: nat)
    requires Silent(s, e) && t in s.threads && Speaks(s.sh, s.threads[t], o)
    requires Left(o.sh.db, e) && Unheard(o.sh, e)
    ensures Silent(Apply(s, t, o), e)
  {
    if o.spawn.Some? { ParkedMute(o.spawn.value.m, e); }
    hide Mute, BeforeTake, OnceEach, QueuedIds, Unheard;
    assert e !in QueuedIds(s.sh.db);
  }

  lemma NextSilent(s: State, a: Action, limit: nat, e: nat)
    requires ClaimInv(s) && PublishInv(s) && Silent(s, e) && Enabled(s, a)
    ensures Silent(Next(s, a, limit), e)
  {
    if a.Step? {
      StepIs(s, a.t, a.c, limit);
      hide ClaimInv, PublishInv, Silent, Next, ThreadStep, Apply;
      ThreadSilent(s, a.t, a.c, limit, e);
    } else {
      OutsideLeaves(s, a, limit);
      LeftKept(s.sh.db, Next(s, a, limit).sh.db, e);
      if a.Request? {
        RequestIs(s, a.pc, limit);
      } else if !a.Crash? {
        OutsideTables(s, a, limit);
      }
      hide ClaimInv, PublishInv, Left, NoneComesBack, MayStart;
      if !a.Crash? { hide Next; }
    }
  }

  lemma {:induction false} RunSilent(s: State, actions: seq<Action>, limit: nat, e: nat)
    requires ClaimInv(s) && PublishInv(s) && Silent(s, e) && Run(s, actions, limit)
    ensures Silent(After(s, actions, limit), e)
    decreases |actions|
  {
    hide ClaimInv, PublishInv, Silent, Next, Enabled;
    if actions != [] {
      NextKeepsClaims(s, actions[0], limit);
      NextPublishes(s, actions[0], limit);
      NextSilent(s, actions[0], limit, e);
      RunSilent(Next(s, actions[0], limit), actions[1..], limit, e);
    }
  }

  // ---------------------------------------------------------------- a publication without a waiter

  lemma {:induction false} RunPublishes(s: State, actions: seq<Action>, limit: nat)
    requires ClaimInv(s) && PublishInv(s) && WaiterInv(s) && Run(s, actions, limit)
    ensures var r := After(s, actions, limit); ClaimInv(r) && PublishInv(r) && WaiterInv(r)
    decreases |actions|
  {
    hide ClaimInv, PublishInv, WaiterInv, Next, Enabled;
    if actions != [] {
      NextKeepsClaims(s, actions[0], limit);
      NextPublishes(s, actions[0], limit);
      NextWaits(s, actions[0], limit);
      RunPublishes(Next(s, actions[0], limit), actions[1..], limit);
    }
  }

  /** The goroutine looks for the waiter of `e`, and there is none. */
  predicate FindsNoWaiter(s: State, t: nat, e: nat) {
    t in s.threads && s.threads[t].delivery.Take? && s.threads[t].delivery.e == e && e !in s.sh.waiters
  }

  lemma TakeIsSilent(s: State, t: nat, c: Choice, limit: nat, e: nat)
    requires PublishInv(s) && WaiterInv(s) && Enabled(s, Step(t, c)) && FindsNoWaiter(s, t, e)
    ensures Silent(Next(s, Step(t, c), limit), e)
  {
    StepIs(s, t, c, limit);
    var r := Next(s, Step(t, c), limit);
    assert r.threads == s.threads[t := Thread(s.threads[t].at, Quiet)] && r.sh == s.sh;
    hide Next;
    assert !Mute(s.threads[t], e) && BeforeTake(s.threads[t], e);
    assert Left(s.sh.db, e) && e !in s.sh.log.sender;
    UnsentUnheard(s.sh, e);
    assert Mute(r.threads[t], e);
    hide WaiterInv, PublishedLeft, AllOnce, NotYetTaken, Left, BeforeTake, Mute, Unheard;
    assert forall u :: u in r.threads && u != t ==> r.threads[u] == s.threads[u];
  }

  lemma UnsentUnheard(sh: Shared, e: nat)
    requires ChannelsSound(sh) && e !in sh.log.sender
    ensures Unheard(sh, e)
  {
  }

  /** In every reachable state: a publication that finds no waiter is the only one, whether the execution was run
      or cancelled.  Whatever happens next, nothing is ever sent for it, and its channel is never closed. */
  lemma {:induction false} MissedForever(s: State, before: seq<Action>, t: nat, c: Choice, after: seq<Action>,
      limit: nat, e: nat)
    requires Init(s) && Run(s, before, limit)
    requires var r := After(s, before, limit);
      Enabled(r, Step(t, c)) && FindsNoWaiter(r, t, e) && Run(Next(r, Step(t, c), limit), after, limit)
    ensures Silent(After(Next(After(s, before, limit), Step(t, c), limit), after, limit), e)
  {
    InitClaims(s);
    InitPublishes(s);
    InitWaits(s);
    var r := After(s, before, limit);
    hide ClaimInv, PublishInv, WaiterInv, Silent, Next, Enabled, Init, FindsNoWaiter;
    RunPublishes(s, before, limit);
    hide Run, After;
    TakeIsSilent(r, t, c, limit, e);
    NextKeepsClaims(r, Step(t, c), limit);
    NextPublishes(r, Step(t, c), limit);
    RunSilent(Next(r, Step(t, c), limit), after, limit, e);
  }

  /** A manual execution waits for the report of an execution that is finished and silent. */
  ghost predicate WaitsInVain(s: State, e: nat) {
    && Silent(s, e) && e in s.sh.waiters && e in s.sh.db.executions && s.sh.db.executions[e].status.Finished()
    && exists t :: t in s.threads && s.threads[t].at == Await(e)
  }

  /** From the empty database: a workflow with a manual trigger is started, a manual execution inserts and
      notifies, the worker claims, runs and publishes, and only then the waiter is registered. */
  lemma ReportCanBeMissed(limit: nat)
    requires limit > 0
    ensures exists s, r :: Init(s) && Reaches(s, r, limit) && WaitsInVain(r, 0)
  {
    var s0 := State(Down, map[], 0, Shared(EMPTY, map[], map[], {}, map[], 0,
                    Log(multiset{}, map[], {}, map[], map[], map[], map[], map[])));
    hide Reaches;
    BootUp(s0, limit);
    var s1 := s0.(phase := Up);
    StartUp(s0, s1, "id", true, limit);
    var s2 := Started(s1, "id", true);
    var s3 := ManualInserts(s0, s2, limit);
    var s4 := WorkerPublishes(s0, s3, limit);
    var r := WaiterRegisters(s0, s4, limit);
  }

  /** The manual execution stands before its registration. */
  ghost predicate Inserted(s: State) {
    && s.phase.Up? && s.nextThread == 3 && s.threads
       == map[1 := Thread(Parked(0), Quiet), 2 := Thread(Register(0, 0), Quiet)]
    && s.sh.managed.Keys == {0} && s.sh.managed[0].workflow == "id" && s.sh.managed[0].accepting
       && s.sh.managed[0].token
    && s.sh.db.queue == map[0 := QueueRow(0, "id", "manual", 0)] && s.sh.db.executions.Keys == {0}
    && s.sh.db.nextExecution == 1 && s.sh.waiters == {} && s.sh.channels == map[]
  }

  lemma ManualInserts(s0: State, s: State, limit: nat) returns (r: State)
    requires s0.phase.Down? && s0.threads == map[] && s0.nextThread == 0 && limit > 0
    requires s0.sh == Shared(EMPTY, map[], map[], {}, map[], 0,
      Log(multiset{}, map[], {}, map[], map[], map[], map[], map[]))
    requires s == Started(s0.(phase := Up), "id", true) && Reaches(s0, s, limit)
    ensures Reaches(s0, r, limit) && Inserted(r)
  {
    hide Reaches;
    var wf, m := "id", Some(0);
    assert QueueOf(s.sh.db, wf) == {};
    Begin(s0, s, ExecLookup(wf), limit);
    var b := s.(nextThread := 3);
    Walk(s0, b, 2, ExecLookup(wf), s.sh, Lookup(wf, m), limit);
    Walk(s0, b, 2, Lookup(wf, m), s.sh, Gate(wf, 0, m), limit);
    Walk(s0, b, 2, Gate(wf, 0, m), s.sh, Count(wf, 0, m), limit);
    Walk(s0, b, 2, Count(wf, 0, m), s.sh, Insert(wf, 0, m), limit);
    var sh1 := s.sh.(db := Create(s.sh.db, wf, "manual", 0).value,
                     log := s.sh.log.(creator := s.sh.log.creator[0 := 2], origin := s.sh.log.origin[0 := 0]));
    Walk(s0, b, 2, Insert(wf, 0, m), sh1, NotifyInsert(0, 0, m), limit);
    var sh2 := WithToken(sh1, 0, true);
    Walk(s0, b.(sh := sh1), 2, NotifyInsert(0, 0, m), sh2, Register(0, 0), limit);
    r := At(b.(sh := sh2), 2, Register(0, 0));
    assert r.threads == map[1 := Thread(Parked(0), Quiet), 2 := Thread(Register(0, 0), Quiet)];
  }

  /** The worker has published into the empty waiter map; the manual execution still stands before its registration. */
  ghost predicate Published(s: State) {
    && s.phase.Up? && s.threads == map[1 := Thread(ClearRunning(0), Quiet), 2 := Thread(Register(0, 0), Quiet)]
    && Left(s.sh.db, 0) && 0 in s.sh.db.executions && s.sh.db.executions[0].status.Finished()
    && s.sh.waiters == {} && s.sh.channels == map[]
  }

  lemma WorkerPublishes(s0: State, s: State, limit: nat) returns (r: State)
    requires Reaches(s0, s, limit) && Inserted(s)
    ensures Reaches(s0, r, limit) && Published(r)
  {
    hide Reaches;
    AtItself(s, 1, Parked(0));
    ToClaim(s0, s, 1, 0, limit);
    var a := s.(sh := WithToken(s.sh, 0, false));
    assert IsNext(a.sh.db, "id", 0);
    ClaimRow(s0, a, 1, 0, 0, limit);
    var b := a.(sh := ClaimedBy(a.sh, 1, 0));
    assert b.sh.db.queue == map[] && b.sh.db.executions.Keys == {0};
    assert Left(b.sh.db, 0);
    r := Finishes(s0, b, limit);
  }

  lemma Finishes(s0: State, b: State, limit: nat) returns (r: State)
    requires b.phase.Up? && Reaches(s0, At(b, 1, SetRunning(0, 0)), limit) && b.threads.Keys == {1, 2}
    requires b.threads[2] == Thread(Register(0, 0), Quiet) && Left(b.sh.db, 0) && 0 in b.sh.db.executions
    requires b.sh.waiters == {} && b.sh.channels == map[]
    ensures Reaches(s0, r, limit) && Published(r)
  {
    hide Reaches;
    var sh1 := WithRunning(b.sh, 0, true);
    Walk(s0, b, 1, SetRunning(0, 0), sh1, Execute(0, 0), limit);
    Walk(s0, b.(sh := sh1), 1, Execute(0, 0), sh1, Record(0, 0, ANY.report), limit);
    r := Publishes(s0, At(b.(sh := sh1), 1, Record(0, 0, ANY.report)), limit);
  }

  lemma Publishes(s0: State, s: State, limit: nat) returns (r: State)
    requires s.phase.Up? && Reaches(s0, s, limit) && s.threads.Keys == {1, 2}
      && s.threads[1] == Thread(Record(0, 0, ANY.report), Quiet)
    requires s.threads[2] == Thread(Register(0, 0), Quiet) && Left(s.sh.db, 0) && 0 in s.sh.db.executions
    requires s.sh.waiters == {} && s.sh.channels == map[]
    ensures Reaches(s0, r, limit) && Published(r)
  {
    hide Reaches;
    ReachesStep(s0, s, Step(1, ANY), limit);
    var p := Next(s, Step(1, ANY), limit);
    assert p.threads[1] == Thread(ClearRunning(0), Take(0, ANY.report)) && p.sh.waiters == {};
    assert Left(p.sh.db, 0) by {
      CompleteLeaves(s.sh.db, 0, ANY.report.status, ANY.report, 0);
      LeftKept(s.sh.db, p.sh.db, 0);
    }
    ReachesStep(s0, p, Step(1, ANY), limit);
    r := Next(p, Step(1, ANY), limit);
    assert r.threads == map[1 := Thread(ClearRunning(0), Quiet), 2 := Thread(Register(0, 0), Quiet)];
  }

  lemma WaiterRegisters(s0: State, s: State, limit: nat) returns (r: State)
    requires Reaches(s0, s, limit) && Published(s)
    ensures Reaches(s0, r, limit) && WaitsInVain(r, 0)
  {
    hide Reaches;
    AtItself(s, 2, Register(0, 0));
    var sh1 := s.sh.(waiters := s.sh.waiters + {0}, channels := s.sh.channels[0 := Channel([], 0, 0)]);
    Walk(s0, s, 2, Register(0, 0), sh1, NotifyManual(0, 0), limit);
    var sh2 := WithToken(sh1, 0, true);
    Walk(s0, s.(sh := sh1), 2, NotifyManual(0, 0), sh2, Await(0), limit);
    r := At(s.(sh := sh2), 2, Await(0));
    assert r.threads[2].at == Await(0);
  }
}
