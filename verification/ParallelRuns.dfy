/** The other side of clean starts: whenever a start has put its object into the workflow map and another worker
    of the workflow is not retired, two executions of the workflow can be running at once, and no other start is
    needed for that. */
module ParallelRuns {
  import opened Base
  import opened Reports
  import opened Tables
  import opened Retention
  import opened Stores
  import opened Protocol
  import opened ClaimSafety
  import opened Waiters
  import opened Wakeups
  import opened OwnInserts
  import opened Reaching
  import opened Knowledge
  import opened Retirement
  import opened SoleWorkers
  import opened OneStart
  import opened Waking

  // ---------------------------------------------------------------- the start goes on to its end

  /** The new worker is parked with a token; the old one holds an execution or stands before its claim. */
  ghost predicate BothReady(s: State, k: Cast) {
    && s.phase.Up? && k.u in s.threads && WorkerAt(s.threads[k.u].at) == Some(k.m)
    && (Holds(s.threads[k.u].at).Some? || s.threads[k.u] == Thread(ClaimNext(k.m), Quiet))
    && k.w in s.threads && s.threads[k.w] == Thread(Parked(k.n), Quiet) && k.u != k.w
    && k.m in s.sh.managed && s.sh.managed[k.m].workflow == k.wf && CanEnqueue(s.sh, k)
  }

  /** The new object is open, notified and registered, and its workflow is there. */
  ghost predicate CanEnqueue(sh: Shared, k: Cast) {
    && k.n in sh.managed && sh.managed[k.n].workflow == k.wf && sh.managed[k.n].accepting && sh.managed[k.n].token
    && k.wf in sh.registered && sh.registered[k.wf] == k.n && k.wf in sh.db.workflows
  }

  lemma ActivateStep(s: State, t: nat, m: nat, row: Workflow, c: Choice, limit: nat)
    requires t in s.threads && s.threads[t] == Thread(Activate(m, row), Quiet) && m in s.sh.managed
    ensures Apply(s, t, ThreadStep(s.sh, s.threads[t], t, s.nextThread, c, limit))
         == s.(sh := s.sh.(db := UpsertWorkflow(s.sh.db, s.sh.managed[m].workflow, row.(active := true))),
               threads := s.threads[t := Thread(NotifyActive(m), Quiet)])
  {
    hide UpsertWorkflow;
  }

  lemma NotifyStep(s: State, t: nat, m: nat, c: Choice, limit: nat)
    requires t in s.threads && s.threads[t] == Thread(NotifyActive(m), Quiet)
    ensures Apply(s, t, ThreadStep(s.sh, s.threads[t], t, s.nextThread, c, limit))
         == s.(sh := Activated(s.sh, m), threads := s.threads - {t})
  {
  }

  lemma StartEnds(s0: State, s: State, k: Cast, limit: nat) returns (r: State)
    requires Reaches(s0, s, limit) && Scene(s, k)
    requires Holds(s.threads[k.u].at).Some? || s.threads[k.u] == Thread(ClaimNext(k.m), Quiet)
    ensures Reaches(s0, r, limit) && BothReady(r, k) && Kept(s, r)
  {
    hide Reaches, ThreadStep, Apply;
    var row := s.threads[k.t].at.row;
    var mid := StepTo(s0, s, k.t, ANY, limit);
    ActivateStep(s, k.t, k.n, row, ANY, limit);
    r := StepTo(s0, mid, k.t, ANY, limit);
    NotifyStep(mid, k.t, k.n, ANY, limit);
    StartEnded(s, r, k, row);
  }

  lemma StartEnded(s: State, r: State, k: Cast, row: Workflow)
    requires Scene(s, k) && (Holds(s.threads[k.u].at).Some? || s.threads[k.u] == Thread(ClaimNext(k.m), Quiet))
    requires r.phase == s.phase && r.threads == s.threads[k.t := Thread(NotifyActive(k.n), Quiet)] - {k.t}
    requires r.sh == Activated(s.sh.(db := UpsertWorkflow(s.sh.db, k.wf, row.(active := true))), k.n)
    ensures BothReady(r, k) && Kept(s, r)
  {
    assert k.n in s.sh.managed.Keys;
    hide MayOpen;
  }

  // ---------------------------------------------------------------- both claim

  /** There is a row to claim, if need be after one more enqueue through the registered object. */
  lemma RowToClaim(s0: State, s: State, k: Cast, limit: nat) returns (r: State, q: nat)
    requires Sound(s0) && Reaches(s0, s, limit) && s.phase.Up? && limit > 0 && CanEnqueue(s.sh, k)
    ensures Reaches(s0, r, limit) && r.phase.Up? && r.threads == s.threads && IsNext(r.sh.db, k.wf, q)
    ensures r.sh == s.sh.(db := r.sh.db, log := r.sh.log) && k.wf in r.sh.db.workflows
  {
    hide Reaches, IsNext, HasQueued, Sound;
    ReachableSound(s0, s, limit);
    r := s;
    if !HasQueued(s.sh.db, k.wf) {
      NoRow(s.sh.db, k.wf);
      hide QueueOf;
      SoundObjects(s);
      Enqueue(s0, s, k.wf, k.n, limit);
      r := s.(nextThread := s.nextThread + 1, sh := Enqueued(s.sh, k.wf, k.n, s.nextThread));
      TokenThere(s.sh, r.sh, k, s.nextThread);
    }
    ClaimableHasNext(r.sh.db, k.wf);
    q :| IsNext(r.sh.db, k.wf, q);
  }

  /** An enqueue for an object that has its token changes only tables and log. */
  lemma TokenThere(sh: Shared, r: Shared, k: Cast, t: nat)
    requires CanEnqueue(sh, k) && r == Enqueued(sh, k.wf, k.n, t)
    ensures r == sh.(db := r.db, log := r.log) && k.wf in r.db.workflows && HasQueued(r.db, k.wf)
  {
    assert r.managed == sh.managed;
    assert r.db.queue[sh.db.nextQueue].workflow == k.wf;
  }

  lemma NoRow(db: Db, wf: string)
    requires !HasQueued(db, wf)
    ensures QueueOf(db, wf) == {}
  {
  }

  /** A worker before its claim takes the row. */
  lemma TakeRow(s0: State, s: State, wf: string, x: nat, m: nat, q: nat, limit: nat) returns (r: State, e: nat)
    requires Reaches(s0, s, limit) && s.phase.Up? && x in s.threads && s.threads[x] == Thread(ClaimNext(m), Quiet)
    requires m in s.sh.managed && s.sh.managed[m].workflow == wf && IsNext(s.sh.db, wf, q)
    ensures Reaches(s0, r, limit) && r.phase.Up? && r.threads == s.threads[x := Thread(SetRunning(m, e), Quiet)]
    ensures r.sh == s.sh.(db := r.sh.db, log := r.sh.log) && r.sh.db.workflows == s.sh.db.workflows
  {
    hide Reaches;
    AtItself(s, x, ClaimNext(m));
    NextIsQueued(s.sh.db, wf, q);
    hide HasQueued;
    ClaimRow(s0, s, x, m, q, limit);
    e := s.sh.db.queue[q].execution;
    r := At(s.(sh := ClaimedBy(s.sh, x, q)), x, SetRunning(m, e));
  }

  /** The old worker claims if it does not hold an execution already. */
  lemma OldClaims(s0: State, s: State, k: Cast, limit: nat) returns (r: State)
    requires Sound(s0) && Reaches(s0, s, limit) && limit > 0 && BothReady(s, k)
    ensures Reaches(s0, r, limit) && BothReady(r, k) && Holds(r.threads[k.u].at).Some?
    ensures r.sh.managed == s.sh.managed && r.sh.nextManaged == s.sh.nextManaged
    ensures forall x :: x in s.threads && x != k.u ==> x in r.threads && r.threads[x] == s.threads[x]
  {
    hide Reaches, IsNext, Sound;
    r := s;
    if Holds(s.threads[k.u].at).None? {
      var mid, q := RowToClaim(s0, s, k, limit);
      var e: nat;
      r, e := TakeRow(s0, mid, k.wf, k.u, k.m, q, limit);
    }
  }

  lemma NewClaims(s0: State, s: State, k: Cast, limit: nat) returns (r: State)
    requires Sound(s0) && Reaches(s0, s, limit) && limit > 0 && BothReady(s, k) && Holds(s.threads[k.u].at).Some?
    ensures Reaches(s0, r, limit) && TwoAtOnce(r, k.wf) && r.sh.managed.Keys == s.sh.managed.Keys
      && r.sh.nextManaged == s.sh.nextManaged
    ensures forall x :: x in s.threads && x != k.w ==> x in r.threads && r.threads[x] == s.threads[x]
  {
    hide Reaches, IsNext, Sound;
    var s1, q := RowToClaim(s0, s, k, limit);
    AtItself(s1, k.w, Parked(k.n));
    ToClaim(s0, s1, k.w, k.n, limit);
    var s2 := At(s1.(sh := WithToken(s1.sh, k.n, false)), k.w, ClaimNext(k.n));
    var e: nat;
    r, e := TakeRow(s0, s2, k.wf, k.w, k.n, q, limit);
    assert Serves(r, k.u, k.wf) && Serves(r, k.w, k.wf);
  }

  lemma BothClaim(s0: State, s: State, k: Cast, limit: nat) returns (r: State)
    requires Sound(s0) && Reaches(s0, s, limit) && limit > 0 && BothReady(s, k) && s.sh.managed != map[]
    ensures Reaches(s0, r, limit) && TwoAtOnce(r, k.wf) && Kept(s, r)
  {
    hide Reaches, Sound, TwoAtOnce;
    assert forall v :: v in s.threads && s.threads[v].at.Announce? ==> v != k.u && v != k.w;
    var mid := OldClaims(s0, s, k, limit);
    r := NewClaims(s0, mid, k, limit);
    hide BothReady;
  }

  // ---------------------------------------------------------------- an announcement that finds a worker

  /** Without a start, two executions of the workflow can come to run at once. */
  ghost predicate CanRunTwo(s: State, wf: string, limit: nat) {
    exists actions :: Run(s, actions, limit) && NoOtherStart(s, actions, limit)
      && TwoAtOnce(After(s, actions, limit), wf)
  }

  lemma AnnounceStep(s: State, t: nat, c: Choice, limit: nat)
    requires Enabled(s, Step(t, c)) && Announces(s, t) && s.threads[t].at.m in s.sh.managed
    ensures var n, r := s.threads[t].at.m, Next(s, Step(t, c), limit);
      && r.phase == s.phase && r.threads == s.threads[t := Thread(Activate(n,
         Workflow(c.name, c.message, true)), Quiet)]
      && r.sh == s.sh.(registered := s.sh.registered[s.sh.managed[n].workflow := n])
  {
    StepIs(s, t, c, limit);
    hide Next;
  }

  lemma MayOpenRefers(at: Pc, m: nat)
    ensures MayOpen(at, m) ==> Refers(at, m)
  {
  }

  /** A fresh object is open, and its worker is parked. */
  lemma FreshOpen(s: State, t: nat)
    requires KnowInv(s) && Announces(s, t)
    ensures AsBuilt(s, s.threads[t].at.m) && Open(s, s.threads[t].at.m)
  {
    var n := s.threads[t].at.m;
    assert Unannounced(s, n);
    forall v | v in s.threads ensures !MayOpen(s.threads[v].at, n) {
      MayOpenRefers(s.threads[v].at, n);
    }
    hide MayOpen, Refers, Unannounced;
  }

  /** The state after the announcement of the object `n`. */
  ghost predicate Announced(s: State, r: State, t: nat, n: nat, row: Workflow) {
    && s.phase.Up? && r.phase == s.phase && Announces(s, t) && s.threads[t].at.m == n && n in s.sh.managed
    && r.threads == s.threads[t := Thread(Activate(n, row), Quiet)]
    && r.sh == s.sh.(registered := s.sh.registered[s.sh.managed[n].workflow := n])
  }

  lemma AnnouncedOpen(s: State, r: State, t: nat, n: nat, row: Workflow)
    requires KnowInv(s) && Announced(s, r, t, n, row)
    ensures Open(r, n) && AsBuilt(r, n) && s.sh.managed[n].worker != t
  {
    FreshOpen(s, t);
    hide KnowInv, MayOpen;
    assert !MayOpen(Activate(n, row), n) by { MayOpenRefers(Activate(n, row), n); }
  }

  lemma SetNewSide(s: State, r: State, k: Cast, row: Workflow)
    requires Announced(s, r, k.t, k.n, row) && Open(r, k.n) && AsBuilt(r, k.n) && k.w == r.sh.managed[k.n].worker
    requires k.wf == s.sh.managed[k.n].workflow
    ensures NewSide(r, k)
  {
    hide Open;
  }

  lemma SetOldSide(r: State, k: Cast)
    requires Live(r, k.u, k.wf) && WorkerAt(r.threads[k.u].at) == Some(k.m) && k.m != k.n && k.m in r.sh.managed
    ensures OldSide(r, k) && !Unannounced(r, k.m) && !Retired(r, k.u, k.m)
  {
    hide Unannounced, Retired;
  }

  lemma SetScene(s: State, r: State, t: nat, n: nat, row: Workflow, u: nat) returns (k: Cast)
    requires Sound(s) && Announced(s, r, t, n, row)
    requires Sound(r) && Live(r, u, WorkflowOf(r.sh, n)) && WorkerAt(r.threads[u].at) != Some(n)
    ensures k.t == t && k.n == n && k.u == u && k.wf == WorkflowOf(s.sh, n) && Scene(r, k)
    ensures !Unannounced(r, k.m) && !Retired(r, k.u, k.m)
  {
    SoundKnows(s);
    AnnouncedOpen(s, r, t, n, row);
    LiveWorks(r, u, WorkflowOf(r.sh, n));
    WorkerKnown(r, u);
    k := Cast(s.sh.managed[n].workflow, t, u, WorkerAt(r.threads[u].at).value, r.sh.managed[n].worker, n);
    assert k.wf == WorkflowOf(r.sh, n);
    hide Sound, KnowInv, Live, Unannounced, Retired, Open, NewSide, OldSide, AsBuilt, Announced;
    SetNewSide(s, r, k, row);
    SetOldSide(r, k);
  }

  lemma LiveWorks(s: State, u: nat, wf: string)
    requires Live(s, u, wf)
    ensures u in s.threads && WorkerAt(s.threads[u].at).Some?
  {
  }

  lemma SoundKnows(s: State)
    requires Sound(s)
    ensures KnowInv(s)
  {
  }

  lemma WorkerKnown(s: State, u: nat)
    requires Sound(s) && u in s.threads && WorkerAt(s.threads[u].at).Some?
    ensures WorkerAt(s.threads[u].at).value in s.sh.managed
  {
  }

  lemma OldWakes(s: State, k: Cast, limit: nat) returns (r: State)
    requires Sound(s) && Scene(s, k) && limit > 0 && !Unannounced(s, k.m) && !Retired(s, k.u, k.m)
    requires BetweenRuns(s.threads[k.u].at, k.m)
    ensures Reaches(s, r, limit) && Forward(s, r, k) && r.threads[k.u] == Thread(ClaimNext(k.m), Quiet)
  {
    ReachesItself(s, limit);
    SoundPlaced(s);
    hide Reaches, Sound, Retired, Unannounced, NewSide;
    var mid := WakeUp(s, s, k, limit);
    hide OldSide, Kept;
    r := OldToClaim(s, mid, k, limit);
    KeptJoins(s, mid, r);
  }

  /** The old worker comes to hold an execution or to stand before its claim. */
  lemma OldComesBack(s: State, k: Cast, limit: nat) returns (r: State)
    requires Sound(s) && Scene(s, k) && limit > 0 && !Unannounced(s, k.m) && !Retired(s, k.u, k.m)
    ensures Reaches(s, r, limit) && Forward(s, r, k)
    ensures Holds(r.threads[k.u].at).Some? || r.threads[k.u] == Thread(ClaimNext(k.m), Quiet)
  {
    if BetweenRuns(s.threads[k.u].at, k.m) {
      hide *;
      r := OldWakes(s, k, limit);
    } else {
      ReachesItself(s, limit);
      OldThere(s, k);
      OnwardItself(s, k);
      hide *;
      r := s;
      OnwardForward(s, k);
    }
  }

  lemma OnwardForward(s: State, k: Cast)
    requires Onward(s, s, k)
    ensures Forward(s, s, k)
  {
  }

  lemma OldThere(s: State, k: Cast)
    requires Sound(s) && OldSide(s, k) && !BetweenRuns(s.threads[k.u].at, k.m)
    ensures Holds(s.threads[k.u].at).Some? || s.threads[k.u] == Thread(ClaimNext(k.m), Quiet)
  {
    SoundPlaced(s);
    hide Sound;
  }

  /** In every reachable state: if an announcement finds a worker of the workflow that is not retired, there is a
      continuation without any other start in which two executions of the workflow run at once. */
  lemma UncleanStartCanRunTwo(s0: State, s: State, t: nat, c: Choice, limit: nat)
    requires Init(s0) && Reaches(s0, s, limit) && s.phase.Up? && limit > 0 && Announces(s, t)
    requires !OthersRetired(Next(s, Step(t, c), limit), s.threads[t].at.m)
    ensures var r := Next(s, Step(t, c), limit);
      CanRunTwo(r, WorkflowOf(s.sh, s.threads[t].at.m), limit)
  {
    InitSound(s0);
    ReachableSound(s0, s, limit);
    SoundGoesOn(s, t, c, limit);
  }

  lemma SoundGoesOn(s: State, t: nat, c: Choice, limit: nat)
    requires Sound(s) && s.phase.Up? && limit > 0 && Announces(s, t)
    requires !OthersRetired(Next(s, Step(t, c), limit), s.threads[t].at.m)
    ensures var r := Next(s, Step(t, c), limit);
      CanRunTwo(r, WorkflowOf(s.sh, s.threads[t].at.m), limit)
  {
    var n, r := s.threads[t].at.m, Next(s, Step(t, c), limit);
    AnnouncedKnown(s, t);
    NextSound(s, Step(t, c), limit);
    AnnounceStep(s, t, c, limit);
    hide Next, Sound, Live, Scene, Reaches, TwoAtOnce, Kept, CanRunTwo;
    var u :| Live(r, u, WorkflowOf(r.sh, n)) && WorkerAt(r.threads[u].at) != Some(n);
    var k := SetScene(s, r, t, n, Workflow(c.name, c.message, true), u);
    var a := OldComesBack(r, k, limit);
    hide OthersRetired, Announces;
    var b := StartEnds(r, a, k, limit);
    ReadyManaged(b, k);
    var e := BothClaim(r, b, k, limit);
    KeptJoins(r, a, b);
    KeptJoins(r, b, e);
    RunTo(r, e, limit, k.wf);
  }

  lemma AnnouncedKnown(s: State, t: nat)
    requires Sound(s) && Announces(s, t)
    ensures s.threads[t].at.m in s.sh.managed
  {
  }

  lemma ReadyManaged(s: State, k: Cast)
    requires BothReady(s, k)
    ensures s.sh.managed != map[]
  {
  }

  lemma RunTo(s: State, r: State, limit: nat, wf: string)
    requires Sound(s) && Reaches(s, r, limit) && Kept(s, r) && TwoAtOnce(r, wf)
    ensures CanRunTwo(s, wf, limit)
  {
    hide Sound, Kept, TwoAtOnce, NoOtherStart;
    var actions :| Run(s, actions, limit) && After(s, actions, limit) == r;
    KeptHasNoStart(s, actions, limit);
  }

  // ---------------------------------------------------------------- the exact condition

  /** In a run whose starts were clean so far the next start is safe exactly if it is clean too: no continuation
      without another start runs two executions of its workflow at once. */
  lemma {:induction false} NextStartSafeIffClean(s0: State, before: seq<Action>, t: nat, c: Choice, limit: nat)
    requires Init(s0) && Run(s0, before, limit) && CleanRun(s0, before, limit) && limit > 0
    requires var s := After(s0, before, limit); s.phase.Up? && Announces(s, t)
    ensures var s := After(s0, before, limit);
      var r, n := Next(s, Step(t, c), limit), s.threads[t].at.m;
      CanRunTwo(r, WorkflowOf(s.sh, n), limit) <==> !OthersRetired(r, n)
  {
    var s := After(s0, before, limit);
    var r, n := Next(s, Step(t, c), limit), s.threads[t].at.m;
    var wf := WorkflowOf(s.sh, n);
    InitSound(s0);
    assert OneLiveEach(s0);
    hide Init, Sound, OneLiveEach, CleanRun, OthersRetired, TwoAtOnce, Next, NoOtherStart, Announces;
    RunSound(s0, before, limit);
    RunSole(s0, before, limit);
    hide Run, After;
    if OthersRetired(r, n) {
      SoleNext(s, t, c, limit);
      forall actions | Run(r, actions, limit) && NoOtherStart(r, actions, limit)
        ensures !TwoAtOnce(After(r, actions, limit), wf) {
        NoStartIsClean(r, actions, limit);
        RunSound(r, actions, limit);
        RunSole(r, actions, limit);
        SoleNeverTwo(After(r, actions, limit), wf);
      }
    } else {
      SoundGoesOn(s, t, c, limit);
    }
  }

  lemma SoleNext(s: State, t: nat, c: Choice, limit: nat)
    requires Sound(s) && OneLiveEach(s) && s.phase.Up? && Announces(s, t)
      && OthersRetired(Next(s, Step(t, c), limit), s.threads[t].at.m)
    ensures Sound(Next(s, Step(t, c), limit)) && OneLiveEach(Next(s, Step(t, c), limit))
  {
    NextSole(s, Step(t, c), limit);
    NextSound(s, Step(t, c), limit);
    hide Sound, OneLiveEach, OthersRetired, Next;
  }

  // ---------------------------------------------------------------- a restart

  /** The restart has built its object; the worker of the first one stands before its claim. */
  ghost predicate Restarting(s: State) {
    && s.phase.Up? && s.threads == map[1 := Thread(ClaimNext(0), Quiet), 4 := Thread(Parked(1), Quiet),
       3 := Thread(Announce(1), Quiet)]
    && s.sh.managed.Keys == {0, 1} && s.sh.nextManaged == 2 && s.sh.managed[0].workflow == "id"
       && s.sh.managed[1].workflow == "id"
  }

  /** The worker passes isAccepting, the stop of the restart sees it idle, and the restart builds its object. */
  lemma RestartBuilds(s0: State, limit: nat) returns (r: State)
    requires s0 == State(Down, map[], 0, Shared(EMPTY, map[], map[], {}, map[], 0,
                         Log(multiset{}, map[], {}, map[], map[], map[], map[], map[])))
    ensures Reaches(s0, r, limit) && Restarting(r)
  {
    var wf := "id";
    hide Reaches;
    BootUp(s0, limit);
    var s1 := s0.(phase := Up);
    StartUp(s0, s1, wf, false, limit);
    var s2 := Started(s1, wf, false);
    AtItself(s2, 1, Parked(0));
    ToClaim(s0, s2, 1, 0, limit);
    var s3 := At(s2.(sh := WithToken(s2.sh, 0, false)), 1, ClaimNext(0));
    assert QueueOf(s3.sh.db, wf) == {};
    Stop(s0, s3, wf, 0, limit);
    var s4 := s3.(nextThread := 3, sh := Halted(s3.sh, wf, 0));
    FirstUpsert(s0, s4, wf, false, limit);
    var s5 := s4.(nextThread := 4, sh := s4.sh.(db := UpsertWorkflow(s4.sh.db, wf, ROW.(active := false))));
    Spawned(s0, s5, 3, wf, false, limit);
    r := At(s5.(threads := s5.threads[4 := Thread(Parked(1), Quiet)], nextThread := 5,
      sh := WithObject(s5.sh, wf, false, 3, 4)), 3, Announce(1));
  }

  lemma OldIsLive(s: State, limit: nat)
    requires Restarting(s)
    ensures Announces(s, 3) && s.threads[3].at.m == 1 && WorkflowOf(s.sh, 1) == "id"
      && !OthersRetired(Next(s, Step(3, ANY), limit), 1)
  {
    AnnounceStep(s, 3, ANY, limit);
    hide Next;
    StillLive(s, Next(s, Step(3, ANY), limit), Workflow(ANY.name, ANY.message, true));
  }

  lemma StillLive(s: State, r: State, row: Workflow)
    requires Restarting(s) && r.threads == s.threads[3 := Thread(Activate(1, row), Quiet)]
    requires r.sh == s.sh.(registered := s.sh.registered["id" := 1])
    ensures !OthersRetired(r, 1)
  {
    assert !Unannounced(r, 0);
    hide Unannounced;
    assert r.threads[1] == Thread(ClaimNext(0), Quiet);
    assert Live(r, 1, "id");
  }

  /** The restart puts its object into the workflow map, and without another start two executions can run. */
  ghost predicate GoesOnToTwo(s: State, limit: nat) {
    Restarting(s) && CanRunTwo(Next(s, Step(3, ANY), limit), "id", limit)
  }

  lemma RestartGoesOn(s0: State, limit: nat) returns (r: State)
    requires limit > 0 && Init(s0) && s0.nextThread == 0
    ensures Reaches(s0, r, limit) && GoesOnToTwo(r, limit)
  {
    hide Reaches, Next, CanRunTwo;
    r := RestartBuilds(s0, limit);
    OldIsLive(r, limit);
    UncleanStartCanRunTwo(s0, r, 3, ANY, limit);
  }

  /** A run from the empty database with one start and one restart: a worker passes isAccepting, the stop of the
      restart sees its object idle, the new object is announced, and without any other start both workers claim. */
  lemma RestartCanRunTwo(limit: nat)
    requires limit > 0
    ensures exists s, mid :: Init(s) && Reaches(s, mid, limit) && GoesOnToTwo(mid, limit)
  {
    hide Reaches, GoesOnToTwo;
    var s := State(Down, map[], 0, Shared(EMPTY, map[], map[], {}, map[], 0,
                   Log(multiset{}, map[], {}, map[], map[], map[], map[], map[])));
    var mid := RestartGoesOn(s, limit);
  }
}
