/** Runs put together step by step: which states the daemon can reach, and the stretches that concrete runs
    are made of. */
module Reaching {
  import opened Base
  import opened Reports
  import opened Tables
  import opened Retention
  import opened Protocol
  import opened ClaimSafety
  import opened Wakeups

  // ---------------------------------------------------------------- reachability

  lemma {:induction false} RunJoins(s: State, a: seq<Action>, b: seq<Action>, limit: nat)
    requires Run(s, a, limit) && Run(After(s, a, limit), b, limit)
    ensures Run(s, a + b, limit) && After(s, a + b, limit) == After(After(s, a, limit), b, limit)
    decreases |a|
  {
    hide Next;
    if a == [] {
      assert a + b == b;
    } else {
      assert (a + b)[1..] == a[1..] + b;
      RunJoins(Next(s, a[0], limit), a[1..], b, limit);
    }
  }

  ghost predicate Reaches(s: State, r: State, limit: nat) {
    exists actions :: Run(s, actions, limit) && After(s, actions, limit) == r
  }

  lemma {:induction false} ReachesRun(s: State, r: State, more: seq<Action>, limit: nat)
    requires Reaches(s, r, limit) && Run(r, more, limit)
    ensures Reaches(s, After(r, more, limit), limit)
  {
    var actions :| Run(s, actions, limit) && After(s, actions, limit) == r;
    RunJoins(s, actions, more, limit);
  }

  lemma ReachesStep(s: State, r: State, a: Action, limit: nat)
    requires Reaches(s, r, limit) && Enabled(r, a)
    ensures Reaches(s, Next(r, a, limit), limit)
  {
    hide Next, Enabled, Reaches;
    assert [a][1..] == [];
    assert Run(Next(r, a, limit), [a][1..], limit);
    assert Run(r, [a], limit) && After(r, [a], limit) == After(Next(r, a, limit), [a][1..], limit);
    ReachesRun(s, r, [a], limit);
  }

  lemma StepTo(s0: State, s: State, t: nat, c: Choice, limit: nat) returns (r: State)
    requires Reaches(s0, s, limit) && s.phase.Up? && t in s.threads
    ensures Reaches(s0, r, limit) && r == Apply(s, t, ThreadStep(s.sh, s.threads[t], t, s.nextThread, c, limit))
  {
    hide Reaches, ThreadStep;
    r := Next(s, Step(t, c), limit);
    ReachesStep(s0, s, Step(t, c), limit);
    StepIs(s, t, c, limit);
  }

  lemma ReachesItself(s: State, limit: nat)
    ensures Reaches(s, s, limit)
  {
    assert Run(s, [], limit) && After(s, [], limit) == s;
  }

  const ANY := Choice(0, true, Report("", "", Ok, 0, 0, []), 0, [], "w", "latest")

  /** The state when goroutine `t` stands at `pc`. */
  function At(s: State, t: nat, pc: Pc): State {
    s.(threads := s.threads[t := Thread(pc, Quiet)])
  }

  /** One step of a goroutine that stays alive and starts no other. */
  lemma WalkBy(s0: State, s: State, t: nat, c: Choice, pc: Pc, sh: Shared, next: Pc, limit: nat)
    requires s.phase.Up? && Reaches(s0, At(s, t, pc), limit)
    requires ThreadStep(s.sh, Thread(pc, Quiet), t, s.nextThread, c, limit) == Goto(sh, next)
    ensures Reaches(s0, At(s.(sh := sh), t, next), limit)
  {
    hide Reaches, ThreadStep;
    var r := At(s, t, pc);
    ReachesStep(s0, r, Step(t, c), limit);
    assert r.threads[t := Thread(next, Quiet)] == s.threads[t := Thread(next, Quiet)];
    assert Next(r, Step(t, c), limit) == At(s.(sh := sh), t, next);
  }

  lemma Walk(s0: State, s: State, t: nat, pc: Pc, sh: Shared, next: Pc, limit: nat)
    requires s.phase.Up? && Reaches(s0, At(s, t, pc), limit)
    requires ThreadStep(s.sh, Thread(pc, Quiet), t, s.nextThread, ANY, limit) == Goto(sh, next)
    ensures Reaches(s0, At(s.(sh := sh), t, next), limit)
  {
    hide Reaches, ThreadStep;
    WalkBy(s0, s, t, ANY, pc, sh, next, limit);
  }

  /** The last step of a goroutine. */
  lemma Leave(s0: State, s: State, t: nat, pc: Pc, sh: Shared, limit: nat)
    requires s.phase.Up? && t !in s.threads && Reaches(s0, At(s, t, pc), limit)
    requires ThreadStep(s.sh, Thread(pc, Quiet), t, s.nextThread, ANY, limit) == Exit(sh)
    ensures Reaches(s0, s.(sh := sh), limit)
  {
    hide Reaches, ThreadStep;
    var r := At(s, t, pc);
    ReachesStep(s0, r, Step(t, ANY), limit);
    assert r.threads - {t} == s.threads;
    assert Next(r, Step(t, ANY), limit) == s.(sh := sh);
  }

  /** A new goroutine, which runs as `s.nextThread`. */
  lemma Begin(s0: State, s: State, pc: Pc, limit: nat)
    requires s.phase.Up? && MayStart(s.sh, pc) && Reaches(s0, s, limit)
    ensures Reaches(s0, At(s.(nextThread := s.nextThread + 1), s.nextThread, pc), limit)
  {
    hide Reaches;
    ReachesStep(s0, s, Request(pc), limit);
  }

  lemma BootUp(s0: State, limit: nat)
    requires Init(s0)
    ensures Reaches(s0, s0.(phase := Up), limit)
  {
    hide Reaches;
    ReachesItself(s0, limit);
    assert StaleIds(s0.sh.db) == {} && Elements<nat>([]) == {};
    ReachesStep(s0, s0, BootList([]), limit);
    ReachesStep(s0, s0.(phase := Repairing([])), BootDone, limit);
  }

  const ROW := Workflow("w", "latest", true)

  // ---------------------------------------------------------------- a start

  /** The shared state once the object `m` is announced and its activation has notified. */
  function Announced(sh: Shared, wf: string, m: nat): Shared {
    Activated(sh.(registered := sh.registered[wf := m], db := UpsertWorkflow(sh.db, wf, ROW)), m)
  }

  /** The shared state with a new workflow object for goroutine `t`, served by goroutine `n`. */
  function WithObject(sh: Shared, wf: string, manual: bool, t: nat, n: nat): Shared {
    sh.(managed := sh.managed[sh.nextManaged := Managed(wf, manual, true, false, false, false, n, t)],
      nextManaged := sh.nextManaged + 1)
  }

  /** After a start: a fresh workflow object, announced, with a token, its worker parked. */
  function Started(s: State, wf: string, manual: bool): State {
    var t, m := s.nextThread, s.sh.nextManaged;
    s.(threads := s.threads[t + 1 := Thread(Parked(m), Quiet)], nextThread := t + 2,
       sh := Announced(WithObject(s.sh, wf, manual, t, t + 1), wf, m))
  }

  /** The object is built and its worker runs as `s.nextThread`. */
  lemma Spawned(s0: State, s: State, t: nat, wf: string, manual: bool, limit: nat)
    requires s.phase.Up? && s.nextThread != t && Reaches(s0, At(s, t, SpawnWorker(wf, manual)), limit)
    ensures var n, m := s.nextThread, s.sh.nextManaged;
      Reaches(s0, At(s.(threads := s.threads[n := Thread(Parked(m), Quiet)], nextThread := n + 1,
                        sh := WithObject(s.sh, wf, manual, t, n)), t, Announce(m)), limit)
  {
    hide Reaches;
    var r := At(s, t, SpawnWorker(wf, manual));
    ReachesStep(s0, r, Step(t, ANY), limit);
    var n, m := s.nextThread, s.sh.nextManaged;
    assert r.threads[t := Thread(Announce(m), Quiet)][n := Thread(Parked(m), Quiet)]
        == s.threads[n := Thread(Parked(m), Quiet)][t := Thread(Announce(m), Quiet)];
  }

  lemma FirstUpsert(s0: State, s: State, wf: string, manual: bool, limit: nat)
    requires s.phase.Up? && Reaches(s0, s, limit)
    ensures Reaches(s0, At(s.(nextThread := s.nextThread + 1,
      sh := s.sh.(db := UpsertWorkflow(s.sh.db, wf, ROW.(active := false)))),
                           s.nextThread, SpawnWorker(wf, manual)), limit)
  {
    hide Reaches;
    var t := s.nextThread;
    Begin(s0, s, Upsert(wf, ROW), limit);
    WalkBy(s0, s.(nextThread := t + 1), t, ANY.(flag := manual), Upsert(wf, ROW),
           s.sh.(db := UpsertWorkflow(s.sh.db, wf, ROW.(active := false))), SpawnWorker(wf, manual), limit);
  }

  /** Announce, activate, notify. */
  lemma StartTail(s0: State, s: State, t: nat, wf: string, m: nat, limit: nat)
    requires s.phase.Up? && t !in s.threads && Reaches(s0, At(s, t, Announce(m)), limit)
    requires m in s.sh.managed && s.sh.managed[m].workflow == wf
    ensures Reaches(s0, s.(sh := Announced(s.sh, wf, m)), limit)
  {
    hide Reaches;
    var sh4 := s.sh.(registered := s.sh.registered[wf := m]);
    Walk(s0, s, t, Announce(m), sh4, Activate(m, ROW), limit);
    var s4 := s.(sh := sh4);
    ActivateTail(s0, s4, t, wf, m, limit);
  }

  lemma ActivateTail(s0: State, s: State, t: nat, wf: string, m: nat, limit: nat)
    requires s.phase.Up? && t !in s.threads && Reaches(s0, At(s, t, Activate(m, ROW)), limit)
    requires m in s.sh.managed && s.sh.managed[m].workflow == wf
    ensures Reaches(s0, s.(sh := Activated(s.sh.(db := UpsertWorkflow(s.sh.db, wf, ROW)), m)), limit)
  {
    hide Reaches;
    var sh5 := s.sh.(db := UpsertWorkflow(s.sh.db, wf, ROW));
    Walk(s0, s, t, Activate(m, ROW), sh5, NotifyActive(m), limit);
    Leave(s0, s.(sh := sh5), t, NotifyActive(m), Activated(sh5, m), limit);
  }

  lemma StartUp(s0: State, s: State, wf: string, manual: bool, limit: nat)
    requires s.phase.Up? && s.nextThread !in s.threads && s.nextThread + 1 !in s.threads && Reaches(s0, s, limit)
    ensures Reaches(s0, Started(s, wf, manual), limit)
  {
    hide Reaches;
    var t, m := s.nextThread, s.sh.nextManaged;
    FirstUpsert(s0, s, wf, manual, limit);
    var s2 := s.(nextThread := t + 1, sh := s.sh.(db := UpsertWorkflow(s.sh.db, wf, ROW.(active := false))));
    Spawned(s0, s2, t, wf, manual, limit);
    var s3 := s2.(threads := s.threads[t + 1 := Thread(Parked(m), Quiet)], nextThread := t + 2,
                  sh := WithObject(s2.sh, wf, manual, t, t + 1));
    StartTail(s0, s3, t, wf, m, limit);
    assert UpsertWorkflow(s2.sh.db, wf, ROW) == UpsertWorkflow(s.sh.db, wf, ROW);
    assert s3.(sh := Announced(s3.sh, wf, m)) == Started(s, wf, manual);
  }

  // ---------------------------------------------------------------- an enqueue, a claim

  /** An enqueue passes lookup, gate and check, and stands before its insert. */
  lemma ToInsert(s0: State, s: State, wf: string, m: nat, limit: nat)
    requires s.phase.Up? && Reaches(s0, s, limit)
    requires wf in s.sh.db.workflows && wf in s.sh.registered && s.sh.registered[wf] == m && m in s.sh.managed
      && s.sh.managed[m].accepting
    requires |QueueOf(s.sh.db, wf)| < limit
    ensures Reaches(s0, At(s.(nextThread := s.nextThread + 1), s.nextThread, Insert(wf, m, None)), limit)
  {
    hide Reaches, QueueOf;
    var t := s.nextThread;
    Begin(s0, s, Lookup(wf, None), limit);
    var r := s.(nextThread := t + 1);
    Walk(s0, r, t, Lookup(wf, None), s.sh, Gate(wf, m, None), limit);
    Walk(s0, r, t, Gate(wf, m, None), s.sh, Count(wf, m, None), limit);
    Walk(s0, r, t, Count(wf, m, None), s.sh, Insert(wf, m, None), limit);
  }

  /** The shared state after an enqueue by goroutine `t` through the object `m`. */
  function Enqueued(sh: Shared, wf: string, m: nat, t: nat): Shared
    requires wf in sh.db.workflows
  {
    WithToken(sh.(db := Create(sh.db, wf, "trigger", 0).value,
                  log := sh.log.(creator := sh.log.creator[sh.db.nextExecution := t],
                    origin := sh.log.origin[sh.db.nextQueue := m])), m, true)
  }

  lemma Enqueue(s0: State, s: State, wf: string, m: nat, limit: nat)
    requires s.phase.Up? && s.nextThread !in s.threads && Reaches(s0, s, limit)
    requires wf in s.sh.db.workflows && wf in s.sh.registered && s.sh.registered[wf] == m && m in s.sh.managed
      && s.sh.managed[m].accepting
    requires |QueueOf(s.sh.db, wf)| < limit
    ensures Reaches(s0, s.(nextThread := s.nextThread + 1, sh := Enqueued(s.sh, wf, m, s.nextThread)), limit)
  {
    hide Reaches, QueueOf;
    var t, e := s.nextThread, s.sh.db.nextExecution;
    ToInsert(s0, s, wf, m, limit);
    var r := s.(nextThread := t + 1);
    var sh1 := s.sh.(db := Create(s.sh.db, wf, "trigger", 0).value,
                     log := s.sh.log.(creator := s.sh.log.creator[e := t],
                       origin := s.sh.log.origin[s.sh.db.nextQueue := m]));
    Walk(s0, r, t, Insert(wf, m, None), sh1, NotifyInsert(m, e, None), limit);
    Leave(s0, r.(sh := sh1), t, NotifyInsert(m, e, None), WithToken(sh1, m, true), limit);
  }

  /** A worker with a token takes it and stands before its claim. */
  lemma ToClaim(s0: State, s: State, u: nat, m: nat, limit: nat)
    requires s.phase.Up? && Reaches(s0, At(s, u, Parked(m)), limit)
    requires m in s.sh.managed && s.sh.managed[m].token && s.sh.managed[m].accepting
    ensures Reaches(s0, At(s.(sh := WithToken(s.sh, m, false)), u, ClaimNext(m)), limit)
  {
    hide Reaches;
    var sh1 := WithToken(s.sh, m, false);
    Walk(s0, s, u, Parked(m), sh1, LoopCheck(m), limit);
    Walk(s0, s.(sh := sh1), u, LoopCheck(m), sh1, ClaimNext(m), limit);
  }

  lemma AtItself(s: State, u: nat, pc: Pc)
    requires u in s.threads && s.threads[u] == Thread(pc, Quiet)
    ensures At(s, u, pc) == s
  {
    assert s.threads[u := Thread(pc, Quiet)] == s.threads;
  }

  /** The tables and the log after worker `u` has claimed row `q`. */
  function ClaimedBy(sh: Shared, u: nat, q: nat): Shared
    requires q in sh.db.queue
  {
    var e := sh.db.queue[q].execution;
    sh.(db := Claim(sh.db, q, 0), log := sh.log.(claims := sh.log.claims + multiset{e},
      holder := sh.log.holder[e := u]))
  }

  lemma ClaimRow(s0: State, s: State, u: nat, m: nat, q: nat, limit: nat)
    requires s.phase.Up? && Reaches(s0, At(s, u, ClaimNext(m)), limit)
    requires m in s.sh.managed && IsNext(s.sh.db, s.sh.managed[m].workflow, q)
    ensures Reaches(s0, At(s.(sh := ClaimedBy(s.sh, u, q)), u, SetRunning(m, s.sh.db.queue[q].execution)), limit)
  {
    hide Reaches, MarkRunning;
    NextIsQueued(s.sh.db, s.sh.managed[m].workflow, q);
    hide IsNext, HasQueued;
    WalkBy(s0, s, u, ANY.(row := q), ClaimNext(m), ClaimedBy(s.sh, u, q),
      SetRunning(m, s.sh.db.queue[q].execution), limit);
  }

  // ---------------------------------------------------------------- a stop

  /** After a stop of the idle object `m` on an empty queue. */
  function Halted(sh: Shared, wf: string, m: nat): Shared
    requires m in sh.managed
  {
    sh.(db := SetActive(sh.db, wf, false),
      managed := sh.managed[m := sh.managed[m].(accepting := false, stopped := true)],
        registered := sh.registered - {wf})
  }

  lemma CancelNothing(db: Db, wf: string, message: string)
    requires QueueOf(db, wf) == {}
    ensures Cancel(db, wf, message, 0) == db && QueuedOf(db, wf) == {}
  {
    forall q | q in db.queue ensures db.queue[q].workflow != wf { assert q !in QueueOf(db, wf); }
    assert QueuedOf(db, wf) == {};
    assert Cancel(db, wf, message, 0).queue == db.queue && Cancel(db, wf, message, 0).executions == db.executions;
  }

  lemma Stop(s0: State, s: State, wf: string, m: nat, limit: nat)
    requires s.phase.Up? && s.nextThread !in s.threads && Reaches(s0, s, limit)
    requires m in s.sh.managed && s.sh.managed[m].workflow == wf && !s.sh.managed[m].running && !s.sh.managed[m].stopped
    requires wf in s.sh.registered && s.sh.registered[wf] == m && QueueOf(s.sh.db, wf) == {}
    ensures Reaches(s0, s.(nextThread := s.nextThread + 1, sh := Halted(s.sh, wf, m)), limit)
  {
    hide Reaches;
    var t, ms := s.nextThread, [m];
    Begin(s0, s, StopGate(ms, 0, None), limit);
    var r := s.(nextThread := t + 1);
    var sh1 := WithAccepting(s.sh, m, false);
    Walk(s0, r, t, StopGate(ms, 0, None), sh1, StopGate(ms, 1, None), limit);
    var r1 := r.(sh := sh1);
    Waited(s0, r1, m, t, limit);
    StopTail(s0, r1, wf, m, t, limit);
    assert Halted(sh1, wf, m) == Halted(s.sh, wf, m);
  }

  lemma Waited(s0: State, r: State, m: nat, t: nat, limit: nat)
    requires r.phase.Up? && Reaches(s0, At(r, t, StopGate([m], 1, None)), limit) && m in r.sh.managed
      && !r.sh.managed[m].running
    ensures Reaches(s0, At(r, t, CancelAll([m], 0, None)), limit)
  {
    hide Reaches;
    Walk(s0, r, t, StopGate([m], 1, None), r.sh, StopWait([m], 0, None), limit);
    Walk(s0, r, t, StopWait([m], 0, None), r.sh, StopWait([m], 1, None), limit);
    Walk(s0, r, t, StopWait([m], 1, None), r.sh, CancelAll([m], 0, None), limit);
  }

  /** With an empty queue the cancel changes nothing. */
  lemma CancelIdle(sh: Shared, m: nat, wf: string)
    requires m in sh.managed && sh.managed[m].workflow == wf && QueueOf(sh.db, wf) == {}
    ensures StopStep(sh, CancelAll([m], 0, None), ANY) == Goto(sh, Inform([m], 0, [], None))
  {
    hide Cancel, QueueOf, QueuedOf;
    CancelNothing(sh.db, wf, ANY.message);
    assert NoDup(ANY.ids) && Elements(ANY.ids) == {};
    var none: map<nat, string> := map[];
    assert sh.log.cancelled + none == sh.log.cancelled;
    assert (map e | e in QueuedOf(sh.db, wf) :: ANY.message) == none;
  }

  lemma CancelStep(s0: State, r: State, wf: string, m: nat, t: nat, limit: nat)
    requires r.phase.Up? && Reaches(s0, At(r, t, CancelAll([m], 0, None)), limit)
    requires m in r.sh.managed && r.sh.managed[m].workflow == wf && QueueOf(r.sh.db, wf) == {}
    ensures Reaches(s0, At(r, t, CloseStop([m], 0, None)), limit)
  {
    CancelIdle(r.sh, m, wf);
    assert StopStep(r.sh, Inform([m], 0, [], None), ANY) == Goto(r.sh, CloseStop([m], 0, None));
    hide Reaches, QueueOf, StopStep;
    Walk(s0, r, t, CancelAll([m], 0, None), r.sh, Inform([m], 0, [], None), limit);
    Walk(s0, r, t, Inform([m], 0, [], None), r.sh, CloseStop([m], 0, None), limit);
  }

  lemma CloseStep(s0: State, r: State, m: nat, t: nat, limit: nat)
    requires r.phase.Up? && Reaches(s0, At(r, t, CloseStop([m], 0, None)), limit)
    requires m in r.sh.managed && !r.sh.managed[m].stopped
    ensures Reaches(s0, At(r.(sh := WithStopped(r.sh, m)), t, MarkStopped([m], 0, None)), limit)
  {
    hide Reaches;
    Walk(s0, r, t, CloseStop([m], 0, None), WithStopped(r.sh, m), MarkStopped([m], 0, None), limit);
  }

  lemma MarkStep(s0: State, r: State, wf: string, m: nat, t: nat, limit: nat)
    requires r.phase.Up? && Reaches(s0, At(r, t, MarkStopped([m], 0, None)), limit)
    requires m in r.sh.managed && r.sh.managed[m].workflow == wf
    ensures Reaches(s0, At(r.(sh := r.sh.(db := SetActive(r.sh.db, wf, false))), t, Forget([m], 0, None)), limit)
  {
    hide Reaches, SetActive;
    Walk(s0, r, t, MarkStopped([m], 0, None), r.sh.(db := SetActive(r.sh.db, wf, false)), Forget([m], 0, None), limit);
  }

  lemma ForgetStep(s0: State, r: State, wf: string, m: nat, t: nat, limit: nat)
    requires r.phase.Up? && t !in r.threads && Reaches(s0, At(r, t, Forget([m], 0, None)), limit)
    requires m in r.sh.managed && r.sh.managed[m].workflow == wf
    ensures Reaches(s0, r.(sh := r.sh.(registered := r.sh.registered - {wf})), limit)
  {
    hide Reaches;
    var sh := r.sh.(registered := r.sh.registered - {wf});
    Walk(s0, r, t, Forget([m], 0, None), sh, CancelAll([m], 1, None), limit);
    Leave(s0, r.(sh := sh), t, CancelAll([m], 1, None), sh, limit);
  }

  lemma StopTail(s0: State, r: State, wf: string, m: nat, t: nat, limit: nat)
    requires r.phase.Up? && t !in r.threads && Reaches(s0, At(r, t, CancelAll([m], 0, None)), limit)
    requires m in r.sh.managed && r.sh.managed[m].workflow == wf && !r.sh.managed[m].stopped
      && !r.sh.managed[m].accepting
    requires QueueOf(r.sh.db, wf) == {}
    ensures Reaches(s0, r.(sh := Halted(r.sh, wf, m)), limit)
  {
    hide Reaches, QueueOf, SetActive;
    CancelStep(s0, r, wf, m, t, limit);
    CloseStep(s0, r, m, t, limit);
    var r2 := r.(sh := WithStopped(r.sh, m));
    MarkStep(s0, r2, wf, m, t, limit);
    var r3 := r2.(sh := r2.sh.(db := SetActive(r2.sh.db, wf, false)));
    ForgetStep(s0, r3, wf, m, t, limit);
    assert r3.(sh := r3.sh.(registered := r3.sh.registered - {wf})) == r.(sh := Halted(r.sh, wf, m));
  }
}
