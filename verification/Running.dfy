/** What the flag `running` means, and what a stop has waited for when it goes on. */
module Running {
  import opened Base
  import opened Reports
  import opened Tables
  import opened Retention
  import opened Protocol
  import opened ClaimSafety
  import opened Waiters
  import opened Wakeups
  import opened OwnInserts
  import opened Knowledge
  import opened SoleWorkers

  /** The worker of the object has set the flag and not cleared it. */
  predicate InUse(at: Pc, m: nat) {
    match at
    case Execute(x, _) => x == m
    case Record(x, _, _) => x == m
    case ClearRunning(x) => x == m
    case _ => false
  }

  ghost predicate SomeoneRuns(s: State, m: nat) {
    exists t :: t in s.threads && InUse(s.threads[t].at, m)
  }

  ghost predicate RunningSound(s: State) {
    forall m :: m in s.sh.managed ==> (s.sh.managed[m].running <==> SomeoneRuns(s, m))
  }

  // ---------------------------------------------------------------- one step

  /** What a step does to the flag and to who is under way. */
  ghost predicate FlagFollows(sh: Shared, th: Thread, o: Outcome, m: nat) {
    && m in sh.managed && m in o.sh.managed
    && (o.spawn.Some? ==> o.spawn.value.Parked?)
    && (th.delivery.Quiet? && th.at.SetRunning? && th.at.m == m ==>
          o.sh.managed[m].running && o.next.Some? && InUse(o.next.value.at, m))
    && (th.delivery.Quiet? && th.at == ClearRunning(m) ==>
          !o.sh.managed[m].running && (o.next.Some? ==> !InUse(o.next.value.at, m)))
    && (!(th.delivery.Quiet? && ((th.at.SetRunning? && th.at.m == m) || th.at == ClearRunning(m))) ==>
          && o.sh.managed[m].running == sh.managed[m].running
          && (InUse(th.at, m) ==> o.next.Some? && InUse(o.next.value.at, m))
          && (o.next.Some? && InUse(o.next.value.at, m) ==> InUse(th.at, m)))
  }

  lemma EnqueueFollows(sh: Shared, at: Pc, t: nat, c: Choice, limit: nat, m: nat)
    requires InEnqueue(at) && m in sh.managed
    ensures FlagFollows(sh, Thread(at, Quiet), EnqueueStep(sh, at, t, c, limit), m)
  {
    hide QueueOf, Create;
  }

  lemma WorkerFollows(sh: Shared, at: Pc, t: nat, c: Choice, m: nat)
    requires InWorker(at) && m in sh.managed
    ensures FlagFollows(sh, Thread(at, Quiet), WorkerStep(sh, at, t, c), m)
  {
    hide HasQueued, IsNext, Claim, Complete;
  }

  lemma StopRunningSame(sh: Shared, at: Pc, c: Choice, m: nat)
    requires InStop(at) && m in sh.managed
    ensures var r := StopStep(sh, at, c).sh; m in r.managed && r.managed[m].running == sh.managed[m].running
  {
    if !(at.Reopen? && at.i < |at.ms|) {
      StopFlags(sh, at, c);
      hide StopStep;
    }
  }

  lemma StopFollows(sh: Shared, at: Pc, c: Choice, m: nat)
    requires InStop(at) && m in sh.managed
    ensures FlagFollows(sh, Thread(at, Quiet), StopStep(sh, at, c), m)
  {
    StopRunningSame(sh, at, c, m);
    StopStays(sh, at, c);
    hide StopStep;
  }

  lemma StartFollows(sh: Shared, at: Pc, t: nat, n: nat, c: Choice, m: nat)
    requires !InEnqueue(at) && !InWorker(at) && !InStop(at) && m in sh.managed && sh.nextManaged !in sh.managed
    ensures FlagFollows(sh, Thread(at, Quiet), StartStep(sh, at, t, n, c), m)
  {
    hide UpsertWorkflow;
  }

  lemma DeliveryFollows(sh: Shared, th: Thread, t: nat, m: nat)
    requires !th.delivery.Quiet? && m in sh.managed
    ensures FlagFollows(sh, th, DeliveryStep(sh, th, t), m)
  {
    DeliveryStays(sh, th, t);
  }

  lemma ThreadFollows(s: State, t: nat, c: Choice, limit: nat, m: nat)
    requires ObjectsSound(s) && t in s.threads && m in s.sh.managed
    ensures FlagFollows(s.sh, s.threads[t], ThreadStep(s.sh, s.threads[t], t, s.nextThread, c, limit), m)
  {
    var th := s.threads[t];
    assert s.sh.nextManaged !in s.sh.managed;
    assert th.delivery.Quiet? ==> th == Thread(th.at, Quiet);
    hide ObjectsSound, FlagFollows, DeliveryStep, EnqueueStep, WorkerStep, StopStep, StartStep;
    if !th.delivery.Quiet? {
      DeliveryFollows(s.sh, th, t, m);
    } else if InEnqueue(th.at) {
      EnqueueFollows(s.sh, th.at, t, c, limit, m);
    } else if InWorker(th.at) {
      WorkerFollows(s.sh, th.at, t, c, m);
    } else if InStop(th.at) {
      StopFollows(s.sh, th.at, c, m);
    } else {
      StartFollows(s.sh, th.at, t, s.nextThread, c, m);
    }
  }

  lemma UseIsWork(at: Pc, m: nat)
    requires InUse(at, m) || (at.SetRunning? && at.m == m)
    ensures WorkerAt(at) == Some(m)
  {
  }

  lemma StepRuns(s: State, t: nat, o: Outcome, m: nat)
    requires RolesSound(s) && t in s.threads && s.nextThread !in s.threads && FlagFollows(s.sh, s.threads[t], o, m)
    requires s.sh.managed[m].running <==> SomeoneRuns(s, m)
    ensures o.sh.managed[m].running <==> SomeoneRuns(Apply(s, t, o), m)
  {
    var r := Apply(s, t, o);
    if u :| u in s.threads && InUse(s.threads[u].at, m) {
      UseIsWork(s.threads[u].at, m);
      assert u != t ==> r.threads[u] == s.threads[u];
      assert u == t && o.next.Some? ==> r.threads[u] == o.next.value;
    }
    if u :| u in r.threads && InUse(r.threads[u].at, m) {
      UseIsWork(r.threads[u].at, m);
      assert u != t ==> u in s.threads && r.threads[u] == s.threads[u];
    }
    if o.next.Some? && InUse(o.next.value.at, m) {
      assert r.threads[t] == o.next.value;
    }
  }

  lemma SpawnRuns(s: State, t: nat, c: Choice)
    requires RolesSound(s) && ObjectsSound(s) && t in s.threads && s.nextThread !in s.threads
      && s.threads[t].at.SpawnWorker?
    ensures var n, r := s.sh.nextManaged, Apply(s, t, StartStep(s.sh, s.threads[t].at, t, s.nextThread, c));
      n in r.sh.managed && !r.sh.managed[n].running && !SomeoneRuns(r, n) && n !in s.sh.managed
  {
    var n, r := s.sh.nextManaged, Apply(s, t, StartStep(s.sh, s.threads[t].at, t, s.nextThread, c));
    if u :| u in r.threads && InUse(r.threads[u].at, n) {
      UseIsWork(r.threads[u].at, n);
    }
  }

  lemma ThreadRuns(s: State, t: nat, c: Choice, limit: nat)
    requires RunningSound(s) && RolesSound(s) && ObjectsSound(s) && t in s.threads && s.nextThread !in s.threads
    requires PublishersPlaced(s)
    ensures RunningSound(Apply(s, t, ThreadStep(s.sh, s.threads[t], t, s.nextThread, c, limit)))
  {
    var o := ThreadStep(s.sh, s.threads[t], t, s.nextThread, c, limit);
    var r := Apply(s, t, o);
    if s.threads[t].delivery.Quiet? && s.threads[t].at.SpawnWorker? {
      SpawnRuns(s, t, c);
    } else if s.threads[t].delivery.Quiet? && s.threads[t].at.Announce? {
    } else {
      ThreadModest(s, t, c, limit);
    }
    assert forall m :: m in r.sh.managed ==> m in s.sh.managed || (m == s.sh.nextManaged && s.threads[t].at.SpawnWorker?
                                                                   && s.threads[t].delivery.Quiet?);
    hide ThreadStep, RolesSound, ObjectsSound, SomeoneRuns, Modest;
    forall m | m in r.sh.managed ensures r.sh.managed[m].running <==> SomeoneRuns(r, m) {
      if m in s.sh.managed {
        ThreadFollows(s, t, c, limit, m);
        StepRuns(s, t, o, m);
      }
    }
  }

  lemma SameRuns(s: State, r: State)
    requires RunningSound(s) && r.sh.managed == s.sh.managed
    requires forall t :: t in s.threads ==> t in r.threads && r.threads[t] == s.threads[t]
    requires forall t, m: nat :: t in r.threads && t !in s.threads ==> !InUse(r.threads[t].at, m)
    ensures RunningSound(r)
  {
    hide InUse;
    forall m | m in r.sh.managed ensures r.sh.managed[m].running <==> SomeoneRuns(r, m) {
      if t :| t in s.threads && InUse(s.threads[t].at, m) {
        assert r.threads[t] == s.threads[t];
      }
      if t :| t in r.threads && InUse(r.threads[t].at, m) {
        assert t in s.threads;
      }
    }
  }

  lemma NextRuns(s: State, a: Action, limit: nat)
    requires RunningSound(s) && ClaimInv(s) && WakeInv(s) && KnowInv(s) && Enabled(s, a)
    ensures RunningSound(Next(s, a, limit))
  {
    FreshThread(s);
    if a.Step? {
      StepIs(s, a.t, a.c, limit);
      hide ClaimInv, RunningSound, RolesSound, ObjectsSound, AllAwake, ListedSound, ReferredSound,
        FreshSound, ManualSound,
        PublishersPlaced, Next, ThreadStep, Apply;
      ThreadRuns(s, a.t, a.c, limit);
    } else if a.Request? {
      RequestIs(s, a.pc, limit);
      assert forall m: nat :: !InUse(a.pc, m);
      hide ClaimInv, WakeInv, KnowInv, RunningSound, Next, MayStart, InUse;
      SameRuns(s, Begun(s, a.pc));
    } else if a.Crash? {
      hide ClaimInv, WakeInv, KnowInv;
    } else {
      OutsideTables(s, a, limit);
      hide ClaimInv, WakeInv, KnowInv, RunningSound, Next;
      SameRuns(s, Next(s, a, limit));
    }
  }

  lemma {:induction false} RunRuns(s: State, actions: seq<Action>, limit: nat)
    requires Sound(s) && RunningSound(s) && Run(s, actions, limit)
    ensures RunningSound(After(s, actions, limit)) && Sound(After(s, actions, limit))
    decreases |actions|
  {
    hide RunningSound, ClaimInv, WakeInv, WaiterInv, KnowInv, AllHoldOwn, Next, Enabled;
    if actions != [] {
      NextRuns(s, actions[0], limit);
      NextSound(s, actions[0], limit);
      RunRuns(Next(s, actions[0], limit), actions[1..], limit);
    }
  }

  // ---------------------------------------------------------------- theorems

  /** In every reachable state an object has its flag set exactly while a worker of it is between setRunning(true)
      and setRunning(false). */
  lemma {:induction false} RunningIffInUse(s: State, actions: seq<Action>, limit: nat, m: nat)
    requires Init(s) && Run(s, actions, limit) && m in After(s, actions, limit).sh.managed
    ensures var r := After(s, actions, limit); r.sh.managed[m].running <==> SomeoneRuns(r, m)
  {
    InitSound(s);
    RunRuns(s, actions, limit);
    hide Run, After, Sound, SomeoneRuns;
  }

  /** A stop that waits does one of four things: it stays; it goes on past an object that no worker is using; it
      gives up and opens its objects again; or, past all of them, it goes on to cancel. */
  lemma {:induction false} StopWaitsForRuns(s: State, actions: seq<Action>, limit: nat, t: nat, c: Choice)
    requires Init(s) && Run(s, actions, limit)
    requires var r := After(s, actions, limit); r.phase.Up? && t in r.threads && r.threads[t].at.StopWait?
    ensures var r := After(s, actions, limit);
      var (ms, i, drop) := (r.threads[t].at.ms, r.threads[t].at.i, r.threads[t].at.drop);
      var q := Next(r, Step(t, c), limit);
      && q == r.(threads := q.threads) && t in q.threads && q.threads == r.threads[t := q.threads[t]]
      && q.threads[t].delivery.Quiet?
      && (|| q.threads[t].at == StopWait(ms, i, drop)
          || (q.threads[t].at == StopWait(ms, i + 1, drop) && i < |ms|
              && forall u :: u in r.threads ==> !InUse(r.threads[u].at, ms[i]))
          || (q.threads[t].at == Reopen(ms, 0) && i < |ms|)
          || (q.threads[t].at == CancelAll(ms, 0, drop) && |ms| <= i))
  {
    var r := After(s, actions, limit);
    InitSound(s);
    RunRuns(s, actions, limit);
    hide Run, After;
    StopperQuiet(r, t);
    hide Sound;
    var at := r.threads[t].at;
    WaitMoves(r, t, c, limit);
    hide Next;
    if at.i < |at.ms| && at.ms[at.i] in r.sh.managed && !r.sh.managed[at.ms[at.i]].running {
      assert !SomeoneRuns(r, at.ms[at.i]);
    }
    hide InUse, RunningSound;
  }

  lemma WaitMoves(r: State, t: nat, c: Choice, limit: nat)
    requires r.phase.Up? && t in r.threads && r.threads[t].at.StopWait? && r.threads[t].delivery.Quiet?
    ensures var at := r.threads[t].at;
      var q := Next(r, Step(t, c), limit);
      && q == r.(threads := q.threads) && t in q.threads && q.threads == r.threads[t := q.threads[t]]
      && q.threads[t].delivery.Quiet?
      && (|| q.threads[t].at == at
          || (q.threads[t].at == StopWait(at.ms, at.i + 1, at.drop) && at.i < |at.ms|
              && at.ms[at.i] in r.sh.managed && !r.sh.managed[at.ms[at.i]].running)
          || (q.threads[t].at == Reopen(at.ms, 0) && at.i < |at.ms|)
          || (q.threads[t].at == CancelAll(at.ms, 0, at.drop) && |at.ms| <= at.i))
  {
    StepIs(r, t, c, limit);
    hide Next;
    WaitStep(r.sh, r.threads[t].at, c);
    hide StopStep;
  }

  lemma StopperQuiet(s: State, t: nat)
    requires Sound(s) && t in s.threads && s.threads[t].at.StopWait?
    ensures s.threads[t].delivery.Quiet?
  {
    assert PublishersPlaced(s);
  }

  lemma WaitStep(sh: Shared, at: Pc, c: Choice)
    requires at.StopWait?
    ensures var o := StopStep(sh, at, c);
      && o.sh == sh && o.spawn.None? && o.next.Some? && o.next.value.delivery.Quiet?
      && (|| o.next.value.at == at
          || (o.next.value.at == StopWait(at.ms, at.i + 1, at.drop) && at.i < |at.ms|
              && at.ms[at.i] in sh.managed && !sh.managed[at.ms[at.i]].running)
          || (o.next.value.at == Reopen(at.ms, 0) && at.i < |at.ms|)
          || (o.next.value.at == CancelAll(at.ms, 0, at.drop) && |at.ms| <= at.i))
  {
  }
}
