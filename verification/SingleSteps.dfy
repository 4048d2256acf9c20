/** Steps that change little and decide much: what an enqueue may find, when a sleeping worker wakes or ends, and what
    retention takes beside everything else that goes on. */
module SingleSteps {
  import opened Base
  import opened Reports
  import opened Tables
  import opened Retention
  import opened Stores
  import opened Protocol
  import opened ClaimSafety
  import opened Waiters
  import opened Wakeups
  import opened Knowledge
  import opened SoleWorkers
  import opened Alone

  // ---------------------------------------------------------------- requests

  /** A goroutine for the request may start now, beside all others. */
  ghost predicate Begins(s: State, pc: Pc, limit: nat) {
    && Enabled(s, Request(pc))
    && var r := Next(s, Request(pc), limit);
       r.sh == s.sh && r.phase == s.phase && r.threads == s.threads[s.nextThread := Thread(pc, Quiet)]
  }

  /** Whatever else is under way, any request may come: a manual execution, a trigger, a start and a delete of any
      workflow, a restore of any stored one, a stop, restart or delete of any started one, and a shutdown, in any
      order of the started ones.  And the daemon may crash. */
  lemma RequestsMayCome(s: State, wf: string, row: Workflow, limit: nat)
    requires s.phase.Up?
    ensures Begins(s, ExecLookup(wf), limit) && Begins(s, Lookup(wf, None), limit)
    ensures Begins(s, Upsert(wf, row), limit) && Begins(s, DropWorkflow(wf), limit)
    ensures wf in s.sh.db.workflows ==>
      Begins(s, SpawnWorker(wf, true), limit) && Begins(s, SpawnWorker(wf, false), limit)
    ensures wf in s.sh.registered ==>
      Begins(s, StopGate([s.sh.registered[wf]], 0, None), limit)
      && Begins(s, StopGate([s.sh.registered[wf]], 0, Some(wf)), limit)
    ensures forall ms: seq<nat> :: NoDup(ms) && Elements(ms) == s.sh.registered.Values ==>
      Begins(s, StopGate(ms, 0, None), limit)
    ensures Enabled(s, Crash) && Next(s, Crash, limit).phase.Down? && Next(s, Crash, limit).sh.db == s.sh.db
  {
    hide Begins, Next, NoDup, Elements;
    BeginsIf(s, ExecLookup(wf), limit);
    BeginsIf(s, Lookup(wf, None), limit);
    BeginsIf(s, Upsert(wf, row), limit);
    BeginsIf(s, DropWorkflow(wf), limit);
    BeginsIf(s, SpawnWorker(wf, true), limit);
    BeginsIf(s, SpawnWorker(wf, false), limit);
    StopsMayCome(s, wf, limit);
    CrashKeeps(s, limit);
    hide MayStop;
  }

  lemma StopsMayCome(s: State, wf: string, limit: nat)
    requires s.phase.Up?
    ensures wf in s.sh.registered ==>
      Begins(s, StopGate([s.sh.registered[wf]], 0, None), limit)
      && Begins(s, StopGate([s.sh.registered[wf]], 0, Some(wf)), limit)
    ensures forall ms: seq<nat> :: NoDup(ms) && Elements(ms) == s.sh.registered.Values ==>
      Begins(s, StopGate(ms, 0, None), limit)
  {
    hide Begins, NoDup, Elements;
    if wf in s.sh.registered {
      assert s.sh.registered[wf] in s.sh.registered.Values;
      BeginsIf(s, StopGate([s.sh.registered[wf]], 0, None), limit);
      BeginsIf(s, StopGate([s.sh.registered[wf]], 0, Some(wf)), limit);
    }
    forall ms: seq<nat> | NoDup(ms) && Elements(ms) == s.sh.registered.Values
      ensures Begins(s, StopGate(ms, 0, None), limit)
    {
      BeginsIf(s, StopGate(ms, 0, None), limit);
    }
  }

  lemma BeginsIf(s: State, pc: Pc, limit: nat)
    requires s.phase.Up?
    ensures MayStart(s.sh, pc) ==> Begins(s, pc, limit)
  {
    hide MayStart;
    if MayStart(s.sh, pc) {
      RequestIs(s, pc, limit);
    }
  }

  lemma CrashKeeps(s: State, limit: nat)
    ensures Enabled(s, Crash) && Next(s, Crash, limit).phase.Down? && Next(s, Crash, limit).sh.db == s.sh.db
  {
  }

  /** In every reachable state the tables and waiters are such as the laws of requests ask for, and the workflow map has
      each object under its own workflow, so a shutdown meets each workflow once. */
  lemma {:induction false} ReadyForRequests(s: State, actions: seq<Action>, limit: nat)
    requires Init(s) && Run(s, actions, limit)
    ensures var r := After(s, actions, limit);
      && Coupled(r.sh.db) && FreshWaiters(r.sh)
      && forall wf :: wf in r.sh.registered ==>
           r.sh.registered[wf] in r.sh.managed && r.sh.managed[r.sh.registered[wf]].workflow == wf
  {
    InitSound(s);
    RunSound(s, actions, limit);
    hide Run, After;
    SoundIsReady(After(s, actions, limit));
    hide Sound, Coupled, FreshWaiters;
  }

  lemma SoundIsReady(s: State)
    requires Sound(s)
    ensures Coupled(s.sh.db) && FreshWaiters(s.sh) && ListedSound(s)
  {
    hide Coupled, HoldersKnown, HoldersRun, PhaseSound, WakeInv, AllHoldOwn, ThreadsSound, ChannelsSound, ListedSound;
  }

  // ---------------------------------------------------------------- steps

  /** An enqueue goes on only to an object that the workflow map has under a stored workflow: its own, or, when that is
      gone, one that the same text selects.  Otherwise it ends, and in no case does it change anything. */
  lemma LookupFinds(s: State, t: nat, wf: string, manual: Option<nat>, c: Choice, limit: nat)
    requires s.phase.Up? && t in s.threads && s.threads[t] == Thread(Lookup(wf, manual), Quiet)
    ensures var r := Next(s, Step(t, c), limit);
      && r.sh == s.sh && r.phase == s.phase && r.threads - {t} == s.threads - {t}
      && (t in r.threads <==> exists id ::
            && id in s.sh.db.workflows && id in s.sh.registered
            && id == if wf in s.sh.db.workflows then wf else c.name)
      && (t in r.threads ==> exists id ::
            && id in s.sh.db.workflows && id in s.sh.registered && (wf in s.sh.db.workflows ==> id == wf)
            && r.threads[t] == Thread(Gate(wf, s.sh.registered[id], manual), Quiet))
  {
    StepIs(s, t, c, limit);
    hide Next;
  }

  /** A worker asleep wakes by its token, which it uses up, and ends once its object is stopped; with neither it cannot
      move.  With both, either may happen. */
  lemma ParkedMoves(s: State, t: nat, m: nat, c: Choice, limit: nat)
    requires s.phase.Up? && t in s.threads && s.threads[t] == Thread(Parked(m), Quiet) && m in s.sh.managed
    ensures var r := Next(s, Step(t, c), limit);
      if c.flag && s.sh.managed[m].token
      then r == s.(threads := s.threads[t := Thread(LoopCheck(m), Quiet)],
                   sh := s.sh.(managed := s.sh.managed[m := s.sh.managed[m].(token := false)]))
      else if !c.flag && s.sh.managed[m].stopped then r == s.(threads := s.threads - {t})
      else r == s
  {
    StepIs(s, t, c, limit);
    hide Next;
    assert s.threads[t := s.threads[t]] == s.threads;
  }

  /** Retention by age: exactly the executions that finished before the cutoff are gone, whatever else is under way. */
  lemma AgeStep(s: State, cutoff: Time, limit: nat)
    requires s.phase.Up? && Coupled(s.sh.db)
    ensures var r := Next(s, RetainAge(cutoff), limit);
      && YoungerOnly(s.sh.db.executions, r.sh.db.executions, cutoff)
      && r == s.(sh := s.sh.(db := s.sh.db.(executions := r.sh.db.executions)))
  {
    SoundRows(s.sh.db);
    AgeMeans(s.sh.db.executions, cutoff);
    OlderGone(s.sh.db.executions, cutoff);
    DeleteFinishedCoupled(s.sh.db, OlderIds(s.sh.db.executions, cutoff));
    hide Coupled, OlderIds, ByAge, YoungerOnly;
  }

  /** Retention by count: of the workflow's finished executions exactly those are left that fewer than `keep` are newer
      than. */
  lemma CountStep(s: State, wf: string, keep: nat, limit: nat)
    requires s.phase.Up? && Coupled(s.sh.db)
    ensures var r := Next(s, RetainCount(wf, keep), limit);
      && NewestOnly(s.sh.db.executions, r.sh.db.executions, wf, keep)
      && r == s.(sh := s.sh.(db := s.sh.db.(executions := r.sh.db.executions)))
  {
    SoundRows(s.sh.db);
    OverflowMeans(s.sh.db.executions, wf, keep);
    OverflowSize(s.sh.db.executions, wf, keep);
    DeleteFinishedCoupled(s.sh.db, OverflowIds(s.sh.db.executions, wf, keep));
    hide Coupled, OverflowIds, NewestOnly;
  }
}
