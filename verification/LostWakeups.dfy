/** A concrete run of the daemon that loses a wake-up: an enqueue looks its workflow up, the workflow is
    restarted, its new worker finds the queue empty and parks, and only then the enqueue inserts and
    notifies the old workflow object. */
module LostWakeups {
  import opened Base
  import opened Reports
  import opened Tables
  import opened Retention
  import opened Protocol
  import opened ClaimSafety
  import opened Wakeups
  import opened OwnInserts
  import opened Reaching

  /** A woken worker that finds nothing parks again, without its token. */
  lemma FindNothing(s0: State, s: State, u: nat, m: nat, limit: nat)
    requires s.phase.Up? && u in s.threads && s.threads[u] == Thread(Parked(m), Quiet) && Reaches(s0, s, limit)
    requires m in s.sh.managed && s.sh.managed[m].token && s.sh.managed[m].accepting
      && !HasQueued(s.sh.db, s.sh.managed[m].workflow)
    ensures Reaches(s0, s.(sh := WithToken(s.sh, m, false)), limit)
  {
    hide Reaches, HasQueued, IsNext;
    AtItself(s, u, Parked(m));
    ToClaim(s0, s, u, m, limit);
    var sh1 := WithToken(s.sh, m, false);
    Walk(s0, s.(sh := sh1), u, ClaimNext(m), sh1, Parked(m), limit);
    AtItself(s.(sh := sh1), u, Parked(m));
  }

  /** The run: two goroutines of this start, one worker each, an enqueue, a stop. */
  lemma WakeupCanBeLost(limit: nat)
    requires limit > 0
    ensures exists s, r :: Init(s) && Reaches(s, r, limit) && LostWakeup(r, 1)
  {
    var wf := "id";
    var s0 := State(Down, map[], 0, Shared(EMPTY, map[], map[], {}, map[], 0,
                    Log(multiset{}, map[], {}, map[], map[], map[], map[], map[])));
    hide Reaches, Next, After, Run;
    BootUp(s0, limit);
    var s1 := s0.(phase := Up);
    StartUp(s0, s1, wf, false, limit);
    var s2 := Started(s1, wf, false);
    assert QueueOf(s2.sh.db, wf) == {};
    ToInsert(s0, s2, wf, 0, limit);
    var s3 := At(s2.(nextThread := 3), 2, Insert(wf, 0, None));
    Stop(s0, s3, wf, 0, limit);
    var s4 := s3.(nextThread := 4, sh := Halted(s3.sh, wf, 0));
    StartUp(s0, s4, wf, false, limit);
    var s5 := Started(s4, wf, false);
    FindNothing(s0, s5, 5, 1, limit);
    var s6 := s5.(sh := WithToken(s5.sh, 1, false));
    assert s6.threads[2] == Thread(Insert(wf, 0, None), Quiet);
    NobodyNotifies(s6);
    ForeignInsertStrands(s6, 2, 1, ANY, limit);
    ReachesRun(s0, s6, Own(2, ANY, 2), limit);
  }

  lemma NobodyNotifies(s: State)
    requires forall u :: u in s.threads ==> s.threads[u].at.Parked? || s.threads[u].at.Insert?
    ensures !Pending(s, 1) && !ManualPending(s, 1)
  {
  }
}
