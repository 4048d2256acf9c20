/** A worker goroutine that can never claim again: its object is out of the workflow map and either closed with
    nobody left to open it, or asleep with nobody left to notify it.  No step brings such a worker back. */
module Retirement {
  import opened Base
  import opened Reports
  import opened Tables
  import opened Retention
  import opened Protocol
  import opened ClaimSafety
  import opened Waiters
  import opened Wakeups
  import opened OwnInserts
  import opened Knowledge

  /** A stop that may still time out and open the object again. */
  predicate MayOpen(at: Pc, m: nat) {
    match at
    case StopGate(ms, _, _) => m in ms
    case StopWait(ms, i, _) => i < |ms| && m in ms
    case Reopen(ms, i) => exists j :: i <= j < |ms| && ms[j] == m
    case ReopenNotify(ms, i) => exists j :: i < j < |ms| && ms[j] == m
    case _ => false
  }

  /** The next step notifies the object. */
  predicate Notifies(at: Pc, m: nat) {
    match at
    case NotifyInsert(x, _, _) => x == m
    case NotifyManual(_, x) => x == m
    case ReopenNotify(ms, i) => i < |ms| && ms[i] == m
    case NotifyActive(x) => x == m
    case _ => false
  }

  /** Out of the workflow map, not accepting, and nobody can change either. */
  ghost predicate Closed(s: State, m: nat) {
    && m in s.sh.managed && !s.sh.managed[m].accepting && !Listed(s.sh, m) && !Unannounced(s, m)
    && forall t :: t in s.threads ==> !MayOpen(s.threads[t].at, m)
  }

  /** The goroutine can still come to notify the object. */
  ghost predicate MayNotify(s: State, at: Pc, m: nat) {
    match at
    case Lookup(_, manual) => manual == Some(m)
    case Gate(_, x, manual) => x == m || (manual == Some(m) && !Closed(s, x))
    case Count(_, x, manual) => x == m || manual == Some(m)
    case Insert(_, x, manual) => x == m || manual == Some(m)
    case NotifyInsert(x, _, manual) => x == m || manual == Some(m)
    case Register(_, x) => x == m
    case Activate(x, _) => x == m
    case _ => Notifies(at, m) || MayOpen(at, m)
  }

  ghost predicate Unnotified(s: State, m: nat) {
    forall t :: t in s.threads ==> !MayNotify(s, s.threads[t].at, m)
  }

  /** The worker is past its last claim. */
  predicate BetweenRuns(at: Pc, m: nat) {
    at == Parked(m) || at == LoopCheck(m) || at == ClearRunning(m)
  }

  ghost predicate Retired(s: State, u: nat, m: nat) {
    && u in s.threads && m in s.sh.managed && !Listed(s.sh, m) && !Unannounced(s, m) && BetweenRuns(s.threads[u].at, m)
    && (Closed(s, m) || (s.threads[u].at == Parked(m) && !s.sh.managed[m].token && Unnotified(s, m)))
  }

  // ---------------------------------------------------------------- what one step can do to an object

  /** Only who may open opens, only who notifies sets the token, and nobody comes to either out of nowhere. */
  ghost predicate Tame(s: State, at: Pc, o: Outcome, x: nat) {
    && FlagsTame(s.sh, o.sh, at, x) && GoesTame(s, at, o, x)
       && (Listed(o.sh, x) ==> Listed(s.sh, x) || at == Announce(x))
  }

  ghost predicate GoesTame(s: State, at: Pc, o: Outcome, x: nat) {
    && (o.spawn.Some? ==> o.spawn.value.Parked?)
    && (o.next.Some? ==>
          && (o.next.value.at == Announce(x) ==> at == Announce(x))
          && (MayOpen(o.next.value.at, x) ==> MayOpen(at, x))
          && (MayNotify(s, o.next.value.at, x) ==> MayNotify(s, at, x) || Listed(s.sh, x) || at == Announce(x)))
  }

  ghost predicate FlagsTame(sh: Shared, r: Shared, at: Pc, x: nat) {
    && x in sh.managed && x in r.managed
    && (r.managed[x].accepting ==> sh.managed[x].accepting || MayOpen(at, x))
    && (r.managed[x].token ==> sh.managed[x].token || Notifies(at, x))
  }

  lemma EnqueueFlags(sh: Shared, at: Pc, t: nat, c: Choice, limit: nat, x: nat)
    requires InEnqueue(at) && x in sh.managed
    ensures FlagsTame(sh, EnqueueStep(sh, at, t, c, limit).sh, at, x)
  {
    hide QueueOf, Create;
  }

  lemma EnqueueGoes(s: State, at: Pc, t: nat, c: Choice, limit: nat, x: nat)
    requires InEnqueue(at) && x in s.sh.managed
    ensures var o := EnqueueStep(s.sh, at, t, c, limit);
      && o.spawn.None? && o.sh.registered == s.sh.registered
      && (o.next.Some? ==>
            && !o.next.value.at.Announce? && !MayOpen(o.next.value.at, x)
            && (MayNotify(s, o.next.value.at, x) ==> MayNotify(s, at, x) || Listed(s.sh, x)))
  {
    hide QueueOf, Create, WithToken;
  }

  lemma WorkerFlagsTame(sh: Shared, at: Pc, t: nat, c: Choice, x: nat)
    requires InWorker(at) && x in sh.managed
    ensures FlagsTame(sh, WorkerStep(sh, at, t, c).sh, at, x) && WorkerStep(sh, at, t, c).sh.registered == sh.registered
  {
    WorkerFlags(sh, at, t, c);
    hide WorkerStep;
  }

  lemma WorkerTame(s: State, at: Pc, t: nat, c: Choice, x: nat)
    requires InWorker(at) && x in s.sh.managed
    ensures Tame(s, at, WorkerStep(s.sh, at, t, c), x)
  {
    WorkerFlagsTame(s.sh, at, t, c, x);
    WorkerPlaces(s.sh, at, t, c);
    hide WorkerStep, FlagsTame, Closed;
  }

  lemma StopFlagsTame(sh: Shared, at: Pc, c: Choice, x: nat)
    requires InStop(at) && x in sh.managed
    ensures FlagsTame(sh, StopStep(sh, at, c).sh, at, x)
  {
    if at.Reopen? && at.i < |at.ms| {
    } else {
      StopFlags(sh, at, c);
      hide StopStep;
    }
  }

  lemma StopOpens(sh: Shared, at: Pc, c: Choice, x: nat)
    requires InStop(at)
    ensures var o := StopStep(sh, at, c);
      o.next.Some? ==>
        && (MayOpen(o.next.value.at, x) ==> MayOpen(at, x))
        && (Notifies(o.next.value.at, x) ==> Notifies(at, x) || MayOpen(at, x))
  {
    hide NoDup, Elements, QueuedOf, Cancel, DeleteWorkflow, SetActive, WithToken, WithAccepting,
      WithStopped, WorkflowOf;
  }

  lemma StopTame(s: State, at: Pc, c: Choice, x: nat)
    requires InStop(at) && x in s.sh.managed
    ensures Tame(s, at, StopStep(s.sh, at, c), x)
  {
    StopFlagsTame(s.sh, at, c, x);
    StopGoes(s, at, c, x);
    StopLists(s.sh, at, c);
    hide StopStep, FlagsTame, GoesTame;
  }

  lemma StopGoes(s: State, at: Pc, c: Choice, x: nat)
    requires InStop(at)
    ensures GoesTame(s, at, StopStep(s.sh, at, c), x)
  {
    StopOpens(s.sh, at, c, x);
    StopStays(s.sh, at, c);
    hide StopStep, MayOpen, Notifies, Closed;
  }

  lemma EnqueueTame(s: State, at: Pc, t: nat, c: Choice, limit: nat, x: nat)
    requires InEnqueue(at) && x in s.sh.managed
    ensures Tame(s, at, EnqueueStep(s.sh, at, t, c, limit), x)
  {
    EnqueueFlags(s.sh, at, t, c, limit, x);
    EnqueueGoes(s, at, t, c, limit, x);
    hide EnqueueStep, MayOpen, MayNotify;
  }

  lemma StartTame(s: State, at: Pc, t: nat, n: nat, c: Choice, x: nat)
    requires !InEnqueue(at) && !InWorker(at) && !InStop(at) && x in s.sh.managed && s.sh.nextManaged !in s.sh.managed
    ensures Tame(s, at, StartStep(s.sh, at, t, n, c), x)
  {
    hide UpsertWorkflow, Closed;
  }

  lemma DeliveryTame(s: State, th: Thread, t: nat, x: nat)
    requires x in s.sh.managed
    ensures Tame(s, th.at, DeliveryStep(s.sh, th, t), x)
  {
    DeliveryLeaves(s.sh, th, t);
    DeliveryStays(s.sh, th, t);
    hide MayOpen, MayNotify;
  }

  lemma ThreadTame(s: State, t: nat, c: Choice, limit: nat, x: nat)
    requires t in s.threads && x in s.sh.managed && ObjectsSound(s)
    ensures Tame(s, s.threads[t].at, ThreadStep(s.sh, s.threads[t], t, s.nextThread, c, limit), x)
  {
    var th := s.threads[t];
    assert s.sh.nextManaged !in s.sh.managed;
    hide ObjectsSound, Tame, DeliveryStep, EnqueueStep, WorkerStep, StopStep, StartStep;
    if !th.delivery.Quiet? {
      DeliveryTame(s, th, t, x);
    } else if InEnqueue(th.at) {
      EnqueueTame(s, th.at, t, c, limit, x);
    } else if InWorker(th.at) {
      WorkerTame(s, th.at, t, c, x);
    } else if InStop(th.at) {
      StopTame(s, th.at, c, x);
    } else {
      StartTame(s, th.at, t, s.nextThread, c, x);
    }
  }

  // ---------------------------------------------------------------- a retired worker stays retired

  lemma StaysAnnounced(s: State, t: nat, o: Outcome, x: nat)
    requires t in s.threads && GoesTame(s, s.threads[t].at, o, x)
    ensures Unannounced(Apply(s, t, o), x) ==> Unannounced(s, x)
  {
    var r := Apply(s, t, o);
    hide MayNotify;
    if u :| u in r.threads && r.threads[u].at == Announce(x) {
      assert u in s.threads && s.threads[u].at
        == Announce(x) by { assert u != s.nextThread || o.spawn.None? || u == t; }
    }
  }

  lemma ClosedKept(s: State, t: nat, o: Outcome, x: nat)
    requires Closed(s, x) && t in s.threads && Tame(s, s.threads[t].at, o, x)
    ensures Closed(Apply(s, t, o), x)
  {
    StaysAnnounced(s, t, o, x);
    assert s.threads[t].at == Announce(x) ==> Unannounced(s, x);
    hide Listed, Unannounced, MayNotify, MayOpen;
  }

  /** What a goroutine may notify shrinks with what may be opened. */
  lemma NotifyKept(s: State, r: State, at: Pc, m: nat)
    requires MayNotify(r, at, m) && forall x :: x in s.sh.managed && Closed(s, x) ==> Closed(r, x)
    ensures MayNotify(s, at, m)
  {
    hide Closed, MayOpen, Notifies;
    assert at.Gate? ==> !Closed(s, at.m) || at.m == m by { if at.Gate? && Closed(s, at.m) { ClosedManaged(s, at.m); } }
  }

  lemma ClosedManaged(s: State, x: nat)
    requires Closed(s, x)
    ensures x in s.sh.managed
  {
  }

  lemma UnnotifiedKept(s: State, t: nat, o: Outcome, m: nat)
    requires Unnotified(s, m) && t in s.threads && GoesTame(s, s.threads[t].at, o, m) && !Listed(s.sh, m)
      && !Unannounced(s, m)
    requires forall x :: x in s.sh.managed && Closed(s, x) ==> Closed(Apply(s, t, o), x)
    ensures Unnotified(Apply(s, t, o), m)
  {
    var r := Apply(s, t, o);
    assert s.threads[t].at != Announce(m);
    forall u | u in r.threads ensures !MayNotify(r, r.threads[u].at, m) {
      if MayNotify(r, r.threads[u].at, m) {
        NotifyKept(s, r, r.threads[u].at, m);
      }
    }
    hide Closed, Listed, Unannounced, MayNotify;
  }

  /** A worker between runs whose object does not accept does not come to claim. */
  lemma OwnStep(s: State, u: nat, c: Choice, limit: nat, m: nat)
    requires Retired(s, u, m)
    ensures var o := ThreadStep(s.sh, s.threads[u], u, s.nextThread, c, limit);
      o.next.Some? ==>
        && BetweenRuns(o.next.value.at, m)
        && (s.threads[u].at == Parked(m) && !s.sh.managed[m].token ==> o.next.value.at == Parked(m))
  {
    hide Listed, Unannounced, Unnotified, MayOpen;
    if !s.threads[u].delivery.Quiet? {
      DeliveryStays(s.sh, s.threads[u], u);
      hide DeliveryStep;
    }
  }

  lemma RetiredKept(s: State, t: nat, c: Choice, limit: nat, u: nat, m: nat)
    requires Retired(s, u, m) && ObjectsSound(s) && s.nextThread !in s.threads && t in s.threads
    ensures var r := Apply(s, t, ThreadStep(s.sh, s.threads[t], t, s.nextThread, c, limit)); u in r.threads ==>
      Retired(r, u, m)
  {
    var o := ThreadStep(s.sh, s.threads[t], t, s.nextThread, c, limit);
    var r := Apply(s, t, o);
    forall x | x in s.sh.managed && Closed(s, x) ensures Closed(r, x) {
      ThreadTame(s, t, c, limit, x);
      ClosedKept(s, t, o, x);
    }
    ThreadTame(s, t, c, limit, m);
    StaysAnnounced(s, t, o, m);
    if t == u { OwnStep(s, u, c, limit, m); }
    hide ThreadStep, ObjectsSound;
    StillRetired(s, t, o, u, m);
  }

  lemma NotifiesMay(s: State, at: Pc, m: nat)
    ensures Notifies(at, m) ==> MayNotify(s, at, m)
  {
  }

  lemma StillRetired(s: State, t: nat, o: Outcome, u: nat, m: nat)
    requires Retired(s, u, m) && s.nextThread !in s.threads && t in s.threads && Tame(s, s.threads[t].at, o, m)
    requires forall x :: x in s.sh.managed && Closed(s, x) ==> Closed(Apply(s, t, o), x)
    requires !Unannounced(Apply(s, t, o), m)
    requires t == u && o.next.Some? ==>
      BetweenRuns(o.next.value.at, m)
        && (s.threads[u].at == Parked(m) && !s.sh.managed[m].token ==> o.next.value.at == Parked(m))
    ensures u in Apply(s, t, o).threads ==> Retired(Apply(s, t, o), u, m)
  {
    assert s.threads[t].at == Announce(m) ==> Unannounced(s, m);
    if !Closed(s, m) {
      NotifiesMay(s, s.threads[t].at, m);
      UnnotifiedKept(s, t, o, m);
    }
    hide Closed, Listed, Unannounced, Unnotified, MayNotify, MayOpen, Notifies;
  }

  // ---------------------------------------------------------------- requests and the rest

  lemma RequestRetires(s: State, pc: Pc, u: nat, m: nat)
    requires Retired(s, u, m) && KnowInv(s) && MayStart(s.sh, pc) && s.nextThread !in s.threads
    ensures Retired(Begun(s, pc), u, m)
  {
    var r := Begun(s, pc);
    assert !pc.Announce? && !pc.Gate?;
    RequestUnannounced(s, r, pc);
    forall x | x in s.sh.managed && Closed(s, x) ensures Closed(r, x) {
      RequestOpens(s, pc, x);
      hide MayStart, Unannounced, Listed, MayOpen;
    }
    RequestOpens(s, pc, m);
    hide KnowInv, MayStart, Listed, Unannounced, MayOpen;
    forall v | v in r.threads && Unnotified(s, m) ensures !MayNotify(r, r.threads[v].at, m) {
      if MayNotify(r, r.threads[v].at, m) {
        NotifyKept(s, r, r.threads[v].at, m);
      }
    }
    hide Closed, MayNotify;
  }

  lemma RequestUnannounced(s: State, r: State, pc: Pc)
    requires !pc.Announce? && r.threads == s.threads[s.nextThread := Thread(pc, Quiet)]
    ensures forall x :: Unannounced(r, x) ==> Unannounced(s, x)
  {
    forall x | Unannounced(r, x) ensures Unannounced(s, x) {
      var u :| u in r.threads && r.threads[u].at == Announce(x);
      assert u in s.threads && s.threads[u].at == Announce(x);
    }
  }

  lemma RequestOpens(s: State, pc: Pc, x: nat)
    requires MayStart(s.sh, pc)
    ensures MayOpen(pc, x) || MayNotify(s, pc, x) ==> Listed(s.sh, x)
  {
    if MayOpen(pc, x) || MayNotify(s, pc, x) {
      assert Refers(pc, x);
      RequestRefers(s.sh, pc, x);
    }
  }

  lemma TablesRetire(s: State, r: State, u: nat, m: nat)
    requires Retired(s, u, m) && r.threads == s.threads && r.sh.managed == s.sh.managed
      && r.sh.registered == s.sh.registered
    ensures Retired(r, u, m)
  {
    assert forall x :: Unannounced(r, x) <==> Unannounced(s, x);
    assert forall x :: Listed(r.sh, x) <==> Listed(s.sh, x);
    hide Listed, Unannounced, MayOpen, Notifies;
    assert forall x :: Closed(r, x) <==> Closed(s, x);
    hide Closed;
    forall v | v in r.threads && Unnotified(s, m) ensures !MayNotify(r, r.threads[v].at, m) {
      assert !MayNotify(s, s.threads[v].at, m);
    }
    hide MayNotify;
  }

  /** Short of a crash, a retired worker stays retired or ends. */
  lemma NextRetires(s: State, a: Action, limit: nat, u: nat, m: nat)
    requires Retired(s, u, m) && ClaimInv(s) && WakeInv(s) && KnowInv(s) && Enabled(s, a) && !a.Crash?
    ensures u in Next(s, a, limit).threads ==> Retired(Next(s, a, limit), u, m)
  {
    FreshThread(s);
    if a.Step? {
      StepIs(s, a.t, a.c, limit);
    } else if a.Request? {
      RequestIs(s, a.pc, limit);
    } else {
      OutsideTables(s, a, limit);
    }
    hide KnowInv, RolesSound, ObjectsSound, AllAwake, ClaimInv, ThreadStep, Apply, Begun, MayStart, Retired, Next;
    if a.Step? {
      RetiredKept(s, a.t, a.c, limit, u, m);
    } else if a.Request? {
      RequestRetires(s, a.pc, u, m);
    } else {
      TablesRetire(s, Next(s, a, limit), u, m);
    }
  }
}
