/** When can a parked worker sleep on a non-empty queue?  A wake-up is lost exactly when an enqueue that
    looked up an earlier workflow object inserts after the activation of a later one has notified. */
module Wakeups {
  import opened Base
  import opened Reports
  import opened Tables
  import opened Retention
  import opened Protocol
  import opened ClaimSafety

  // ---------------------------------------------------------------- who is about to notify

  function WorkerAt(at: Pc): Option<nat> {
    match at
    case Parked(m) => Some(m)
    case LoopCheck(m) => Some(m)
    case ClaimNext(m) => Some(m)
    case SetRunning(m, _) => Some(m)
    case Execute(m, _) => Some(m)
    case Record(m, _, _) => Some(m)
    case ClearRunning(m) => Some(m)
    case _ => None
  }

  function ActivatorAt(at: Pc): Option<nat> {
    match at
    case Announce(m) => Some(m)
    case Activate(m, _) => Some(m)
    case NotifyActive(m) => Some(m)
    case _ => None
  }

  /** The goroutine stands between its insert, its setAccepting(true) or its activation and the notify that follows. */
  predicate NotifyDue(at: Pc, m: nat) {
    match at
    case NotifyInsert(x, _, _) => x == m
    case ReopenNotify(ms, i) => i < |ms| && ms[i] == m
    case _ => ActivatorAt(at) == Some(m)
  }

  ghost predicate Pending(s: State, m: nat) {
    exists t :: t in s.threads && NotifyDue(s.threads[t].at, m)
  }

  /** The row was inserted for this very workflow object, or before its activation notified. */
  ghost predicate Local(sh: Shared, q: nat, m: nat) {
    && q in sh.db.queue && m in sh.managed && sh.db.queue[q].workflow == sh.managed[m].workflow
    && ((q in sh.log.origin && sh.log.origin[q] == m) || m !in sh.log.woken || q < sh.log.woken[m])
  }

  ghost predicate HasLocal(sh: Shared, m: nat) {
    exists q :: Local(sh, q, m)
  }

  predicate Sleeping(s: State, m: nat) {
    m in s.sh.managed && s.sh.managed[m].worker in s.threads && s.threads[s.sh.managed[m].worker].at == Parked(m)
  }

  ghost predicate Awake(s: State, m: nat) {
    Sleeping(s, m) && s.sh.managed[m].accepting && HasLocal(s.sh, m) ==> s.sh.managed[m].token || Pending(s, m)
  }

  // ---------------------------------------------------------------- the invariant

  ghost predicate RolesSound(s: State) {
    forall t :: t in s.threads ==>
      && (WorkerAt(s.threads[t].at).Some? ==>
            var m := WorkerAt(s.threads[t].at).value; m in s.sh.managed && s.sh.managed[m].worker == t)
      && (ActivatorAt(s.threads[t].at).Some? ==>
            var m := ActivatorAt(s.threads[t].at).value;
            m in s.sh.managed && s.sh.managed[m].activator == t && m !in s.sh.log.woken)
  }

  ghost predicate ObjectsSound(s: State) {
    && (forall m :: m in s.sh.managed ==>
          && m < s.sh.nextManaged
          && (m !in s.sh.log.woken ==>
                s.sh.managed[m].activator in s.threads
                  && ActivatorAt(s.threads[s.sh.managed[m].activator].at) == Some(m)))
    && (forall m :: m in s.sh.log.woken ==> m < s.sh.nextManaged && s.sh.log.woken[m] <= s.sh.db.nextQueue)
  }

  ghost predicate AllAwake(s: State) {
    forall m :: m in s.sh.managed ==> Awake(s, m)
  }

  ghost predicate WakeInv(s: State) {
    RolesSound(s) && ObjectsSound(s) && AllAwake(s)
  }

  // ---------------------------------------------------------------- steps that cannot lose a wake-up

  /** Queue rows only disappear, and a disappeared id is not given out again. */
  ghost predicate QueueShrinks(d: Db, r: Db) {
    && d.nextQueue <= r.nextQueue
    && forall q :: q in r.queue ==> q in d.queue && r.queue[q].workflow == d.queue[q].workflow
  }

  /** Same workflow objects; flags may only change in the harmless direction. */
  ghost predicate ObjectsCalm(sh: Shared, r: Shared) {
    && r.managed.Keys == sh.managed.Keys && r.nextManaged == sh.nextManaged
    && r.log.woken == sh.log.woken && r.log.origin == sh.log.origin
    && forall m :: m in sh.managed ==>
         && r.managed[m].workflow == sh.managed[m].workflow
         && r.managed[m].worker == sh.managed[m].worker && r.managed[m].activator == sh.managed[m].activator
         && (sh.managed[m].token ==> r.managed[m].token) && (r.managed[m].accepting ==> sh.managed[m].accepting)
  }

  /** The goroutine does not park, and gives up a due notify only by notifying. */
  ghost predicate CalmMove(sh: Shared, at: Pc, o: Outcome) {
    && o.spawn.None?
    && (o.next.Some? ==>
          && WorkerAt(o.next.value.at) == WorkerAt(at) && ActivatorAt(o.next.value.at) == ActivatorAt(at)
          && (o.next.value.at.Parked? ==> at.Parked?))
    && (o.next.None? ==> ActivatorAt(at).None?)
    && (forall m :: m in sh.managed && NotifyDue(at, m) ==>
          (o.next.Some? && NotifyDue(o.next.value.at, m)) || (m in o.sh.managed && o.sh.managed[m].token))
  }

  ghost predicate Calm(sh: Shared, at: Pc, o: Outcome) {
    QueueShrinks(sh.db, o.sh.db) && ObjectsCalm(sh, o.sh) && CalmMove(sh, at, o)
  }

  /** The same workflow objects with the same workers and activators, as seen by the goroutine that moved. */
  ghost predicate SameRoles(sh: Shared, at: Pc, o: Outcome) {
    && o.spawn.None? && o.sh.nextManaged == sh.nextManaged && o.sh.log.woken == sh.log.woken
    && sh.db.nextQueue <= o.sh.db.nextQueue && o.sh.managed.Keys == sh.managed.Keys
    && (forall m :: m in sh.managed ==>
          o.sh.managed[m].worker == sh.managed[m].worker && o.sh.managed[m].activator == sh.managed[m].activator)
    && (o.next.Some? ==> WorkerAt(o.next.value.at) == WorkerAt(at) && ActivatorAt(o.next.value.at) == ActivatorAt(at))
    && (o.next.None? ==> ActivatorAt(at).None?)
  }

  lemma KeepRoles(s: State, t: nat, o: Outcome)
    requires RolesSound(s) && t in s.threads && SameRoles(s.sh, s.threads[t].at, o)
    ensures RolesSound(Apply(s, t, o))
  {
  }

  lemma KeepObjects(s: State, t: nat, o: Outcome)
    requires ObjectsSound(s) && t in s.threads && SameRoles(s.sh, s.threads[t].at, o)
    ensures ObjectsSound(Apply(s, t, o))
  {
    var r := Apply(s, t, o);
    forall m | m in r.sh.managed && m !in r.sh.log.woken
      ensures r.sh.managed[m].activator in r.threads && ActivatorAt(r.threads[r.sh.managed[m].activator].at) == Some(m)
    {
      var u := s.sh.managed[m].activator;
      assert u in s.threads && ActivatorAt(s.threads[u].at) == Some(m);
    }
  }

  lemma CalmRoles(s: State, t: nat, o: Outcome)
    requires RolesSound(s) && ObjectsSound(s) && t in s.threads && Calm(s.sh, s.threads[t].at, o)
    ensures RolesSound(Apply(s, t, o)) && ObjectsSound(Apply(s, t, o))
  {
    hide RolesSound, ObjectsSound;
    KeepRoles(s, t, o);
    KeepObjects(s, t, o);
  }

  lemma CalmLocal(sh: Shared, r: Shared, m: nat)
    requires QueueShrinks(sh.db, r.db) && ObjectsCalm(sh, r) && HasLocal(r, m)
    ensures HasLocal(sh, m)
  {
    var q :| Local(r, q, m);
    assert Local(sh, q, m);
  }

  lemma CalmPending(s: State, t: nat, o: Outcome, m: nat)
    requires t in s.threads && CalmMove(s.sh, s.threads[t].at, o) && Pending(s, m) && m in s.sh.managed
    ensures Pending(Apply(s, t, o), m) || (m in o.sh.managed && o.sh.managed[m].token)
  {
    var r := Apply(s, t, o);
    var u :| u in s.threads && NotifyDue(s.threads[u].at, m);
    if u != t {
      assert u in r.threads && NotifyDue(r.threads[u].at, m);
    } else if o.next.Some? && NotifyDue(o.next.value.at, m) {
      assert t in r.threads && NotifyDue(r.threads[t].at, m);
    }
  }

  lemma CalmAwake(s: State, t: nat, o: Outcome, m: nat)
    requires RolesSound(s) && Awake(s, m) && m in s.sh.managed && t in s.threads && Calm(s.sh, s.threads[t].at, o)
    ensures Awake(Apply(s, t, o), m)
  {
    hide HasLocal, Pending;
    var r := Apply(s, t, o);
    if Sleeping(r, m) && r.sh.managed[m].accepting && HasLocal(r.sh, m) {
      CalmLocal(s.sh, o.sh, m);
      assert Sleeping(s, m);
      if Pending(s, m) {
        CalmPending(s, t, o, m);
      }
    }
  }

  lemma CalmKeeps(s: State, t: nat, o: Outcome)
    requires WakeInv(s) && t in s.threads && Calm(s.sh, s.threads[t].at, o)
    ensures WakeInv(Apply(s, t, o))
  {
    hide Awake, Calm;
    CalmRoles(s, t, o);
    CalmKeys(s.sh, s.threads[t].at, o);
    forall m | m in o.sh.managed ensures Awake(Apply(s, t, o), m) {
      CalmAwake(s, t, o, m);
    }
    hide RolesSound, ObjectsSound;
  }

  lemma CalmKeys(sh: Shared, at: Pc, o: Outcome)
    requires Calm(sh, at, o)
    ensures o.sh.managed.Keys == sh.managed.Keys
  {
  }

  // ---------------------------------------------------------------- the steps that need an argument

  lemma StepPending(s: State, t: nat, o: Outcome, m: nat)
    requires t in s.threads && Pending(s, m) && s.nextThread !in s.threads
    requires NotifyDue(s.threads[t].at, m) ==> o.next.Some? && NotifyDue(o.next.value.at, m)
    ensures Pending(Apply(s, t, o), m)
  {
    var r := Apply(s, t, o);
    var u :| u in s.threads && NotifyDue(s.threads[u].at, m);
    assert u in r.threads && NotifyDue(r.threads[u].at, m);
  }

  /** The step does nothing to workflow object `x`, its rows, its worker's sleep or a notify due to it. */
  ghost predicate Untouched(sh: Shared, at: Pc, o: Outcome, x: nat) {
    && x in sh.managed && x in o.sh.managed && o.sh.managed[x] == sh.managed[x]
    && (HasLocal(o.sh, x) ==> HasLocal(sh, x))
    && (o.next.Some? && o.next.value.at == Parked(x) ==> at == Parked(x))
    && (o.spawn.Some? ==> o.spawn.value != Parked(x))
    && (NotifyDue(at, x) ==> o.next.Some? && NotifyDue(o.next.value.at, x))
  }

  lemma UntouchedAwake(s: State, t: nat, o: Outcome, x: nat)
    requires Awake(s, x) && t in s.threads && s.nextThread !in s.threads && Untouched(s.sh, s.threads[t].at, o, x)
    ensures Awake(Apply(s, t, o), x)
  {
    hide HasLocal, Pending;
    var r := Apply(s, t, o);
    if Sleeping(r, x) {
      assert Sleeping(s, x);
      if Pending(s, x) {
        StepPending(s, t, o, x);
      }
    }
  }

  lemma DueAwake(s: State, t: nat, o: Outcome, x: nat)
    requires t in s.threads && s.nextThread !in s.threads && o.next.Some? && NotifyDue(o.next.value.at, x)
    ensures Awake(Apply(s, t, o), x)
  {
    assert t in Apply(s, t, o).threads && NotifyDue(Apply(s, t, o).threads[t].at, x);
  }

  lemma SameLocal(sh: Shared, r: Shared, x: nat)
    requires x in sh.managed && x in r.managed && r.managed[x].workflow == sh.managed[x].workflow
    requires r.db.queue == sh.db.queue && r.log.origin == sh.log.origin
    requires (x in r.log.woken <==> x in sh.log.woken) && (x in sh.log.woken ==> r.log.woken[x] == sh.log.woken[x])
    ensures HasLocal(r, x) ==> HasLocal(sh, x)
  {
    if q :| Local(r, q, x) {
      assert Local(sh, q, x);
    }
  }

  /** The worker wakes up: its token is gone, and it is not asleep any more. */
  lemma WakeKeeps(s: State, t: nat, m: nat)
    requires WakeInv(s) && t in s.threads && s.nextThread !in s.threads
    requires s.threads[t].at == Parked(m) && m in s.sh.managed && s.sh.managed[m].token
    ensures WakeInv(Apply(s, t, Goto(WithToken(s.sh, m, false), LoopCheck(m))))
  {
    var o := Goto(WithToken(s.sh, m, false), LoopCheck(m));
    var r := Apply(s, t, o);
    KeepRoles(s, t, o);
    KeepObjects(s, t, o);
    assert s.sh.managed[m].worker == t;
    hide RolesSound, ObjectsSound;
    forall x | x in r.sh.managed ensures Awake(r, x) {
      if x != m {
        SameLocal(s.sh, o.sh, x);
        UntouchedAwake(s, t, o, x);
      }
    }
    hide Awake;
  }

  /** The worker parks: nobody accepts, or there is no row of its workflow at that moment. */
  lemma ParkKeeps(s: State, t: nat, m: nat)
    requires WakeInv(s) && t in s.threads && s.nextThread !in s.threads
    requires WorkerAt(s.threads[t].at) == Some(m) && !s.threads[t].at.Parked?
    requires m in s.sh.managed ==> !s.sh.managed[m].accepting || !HasQueued(s.sh.db, s.sh.managed[m].workflow)
    ensures WakeInv(Apply(s, t, Goto(s.sh, Parked(m))))
  {
    var o := Goto(s.sh, Parked(m));
    var r := Apply(s, t, o);
    KeepRoles(s, t, o);
    KeepObjects(s, t, o);
    hide RolesSound, ObjectsSound;
    forall x | x in r.sh.managed ensures Awake(r, x) {
      if x != m {
        UntouchedAwake(s, t, o, x);
      } else {
        NoLocalRows(s.sh, m);
      }
    }
    hide Awake;
  }

  lemma NoLocalRows(sh: Shared, m: nat)
    requires m in sh.managed
    ensures HasLocal(sh, m) ==> HasQueued(sh.db, sh.managed[m].workflow)
  {
    if q :| Local(sh, q, m) {
      assert q in sh.db.queue && sh.db.queue[q].workflow == sh.managed[m].workflow;
    }
  }

  /** setAccepting(true) after a timed-out stop. */
  lemma ReopenKeeps(s: State, t: nat, ms: seq<nat>, i: nat)
    requires WakeInv(s) && t in s.threads && s.nextThread !in s.threads && s.threads[t].at == Reopen(ms, i) && i < |ms|
    ensures WakeInv(Apply(s, t, Goto(WithAccepting(s.sh, ms[i], true), ReopenNotify(ms, i))))
  {
    var o := Goto(WithAccepting(s.sh, ms[i], true), ReopenNotify(ms, i));
    var r := Apply(s, t, o);
    assert SameRoles(s.sh, s.threads[t].at, o);
    hide RolesSound, ObjectsSound;
    KeepRoles(s, t, o);
    KeepObjects(s, t, o);
    hide SameRoles;
    forall x | x in r.sh.managed ensures Awake(r, x) {
      if x == ms[i] {
        DueAwake(s, t, o, x);
      } else {
        SameLocal(s.sh, o.sh, x);
        UntouchedAwake(s, t, o, x);
      }
    }
    hide Awake;
  }

  ghost predicate InsertsRow(sh: Shared, r: Shared, m: nat, row: QueueRow) {
    && r == sh.(db := r.db, log := r.log)
    && r.db.queue == sh.db.queue[sh.db.nextQueue := row] && r.db.nextQueue == sh.db.nextQueue + 1
    && r.log.woken == sh.log.woken && r.log.origin == sh.log.origin[sh.db.nextQueue := m]
  }

  /** The new row is foreign and late for every activated object but its own. */
  lemma InsertLocal(sh: Shared, r: Shared, m: nat, row: QueueRow, x: nat)
    requires InsertsRow(sh, r, m, row) && x in sh.managed && x != m && x in sh.log.woken
      && sh.log.woken[x] <= sh.db.nextQueue
    ensures HasLocal(r, x) ==> HasLocal(sh, x)
  {
    if q :| Local(r, q, x) {
      assert Local(sh, q, x);
    }
  }

  /** The insert: its own workflow object gets a due notify, an object not yet activated still has one. */
  lemma InsertKeeps(s: State, t: nat, r: Shared, m: nat, e: nat, manual: Option<nat>, row: QueueRow)
    requires WakeInv(s) && t in s.threads && s.nextThread !in s.threads && s.threads[t].at.Insert?
      && InsertsRow(s.sh, r, m, row)
    ensures WakeInv(Apply(s, t, Goto(r, NotifyInsert(m, e, manual))))
  {
    var o := Goto(r, NotifyInsert(m, e, manual));
    KeepRoles(s, t, o);
    KeepObjects(s, t, o);
    hide RolesSound;
    forall x | x in s.sh.managed ensures Awake(Apply(s, t, o), x) {
      if x == m {
        DueAwake(s, t, o, x);
      } else if x !in s.sh.log.woken {
        ActivationDue(s, x);
        StepPending(s, t, o, x);
      } else {
        InsertLocal(s.sh, r, m, row, x);
        UntouchedAwake(s, t, o, x);
      }
    }
    hide Awake, ObjectsSound;
  }

  lemma ActivationDue(s: State, x: nat)
    requires ObjectsSound(s) && x in s.sh.managed && x !in s.sh.log.woken
    ensures Pending(s, x)
  {
    assert NotifyDue(s.threads[s.sh.managed[x].activator].at, x);
  }

  lemma SpawnRoles(s: State, t: nat, wf: string, hasManual: bool, c: Choice)
    requires RolesSound(s) && ObjectsSound(s) && t in s.threads && s.nextThread !in s.threads
      && s.threads[t].at == SpawnWorker(wf, hasManual)
    ensures RolesSound(Apply(s, t, StartStep(s.sh, s.threads[t].at, t, s.nextThread, c)))
  {
    var n, w := s.sh.nextManaged, s.nextThread;
    var r := Apply(s, t, StartStep(s.sh, s.threads[t].at, t, w, c));
    assert n !in s.sh.managed && n !in s.sh.log.woken;
    assert r.threads == s.threads[t := Thread(Announce(n), Quiet)][w := Thread(Parked(n), Quiet)];
    assert r.sh.managed == s.sh.managed[n := Managed(wf, hasManual, true, false, false, false, w, t)];
    hide StartStep, Apply, ObjectsSound;
  }

  lemma SpawnObjects(s: State, t: nat, wf: string, hasManual: bool, c: Choice)
    requires ObjectsSound(s) && t in s.threads && s.nextThread !in s.threads
      && s.threads[t].at == SpawnWorker(wf, hasManual)
    ensures ObjectsSound(Apply(s, t, StartStep(s.sh, s.threads[t].at, t, s.nextThread, c)))
  {
    var r := Apply(s, t, StartStep(s.sh, s.threads[t].at, t, s.nextThread, c));
    forall m | m in r.sh.managed && m !in r.sh.log.woken
      ensures r.sh.managed[m].activator in r.threads && ActivatorAt(r.threads[r.sh.managed[m].activator].at) == Some(m)
    {
      if m in s.sh.managed {
        var u := s.sh.managed[m].activator;
        assert u in s.threads && ActivatorAt(s.threads[u].at) == Some(m);
      }
    }
  }

  /** A new workflow object: its activation still has to notify. */
  lemma SpawnKeeps(s: State, t: nat, wf: string, hasManual: bool, c: Choice)
    requires WakeInv(s) && t in s.threads && s.nextThread !in s.threads && s.threads[t].at == SpawnWorker(wf, hasManual)
    ensures WakeInv(Apply(s, t, StartStep(s.sh, s.threads[t].at, t, s.nextThread, c)))
  {
    var o := StartStep(s.sh, s.threads[t].at, t, s.nextThread, c);
    var r := Apply(s, t, o);
    SpawnRoles(s, t, wf, hasManual, c);
    SpawnObjects(s, t, wf, hasManual, c);
    assert s.sh.nextManaged !in s.sh.managed;
    hide RolesSound, ObjectsSound;
    forall x | x in r.sh.managed ensures Awake(r, x) {
      if x == s.sh.nextManaged {
        DueAwake(s, t, o, x);
      } else {
        SameLocal(s.sh, o.sh, x);
        UntouchedAwake(s, t, o, x);
      }
    }
    hide Awake;
  }

  /** The state shared after the notify that ends an activation. */
  function Activated(sh: Shared, m: nat): Shared {
    WithToken(sh, m, true).(log := sh.log.(woken := sh.log.woken[m := sh.db.nextQueue]))
  }

  lemma ActiveRoles(s: State, t: nat, m: nat)
    requires RolesSound(s) && t in s.threads && s.threads[t].at == NotifyActive(m)
    ensures RolesSound(Apply(s, t, Exit(Activated(s.sh, m))))
  {
  }

  lemma ActiveObjects(s: State, t: nat, m: nat)
    requires RolesSound(s) && ObjectsSound(s) && t in s.threads && s.threads[t].at == NotifyActive(m)
    ensures ObjectsSound(Apply(s, t, Exit(Activated(s.sh, m))))
  {
    assert m in s.sh.managed;
    hide RolesSound;
    var r := Apply(s, t, Exit(Activated(s.sh, m)));
    forall x | x in r.sh.managed && x !in r.sh.log.woken
      ensures r.sh.managed[x].activator in r.threads && ActivatorAt(r.threads[r.sh.managed[x].activator].at) == Some(x)
    {
      var u := s.sh.managed[x].activator;
      assert u in s.threads && ActivatorAt(s.threads[u].at) == Some(x);
    }
  }

  /** The notify at the end of an activation. */
  lemma ActiveKeeps(s: State, t: nat, m: nat)
    requires WakeInv(s) && t in s.threads && s.nextThread !in s.threads && s.threads[t].at == NotifyActive(m)
    ensures WakeInv(Apply(s, t, Exit(Activated(s.sh, m))))
  {
    var o := Exit(Activated(s.sh, m));
    var r := Apply(s, t, o);
    ActiveRoles(s, t, m);
    ActiveObjects(s, t, m);
    hide RolesSound, ObjectsSound;
    forall x | x in r.sh.managed ensures Awake(r, x) {
      if x != m {
        SameLocal(s.sh, o.sh, x);
        UntouchedAwake(s, t, o, x);
      }
    }
    hide Awake;
  }

  // ---------------------------------------------------------------- every step

  lemma EnqueueObjects(sh: Shared, at: Pc, t: nat, c: Choice, limit: nat)
    requires InEnqueue(at) && (at.Insert? ==> at.wf !in sh.db.workflows)
    ensures ObjectsCalm(sh, EnqueueStep(sh, at, t, c, limit).sh) && EnqueueStep(sh, at, t, c, limit).sh.db == sh.db
  {
    hide QueueOf, Create, WithToken, ObjectsCalm;
    if at.NotifyInsert? || at.NotifyManual? {
      TokenCalm(sh, at.m);
    }
    ManagedCalm(sh, EnqueueStep(sh, at, t, c, limit).sh);
  }

  lemma TokenCalm(sh: Shared, m: nat)
    ensures ObjectsCalm(sh, WithToken(sh, m, true))
  {
  }

  lemma ManagedCalm(sh: Shared, r: Shared)
    ensures r.managed == sh.managed && r.nextManaged == sh.nextManaged && r.log.woken == sh.log.woken
      && r.log.origin == sh.log.origin
      ==> ObjectsCalm(sh, r)
  {
  }

  lemma EnqueueMoves(sh: Shared, at: Pc, t: nat, c: Choice, limit: nat)
    requires InEnqueue(at) && (at.Insert? ==> at.wf !in sh.db.workflows)
    ensures CalmMove(sh, at, EnqueueStep(sh, at, t, c, limit))
  {
    hide QueueOf, Create;
  }

  lemma EnqueueCalm(sh: Shared, at: Pc, t: nat, c: Choice, limit: nat)
    requires InEnqueue(at) && (at.Insert? ==> at.wf !in sh.db.workflows)
    ensures Calm(sh, at, EnqueueStep(sh, at, t, c, limit))
  {
    EnqueueObjects(sh, at, t, c, limit);
    EnqueueMoves(sh, at, t, c, limit);
    hide ObjectsCalm, CalmMove, EnqueueStep;
  }

  lemma WorkerQueue(sh: Shared, at: Pc, t: nat, c: Choice)
    requires InWorker(at)
    ensures QueueShrinks(sh.db, WorkerStep(sh, at, t, c).sh.db)
  {
    hide HasQueued, MarkRunning, WithToken, WithRunning, WorkflowOf, IsNext;
    if at.ClaimNext? && IsNext(sh.db, WorkflowOf(sh, at.m), c.row) {
      NextIsQueued(sh.db, WorkflowOf(sh, at.m), c.row);
    }
  }

  /** A worker changes the flags of its own object only, and takes its token only when it wakes. */
  lemma WorkerObjects(sh: Shared, at: Pc, t: nat, c: Choice)
    requires InWorker(at)
    requires at.Parked? ==> !(c.flag && at.m in sh.managed && sh.managed[at.m].token)
    ensures ObjectsCalm(sh, WorkerStep(sh, at, t, c).sh)
  {
    hide IsNext, HasQueued, Claim, Complete;
  }

  lemma WorkerMoves(sh: Shared, at: Pc, t: nat, c: Choice)
    requires InWorker(at) && (at.LoopCheck? || at.ClaimNext? ==> !WorkerStep(sh, at, t, c).next.value.at.Parked?)
    requires at.Parked? ==> !(c.flag && at.m in sh.managed && sh.managed[at.m].token)
    ensures CalmMove(sh, at, WorkerStep(sh, at, t, c))
  {
    hide IsNext, HasQueued, Claim, Complete, WithRunning, WithToken;
  }

  lemma WorkerCalm(sh: Shared, at: Pc, t: nat, c: Choice)
    requires InWorker(at) && (at.LoopCheck? || at.ClaimNext? ==> !WorkerStep(sh, at, t, c).next.value.at.Parked?)
    requires at.Parked? ==> !(c.flag && at.m in sh.managed && sh.managed[at.m].token)
    ensures Calm(sh, at, WorkerStep(sh, at, t, c))
  {
    WorkerQueue(sh, at, t, c);
    WorkerObjects(sh, at, t, c);
    WorkerMoves(sh, at, t, c);
    hide QueueShrinks, ObjectsCalm, CalmMove, WorkerStep;
  }

  lemma StopQueue(sh: Shared, at: Pc, c: Choice)
    requires InStop(at)
    ensures QueueShrinks(sh.db, StopStep(sh, at, c).sh.db)
  {
    hide NoDup, Elements, QueuedOf, WithToken, WithAccepting, WithStopped;
  }

  lemma StopObjects(sh: Shared, at: Pc, c: Choice)
    requires InStop(at) && (at.Reopen? ==> at.i >= |at.ms|)
    ensures ObjectsCalm(sh, StopStep(sh, at, c).sh)
  {
    StopFlags(sh, at, c);
    FlagsCalm(sh, at);
    ManagedCalm(sh, StopStep(sh, at, c).sh);
    hide StopStep, ObjectsCalm, WithToken, WithAccepting, WithStopped;
  }

  /** What a stop does to the workflow objects. */
  lemma StopFlags(sh: Shared, at: Pc, c: Choice)
    requires InStop(at) && (at.Reopen? ==> at.i >= |at.ms|)
    ensures var r := StopStep(sh, at, c).sh;
      if at.StopGate? && at.i < |at.ms| then r == WithAccepting(sh, at.ms[at.i], false)
      else if at.ReopenNotify? && at.i < |at.ms| then r == WithToken(sh, at.ms[at.i], true)
      else if at.CloseStop? && at.i < |at.ms| && at.ms[at.i] in sh.managed && !sh.managed[at.ms[at.i]].stopped
        then r == WithStopped(sh, at.ms[at.i])
      else
        && r.managed == sh.managed && r.nextManaged == sh.nextManaged && r.log.woken == sh.log.woken
        && r.log.origin == sh.log.origin
  {
    hide NoDup, Elements, QueuedOf, Cancel, DeleteWorkflow, SetActive, WithToken, WithAccepting,
      WithStopped, WorkflowOf;
  }

  lemma FlagsCalm(sh: Shared, at: Pc)
    ensures at.StopGate? && at.i < |at.ms| ==> ObjectsCalm(sh, WithAccepting(sh, at.ms[at.i], false))
    ensures at.ReopenNotify? && at.i < |at.ms| ==> ObjectsCalm(sh, WithToken(sh, at.ms[at.i], true))
    ensures at.CloseStop? && at.i < |at.ms| ==> ObjectsCalm(sh, WithStopped(sh, at.ms[at.i]))
  {
  }

  /** A stop is no worker and no activator, and starts none. */
  lemma StopNobody(sh: Shared, at: Pc, c: Choice)
    requires InStop(at)
    ensures var o := StopStep(sh, at, c); o.spawn.None? && (o.next.Some? ==> InStop(o.next.value.at))
  {
    hide NoDup, Elements, QueuedOf, Cancel, DeleteWorkflow, SetActive, WithToken, WithAccepting,
      WithStopped, WorkflowOf;
  }

  lemma StopNotifies(sh: Shared, at: Pc, c: Choice)
    requires at.ReopenNotify?
    ensures forall m :: m in sh.managed && NotifyDue(at, m) ==>
      m in StopStep(sh, at, c).sh.managed && StopStep(sh, at, c).sh.managed[m].token
  {
    hide NoDup, Elements, QueuedOf, Cancel, DeleteWorkflow, SetActive, WithAccepting, WithStopped, WorkflowOf;
  }

  lemma StopMoves(sh: Shared, at: Pc, c: Choice)
    requires InStop(at) && (at.Reopen? ==> at.i >= |at.ms|)
    ensures CalmMove(sh, at, StopStep(sh, at, c))
  {
    StopNobody(sh, at, c);
    if at.ReopenNotify? {
      StopNotifies(sh, at, c);
    }
    hide StopStep;
  }

  lemma StopCalm(sh: Shared, at: Pc, c: Choice)
    requires InStop(at) && (at.Reopen? ==> at.i >= |at.ms|)
    ensures Calm(sh, at, StopStep(sh, at, c))
  {
    StopQueue(sh, at, c);
    StopObjects(sh, at, c);
    StopMoves(sh, at, c);
    hide QueueShrinks, ObjectsCalm, CalmMove, StopStep;
  }

  lemma StartObjects(sh: Shared, at: Pc, t: nat, spawned: nat, c: Choice)
    requires !InEnqueue(at) && !InWorker(at) && !InStop(at) && !at.SpawnWorker? && !at.NotifyActive?
    ensures var r := StartStep(sh, at, t, spawned, c).sh; ObjectsCalm(sh, r) && QueueShrinks(sh.db, r.db)
  {
    hide WithToken, WorkflowOf;
  }

  lemma StartMoves(sh: Shared, at: Pc, t: nat, spawned: nat, c: Choice)
    requires !InEnqueue(at) && !InWorker(at) && !InStop(at) && !at.SpawnWorker? && !at.NotifyActive?
    ensures CalmMove(sh, at, StartStep(sh, at, t, spawned, c))
  {
    hide WithToken, WorkflowOf, UpsertWorkflow;
  }

  lemma StartCalm(sh: Shared, at: Pc, t: nat, spawned: nat, c: Choice)
    requires !InEnqueue(at) && !InWorker(at) && !InStop(at) && !at.SpawnWorker? && !at.NotifyActive?
    ensures Calm(sh, at, StartStep(sh, at, t, spawned, c))
  {
    StartObjects(sh, at, t, spawned, c);
    StartMoves(sh, at, t, spawned, c);
    hide ObjectsCalm, QueueShrinks, CalmMove, StartStep;
  }

  /** Staying where one is and touching neither tables nor workflow objects is calm. */
  lemma StandingCalm(sh: Shared, at: Pc, o: Outcome)
    requires o.sh.db == sh.db && o.sh.managed == sh.managed && o.sh.nextManaged == sh.nextManaged
    requires o.sh.log.woken == sh.log.woken && o.sh.log.origin == sh.log.origin
    requires o.spawn.None? && o.next.Some? && o.next.value.at == at
    ensures Calm(sh, at, o)
  {
  }

  lemma DeliveryCalm(sh: Shared, th: Thread, t: nat)
    ensures Calm(sh, th.at, DeliveryStep(sh, th, t))
  {
    hide Calm;
    DeliveryLeaves(sh, th, t);
    StandingCalm(sh, th.at, DeliveryStep(sh, th, t));
  }

  lemma WorkerWakes(s: State, t: nat, c: Choice)
    requires WakeInv(s) && t in s.threads && s.nextThread !in s.threads && InWorker(s.threads[t].at)
    ensures WakeInv(Apply(s, t, WorkerStep(s.sh, s.threads[t].at, t, c)))
  {
    hide WakeInv, Calm, IsNext, HasQueued, Claim, Complete, WithToken, WithRunning;
    var at := s.threads[t].at;
    if at.Parked? && c.flag && at.m in s.sh.managed && s.sh.managed[at.m].token {
      WakeKeeps(s, t, at.m);
    } else if (at.LoopCheck? || at.ClaimNext?) && WorkerStep(s.sh, at, t, c).next.value.at.Parked? {
      ParkKeeps(s, t, at.m);
    } else {
      WorkerCalm(s.sh, at, t, c);
      CalmKeeps(s, t, WorkerStep(s.sh, at, t, c));
    }
  }

  lemma ThreadWakes(s: State, t: nat, c: Choice, limit: nat)
    requires WakeInv(s) && t in s.threads && s.nextThread !in s.threads
    ensures WakeInv(Apply(s, t, ThreadStep(s.sh, s.threads[t], t, s.nextThread, c, limit)))
  {
    var th := s.threads[t];
    if !th.delivery.Quiet? {
      hide WakeInv, Calm, DeliveryStep;
      DeliveryCalm(s.sh, th, t);
      CalmKeeps(s, t, DeliveryStep(s.sh, th, t));
    } else if InEnqueue(th.at) {
      hide WakeInv, Calm, QueueOf;
      if th.at.Insert? && th.at.wf in s.sh.db.workflows {
        var o := EnqueueStep(s.sh, th.at, t, c, limit);
        InsertKeeps(s, t, o.sh, th.at.m, s.sh.db.nextExecution, th.at.manual,
                    QueueRow(s.sh.db.nextExecution, th.at.wf, if th.at.manual.Some? then "manual"
                      else "trigger", c.now));
      } else {
        hide EnqueueStep;
        EnqueueCalm(s.sh, th.at, t, c, limit);
        CalmKeeps(s, t, EnqueueStep(s.sh, th.at, t, c, limit));
      }
    } else if InWorker(th.at) {
      hide WakeInv, WorkerStep;
      WorkerWakes(s, t, c);
    } else if InStop(th.at) {
      hide WakeInv, Calm, NoDup, Elements, QueuedOf, Cancel, DeleteWorkflow, WithAccepting;
      if th.at.Reopen? && th.at.i < |th.at.ms| {
        ReopenKeeps(s, t, th.at.ms, th.at.i);
      } else {
        hide StopStep;
        StopCalm(s.sh, th.at, c);
        CalmKeeps(s, t, StopStep(s.sh, th.at, c));
      }
    } else {
      StartWakes(s, t, c);
      hide WakeInv, StartStep;
    }
  }

  lemma StartWakes(s: State, t: nat, c: Choice)
    requires WakeInv(s) && t in s.threads && s.nextThread !in s.threads
    requires !InEnqueue(s.threads[t].at) && !InWorker(s.threads[t].at) && !InStop(s.threads[t].at)
    ensures WakeInv(Apply(s, t, StartStep(s.sh, s.threads[t].at, t, s.nextThread, c)))
  {
    hide WakeInv, Calm;
    var at := s.threads[t].at;
    if at.SpawnWorker? {
      SpawnKeeps(s, t, at.wf, at.hasManual, c);
    } else if at.NotifyActive? {
      ActiveKeeps(s, t, at.m);
    } else {
      StartCalm(s.sh, at, t, s.nextThread, c);
      CalmKeeps(s, t, StartStep(s.sh, at, t, s.nextThread, c));
    }
  }

  lemma RequestWakes(s: State, pc: Pc)
    requires WakeInv(s) && MayStart(s.sh, pc) && s.nextThread !in s.threads
    ensures WakeInv(Begun(s, pc))
  {
    var r := Begun(s, pc);
    forall m | m in r.sh.managed ensures Awake(r, m) {
      assert Awake(s, m);
      hide HasLocal;
      if Pending(s, m) {
        var u :| u in s.threads && NotifyDue(s.threads[u].at, m);
        assert u in r.threads && NotifyDue(r.threads[u].at, m);
      }
    }
    hide Awake;
    forall m | m in r.sh.managed && m !in r.sh.log.woken
      ensures r.sh.managed[m].activator in r.threads && ActivatorAt(r.threads[r.sh.managed[m].activator].at) == Some(m)
    {
      var u := s.sh.managed[m].activator;
      assert u in s.threads && ActivatorAt(s.threads[u].at) == Some(m);
    }
  }

  lemma DbWakes(s: State, r: State)
    requires WakeInv(s) && r.threads == s.threads && r.sh == s.sh.(db := r.sh.db) && QueueShrinks(s.sh.db, r.sh.db)
    ensures WakeInv(r)
  {
    forall m | m in r.sh.managed ensures Awake(r, m) {
      assert Awake(s, m);
      if HasLocal(r.sh, m) {
        var q :| Local(r.sh, q, m);
        assert Local(s.sh, q, m);
      }
      if Pending(s, m) {
        var u :| u in s.threads && NotifyDue(s.threads[u].at, m);
        assert u in r.threads && NotifyDue(r.threads[u].at, m);
      }
    }
    hide Awake;
  }

  lemma CrashWakes(s: State)
    requires WakeInv(s)
    ensures WakeInv(Crashed(s))
  {
  }

  lemma OutsideShrinks(s: State, a: Action, limit: nat)
    requires Enabled(s, a) && !a.Step? && !a.Crash? && !a.Request?
    ensures QueueShrinks(s.sh.db, Next(s, a, limit).sh.db)
  {
    hide OlderIds, OverflowIds, StaleIds, Elements, NoDup;
  }

  lemma NextWakes(s: State, a: Action, limit: nat)
    requires ClaimInv(s) && WakeInv(s) && Enabled(s, a)
    ensures WakeInv(Next(s, a, limit))
  {
    FreshThread(s);
    hide ClaimInv, WakeInv, ThreadStep, OlderIds, OverflowIds, DeleteExecutions, Repair, QueueShrinks, Crashed;
    match a
    case Step(t, c) => ThreadWakes(s, t, c, limit);
    case Request(pc) => RequestWakes(s, pc);
    case Crash => CrashWakes(s);
    case _ =>
      OutsideShrinks(s, a, limit);
      DbWakes(s, Next(s, a, limit));
  }

  lemma InitWakes(s: State)
    requires Init(s)
    ensures WakeInv(s)
  {
  }

  lemma {:induction false} RunWakes(s: State, actions: seq<Action>, limit: nat)
    requires ClaimInv(s) && WakeInv(s) && Run(s, actions, limit)
    ensures ClaimInv(After(s, actions, limit)) && WakeInv(After(s, actions, limit))
    decreases |actions|
  {
    hide ClaimInv, WakeInv, Next;
    if actions != [] {
      NextKeepsClaims(s, actions[0], limit);
      NextWakes(s, actions[0], limit);
      RunWakes(Next(s, actions[0], limit), actions[1..], limit);
    }
  }

  // ---------------------------------------------------------------- theorems

  /** A manual execution is past its insert and before the second notify of `m`. */
  predicate ManualDue(at: Pc, m: nat) {
    match at
    case NotifyInsert(_, _, manual) => manual == Some(m)
    case Register(_, x) => x == m
    case NotifyManual(_, x) => x == m
    case _ => false
  }

  ghost predicate ManualPending(s: State, m: nat) {
    exists t :: t in s.threads && ManualDue(s.threads[t].at, m)
  }

  /** The worker of an accepting, unstopped workflow object is parked, with no token and no notify under way. */
  ghost predicate Idle(s: State, m: nat) {
    && Sleeping(s, m) && s.sh.managed[m].accepting && !s.sh.managed[m].stopped
    && !s.sh.managed[m].token && !Pending(s, m) && !ManualPending(s, m)
  }

  /** Idle on a non-empty queue: nothing will make this worker look at the queue. */
  ghost predicate LostWakeup(s: State, m: nat) {
    Idle(s, m) && HasQueued(s.sh.db, s.sh.managed[m].workflow)
  }

  /** A queued row inserted for another workflow object after `m` had been activated. */
  ghost predicate LateForeign(sh: Shared, q: nat, m: nat) {
    && q in sh.db.queue && m in sh.managed && sh.db.queue[q].workflow == sh.managed[m].workflow
    && !(q in sh.log.origin && sh.log.origin[q] == m) && m in sh.log.woken && sh.log.woken[m] <= q
  }

  /** In every reachable state a wake-up is lost exactly when an idle worker has a late foreign row. */
  lemma {:induction false} LostWakeupIffLateForeign(s: State, actions: seq<Action>, limit: nat, m: nat)
    requires Init(s) && Run(s, actions, limit)
    ensures var r := After(s, actions, limit);
      LostWakeup(r, m) <==> Idle(r, m) && exists q :: LateForeign(r.sh, q, m)
  {
    InitClaims(s);
    InitWakes(s);
    RunWakes(s, actions, limit);
    var r := After(s, actions, limit);
    hide Run, After, ClaimInv, RolesSound, ObjectsSound, Pending, ManualPending;
    if LostWakeup(r, m) {
      assert Awake(r, m);
      var q :| q in r.sh.db.queue && r.sh.db.queue[q].workflow == r.sh.managed[m].workflow;
      assert !Local(r.sh, q, m);
      assert LateForeign(r.sh, q, m);
    }
  }
}
