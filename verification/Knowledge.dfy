/** Which goroutine can get at which workflow object: who holds one, who can open one again, who can notify
    one, and that nobody but its start knows an object that is not yet in the workflow map. */
module Knowledge {
  import opened Base
  import opened Reports
  import opened Tables
  import opened Retention
  import opened Protocol
  import opened ClaimSafety
  import opened Waiters
  import opened Wakeups
  import opened OwnInserts

  /** The workflow map has the object. */
  ghost predicate Listed(sh: Shared, m: nat) {
    exists wf :: wf in sh.registered && sh.registered[wf] == m
  }

  /** The object is built and not yet in the workflow map. */
  ghost predicate Unannounced(s: State, m: nat) {
    exists t :: t in s.threads && s.threads[t].at == Announce(m)
  }

  /** An enqueue or a stop that works on the object. */
  predicate Refers(at: Pc, m: nat) {
    match at
    case Lookup(_, manual) => manual == Some(m)
    case Gate(_, x, manual) => x == m || manual == Some(m)
    case Count(_, x, manual) => x == m || manual == Some(m)
    case Insert(_, x, manual) => x == m || manual == Some(m)
    case NotifyInsert(x, _, manual) => x == m || manual == Some(m)
    case Register(_, x) => x == m
    case NotifyManual(_, x) => x == m
    case StopGate(ms, _, _) => m in ms
    case StopWait(ms, _, _) => m in ms
    case Reopen(ms, _) => m in ms
    case ReopenNotify(ms, _) => m in ms
    case CancelAll(ms, _, _) => m in ms
    case Inform(ms, _, _, _) => m in ms
    case CloseStop(ms, _, _) => m in ms
    case MarkStopped(ms, _, _) => m in ms
    case Forget(ms, _, _) => m in ms
    case _ => false
  }

  /** The object that a manual execution has found under the workflow it asked for. */
  predicate ManualFits(sh: Shared, at: Pc) {
    match at
    case Lookup(wf, Some(m)) => m in sh.managed && sh.managed[m].workflow == wf
    case Gate(wf, _, Some(m)) => m in sh.managed && sh.managed[m].workflow == wf
    case Count(wf, _, Some(m)) => m in sh.managed && sh.managed[m].workflow == wf
    case Insert(wf, _, Some(m)) => m in sh.managed && sh.managed[m].workflow == wf
    case _ => true
  }

  // ---------------------------------------------------------------- the invariant

  ghost predicate ListedSound(s: State) {
    forall wf :: wf in s.sh.registered ==>
      var m := s.sh.registered[wf]; m in s.sh.managed && s.sh.managed[m].workflow == wf && !Unannounced(s, m)
  }

  ghost predicate ReferredSound(s: State) {
    forall t, m: nat :: t in s.threads && Refers(s.threads[t].at, m) ==> m in s.sh.managed && !Unannounced(s, m)
  }

  /** The worker of a fresh object is parked, and its object is as it was built. */
  ghost predicate FreshSound(s: State) {
    forall t :: t in s.threads && s.threads[t].at.Announce? ==> AsBuilt(s, s.threads[t].at.m)
  }

  ghost predicate AsBuilt(s: State, m: nat) {
    && m in s.sh.managed && s.sh.managed[m].accepting && !s.sh.managed[m].token && !s.sh.managed[m].stopped
    && s.sh.managed[m].worker in s.threads && s.threads[s.sh.managed[m].worker] == Thread(Parked(m), Quiet)
  }

  ghost predicate ManualSound(s: State) {
    forall t :: t in s.threads ==> ManualFits(s.sh, s.threads[t].at)
  }

  /** Only a worker that has recorded and a stop that informs publish. */
  ghost predicate PublishersPlaced(s: State) {
    forall t :: t in s.threads && !s.threads[t].delivery.Quiet? ==>
      s.threads[t].at.ClearRunning? || s.threads[t].at.Inform?
  }

  ghost predicate KnowInv(s: State) {
    ListedSound(s) && ReferredSound(s) && FreshSound(s) && ManualSound(s) && PublishersPlaced(s)
  }

  // ---------------------------------------------------------------- what a step learns

  /** What a step about to be taken does to the object. */
  predicate Touches(at: Pc, m: nat) {
    Refers(at, m) || WorkerAt(at) == Some(m) || ActivatorAt(at) == Some(m)
  }

  /** The step lists no object, builds none, and changes only those it works on. */
  ghost predicate SameBut(sh: Shared, r: Shared, at: Pc) {
    && r.managed.Keys == sh.managed.Keys && r.nextManaged == sh.nextManaged
    && (forall m :: m in sh.managed ==>
          && r.managed[m].workflow == sh.managed[m].workflow && r.managed[m].worker == sh.managed[m].worker
          && (r.managed[m] != sh.managed[m] ==> Touches(at, m)))
    && (forall wf :: wf in r.registered ==> wf in sh.registered && r.registered[wf] == sh.registered[wf])
  }

  /** Where the goroutine goes it refers to what it referred to before or finds in the workflow map. */
  ghost predicate Learns(sh: Shared, at: Pc, next: Pc) {
    && (forall m: nat :: Refers(next, m) ==> Refers(at, m) || Listed(sh, m))
    && (next.Announce? ==> next == at)
  }

  ghost predicate Modest(sh: Shared, th: Thread, o: Outcome) {
    && SameBut(sh, o.sh, th.at) && o.spawn.None?
    && (o.next.Some? ==>
          && Learns(sh, th.at, o.next.value.at)
          && (o.next.value.delivery.Quiet? || o.next.value.at.ClearRunning? || o.next.value.at.Inform?))
  }

  lemma EnqueueModest(sh: Shared, at: Pc, t: nat, c: Choice, limit: nat)
    requires InEnqueue(at)
    ensures Modest(sh, Thread(at, Quiet), EnqueueStep(sh, at, t, c, limit))
  {
    EnqueueLearns(sh, at, t, c, limit);
    EnqueueSame(sh, at, t, c, limit);
    hide SameBut, Learns, EnqueueStep;
  }

  lemma EnqueueLearns(sh: Shared, at: Pc, t: nat, c: Choice, limit: nat)
    requires InEnqueue(at)
    ensures var o := EnqueueStep(sh, at, t, c, limit);
      o.spawn.None? && (o.next.Some? ==> o.next.value.delivery.Quiet? && Learns(sh, at, o.next.value.at))
  {
    hide QueueOf, Create, WithToken, WithWaiter;
  }

  lemma TokenSame(sh: Shared, m: nat, value: bool, at: Pc)
    requires Touches(at, m)
    ensures SameBut(sh, WithToken(sh, m, value), at)
  {
  }

  lemma ManagedSame(sh: Shared, r: Shared, at: Pc)
    ensures r.managed == sh.managed && r.nextManaged == sh.nextManaged && r.registered == sh.registered ==>
      SameBut(sh, r, at)
  {
  }

  lemma EnqueueSame(sh: Shared, at: Pc, t: nat, c: Choice, limit: nat)
    requires InEnqueue(at)
    ensures SameBut(sh, EnqueueStep(sh, at, t, c, limit).sh, at)
  {
    hide QueueOf, Create, WithToken, SameBut;
    if at.NotifyInsert? || at.NotifyManual? {
      TokenSame(sh, at.m, true, at);
    }
    ManagedSame(sh, EnqueueStep(sh, at, t, c, limit).sh, at);
  }

  // ---------------------------------------------------------------- workers

  lemma RunningSame(sh: Shared, m: nat, value: bool, at: Pc)
    requires Touches(at, m)
    ensures SameBut(sh, WithRunning(sh, m, value), at)
  {
  }

  /** What a worker does to the workflow objects. */
  lemma WorkerFlags(sh: Shared, at: Pc, t: nat, c: Choice)
    requires InWorker(at)
    ensures var r := WorkerStep(sh, at, t, c).sh;
      if at.Parked? && c.flag && at.m in sh.managed && sh.managed[at.m].token then r == WithToken(sh, at.m, false)
      else if at.SetRunning? || at.ClearRunning? then r == WithRunning(sh, at.m, at.SetRunning?)
      else r.managed == sh.managed && r.nextManaged == sh.nextManaged && r.registered == sh.registered
  {
    hide IsNext, HasQueued, Claim, Complete, WithToken, WithRunning, WorkflowOf;
  }

  lemma WorkerSame(sh: Shared, at: Pc, t: nat, c: Choice)
    requires InWorker(at)
    ensures SameBut(sh, WorkerStep(sh, at, t, c).sh, at)
  {
    WorkerFlags(sh, at, t, c);
    TokenSame(sh, at.m, false, at);
    RunningSame(sh, at.m, at.SetRunning?, at);
    ManagedSame(sh, WorkerStep(sh, at, t, c).sh, at);
    hide SameBut, WorkerStep, WithToken, WithRunning;
  }

  lemma WorkerModest(sh: Shared, at: Pc, t: nat, c: Choice)
    requires InWorker(at)
    ensures Modest(sh, Thread(at, Quiet), WorkerStep(sh, at, t, c))
  {
    WorkerSame(sh, at, t, c);
    WorkerPlaces(sh, at, t, c);
    hide SameBut, WorkerStep;
  }

  lemma WorkerPlaces(sh: Shared, at: Pc, t: nat, c: Choice)
    requires InWorker(at)
    ensures var o := WorkerStep(sh, at, t, c);
      o.spawn.None? && (o.next.Some? ==>
        WorkerAt(o.next.value.at) == Some(at.m) && (o.next.value.delivery.Quiet? || o.next.value.at.ClearRunning?))
  {
    hide IsNext, HasQueued, Claim, Complete, WithToken, WithRunning, WorkflowOf;
  }

  // ---------------------------------------------------------------- stops

  lemma StopSame(sh: Shared, at: Pc, c: Choice)
    requires InStop(at)
    ensures SameBut(sh, StopStep(sh, at, c).sh, at)
  {
    if at.Reopen? && at.i < |at.ms| {
      AcceptSame(sh, at.ms[at.i], true, at);
      hide SameBut, WithAccepting;
    } else {
      StopFlags(sh, at, c);
      StopLists(sh, at, c);
      StopFlagsSame(sh, at);
      ManagedFewer(sh, StopStep(sh, at, c).sh, at);
      hide StopStep, SameBut, WithAccepting, WithToken, WithStopped;
    }
  }

  lemma ManagedFewer(sh: Shared, r: Shared, at: Pc)
    requires forall wf :: wf in r.registered ==> wf in sh.registered && r.registered[wf] == sh.registered[wf]
    ensures r.managed == sh.managed && r.nextManaged == sh.nextManaged ==> SameBut(sh, r, at)
  {
  }

  lemma StopFlagsSame(sh: Shared, at: Pc)
    ensures at.StopGate? && at.i < |at.ms| ==> SameBut(sh, WithAccepting(sh, at.ms[at.i], false), at)
    ensures at.ReopenNotify? && at.i < |at.ms| ==> SameBut(sh, WithToken(sh, at.ms[at.i], true), at)
    ensures at.CloseStop? && at.i < |at.ms| ==> SameBut(sh, WithStopped(sh, at.ms[at.i]), at)
  {
    hide SameBut, WithAccepting, WithToken, WithStopped;
    if at.StopGate? && at.i < |at.ms| {
      AcceptSame(sh, at.ms[at.i], false, at);
    } else if at.ReopenNotify? && at.i < |at.ms| {
      TokenSame(sh, at.ms[at.i], true, at);
    } else if at.CloseStop? && at.i < |at.ms| {
      StoppedSame(sh, at.ms[at.i], at);
    }
  }

  lemma StoppedSame(sh: Shared, m: nat, at: Pc)
    requires Touches(at, m)
    ensures SameBut(sh, WithStopped(sh, m), at)
  {
  }

  lemma AcceptSame(sh: Shared, m: nat, value: bool, at: Pc)
    requires Touches(at, m)
    ensures SameBut(sh, WithAccepting(sh, m, value), at)
  {
  }

  lemma StopLists(sh: Shared, at: Pc, c: Choice)
    requires InStop(at)
    ensures var r := StopStep(sh, at, c).sh; forall wf ::
      wf in r.registered ==> wf in sh.registered && r.registered[wf] == sh.registered[wf]
  {
    hide NoDup, Elements, QueuedOf, Cancel, DeleteWorkflow, SetActive, WithToken, WithAccepting,
      WithStopped, WorkflowOf;
  }

  lemma StopLearns(sh: Shared, at: Pc, c: Choice)
    requires InStop(at)
    ensures var o := StopStep(sh, at, c); o.spawn.None? && (o.next.Some? ==>
      Learns(sh, at, o.next.value.at) && (o.next.value.delivery.Quiet? || o.next.value.at.Inform?))
  {
    hide NoDup, Elements, QueuedOf, Cancel, DeleteWorkflow, SetActive, WithToken, WithAccepting,
      WithStopped, WorkflowOf;
  }

  lemma StopModest(sh: Shared, at: Pc, c: Choice)
    requires InStop(at)
    ensures Modest(sh, Thread(at, Quiet), StopStep(sh, at, c))
  {
    StopSame(sh, at, c);
    StopLearns(sh, at, c);
    hide SameBut, Learns, StopStep;
  }

  // ---------------------------------------------------------------- starts and publishers

  lemma StartModest(sh: Shared, at: Pc, t: nat, n: nat, c: Choice)
    requires !InEnqueue(at) && !InWorker(at) && !InStop(at) && !at.SpawnWorker? && !at.Announce?
    ensures Modest(sh, Thread(at, Quiet), StartStep(sh, at, t, n, c))
  {
    hide UpsertWorkflow, WorkflowOf;
  }

  lemma DeliveryModest(sh: Shared, th: Thread, t: nat)
    requires !th.delivery.Quiet? && (th.at.ClearRunning? || th.at.Inform?)
    ensures Modest(sh, th, DeliveryStep(sh, th, t))
  {
    DeliveryLeaves(sh, th, t);
    ManagedSame(sh, DeliveryStep(sh, th, t).sh, th.at);
    hide SameBut;
  }

  // ---------------------------------------------------------------- the invariant is kept

  lemma ModestFresh(s: State, t: nat, o: Outcome, m: nat)
    requires t in s.threads && Modest(s.sh, s.threads[t], o)
    ensures Unannounced(Apply(s, t, o), m) ==> Unannounced(s, m)
  {
    hide SameBut;
    var r := Apply(s, t, o);
    if u :| u in r.threads && r.threads[u].at == Announce(m) {
      assert u in s.threads && s.threads[u].at == Announce(m);
    }
  }

  lemma ModestListed(s: State, t: nat, o: Outcome)
    requires KnowInv(s) && t in s.threads && Modest(s.sh, s.threads[t], o)
    ensures ListedSound(Apply(s, t, o))
  {
    var r := Apply(s, t, o);
    forall wf | wf in r.sh.registered ensures !Unannounced(r, r.sh.registered[wf]) {
      ModestFresh(s, t, o, r.sh.registered[wf]);
    }
    hide Unannounced, Learns, ReferredSound, FreshSound, ManualSound;
  }

  lemma ModestReferred(s: State, t: nat, o: Outcome)
    requires KnowInv(s) && t in s.threads && Modest(s.sh, s.threads[t], o)
    ensures ReferredSound(Apply(s, t, o))
  {
    var r := Apply(s, t, o);
    forall u, m: nat | u in r.threads && Refers(r.threads[u].at, m) ensures m in r.sh.managed && !Unannounced(r, m) {
      ModestFresh(s, t, o, m);
      if u == t && Listed(s.sh, m) {
        var wf :| wf in s.sh.registered && s.sh.registered[wf] == m;
      }
    }
    hide Unannounced, FreshSound, ManualSound;
  }

  /** The worker of a fresh object has nothing to do. */
  lemma FreshWorkerStays(sh: Shared, m: nat, t: nat, c: Choice)
    requires m in sh.managed && !sh.managed[m].token && !sh.managed[m].stopped
    ensures WorkerStep(sh, Parked(m), t, c) == Goto(sh, Parked(m))
  {
  }

  lemma ModestFreshSound(s: State, t: nat, n: nat, c: Choice, limit: nat, o: Outcome)
    requires KnowInv(s) && RolesSound(s) && t in s.threads && Modest(s.sh, s.threads[t], o)
      && !s.threads[t].at.Announce?
    requires o == ThreadStep(s.sh, s.threads[t], t, n, c, limit)
    ensures FreshSound(Apply(s, t, o))
  {
    hide ListedSound, ManualSound, PublishersPlaced, ThreadStep, Refers, AsBuilt, SameBut;
    var r := Apply(s, t, o);
    forall u | u in r.threads && r.threads[u].at.Announce? ensures AsBuilt(r, r.threads[u].at.m) {
      assert u in s.threads && s.threads[u].at == r.threads[u].at;
      FreshStays(s, t, n, c, limit, o, u);
    }
  }

  /** The goroutine that moves works on the fresh object only if it is the object's worker or its start. */
  lemma FreshAlone(s: State, t: nat, u: nat)
    requires ReferredSound(s) && FreshSound(s) && RolesSound(s) && t in s.threads && u in s.threads
      && s.threads[u].at.Announce?
    ensures var m := s.threads[u].at.m;
      AsBuilt(s, m) && (Touches(s.threads[t].at, m) ==> t == u || t == s.sh.managed[m].worker)
  {
    assert Unannounced(s, s.threads[u].at.m);
    hide Unannounced;
  }

  /** A step of another goroutine that does not work on the object. */
  lemma OthersStay(s: State, t: nat, o: Outcome, m: nat)
    requires AsBuilt(s, m) && t in s.threads && t != s.sh.managed[m].worker && o.spawn.None? && m in o.sh.managed
      && o.sh.managed[m] == s.sh.managed[m]
    ensures AsBuilt(Apply(s, t, o), m)
  {
  }

  lemma IdlesOn(s: State, t: nat, m: nat)
    requires AsBuilt(s, m) && t == s.sh.managed[m].worker
    ensures AsBuilt(Apply(s, t, Goto(s.sh, Parked(m))), m)
  {
  }

  lemma FreshStays(s: State, t: nat, n: nat, c: Choice, limit: nat, o: Outcome, u: nat)
    requires ReferredSound(s) && FreshSound(s) && RolesSound(s) && t in s.threads && Modest(s.sh, s.threads[t], o)
    requires o == ThreadStep(s.sh, s.threads[t], t, n, c, limit) && u in s.threads
      && s.threads[u].at.Announce? && t != u
    ensures AsBuilt(Apply(s, t, o), s.threads[u].at.m)
  {
    var m := s.threads[u].at.m;
    FreshAlone(s, t, u);
    hide ReferredSound, FreshSound, RolesSound, Learns, Touches;
    if t == s.sh.managed[m].worker {
      FreshWorkerStays(s.sh, m, t, c);
      hide Modest;
      assert o == Goto(s.sh, Parked(m));
      hide *;
      IdlesOn(s, t, m);
    } else {
      hide ThreadStep, AsBuilt;
      OthersStay(s, t, o, m);
    }
  }

  ghost predicate ListedFits(sh: Shared) {
    forall wf :: wf in sh.registered ==> sh.registered[wf] in sh.managed && sh.managed[sh.registered[wf]].workflow == wf
  }

  lemma EnqueueFits(sh: Shared, at: Pc, t: nat, c: Choice, limit: nat)
    requires InEnqueue(at) && ListedFits(sh) && ManualFits(sh, at)
    ensures var o := EnqueueStep(sh, at, t, c, limit); o.next.Some? ==> ManualFits(sh, o.next.value.at)
  {
    hide QueueOf, Create, WithToken, WithWaiter;
  }

  lemma OthersFit(sh: Shared, at: Pc)
    requires InWorker(at) || InStop(at) || at.Announce? || at.Activate? || at.NotifyActive?
      || at.SpawnWorker? || at.Upsert?
    ensures ManualFits(sh, at)
  {
  }

  lemma StartPlaces(sh: Shared, at: Pc, t: nat, n: nat, c: Choice)
    requires !InEnqueue(at) && !InWorker(at) && !InStop(at)
    ensures var o := StartStep(sh, at, t, n, c); o.next.Some? ==>
      var p := o.next.value.at; p.Announce? || p.Activate? || p.NotifyActive? || p.SpawnWorker? || p.Upsert?
  {
  }

  lemma ThreadFits(s: State, t: nat, n: nat, c: Choice, limit: nat)
    requires ListedSound(s) && ManualSound(s) && t in s.threads
    ensures var o := ThreadStep(s.sh, s.threads[t], t, n, c, limit); o.next.Some? ==> ManualFits(s.sh, o.next.value.at)
  {
    var th := s.threads[t];
    assert ListedFits(s.sh);
    hide ListedSound, ListedFits, EnqueueStep, WorkerStep, StopStep, StartStep;
    if !th.delivery.Quiet? {
      DeliveryStays(s.sh, th, t);
      hide DeliveryStep, ManualFits;
    } else {
      hide DeliveryStep, ManualFits;
      if InEnqueue(th.at) {
        EnqueueFits(s.sh, th.at, t, c, limit);
      } else if InWorker(th.at) {
        WorkerPlaces(s.sh, th.at, t, c);
        if WorkerStep(s.sh, th.at, t, c).next.Some? {
          OthersFit(s.sh, WorkerStep(s.sh, th.at, t, c).next.value.at);
        }
      } else if InStop(th.at) {
        StopStays(s.sh, th.at, c);
        if StopStep(s.sh, th.at, c).next.Some? {
          OthersFit(s.sh, StopStep(s.sh, th.at, c).next.value.at);
        }
      } else {
        StartPlaces(s.sh, th.at, t, n, c);
        if StartStep(s.sh, th.at, t, n, c).next.Some? {
          OthersFit(s.sh, StartStep(s.sh, th.at, t, n, c).next.value.at);
        }
      }
    }
  }

  lemma DeliveryStays(sh: Shared, th: Thread, t: nat)
    ensures var o := DeliveryStep(sh, th, t); o.next.Some? && o.next.value.at == th.at
  {
  }

  lemma FitsKept(sh: Shared, r: Shared, at: Pc)
    requires ManualFits(sh, at) && forall m ::
      m in sh.managed ==> m in r.managed && r.managed[m].workflow == sh.managed[m].workflow
    ensures ManualFits(r, at)
  {
  }

  lemma KeepManual(s: State, t: nat, c: Choice, limit: nat, o: Outcome)
    requires ListedSound(s) && ManualSound(s) && t in s.threads
      && o == ThreadStep(s.sh, s.threads[t], t, s.nextThread, c, limit)
    requires forall m :: m in s.sh.managed ==> m in o.sh.managed && o.sh.managed[m].workflow == s.sh.managed[m].workflow
    requires o.spawn.Some? ==> o.spawn.value.Parked?
    ensures ManualSound(Apply(s, t, o))
  {
    ThreadFits(s, t, s.nextThread, c, limit);
    hide ThreadStep, ManualFits, ListedSound;
    var r := Apply(s, t, o);
    forall u | u in r.threads ensures ManualFits(r.sh, r.threads[u].at) {
      if u == s.nextThread && o.spawn.Some? {
        OthersFit(r.sh, o.spawn.value);
      } else {
        FitsKept(s.sh, r.sh, r.threads[u].at);
      }
    }
  }

  lemma ModestKeeps(s: State, t: nat, c: Choice, limit: nat, o: Outcome)
    requires KnowInv(s) && RolesSound(s) && t in s.threads && Modest(s.sh, s.threads[t], o)
      && !s.threads[t].at.Announce?
    requires o == ThreadStep(s.sh, s.threads[t], t, s.nextThread, c, limit)
    ensures KnowInv(Apply(s, t, o))
  {
    ModestListed(s, t, o);
    ModestReferred(s, t, o);
    ModestFreshSound(s, t, s.nextThread, c, limit, o);
    hide ThreadStep;
    KeepManual(s, t, c, limit, o);
    hide ListedSound, ReferredSound, FreshSound, ManualSound, SameBut, Learns, RolesSound;
  }

  // ---------------------------------------------------------------- the two steps that make an object known

  /** The state after the object `n` was built for goroutine `t`, with its worker. */
  ghost predicate Built(s: State, r: State, t: nat, n: nat) {
    && n !in s.sh.managed && s.nextThread !in s.threads && t in s.threads && s.threads[t].at.SpawnWorker?
    && r.threads == s.threads[t := Thread(Announce(n), Quiet)][s.nextThread := Thread(Parked(n), Quiet)]
    && n in r.sh.managed && r.sh.managed == s.sh.managed[n := r.sh.managed[n]] && r.sh.registered == s.sh.registered
    && r.sh.managed[n].accepting && !r.sh.managed[n].token && !r.sh.managed[n].stopped
       && r.sh.managed[n].worker == s.nextThread
    && forall m :: Unannounced(r, m) ==> Unannounced(s, m) || m == n
  }

  lemma BuiltReferred(s: State, r: State, t: nat, n: nat)
    requires ListedSound(s) && ReferredSound(s) && Built(s, r, t, n)
    ensures ListedSound(r) && ReferredSound(r)
  {
    hide Unannounced;
    forall u, m: nat | u in r.threads && Refers(r.threads[u].at, m) ensures m in r.sh.managed && !Unannounced(r, m) {
      assert u in s.threads && Refers(s.threads[u].at, m);
    }
    hide Refers;
  }

  lemma BuiltFresh(s: State, r: State, t: nat, n: nat)
    requires FreshSound(s) && PublishersPlaced(s) && Built(s, r, t, n)
    ensures FreshSound(r) && PublishersPlaced(r)
  {
    hide Unannounced;
  }

  lemma SpawnKnows(s: State, t: nat, c: Choice, limit: nat)
    requires KnowInv(s) && ObjectsSound(s) && s.nextThread !in s.threads
    requires t in s.threads && s.threads[t].at.SpawnWorker? && s.threads[t].delivery.Quiet?
    ensures KnowInv(Apply(s, t, StartStep(s.sh, s.threads[t].at, t, s.nextThread, c)))
  {
    var o := StartStep(s.sh, s.threads[t].at, t, s.nextThread, c);
    var n := s.sh.nextManaged;
    assert n !in s.sh.managed;
    SpawnMakesFresh(s, t, c);
    hide ListedSound, ReferredSound, FreshSound, ManualSound, PublishersPlaced, ObjectsSound, Unannounced;
    KeepManual(s, t, c, limit, o);
    assert Built(s, Apply(s, t, o), t, n);
    hide Built;
    BuiltReferred(s, Apply(s, t, o), t, n);
    BuiltFresh(s, Apply(s, t, o), t, n);
  }

  lemma SpawnMakesFresh(s: State, t: nat, c: Choice)
    requires t in s.threads && s.threads[t].at.SpawnWorker?
    ensures var r := Apply(s, t, StartStep(s.sh, s.threads[t].at, t, s.nextThread, c));
      forall m :: Unannounced(r, m) ==> Unannounced(s, m) || m == s.sh.nextManaged
  {
    var r := Apply(s, t, StartStep(s.sh, s.threads[t].at, t, s.nextThread, c));
    forall m | Unannounced(r, m) ensures Unannounced(s, m) || m == s.sh.nextManaged {
      var u :| u in r.threads && r.threads[u].at == Announce(m);
      if u != t { assert u in s.threads && s.threads[u].at == Announce(m); }
    }
  }

  lemma AnnounceUnfreshens(s: State, t: nat, c: Choice)
    requires RolesSound(s) && t in s.threads && s.threads[t].at.Announce?
    ensures var r := Apply(s, t, StartStep(s.sh, s.threads[t].at, t, s.nextThread, c));
      forall m :: Unannounced(r, m) ==> Unannounced(s, m) && m != s.threads[t].at.m
  {
    var r := Apply(s, t, StartStep(s.sh, s.threads[t].at, t, s.nextThread, c));
    forall m | Unannounced(r, m) ensures Unannounced(s, m) && m != s.threads[t].at.m {
      var u :| u in r.threads && r.threads[u].at == Announce(m);
      assert u in s.threads && s.threads[u].at == Announce(m) && u != t;
      assert ActivatorAt(s.threads[u].at) == Some(m) && ActivatorAt(s.threads[t].at) == Some(s.threads[t].at.m);
    }
  }

  /** The state after the object `m` was put into the workflow map. */
  ghost predicate Put(s: State, r: State, t: nat, m: nat) {
    && t in s.threads && s.threads[t].at == Announce(m) && r.sh.managed == s.sh.managed
    && m in s.sh.managed && r.sh.registered == s.sh.registered[s.sh.managed[m].workflow := m]
    && t in r.threads && r.threads == s.threads[t := r.threads[t]] && r.threads[t].at.Activate?
       && r.threads[t].delivery.Quiet?
    && forall x :: Unannounced(r, x) ==> Unannounced(s, x) && x != m
  }

  lemma PutReferred(s: State, r: State, t: nat, m: nat)
    requires ListedSound(s) && ReferredSound(s) && Put(s, r, t, m)
    ensures ListedSound(r) && ReferredSound(r)
  {
    hide Unannounced;
    forall u, x: nat | u in r.threads && Refers(r.threads[u].at, x) ensures x in r.sh.managed && !Unannounced(r, x) {
      assert u in s.threads && Refers(s.threads[u].at, x);
    }
    hide Refers;
  }

  lemma PutFresh(s: State, r: State, t: nat, m: nat)
    requires FreshSound(s) && PublishersPlaced(s) && Put(s, r, t, m)
    ensures FreshSound(r) && PublishersPlaced(r)
  {
    hide Unannounced;
  }

  lemma AnnounceKnows(s: State, t: nat, c: Choice, limit: nat)
    requires KnowInv(s) && RolesSound(s) && t in s.threads && s.threads[t].at.Announce? && s.threads[t].delivery.Quiet?
    ensures KnowInv(Apply(s, t, StartStep(s.sh, s.threads[t].at, t, s.nextThread, c)))
  {
    var o := StartStep(s.sh, s.threads[t].at, t, s.nextThread, c);
    var m := s.threads[t].at.m;
    AnnounceUnfreshens(s, t, c);
    assert ActivatorAt(s.threads[t].at) == Some(m);
    assert m in s.sh.managed;
    hide ListedSound, ReferredSound, FreshSound, ManualSound, PublishersPlaced, RolesSound, Unannounced;
    KeepManual(s, t, c, limit, o);
    assert Put(s, Apply(s, t, o), t, m);
    hide Put;
    PutReferred(s, Apply(s, t, o), t, m);
    PutFresh(s, Apply(s, t, o), t, m);
  }

  // ---------------------------------------------------------------- every step

  /** Every other step is modest. */
  lemma ThreadModest(s: State, t: nat, c: Choice, limit: nat)
    requires PublishersPlaced(s) && t in s.threads
    requires !(s.threads[t].delivery.Quiet? && (s.threads[t].at.SpawnWorker? || s.threads[t].at.Announce?))
    ensures Modest(s.sh, s.threads[t], ThreadStep(s.sh, s.threads[t], t, s.nextThread, c, limit))
  {
    var th := s.threads[t];
    hide Modest, DeliveryStep, EnqueueStep, WorkerStep, StopStep, StartStep;
    if !th.delivery.Quiet? {
      DeliveryModest(s.sh, th, t);
    } else if InEnqueue(th.at) {
      EnqueueModest(s.sh, th.at, t, c, limit);
    } else if InWorker(th.at) {
      WorkerModest(s.sh, th.at, t, c);
    } else if InStop(th.at) {
      StopModest(s.sh, th.at, c);
    } else {
      StartModest(s.sh, th.at, t, s.nextThread, c);
    }
  }

  lemma ThreadKnows(s: State, t: nat, c: Choice, limit: nat)
    requires KnowInv(s) && RolesSound(s) && ObjectsSound(s) && s.nextThread !in s.threads && t in s.threads
    ensures KnowInv(Apply(s, t, ThreadStep(s.sh, s.threads[t], t, s.nextThread, c, limit)))
  {
    var th := s.threads[t];
    assert PublishersPlaced(s) && (!th.delivery.Quiet? ==> !th.at.Announce?);
    hide KnowInv, Modest, RolesSound, ObjectsSound, PublishersPlaced, StartStep, Apply;
    if th.delivery.Quiet? && th.at.SpawnWorker? {
      SpawnKnows(s, t, c, limit);
    } else if th.delivery.Quiet? && th.at.Announce? {
      AnnounceKnows(s, t, c, limit);
    } else {
      ThreadModest(s, t, c, limit);
      hide ThreadStep;
      ModestKeeps(s, t, c, limit, ThreadStep(s.sh, th, t, s.nextThread, c, limit));
    }
  }

  /** A request refers to objects of the workflow map only. */
  lemma RequestRefers(sh: Shared, pc: Pc, m: nat)
    requires MayStart(sh, pc) && Refers(pc, m)
    ensures Listed(sh, m)
  {
    assert pc.StopGate? && m in sh.registered.Values by {
      assert m in Elements(pc.ms);
    }
  }

  lemma RequestKnows(s: State, pc: Pc)
    requires KnowInv(s) && MayStart(s.sh, pc) && s.nextThread !in s.threads
    ensures KnowInv(Begun(s, pc))
  {
    var r := Begun(s, pc);
    assert !pc.Announce? && ManualFits(s.sh, pc);
    hide MayStop;
    forall m | Unannounced(r, m) ensures Unannounced(s, m) {
      var u :| u in r.threads && r.threads[u].at == Announce(m);
      assert u in s.threads && s.threads[u].at == Announce(m);
    }
    forall m: nat | Refers(pc, m) ensures m in s.sh.managed && !Unannounced(s, m) {
      RequestRefers(s.sh, pc, m);
      var wf :| wf in s.sh.registered && s.sh.registered[wf] == m;
    }
    hide Refers, Unannounced, ManualFits, MayStart;
  }

  lemma TablesKnow(s: State, r: State)
    requires KnowInv(s) && r.threads == s.threads && r.sh.managed == s.sh.managed && r.sh.registered == s.sh.registered
    ensures KnowInv(r)
  {
    assert forall m :: Unannounced(r, m) ==> Unannounced(s, m);
    assert forall at :: ManualFits(s.sh, at) ==> ManualFits(r.sh, at);
    hide Refers, Unannounced, ManualFits;
  }

  lemma NextKnows(s: State, a: Action, limit: nat)
    requires KnowInv(s) && WakeInv(s) && ClaimInv(s) && Enabled(s, a)
    ensures KnowInv(Next(s, a, limit))
  {
    FreshThread(s);
    hide KnowInv, RolesSound, ObjectsSound, AllAwake, ClaimInv, ThreadStep, OlderIds, OverflowIds, DeleteExecutions,
      Repair, MayStart;
    match a
    case Step(t, c) => ThreadKnows(s, t, c, limit);
    case Request(pc) => RequestKnows(s, pc);
    case Crash => CrashKnows(s);
    case _ => TablesKnow(s, Next(s, a, limit));
  }

  lemma CrashKnows(s: State)
    ensures KnowInv(Crashed(s))
  {
  }

  lemma InitKnows(s: State)
    requires Init(s)
    ensures KnowInv(s)
  {
  }
}
