/** An execution is published by one goroutine at a time, and only after it has left the queue for good. */
module Publishers {
  import opened Base
  import opened Reports
  import opened Tables
  import opened Retention
  import opened Protocol
  import opened ClaimSafety
  import opened Waiters
  import opened Wakeups

  /** The goroutine neither publishes `e` nor comes to it without claiming or cancelling it first. */
  predicate Mute(th: Thread, e: nat) {
    && (th.delivery.Quiet? || th.delivery.e != e)
    && Holds(th.at) != Some(e) && (th.at.Inform? ==> e !in th.at.ids)
  }

  /** The goroutine has not yet looked for the waiter of `e`. */
  predicate BeforeTake(th: Thread, e: nat) {
    Holds(th.at) == Some(e) || (th.at.Inform? && e in th.at.ids) || (th.delivery.Take? && th.delivery.e == e)
  }

  /** The goroutine publishes no execution twice. */
  ghost predicate OnceEach(th: Thread) {
    && (th.at.Inform? ==> NoDup(th.at.ids))
    && (!th.delivery.Quiet? ==> Holds(th.at).None? && (th.at.Inform? ==> th.delivery.e !in th.at.ids))
  }

  /** `e` was inserted and is not queued any more. */
  ghost predicate Left(d: Db, e: nat) {
    e < d.nextExecution && e !in QueuedIds(d)
  }

  // ---------------------------------------------------------------- the invariant

  ghost predicate PublishedLeft(s: State) {
    forall t, e: nat :: t in s.threads && !Mute(s.threads[t], e) ==> Left(s.sh.db, e)
  }

  ghost predicate OnePublisher(s: State) {
    forall t, u, e: nat ::
      t in s.threads && u in s.threads && !Mute(s.threads[t], e) && !Mute(s.threads[u], e) ==> t == u
  }

  ghost predicate AllOnce(s: State) {
    forall t :: t in s.threads ==> OnceEach(s.threads[t])
  }

  ghost predicate NotYetTaken(s: State) {
    && (forall t, e: nat :: t in s.threads && BeforeTake(s.threads[t], e) ==> e !in s.sh.log.sender)
    && (forall e :: e in s.sh.log.sender ==> Left(s.sh.db, e))
  }

  ghost predicate PublishInv(s: State) {
    PublishedLeft(s) && OnePublisher(s) && AllOnce(s) && NotYetTaken(s)
  }

  // ---------------------------------------------------------------- no execution comes back to the queue

  ghost predicate NoneComesBack(d: Db, r: Db) {
    d.nextExecution <= r.nextExecution && forall e :: e in QueuedIds(r) ==> e in QueuedIds(d) || e >= d.nextExecution
  }

  lemma ClaimLeaves(d: Db, q: nat, now: Time)
    requires q in d.queue
    ensures NoneComesBack(d, Claim(d, q, now))
  {
  }

  lemma CompleteLeaves(d: Db, e: nat, status: Status, report: Report, now: Time)
    ensures NoneComesBack(d, Complete(d, e, status, report, now))
  {
  }

  lemma NeutralLeaves(d: Db, r: Db)
    requires NeutralDb(d, r)
    ensures NoneComesBack(d, r)
  {
    hide QueuedIds, Coupled;
  }

  lemma WorkerLeaves(sh: Shared, at: Pc, t: nat, c: Choice)
    requires InWorker(at)
    requires at.Record? || (at.ClaimNext? && IsNext(sh.db, WorkflowOf(sh, at.m), c.row))
    ensures NoneComesBack(sh.db, WorkerStep(sh, at, t, c).sh.db)
  {
    hide NoneComesBack, Claim, Complete, HasQueued;
    if at.ClaimNext? {
      NextIsQueued(sh.db, WorkflowOf(sh, at.m), c.row);
      ClaimLeaves(sh.db, c.row, c.now);
    } else {
      CompleteLeaves(sh.db, at.e, at.report.status, at.report, c.now);
    }
    hide IsNext;
  }

  lemma ThreadLeaves(s: State, t: nat, c: Choice, limit: nat)
    requires Coupled(s.sh.db) && t in s.threads
    ensures NoneComesBack(s.sh.db, ThreadStep(s.sh, s.threads[t], t, s.nextThread, c, limit).sh.db)
  {
    var th := s.threads[t];
    hide NoneComesBack, NeutralDb, NeutralMove, Coupled, IsNext, DeliveryStep, EnqueueStep, WorkerStep,
      StopStep, StartStep;
    if th.delivery.Quiet? && (th.at.Record?
      || (th.at.ClaimNext? && IsNext(s.sh.db, WorkflowOf(s.sh, th.at.m), c.row))) {
      WorkerLeaves(s.sh, th.at, t, c);
    } else {
      ThreadNeutral(s.sh, th, t, s.nextThread, c, limit);
      hide ThreadStep;
      NeutralLeaves(s.sh.db, ThreadStep(s.sh, th, t, s.nextThread, c, limit).sh.db);
    }
  }

  lemma OutsideLeaves(s: State, a: Action, limit: nat)
    requires Enabled(s, a) && !a.Step?
    ensures NoneComesBack(s.sh.db, Next(s, a, limit).sh.db)
  {
    hide OlderIds, OverflowIds, StaleIds, Elements, NoDup, MayStart;
  }

  // ---------------------------------------------------------------- what one step publishes

  /** Where the goroutine goes it publishes what it published before, or what it has just taken out of the queue. */
  ghost predicate Speaks(sh: Shared, th: Thread, o: Outcome) {
    && (o.spawn.Some? ==> o.spawn.value.Parked?)
    && (o.next.Some? ==>
          && OnceEach(o.next.value)
          && (forall e: nat :: !Mute(o.next.value, e) ==> !Mute(th, e) || (e in QueuedIds(sh.db) && Left(o.sh.db, e)))
          && (forall e: nat :: BeforeTake(o.next.value, e) ==> BeforeTake(th, e) || e in QueuedIds(sh.db)))
  }

  lemma EnqueueSpeaks(sh: Shared, at: Pc, t: nat, c: Choice, limit: nat)
    requires InEnqueue(at)
    ensures Speaks(sh, Thread(at, Quiet), EnqueueStep(sh, at, t, c, limit))
  {
    hide QueueOf, Create, WithToken, WithWaiter, QueuedIds, Left;
  }

  /** A worker that does not claim publishes what it holds. */
  lemma WorkerSpeaks(sh: Shared, at: Pc, t: nat, c: Choice)
    requires InWorker(at) && (at.ClaimNext? ==> !IsNext(sh.db, WorkflowOf(sh, at.m), c.row))
    ensures Speaks(sh, Thread(at, Quiet), WorkerStep(sh, at, t, c))
  {
    hide IsNext, HasQueued, Claim, Complete, WithToken, WithRunning, WorkflowOf, QueuedIds, Left;
  }

  lemma ClaimSpeaks(sh: Shared, at: Pc, t: nat, c: Choice)
    requires Coupled(sh.db) && at.ClaimNext? && IsNext(sh.db, WorkflowOf(sh, at.m), c.row)
    ensures Speaks(sh, Thread(at, Quiet), WorkerStep(sh, at, t, c))
  {
    NextIsQueued(sh.db, WorkflowOf(sh, at.m), c.row);
    ClaimedRow(sh.db, c.row);
    ClaimCoupled(sh.db, c.row, c.now);
    hide Coupled, QueuedIds, Claim, WorkflowOf, IsNext;
  }

  lemma CancelSpeaks(sh: Shared, at: Pc, c: Choice)
    requires Coupled(sh.db) && at.CancelAll?
    ensures Speaks(sh, Thread(at, Quiet), StopStep(sh, at, c))
  {
    if at.i < |at.ms| && NoDup(c.ids) && Elements(c.ids) == QueuedOf(sh.db, WorkflowOf(sh, at.ms[at.i])) {
      TakenOut(sh.db, WorkflowOf(sh, at.ms[at.i]), c);
    }
    hide Coupled, QueuedIds, QueuedOf, Cancel, NoDup, Elements, WorkflowOf, Left;
  }

  /** The ids that a cancel returns were queued and are not queued any more. */
  lemma TakenOut(d: Db, wf: string, c: Choice)
    requires Coupled(d) && Elements(c.ids) == QueuedOf(d, wf)
    ensures forall e :: e in c.ids ==> e in QueuedIds(d) && Left(Cancel(d, wf, c.message, c.now), e)
  {
    CancelCoupled(d, wf, c.message, c.now);
    QueuedKnown(d, wf);
    CancelKeepsNext(d, wf, c.message, c.now);
    assert forall e :: e in c.ids ==> e in Elements(c.ids);
    hide Coupled, QueuedIds, QueuedOf, Cancel, Elements;
  }

  lemma CancelKeepsNext(d: Db, wf: string, message: string, now: Time)
    ensures Cancel(d, wf, message, now).nextExecution == d.nextExecution
  {
  }

  lemma QueuedKnown(d: Db, wf: string)
    requires Coupled(d)
    ensures forall e :: e in QueuedOf(d, wf) ==> e in QueuedIds(d) && e < d.nextExecution
  {
  }

  lemma RestNoDup(ids: seq<nat>)
    requires NoDup(ids) && ids != []
    ensures NoDup(ids[1..]) && ids[0] !in ids[1..]
  {
  }

  lemma StopSpeaks(sh: Shared, at: Pc, c: Choice)
    requires Coupled(sh.db) && InStop(at) && OnceEach(Thread(at, Quiet))
    ensures Speaks(sh, Thread(at, Quiet), StopStep(sh, at, c))
  {
    if at.CancelAll? {
      CancelSpeaks(sh, at, c);
    } else {
      if at.Inform? && at.ids != [] { RestNoDup(at.ids); }
      hide NoDup, Elements, QueuedOf, Cancel, DeleteWorkflow, SetActive, WithToken, WithAccepting, WithStopped,
        WorkflowOf, QueuedIds, Left, Coupled;
    }
  }

  lemma StartSpeaks(sh: Shared, at: Pc, t: nat, n: nat, c: Choice)
    requires !InEnqueue(at) && !InWorker(at) && !InStop(at)
    ensures Speaks(sh, Thread(at, Quiet), StartStep(sh, at, t, n, c))
  {
    hide UpsertWorkflow, WithToken, WorkflowOf, QueuedIds, Left;
  }

  lemma DeliverySpeaks(sh: Shared, th: Thread, t: nat)
    requires !th.delivery.Quiet? && OnceEach(th)
    ensures Speaks(sh, th, DeliveryStep(sh, th, t))
  {
    hide QueuedIds, Left, NoDup;
  }

  lemma ThreadSpeaks(s: State, t: nat, c: Choice, limit: nat)
    requires Coupled(s.sh.db) && t in s.threads && OnceEach(s.threads[t])
    ensures Speaks(s.sh, s.threads[t], ThreadStep(s.sh, s.threads[t], t, s.nextThread, c, limit))
  {
    var th := s.threads[t];
    assert th.delivery.Quiet? ==> th == Thread(th.at, Quiet);
    hide Coupled, IsNext, Speaks, OnceEach, DeliveryStep, EnqueueStep, WorkerStep, StopStep, StartStep;
    if !th.delivery.Quiet? {
      DeliverySpeaks(s.sh, th, t);
    } else if InEnqueue(th.at) {
      EnqueueSpeaks(s.sh, th.at, t, c, limit);
    } else if InWorker(th.at) {
      if th.at.ClaimNext? && IsNext(s.sh.db, WorkflowOf(s.sh, th.at.m), c.row) {
        ClaimSpeaks(s.sh, th.at, t, c);
      } else {
        WorkerSpeaks(s.sh, th.at, t, c);
      }
    } else if InStop(th.at) {
      StopSpeaks(s.sh, th.at, c);
    } else {
      StartSpeaks(s.sh, th.at, t, s.nextThread, c);
    }
  }

  // ---------------------------------------------------------------- the invariant is kept

  lemma LeftKept(d: Db, r: Db, e: nat)
    requires Left(d, e) && NoneComesBack(d, r)
    ensures Left(r, e)
  {
    hide QueuedIds;
  }

  lemma ParkedMute(m: nat, e: nat)
    ensures Mute(Thread(Parked(m), Quiet), e) && !BeforeTake(Thread(Parked(m), Quiet), e)
      && OnceEach(Thread(Parked(m), Quiet))
  {
  }

  /** Who publishes after the step published before, or has just taken the execution out of the queue. */
  lemma SpokeBefore(s: State, t: nat, o: Outcome, u: nat, e: nat)
    requires PublishedLeft(s) && t in s.threads && s.nextThread !in s.threads
    requires Speaks(s.sh, s.threads[t], o) && NoneComesBack(s.sh.db, o.sh.db)
    requires u in Apply(s, t, o).threads && !Mute(Apply(s, t, o).threads[u], e)
    ensures u in s.threads && Left(o.sh.db, e) && (!Mute(s.threads[u], e) || (u == t && e in QueuedIds(s.sh.db)))
  {
    if u == s.nextThread && o.spawn.Some? {
      ParkedMute(o.spawn.value.m, e);
      assert false;
    }
    hide NoneComesBack, QueuedIds, Mute, OnceEach, BeforeTake, Left;
    if !Mute(s.threads[u], e) {
      LeftKept(s.sh.db, o.sh.db, e);
    }
  }

  lemma StepPublished(s: State, t: nat, o: Outcome)
    requires PublishedLeft(s) && OnePublisher(s) && t in s.threads && s.nextThread !in s.threads
    requires Speaks(s.sh, s.threads[t], o) && NoneComesBack(s.sh.db, o.sh.db)
    ensures PublishedLeft(Apply(s, t, o)) && OnePublisher(Apply(s, t, o))
  {
    var r := Apply(s, t, o);
    hide Apply, Speaks, NoneComesBack, Mute, QueuedIds;
    forall u, e: nat | u in r.threads && !Mute(r.threads[u], e) ensures Left(r.sh.db, e) {
      SpokeBefore(s, t, o, u, e);
      ApplyShares(s, t, o);
    }
    forall u, v, e: nat | u in r.threads && v in r.threads && !Mute(r.threads[u], e) && !Mute(r.threads[v], e)
      ensures u == v {
      SpokeBefore(s, t, o, u, e);
      SpokeBefore(s, t, o, v, e);
      LoudLeft(s, u, e);
      LoudLeft(s, v, e);
    }
  }

  lemma LoudLeft(s: State, u: nat, e: nat)
    requires PublishedLeft(s) && u in s.threads
    ensures !Mute(s.threads[u], e) ==> e !in QueuedIds(s.sh.db)
  {
    hide QueuedIds;
    assert !Mute(s.threads[u], e) ==> Left(s.sh.db, e);
  }

  lemma ApplyShares(s: State, t: nat, o: Outcome)
    ensures Apply(s, t, o).sh == o.sh
  {
  }

  lemma StepOnce(s: State, t: nat, o: Outcome)
    requires AllOnce(s) && t in s.threads && Speaks(s.sh, s.threads[t], o)
    ensures AllOnce(Apply(s, t, o))
  {
    if o.spawn.Some? { ParkedMute(o.spawn.value.m, 0); }
    hide OnceEach, Mute, BeforeTake, QueuedIds, Left;
  }

  /** Only taking a waiter makes a sender. */
  ghost predicate TakesOnly(sh: Shared, th: Thread, o: Outcome) {
    forall e: nat :: e in o.sh.log.sender ==>
      e in sh.log.sender || (th.delivery.Take? && th.delivery.e == e && o.next.Some? && !BeforeTake(o.next.value, e))
  }

  lemma OthersTakeNothing(sh: Shared, at: Pc, t: nat, n: nat, c: Choice, limit: nat)
    ensures InEnqueue(at) ==> EnqueueStep(sh, at, t, c, limit).sh.log.sender == sh.log.sender
    ensures !InEnqueue(at) && !InWorker(at) && !InStop(at) ==> StartStep(sh, at, t, n, c).sh.log.sender == sh.log.sender
  {
    hide QueueOf, Create, WithToken, UpsertWorkflow, WorkflowOf;
  }

  lemma DeliveryTakes(sh: Shared, th: Thread, t: nat)
    requires OnceEach(th) && !th.delivery.Quiet?
    ensures TakesOnly(sh, th, DeliveryStep(sh, th, t))
  {
    hide NoDup;
  }

  lemma ThreadTakes(s: State, t: nat, c: Choice, limit: nat)
    requires t in s.threads && OnceEach(s.threads[t])
    ensures TakesOnly(s.sh, s.threads[t], ThreadStep(s.sh, s.threads[t], t, s.nextThread, c, limit))
  {
    var th := s.threads[t];
    hide OnceEach, DeliveryStep, EnqueueStep, WorkerStep, StopStep, StartStep, BeforeTake;
    if !th.delivery.Quiet? {
      DeliveryTakes(s.sh, th, t);
    } else if InWorker(th.at) {
      WorkerShared(s.sh, th.at, t, c);
    } else if InStop(th.at) {
      StopShared(s.sh, th.at, c);
    } else {
      OthersTakeNothing(s.sh, th.at, t, s.nextThread, c, limit);
    }
  }

  lemma BeforeIsLoud(th: Thread, e: nat)
    requires BeforeTake(th, e)
    ensures !Mute(th, e)
  {
  }

  lemma StepTaken(s: State, t: nat, o: Outcome)
    requires PublishInv(s) && t in s.threads && s.nextThread !in s.threads
    requires Speaks(s.sh, s.threads[t], o) && NoneComesBack(s.sh.db, o.sh.db) && TakesOnly(s.sh, s.threads[t], o)
    ensures NotYetTaken(Apply(s, t, o))
  {
    var r := Apply(s, t, o);
    forall e | e in r.sh.log.sender ensures Left(r.sh.db, e) {
      if e !in s.sh.log.sender { BeforeIsLoud(s.threads[t], e); }
      hide Left, Mute, BeforeTake, OnceEach, QueuedIds, NoneComesBack;
      LeftKept(s.sh.db, o.sh.db, e);
    }
    forall u, e: nat | u in r.threads && BeforeTake(r.threads[u], e) ensures e !in r.sh.log.sender {
      StillBefore(s, t, o, u, e);
    }
  }

  lemma StillBefore(s: State, t: nat, o: Outcome, u: nat, e: nat)
    requires PublishInv(s) && t in s.threads && s.nextThread !in s.threads
    requires Speaks(s.sh, s.threads[t], o) && TakesOnly(s.sh, s.threads[t], o)
    requires u in Apply(s, t, o).threads && BeforeTake(Apply(s, t, o).threads[u], e)
    ensures e !in o.sh.log.sender
  {
    if o.spawn.Some? { ParkedMute(o.spawn.value.m, e); }
    if u != t && u in s.threads && BeforeTake(s.threads[u], e) {
      BeforeIsLoud(s.threads[u], e);
      if BeforeTake(s.threads[t], e) { BeforeIsLoud(s.threads[t], e); }
    }
    assert s.threads[t].delivery.Take? && s.threads[t].delivery.e == e ==> BeforeTake(s.threads[t], e);
    hide Mute, BeforeTake, OnceEach, NoneComesBack;
  }

  lemma ThreadPublishes(s: State, t: nat, c: Choice, limit: nat)
    requires PublishInv(s) && Coupled(s.sh.db) && t in s.threads && s.nextThread !in s.threads
    ensures PublishInv(Apply(s, t, ThreadStep(s.sh, s.threads[t], t, s.nextThread, c, limit)))
  {
    var o := ThreadStep(s.sh, s.threads[t], t, s.nextThread, c, limit);
    hide ThreadStep, Coupled, PublishedLeft, OnePublisher, NotYetTaken, Speaks, TakesOnly, NoneComesBack,
      OnceEach, Apply;
    ThreadLeaves(s, t, c, limit);
    ThreadSpeaks(s, t, c, limit);
    ThreadTakes(s, t, c, limit);
    StepPublished(s, t, o);
    StepOnce(s, t, o);
    StepTaken(s, t, o);
  }

  lemma RequestPublishes(s: State, pc: Pc)
    requires PublishInv(s) && MayStart(s.sh, pc) && s.nextThread !in s.threads
    ensures PublishInv(Begun(s, pc))
  {
    assert forall e: nat :: Mute(Thread(pc, Quiet), e) && !BeforeTake(Thread(pc, Quiet), e);
    assert OnceEach(Thread(pc, Quiet));
    hide MayStart, Mute, BeforeTake, OnceEach, Left;
  }

  lemma TablesPublish(s: State, r: State)
    requires PublishInv(s) && r.threads == s.threads && r.sh == s.sh.(db := r.sh.db) && NoneComesBack(s.sh.db, r.sh.db)
    ensures PublishInv(r)
  {
    forall e | Left(s.sh.db, e) ensures Left(r.sh.db, e) { LeftKept(s.sh.db, r.sh.db, e); }
    hide Mute, BeforeTake, OnceEach, Left, NoneComesBack;
  }

  lemma NextPublishes(s: State, a: Action, limit: nat)
    requires PublishInv(s) && ClaimInv(s) && Enabled(s, a)
    ensures PublishInv(Next(s, a, limit))
  {
    FreshThread(s);
    if a.Step? {
      StepIs(s, a.t, a.c, limit);
      hide PublishInv, Next, Coupled, ThreadStep, Apply;
      ThreadPublishes(s, a.t, a.c, limit);
    } else if a.Request? {
      RequestIs(s, a.pc, limit);
      hide PublishInv, Next, ClaimInv, MayStart, Begun;
      RequestPublishes(s, a.pc);
    } else if a.Crash? {
      hide ClaimInv;
    } else {
      OutsideTables(s, a, limit);
      OutsideLeaves(s, a, limit);
      hide PublishInv, Next, ClaimInv, NoneComesBack;
      TablesPublish(s, Next(s, a, limit));
    }
  }

  lemma InitPublishes(s: State)
    requires Init(s)
    ensures PublishInv(s)
  {
  }
}
