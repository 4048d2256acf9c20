/** Delivery of reports to ExecWorkflow calls: at most one send and one close per execution, the send never
    blocks, what is delivered is what is persisted, and no waiter outlives its call. */
module Waiters {
  import opened Base
  import opened Reports
  import opened Tables
  import opened Retention
  import opened Protocol
  import opened ClaimSafety

  /** The row of a published execution carries exactly the published report, as long as it exists. */
  ghost predicate Persisted(d: Db, e: nat, report: Report) {
    && e < d.nextExecution
    && (e in d.executions ==> d.executions[e].status.Finished() && d.executions[e].report == Some(report))
  }

  /** ExecWorkflow has inserted `e` and not yet registered its waiter. */
  predicate Registering(at: Pc, e: nat) {
    match at
    case NotifyInsert(_, x, _) => x == e
    case Register(x, _) => x == e
    case _ => false
  }

  /** ExecWorkflow is between registering the waiter of `e` and removing it. */
  predicate Waiting(at: Pc, e: nat) {
    match at
    case NotifyManual(x, _) => x == e
    case Await(x) => x == e
    case Unregister(x) => x == e
    case _ => false
  }

  ghost predicate Owns(owner: map<nat, nat>, e: nat, t: nat) {
    e in owner && owner[e] == t
  }

  ghost predicate CallSound(sh: Shared, t: nat, at: Pc) {
    forall e: nat ::
      && (Registering(at, e) ==>
            && Owns(sh.log.creator, e, t) && e < sh.db.nextExecution
            && e !in sh.channels && e !in sh.waiters && e !in sh.log.sender)
      && (Waiting(at, e) ==> Owns(sh.log.creator, e, t) && e in sh.channels)
  }

  ghost predicate DeliverySound(sh: Shared, t: nat, delivery: Delivery) {
    match delivery
    case Quiet => true
    case Take(e, report) => Persisted(sh.db, e, report)
    case Send(e, report) => Persisted(sh.db, e, report) && Owns(sh.log.sender, e, t) && e in sh.channels
      && sh.channels[e] == Channel([], 0, 0)
    case Close(e) =>
      Owns(sh.log.sender, e, t) && e in sh.channels && |sh.channels[e].sent| == 1 && sh.channels[e].closes == 0
  }

  ghost predicate ThreadsSound(s: State) {
    forall t :: t in s.threads ==> CallSound(s.sh, t, s.threads[t].at) && DeliverySound(s.sh, t, s.threads[t].delivery)
  }

  ghost predicate ChannelsSound(sh: Shared) {
    forall e :: e in sh.channels ==>
      && |sh.channels[e].sent| <= 1 && sh.channels[e].received <= |sh.channels[e].sent|
         && sh.channels[e].closes <= |sh.channels[e].sent|
      && (sh.channels[e].sent != [] ==> e in sh.log.sender && Persisted(sh.db, e, sh.channels[e].sent[0]))
      && e < sh.db.nextExecution
  }

  ghost predicate WaitersSound(s: State) {
    forall e :: e in s.sh.waiters ==>
      && e in s.sh.channels && s.sh.channels[e] == Channel([], 0, 0) && e !in s.sh.log.sender
      && e in s.sh.log.creator && s.sh.log.creator[e] in s.threads && Waiting(s.threads[s.sh.log.creator[e]].at, e)
  }

  ghost predicate KeysOld(sh: Shared) {
    forall e :: e in sh.log.creator || e in sh.log.sender ==> e < sh.db.nextExecution
  }

  ghost predicate WaiterInv(s: State) {
    ThreadsSound(s) && ChannelsSound(s.sh) && WaitersSound(s) && KeysOld(s.sh)
  }

  // ---------------------------------------------------------------- what goroutine t may do to the others

  ghost predicate ChannelStep(c: Channel, d: Channel, mine: bool) {
    && (d.sent != c.sent || d.closes != c.closes ==> mine)
    && (d.received != c.received ==> c.sent != [])
  }

  ghost predicate Guarantee(sh: Shared, r: Shared, t: nat) {
    && Ages(sh.db, r.db)
    && (forall e :: e < sh.db.nextExecution ==>
          && (e in r.log.creator <==> e in sh.log.creator)
          && (e in sh.log.creator ==> r.log.creator[e] == sh.log.creator[e]))
    && (forall e :: e in sh.channels ==>
          e in r.channels && ChannelStep(sh.channels[e], r.channels[e], Owns(sh.log.sender, e, t)))
    && (forall e :: e in r.channels && e !in sh.channels ==> Owns(sh.log.creator, e, t))
    && (forall e :: e in r.waiters && e !in sh.waiters ==> Owns(sh.log.creator, e, t))
    && (forall e :: e in sh.log.sender ==> e in r.log.sender && r.log.sender[e] == sh.log.sender[e])
    && (forall e :: e in r.log.sender && e !in sh.log.sender ==> e in sh.waiters)
  }

  lemma PersistedAges(d: Db, r: Db, e: nat, report: Report)
    requires Persisted(d, e, report) && Ages(d, r)
    ensures Persisted(r, e, report)
  {
  }

  /** Whatever holds of the call of one goroutine survives the step of another. */
  lemma CallStable(sh: Shared, r: Shared, t: nat, u: nat, at: Pc)
    requires CallSound(sh, u, at) && KeysOld(sh) && Guarantee(sh, r, t) && t != u
    ensures CallSound(r, u, at)
  {
    forall e: nat | Registering(at, e)
      ensures Owns(r.log.creator, e, u) && e !in r.channels && e !in r.waiters && e !in r.log.sender
        && e < r.db.nextExecution
    {
      assert Owns(sh.log.creator, e, u);
    }
  }

  lemma DeliveryStable(sh: Shared, r: Shared, t: nat, u: nat, delivery: Delivery)
    requires DeliverySound(sh, u, delivery) && Guarantee(sh, r, t) && t != u
    ensures DeliverySound(r, u, delivery)
  {
    hide Ages, Persisted;
    match delivery
    case Take(e, report) => PersistedAges(sh.db, r.db, e, report);
    case Send(e, report) => PersistedAges(sh.db, r.db, e, report);
    case _ =>
  }

  /** Given what a step does, it is enough to look at the goroutine that took it. */
  lemma ThreadsFrame(s: State, t: nat, o: Outcome)
    requires ThreadsSound(s) && KeysOld(s.sh) && t in s.threads && s.nextThread !in s.threads
      && Guarantee(s.sh, o.sh, t)
    requires o.next.Some? ==> CallSound(o.sh, t, o.next.value.at) && DeliverySound(o.sh, t, o.next.value.delivery)
    requires o.spawn.Some? ==> o.spawn.value.Parked?
    ensures ThreadsSound(Apply(s, t, o))
  {
    var r := Apply(s, t, o);
    forall u | u in r.threads ensures CallSound(r.sh, u, r.threads[u].at)
      && DeliverySound(r.sh, u, r.threads[u].delivery) {
      if u in s.threads && u != t {
        CallStable(s.sh, o.sh, t, u, s.threads[u].at);
        DeliveryStable(s.sh, o.sh, t, u, s.threads[u].delivery);
      }
    }
  }

  // ---------------------------------------------------------------- steps that touch no waiter and no channel

  /** Where a goroutine stands as far as waiters are concerned did not change, nor did any waiter. */
  ghost predicate Aloof(sh: Shared, th: Thread, o: Outcome) {
    && o.sh.waiters == sh.waiters && o.sh.channels == sh.channels
    && o.sh.log.creator == sh.log.creator && o.sh.log.sender == sh.log.sender
    && (o.spawn.Some? ==> o.spawn.value.Parked?)
    && (o.next.None? ==> forall e: nat :: !Waiting(th.at, e))
    && (o.next.Some? ==>
          && (forall e: nat :: Waiting(o.next.value.at, e) <==> Waiting(th.at, e))
          && (forall e: nat :: Registering(o.next.value.at, e) ==> Registering(th.at, e)))
  }

  lemma ChannelsAge(sh: Shared, r: Shared)
    requires ChannelsSound(sh) && KeysOld(sh) && Ages(sh.db, r.db)
    requires r.channels == sh.channels && r.log.sender == sh.log.sender && r.log.creator == sh.log.creator
    ensures ChannelsSound(r) && KeysOld(r)
  {
    hide Ages, Persisted;
    forall e | e in r.channels && r.channels[e].sent != [] ensures Persisted(r.db, e, r.channels[e].sent[0]) {
      PersistedAges(sh.db, r.db, e, sh.channels[e].sent[0]);
    }
    AgesGrow(sh.db, r.db);
  }

  lemma AgesGrow(d: Db, r: Db)
    requires Ages(d, r)
    ensures d.nextExecution <= r.nextExecution
  {
  }

  lemma WaitersFrame(s: State, t: nat, o: Outcome)
    requires WaitersSound(s) && t in s.threads && s.nextThread !in s.threads && Aloof(s.sh, s.threads[t], o)
    ensures WaitersSound(Apply(s, t, o))
  {
    var r := Apply(s, t, o);
    forall e | e in r.sh.waiters
      ensures r.sh.log.creator[e] in r.threads && Waiting(r.threads[r.sh.log.creator[e]].at, e)
    {
      var u := s.sh.log.creator[e];
      assert u in s.threads && Waiting(s.threads[u].at, e);
    }
  }

  lemma AloofGuarantee(sh: Shared, th: Thread, o: Outcome, t: nat)
    requires Aloof(sh, th, o) && Ages(sh.db, o.sh.db)
    ensures Guarantee(sh, o.sh, t)
  {
    hide Ages;
  }

  lemma AloofCall(sh: Shared, th: Thread, o: Outcome, t: nat)
    requires Aloof(sh, th, o) && Ages(sh.db, o.sh.db) && CallSound(sh, t, th.at)
    ensures o.next.Some? ==> CallSound(o.sh, t, o.next.value.at)
  {
    AgesGrow(sh.db, o.sh.db);
    hide Ages;
  }

  lemma AloofKeeps(s: State, t: nat, o: Outcome)
    requires WaiterInv(s) && t in s.threads && s.nextThread !in s.threads
    requires Aloof(s.sh, s.threads[t], o) && Ages(s.sh.db, o.sh.db)
    requires o.next.Some? ==> DeliverySound(o.sh, t, o.next.value.delivery)
    ensures WaiterInv(Apply(s, t, o))
  {
    hide Ages;
    AloofGuarantee(s.sh, s.threads[t], o, t);
    AloofCall(s.sh, s.threads[t], o, t);
    ThreadsFrame(s, t, o);
    ChannelsAge(s.sh, o.sh);
    WaitersFrame(s, t, o);
    hide ThreadsSound, ChannelsSound, WaitersSound, KeysOld;
  }

  // ---------------------------------------------------------------- the steps that do

  ghost predicate Inserted(sh: Shared, r: Shared, t: nat, e: nat) {
    && e == sh.db.nextExecution && r.db.nextExecution == e + 1 && Ages(sh.db, r.db)
    && r == sh.(db := r.db, log := sh.log.(creator := sh.log.creator[e := t], origin := r.log.origin))
  }

  lemma InsertCall(sh: Shared, r: Shared, t: nat, m: nat, e: nat, manual: Option<nat>)
    requires ChannelsSound(sh) && KeysOld(sh) && (forall x :: x in sh.waiters ==> x in sh.channels)
      && Inserted(sh, r, t, e)
    ensures Guarantee(sh, r, t) && CallSound(r, t, NotifyInsert(m, e, manual))
  {
    hide Ages, Persisted;
  }

  lemma InsertChannels(sh: Shared, r: Shared, t: nat, e: nat)
    requires ChannelsSound(sh) && KeysOld(sh) && Inserted(sh, r, t, e)
    ensures ChannelsSound(r) && KeysOld(r)
  {
    ChannelsAge(sh, r.(log := sh.log));
    hide Ages, Persisted;
  }

  lemma InsertWaiters(s: State, t: nat, o: Outcome, e: nat)
    requires WaitersSound(s) && t in s.threads && s.threads[t].at.Insert? && KeysOld(s.sh) && Inserted(s.sh, o.sh, t, e)
    requires o.next.Some? && o.spawn.None?
    ensures WaitersSound(Apply(s, t, o))
  {
    hide Ages;
    var r := Apply(s, t, o);
    forall x | x in r.sh.waiters
      ensures r.sh.log.creator[x] in r.threads && Waiting(r.threads[r.sh.log.creator[x]].at, x)
    {
      var u := s.sh.log.creator[x];
      assert u in s.threads && Waiting(s.threads[u].at, x);
    }
  }

  lemma InsertKeeps(s: State, t: nat, o: Outcome, m: nat, e: nat, manual: Option<nat>)
    requires WaiterInv(s) && t in s.threads && s.nextThread !in s.threads && s.threads[t].at.Insert?
    requires Inserted(s.sh, o.sh, t, e)
    requires o.next == Some(Thread(NotifyInsert(m, e, manual), Quiet)) && o.spawn.None?
    ensures WaiterInv(Apply(s, t, o))
  {
    InsertCall(s.sh, o.sh, t, m, e, manual);
    InsertChannels(s.sh, o.sh, t, e);
    InsertWaiters(s, t, o, e);
    hide WaitersSound, ChannelsSound, Inserted, Guarantee, CallSound;
    ThreadsFrame(s, t, o);
    hide ThreadsSound, KeysOld;
  }

  lemma RegisterChannels(sh: Shared, e: nat)
    requires ChannelsSound(sh) && e < sh.db.nextExecution
    ensures ChannelsSound(WithWaiter(sh, e))
  {
    hide Persisted;
  }

  lemma RegisterWaiters(s: State, t: nat, e: nat, m: nat)
    requires WaitersSound(s) && t in s.threads && s.threads[t].at == Register(e, m)
    requires e in s.sh.log.creator && s.sh.log.creator[e] == t && e !in s.sh.log.sender
    ensures WaitersSound(Apply(s, t, Goto(WithWaiter(s.sh, e), NotifyManual(e, m))))
  {
  }

  lemma RegisterKeeps(s: State, t: nat, e: nat, m: nat)
    requires WaiterInv(s) && t in s.threads && s.nextThread !in s.threads && s.threads[t].at == Register(e, m)
    ensures WaiterInv(Apply(s, t, Goto(WithWaiter(s.sh, e), NotifyManual(e, m))))
  {
    hide ThreadsSound, ChannelsSound, WaitersSound;
    RegisterThreads(s, t, Goto(WithWaiter(s.sh, e), NotifyManual(e, m)), e, m);
    RegisterChannels(s.sh, e);
    RegisterWaiters(s, t, e, m);
  }

  lemma RegisterThreads(s: State, t: nat, o: Outcome, e: nat, m: nat)
    requires ThreadsSound(s) && KeysOld(s.sh) && t in s.threads && s.nextThread !in s.threads
      && s.threads[t].at == Register(e, m)
    requires o == Goto(WithWaiter(s.sh, e), NotifyManual(e, m))
    ensures ThreadsSound(Apply(s, t, o))
    ensures e in s.sh.log.creator && s.sh.log.creator[e] == t && e !in s.sh.channels && e !in s.sh.log.sender
      && e < s.sh.db.nextExecution
  {
    assert Registering(s.threads[t].at, e);
    ThreadsFrame(s, t, o);
  }

  function Received(sh: Shared, e: nat): Shared
    requires e in sh.channels
  {
    sh.(channels := sh.channels[e := sh.channels[e].(received := sh.channels[e].received + 1)])
  }

  lemma ReceiveThreads(s: State, t: nat, e: nat)
    requires ThreadsSound(s) && KeysOld(s.sh) && t in s.threads && s.nextThread !in s.threads
      && s.threads[t].at == Await(e)
    requires e in s.sh.channels && |s.sh.channels[e].sent| > s.sh.channels[e].received
    ensures ThreadsSound(Apply(s, t, Goto(Received(s.sh, e), Unregister(e))))
  {
    assert Waiting(s.threads[t].at, e);
    hide Persisted;
    ThreadsFrame(s, t, Goto(Received(s.sh, e), Unregister(e)));
    hide ThreadsSound;
  }

  lemma ReceiveChannels(sh: Shared, e: nat)
    requires ChannelsSound(sh) && e in sh.channels && |sh.channels[e].sent| > sh.channels[e].received
    ensures ChannelsSound(Received(sh, e))
  {
    hide Persisted;
  }

  lemma ReceiveWaiters(s: State, t: nat, e: nat)
    requires WaitersSound(s) && t in s.threads && s.threads[t].at == Await(e)
    requires e in s.sh.channels && |s.sh.channels[e].sent| > s.sh.channels[e].received
    ensures WaitersSound(Apply(s, t, Goto(Received(s.sh, e), Unregister(e))))
  {
  }

  lemma ReceiveKeeps(s: State, t: nat, e: nat)
    requires WaiterInv(s) && t in s.threads && s.nextThread !in s.threads && s.threads[t].at == Await(e)
    requires e in s.sh.channels && |s.sh.channels[e].sent| > s.sh.channels[e].received
    ensures WaiterInv(Apply(s, t, Goto(Received(s.sh, e), Unregister(e))))
  {
    hide ThreadsSound, ChannelsSound, WaitersSound;
    ReceiveThreads(s, t, e);
    ReceiveChannels(s.sh, e);
    ReceiveWaiters(s, t, e);
  }

  lemma UnregisterKeeps(s: State, t: nat, e: nat)
    requires WaiterInv(s) && t in s.threads && s.nextThread !in s.threads && s.threads[t].at == Unregister(e)
    ensures WaiterInv(Apply(s, t, Exit(s.sh.(waiters := s.sh.waiters - {e}))))
  {
    ThreadsFrame(s, t, Exit(s.sh.(waiters := s.sh.waiters - {e})));
    hide ThreadsSound, Persisted;
  }

  function Taken(sh: Shared, e: nat, t: nat): Shared {
    sh.(waiters := sh.waiters - {e}, log := sh.log.(sender := sh.log.sender[e := t]))
  }

  lemma TakenCall(sh: Shared, t: nat, at: Pc, e: nat)
    requires CallSound(sh, t, at) && e in sh.waiters
    ensures CallSound(Taken(sh, e, t), t, at)
  {
  }

  lemma TakeThreads(s: State, t: nat, e: nat, report: Report, o: Outcome)
    requires ThreadsSound(s) && KeysOld(s.sh) && WaitersSound(s) && t in s.threads && s.nextThread !in s.threads
    requires s.threads[t].delivery == Take(e, report) && e in s.sh.waiters
    requires o == Outcome(Taken(s.sh, e, t), Some(Thread(s.threads[t].at, Send(e, report))), None)
    ensures ThreadsSound(Apply(s, t, o)) && e < s.sh.db.nextExecution
  {
    assert DeliverySound(s.sh, t, Take(e, report));
    TakenCall(s.sh, t, s.threads[t].at, e);
    hide CallSound;
    ThreadsFrame(s, t, o);
    hide ThreadsSound;
  }

  lemma TakeChannels(s: State, e: nat, t: nat)
    requires ChannelsSound(s.sh) && WaitersSound(s) && KeysOld(s.sh) && e in s.sh.waiters && e < s.sh.db.nextExecution
    ensures ChannelsSound(Taken(s.sh, e, t)) && KeysOld(Taken(s.sh, e, t))
  {
    hide Persisted;
  }

  lemma TakeWaiters(s: State, t: nat, e: nat, report: Report)
    requires WaitersSound(s) && t in s.threads
    ensures WaitersSound(Apply(s, t, Outcome(Taken(s.sh, e, t), Some(Thread(s.threads[t].at, Send(e, report))), None)))
  {
  }

  lemma TakeKeeps(s: State, t: nat, e: nat, report: Report)
    requires WaiterInv(s) && t in s.threads && s.nextThread !in s.threads && s.threads[t].delivery == Take(e, report)
    ensures WaiterInv(Apply(s, t, DeliveryStep(s.sh, s.threads[t], t)))
  {
    var o := DeliveryStep(s.sh, s.threads[t], t);
    if e in s.sh.waiters {
      assert o == Outcome(Taken(s.sh, e, t), Some(Thread(s.threads[t].at, Send(e, report))), None);
      hide ThreadsSound, ChannelsSound, WaitersSound, KeysOld, DeliveryStep;
      TakeThreads(s, t, e, report, o);
      TakeChannels(s, e, t);
      TakeWaiters(s, t, e, report);
    } else {
      AloofKeeps(s, t, o);
    }
  }

  /** A send or a close touches one channel, and no waiter whose channel is still fresh. */
  lemma ChannelKept(s: State, t: nat, e: nat, c: Channel, d: Delivery)
    requires ChannelsSound(s.sh) && WaitersSound(s) && KeysOld(s.sh) && t in s.threads
    requires e in s.sh.channels && e in s.sh.log.sender
    requires |c.sent| <= 1 && c.received <= |c.sent| && c.closes <= |c.sent|
      && (c.sent != [] ==> Persisted(s.sh.db, e, c.sent[0]))
    ensures var r := Apply(s, t, Outcome(s.sh.(channels := s.sh.channels[e := c]),
      Some(Thread(s.threads[t].at, d)), None));
      ChannelsSound(r.sh) && WaitersSound(r) && KeysOld(r.sh)
  {
    hide Persisted;
  }

  lemma SendKeeps(s: State, t: nat, e: nat, report: Report)
    requires WaiterInv(s) && t in s.threads && s.nextThread !in s.threads && s.threads[t].delivery == Send(e, report)
    ensures WaiterInv(Apply(s, t, DeliveryStep(s.sh, s.threads[t], t)))
  {
    var o := DeliveryStep(s.sh, s.threads[t], t);
    assert DeliverySound(s.sh, t, Send(e, report));
    assert SendReady(s.sh, e) && [] + [report] == [report];
    assert o == Outcome(s.sh.(channels := s.sh.channels[e := Channel([report], 0, 0)]),
      Some(Thread(s.threads[t].at, Close(e))), None);
    hide ChannelsSound, WaitersSound, Persisted, DeliveryStep;
    ThreadsFrame(s, t, o);
    hide ThreadsSound, KeysOld;
    ChannelKept(s, t, e, Channel([report], 0, 0), Close(e));
  }

  lemma CloseKeeps(s: State, t: nat, e: nat)
    requires WaiterInv(s) && t in s.threads && s.nextThread !in s.threads && s.threads[t].delivery == Close(e)
    ensures WaiterInv(Apply(s, t, DeliveryStep(s.sh, s.threads[t], t)))
  {
    var o := DeliveryStep(s.sh, s.threads[t], t);
    assert DeliverySound(s.sh, t, Close(e));
    var c := s.sh.channels[e].(closes := 1);
    assert o == Outcome(s.sh.(channels := s.sh.channels[e := c]), Some(Thread(s.threads[t].at, Quiet)), None);
    assert c.received <= |c.sent| && Persisted(s.sh.db, e, c.sent[0]);
    hide ChannelsSound, WaitersSound, Persisted, DeliveryStep;
    ThreadsFrame(s, t, o);
    hide ThreadsSound, KeysOld;
    ChannelKept(s, t, e, c, Quiet);
  }

  // ---------------------------------------------------------------- every step

  lemma EnqueueAloof(sh: Shared, at: Pc, t: nat, c: Choice, limit: nat)
    requires InEnqueue(at) && !at.Register? && !at.Unregister?
    requires at.Insert? ==> at.wf !in sh.db.workflows
    requires at.Await? ==> !(c.flag && at.e in sh.channels && |sh.channels[at.e].sent| > sh.channels[at.e].received)
    ensures Aloof(sh, Thread(at, Quiet), EnqueueStep(sh, at, t, c, limit))
    ensures EnqueueStep(sh, at, t, c, limit).next.Some? ==> EnqueueStep(sh, at, t, c, limit).next.value.delivery.Quiet?
  {
    hide QueueOf, WithToken, Create;
  }

  lemma WorkerStays(sh: Shared, at: Pc, t: nat, c: Choice)
    requires InWorker(at)
    ensures var o := WorkerStep(sh, at, t, c);
      o.spawn.None? && (o.next.Some? ==> InWorker(o.next.value.at) && o.next.value.delivery == if at.Record?
        then Take(at.e, at.report) else Quiet)
  {
    hide IsNext, HasQueued, Claim, Complete, WithToken, WithRunning, WorkflowOf;
  }

  lemma WorkerShared(sh: Shared, at: Pc, t: nat, c: Choice)
    requires InWorker(at)
    ensures SameWaiters(sh, WorkerStep(sh, at, t, c).sh)
  {
    hide IsNext, HasQueued, Claim, Complete, WithToken, WithRunning, WorkflowOf;
  }

  lemma WorkerAloof(sh: Shared, at: Pc, t: nat, c: Choice)
    requires InWorker(at)
    ensures Aloof(sh, Thread(at, Quiet), WorkerStep(sh, at, t, c))
    ensures var o := WorkerStep(sh, at, t, c);
      o.next.Some? ==> o.next.value.delivery == if at.Record? then Take(at.e, at.report) else Quiet
  {
    WorkerShared(sh, at, t, c);
    WorkerStays(sh, at, t, c);
    hide WorkerStep;
  }

  ghost predicate SameWaiters(sh: Shared, r: Shared) {
    r.waiters == sh.waiters && r.channels == sh.channels && r.log.creator == sh.log.creator
      && r.log.sender == sh.log.sender
  }

  lemma StopTablesShared(sh: Shared, at: Pc, c: Choice)
    requires at.CancelAll? || at.DropWorkflow?
    ensures SameWaiters(sh, StopStep(sh, at, c).sh)
  {
    hide NoDup, Elements, QueuedOf, Cancel, DeleteWorkflow, WorkflowOf;
  }

  lemma StopShared(sh: Shared, at: Pc, c: Choice)
    requires InStop(at)
    ensures SameWaiters(sh, StopStep(sh, at, c).sh)
  {
    hide SetActive, WithToken, WithAccepting, WithStopped, WorkflowOf;
    if at.CancelAll? || at.DropWorkflow? {
      StopTablesShared(sh, at, c);
      hide StopStep, SameWaiters;
    }
  }

  lemma StopPublishes(sh: Shared, at: Pc, c: Choice)
    requires InStop(at)
    ensures var o := StopStep(sh, at, c);
      o.next.Some? && !o.next.value.delivery.Quiet? ==>
        at.Inform? && at.ids != [] && at.ids[0] in sh.db.executions
          && sh.db.executions[at.ids[0]].report.Some? && o.sh == sh
        && o.next.value.delivery == Take(at.ids[0], sh.db.executions[at.ids[0]].report.value)
  {
    hide NoDup, Elements, QueuedOf, Cancel, DeleteWorkflow, SetActive, WithToken, WithAccepting,
      WithStopped, WorkflowOf;
  }

  lemma StopStays(sh: Shared, at: Pc, c: Choice)
    requires InStop(at)
    ensures var o := StopStep(sh, at, c); o.spawn.None? && (o.next.Some? ==> InStop(o.next.value.at))
  {
    hide NoDup, Elements, QueuedOf, Cancel, DeleteWorkflow, SetActive, WithToken, WithAccepting,
      WithStopped, WorkflowOf;
  }

  lemma StopAloof(sh: Shared, at: Pc, c: Choice)
    requires InStop(at)
    ensures Aloof(sh, Thread(at, Quiet), StopStep(sh, at, c))
    ensures var o := StopStep(sh, at, c);
      o.next.Some? && !o.next.value.delivery.Quiet? ==>
        at.Inform? && at.ids != [] && at.ids[0] in sh.db.executions
          && sh.db.executions[at.ids[0]].report.Some? && o.sh == sh
        && o.next.value.delivery == Take(at.ids[0], sh.db.executions[at.ids[0]].report.value)
  {
    StopShared(sh, at, c);
    StopPublishes(sh, at, c);
    StopStays(sh, at, c);
    hide StopStep;
  }

  lemma StartAloof(sh: Shared, at: Pc, t: nat, spawned: nat, c: Choice)
    requires !InEnqueue(at) && !InWorker(at) && !InStop(at)
    ensures Aloof(sh, Thread(at, Quiet), StartStep(sh, at, t, spawned, c))
    ensures var o := StartStep(sh, at, t, spawned, c); o.next.Some? ==> o.next.value.delivery.Quiet?
  {
    hide UpsertWorkflow, WithToken, WorkflowOf;
  }

  lemma ReportPersisted(d: Db, e: nat)
    requires Coupled(d) && e in d.executions && d.executions[e].report.Some?
    ensures Persisted(d, e, d.executions[e].report.value)
  {
  }

  lemma RecordPersists(s: State, t: nat, c: Choice)
    requires HoldersKnown(s) && HoldersRun(s) && t in s.threads && s.threads[t].at.Record?
    ensures Persisted(WorkerStep(s.sh, s.threads[t].at, t, c).sh.db, s.threads[t].at.e, s.threads[t].at.report)
  {
    assert Holds(s.threads[t].at) == Some(s.threads[t].at.e);
  }

  lemma EnqueueWaits(s: State, t: nat, c: Choice, limit: nat)
    requires WaiterInv(s) && t in s.threads && s.nextThread !in s.threads && InEnqueue(s.threads[t].at)
    requires s.threads[t].delivery.Quiet?
    requires Ages(s.sh.db, EnqueueStep(s.sh, s.threads[t].at, t, c, limit).sh.db)
    ensures WaiterInv(Apply(s, t, EnqueueStep(s.sh, s.threads[t].at, t, c, limit)))
  {
    hide WaiterInv, Ages, QueueOf, Aloof;
    var at := s.threads[t].at;
    var o := EnqueueStep(s.sh, at, t, c, limit);
    assert s.threads[t] == Thread(at, Quiet);
    if at.Insert? && at.wf in s.sh.db.workflows {
      InsertKeeps(s, t, o, at.m, s.sh.db.nextExecution, at.manual);
    } else if at.Register? {
      RegisterKeeps(s, t, at.e, at.m);
    } else if at.Unregister? {
      UnregisterKeeps(s, t, at.e);
    } else if at.Await? && c.flag && at.e in s.sh.channels
      && |s.sh.channels[at.e].sent| > s.sh.channels[at.e].received {
      ReceiveKeeps(s, t, at.e);
    } else {
      EnqueueAloof(s.sh, at, t, c, limit);
      AloofKeeps(s, t, o);
    }
  }

  lemma WorkerWaits(s: State, t: nat, c: Choice)
    requires HoldersKnown(s) && HoldersRun(s) && WaiterInv(s) && t in s.threads && InWorker(s.threads[t].at)
    requires s.threads[t].delivery.Quiet?
    requires Ages(s.sh.db, WorkerStep(s.sh, s.threads[t].at, t, c).sh.db)
    ensures WaiterInv(Apply(s, t, WorkerStep(s.sh, s.threads[t].at, t, c)))
  {
    FreshThread(s);
    if s.threads[t].at.Record? {
      RecordPersists(s, t, c);
    }
    assert s.threads[t] == Thread(s.threads[t].at, Quiet);
    WorkerAloof(s.sh, s.threads[t].at, t, c);
    hide HoldersKnown, HoldersRun, WaiterInv, Ages, Aloof, WorkerStep, Persisted;
    AloofKeeps(s, t, WorkerStep(s.sh, s.threads[t].at, t, c));
  }

  lemma StopWaits(s: State, t: nat, c: Choice)
    requires Coupled(s.sh.db) && s.nextThread !in s.threads && WaiterInv(s) && t in s.threads && InStop(s.threads[t].at)
    requires s.threads[t].delivery.Quiet?
    requires Ages(s.sh.db, StopStep(s.sh, s.threads[t].at, c).sh.db)
    ensures WaiterInv(Apply(s, t, StopStep(s.sh, s.threads[t].at, c)))
  {
    hide Coupled, WaiterInv, Ages, Aloof, StopStep, Persisted;
    var at := s.threads[t].at;
    assert s.threads[t] == Thread(at, Quiet);
    StopAloof(s.sh, at, c);
    if at.Inform? && at.ids != [] && at.ids[0] in s.sh.db.executions && s.sh.db.executions[at.ids[0]].report.Some? {
      ReportPersisted(s.sh.db, at.ids[0]);
    }
    AloofKeeps(s, t, StopStep(s.sh, at, c));
  }

  lemma StartWaits(s: State, t: nat, c: Choice)
    requires s.nextThread !in s.threads && WaiterInv(s) && t in s.threads
    requires !InEnqueue(s.threads[t].at) && !InWorker(s.threads[t].at) && !InStop(s.threads[t].at)
    requires s.threads[t].delivery.Quiet?
    requires Ages(s.sh.db, StartStep(s.sh, s.threads[t].at, t, s.nextThread, c).sh.db)
    ensures WaiterInv(Apply(s, t, StartStep(s.sh, s.threads[t].at, t, s.nextThread, c)))
  {
    hide WaiterInv, Ages, Aloof, StartStep;
    assert s.threads[t] == Thread(s.threads[t].at, Quiet);
    StartAloof(s.sh, s.threads[t].at, t, s.nextThread, c);
    AloofKeeps(s, t, StartStep(s.sh, s.threads[t].at, t, s.nextThread, c));
  }

  lemma ThreadWaits(s: State, t: nat, c: Choice, limit: nat)
    requires ClaimInv(s) && WaiterInv(s) && s.phase.Up? && t in s.threads
    ensures WaiterInv(Apply(s, t, ThreadStep(s.sh, s.threads[t], t, s.nextThread, c, limit)))
  {
    hide Coupled, HoldersKnown, HoldersRun, ClaimedOnce, PhaseSound, WaiterInv, Ages, DeliveryStep, EnqueueStep,
      WorkerStep, StopStep, StartStep;
    FreshThread(s);
    ThreadAges(s, t, c, limit);
    var th := s.threads[t];
    match th.delivery
    case Take(e, report) => TakeKeeps(s, t, e, report);
    case Send(e, report) => SendKeeps(s, t, e, report);
    case Close(e) => CloseKeeps(s, t, e);
    case Quiet =>
      if InEnqueue(th.at) {
        EnqueueWaits(s, t, c, limit);
      } else if InWorker(th.at) {
        WorkerWaits(s, t, c);
      } else if InStop(th.at) {
        StopWaits(s, t, c);
      } else {
        StartWaits(s, t, c);
      }
  }

  /** A step of the tables alone. */
  lemma DbKeeps(s: State, r: State)
    requires WaiterInv(s) && Ages(s.sh.db, r.sh.db) && r.threads == s.threads && r.sh == s.sh.(db := r.sh.db)
    ensures WaiterInv(r)
  {
    hide Ages;
    forall t | t in r.threads ensures CallSound(r.sh, t, r.threads[t].at)
      && DeliverySound(r.sh, t, r.threads[t].delivery) {
      CallAges(s.sh, r.sh, t, s.threads[t].at);
      DeliveryAges(s.sh, r.sh, t, s.threads[t].delivery);
    }
    hide CallSound, DeliverySound;
    ChannelsAge(s.sh, r.sh);
    hide Persisted;
  }

  lemma CallAges(sh: Shared, r: Shared, t: nat, at: Pc)
    requires CallSound(sh, t, at) && Ages(sh.db, r.db) && r == sh.(db := r.db)
    ensures CallSound(r, t, at)
  {
    AgesGrow(sh.db, r.db);
    hide Ages;
  }

  lemma DeliveryAges(sh: Shared, r: Shared, t: nat, delivery: Delivery)
    requires DeliverySound(sh, t, delivery) && Ages(sh.db, r.db) && r == sh.(db := r.db)
    ensures DeliverySound(r, t, delivery)
  {
    hide Ages, Persisted;
    match delivery
    case Take(e, report) => PersistedAges(sh.db, r.db, e, report);
    case Send(e, report) => PersistedAges(sh.db, r.db, e, report);
    case _ =>
  }

  lemma RequestWaits(s: State, pc: Pc)
    requires WaiterInv(s) && MayStart(s.sh, pc) && s.nextThread !in s.threads
    ensures WaiterInv(Begun(s, pc))
  {
    hide Persisted;
  }

  lemma NextWaits(s: State, a: Action, limit: nat)
    requires ClaimInv(s) && WaiterInv(s) && Enabled(s, a)
    ensures WaiterInv(Next(s, a, limit))
  {
    hide Coupled, HoldersRun, ClaimedOnce, PhaseSound, WaiterInv, Ages, ThreadStep, OverflowIds, OlderIds,
      DeleteExecutions, Repair;
    NextAges(s, a, limit);
    match a
    case Step(t, c) => ThreadWaits(s, t, c, limit);
    case Request(pc) =>
      FreshThread(s);
      RequestWaits(s, pc);
    case Crash => CrashWaits(s);
    case _ => DbKeeps(s, Next(s, a, limit));
  }

  lemma CrashWaits(s: State)
    ensures WaiterInv(Crashed(s))
  {
  }

  // ---------------------------------------------------------------- theorems

  lemma {:induction false} RunWaits(s: State, actions: seq<Action>, limit: nat)
    requires ClaimInv(s) && WaiterInv(s) && Run(s, actions, limit)
    ensures ClaimInv(After(s, actions, limit)) && WaiterInv(After(s, actions, limit))
    decreases |actions|
  {
    hide ClaimInv, WaiterInv, Next;
    if actions != [] {
      NextKeepsClaims(s, actions[0], limit);
      NextWaits(s, actions[0], limit);
      RunWaits(Next(s, actions[0], limit), actions[1..], limit);
    }
  }

  lemma {:induction false} ReachableWaits(s: State, actions: seq<Action>, limit: nat)
    requires Init(s) && Run(s, actions, limit)
    ensures WaiterInv(After(s, actions, limit))
  {
    InitClaims(s);
    InitWaits(s);
    hide ClaimInv, WaiterInv, Run, After, Init;
    RunWaits(s, actions, limit);
  }

  lemma InitWaits(s: State)
    requires Init(s)
    ensures WaiterInv(s)
  {
  }

  /** A publisher that is about to send or close never blocks and never panics. */
  lemma {:induction false} PublishNeverBlocks(s: State, actions: seq<Action>, limit: nat, t: nat)
    requires Init(s) && Run(s, actions, limit) && t in After(s, actions, limit).threads
    ensures var r := After(s, actions, limit);
      && (r.threads[t].delivery.Send? ==> SendReady(r.sh, r.threads[t].delivery.e))
      && (r.threads[t].delivery.Close? ==> CloseReady(r.sh, r.threads[t].delivery.e))
  {
    ReachableWaits(s, actions, limit);
    hide Run, After;
  }

  /** Per execution at most one report is sent and at most one close happens, only after it,
      and the report a caller can receive is the one in the table, as long as the row exists. */
  lemma {:induction false} OneReportAndItIsPersisted(s: State, actions: seq<Action>, limit: nat, e: nat)
    requires Init(s) && Run(s, actions, limit) && e in After(s, actions, limit).sh.channels
    ensures var sh := After(s, actions, limit).sh; var ch := sh.channels[e];
      && |ch.sent| <= 1 && ch.closes <= |ch.sent|
      && (|ch.sent| == 1 && e in sh.db.executions ==>
            sh.db.executions[e].status.Finished() && sh.db.executions[e].report == Some(ch.sent[0]))
  {
    ReachableWaits(s, actions, limit);
    hide Run, After;
  }

  /** Every entry of the waiter map belongs to an ExecWorkflow call that is still under way. */
  lemma {:induction false} NoWaiterOutlivesItsCall(s: State, actions: seq<Action>, limit: nat, e: nat)
    requires Init(s) && Run(s, actions, limit) && e in After(s, actions, limit).sh.waiters
    ensures var r := After(s, actions, limit);
      exists t :: t in r.threads && Waiting(r.threads[t].at, e)
  {
    ReachableWaits(s, actions, limit);
    hide Run, After, Persisted;
  }

  /** A publication whose waiter is registered reaches it in the publisher's own three steps, report and close;
      one whose waiter is not registered yet, or no more, leaves everything as it was. */
  lemma {:induction false} DeliveredIffRegistered(s: State, actions: seq<Action>, limit: nat, t: nat, c: Choice)
    requires Init(s) && Run(s, actions, limit)
    requires var r := After(s, actions, limit); r.phase.Up? && t in r.threads && r.threads[t].delivery.Take?
    ensures var r := After(s, actions, limit); var th := r.threads[t]; var e := th.delivery.e;
      if e in r.sh.waiters then
        var three := [Step(t, c), Step(t, c), Step(t, c)];
        && Run(r, three, limit)
        && var f := After(r, three, limit);
           f.sh.channels == r.sh.channels[e := Channel([th.delivery.report], 0, 1)]
             && f.sh.waiters == r.sh.waiters - {e}
           && t in f.threads && f.threads[t] == Thread(th.at, Quiet)
      else Next(r, Step(t, c), limit).sh == r.sh
  {
    ReachableWaits(s, actions, limit);
    var r := After(s, actions, limit);
    hide Run, After, Init;
    if r.threads[t].delivery.e in r.sh.waiters {
      ThreeSteps(r, t, c, limit);
    }
  }

  lemma {:induction false} ThreeSteps(r: State, t: nat, c: Choice, limit: nat)
    requires WaitersSound(r) && r.phase.Up? && t in r.threads && r.threads[t].delivery.Take?
      && r.threads[t].delivery.e in r.sh.waiters
    ensures var th := r.threads[t]; var e := th.delivery.e; var three := [Step(t, c), Step(t, c), Step(t, c)];
      && Run(r, three, limit)
      && var f := After(r, three, limit);
         f.sh.channels == r.sh.channels[e := Channel([th.delivery.report], 0, 1)] && f.sh.waiters == r.sh.waiters - {e}
         && t in f.threads && f.threads[t] == Thread(th.at, Quiet)
  {
    var th := r.threads[t];
    var e, report := th.delivery.e, th.delivery.report;
    assert r.sh.channels[e] == Channel([], 0, 0);
    var a := Step(t, c);
    var three := [a, a, a];
    var r1 := Next(r, a, limit);
    assert r1.threads[t] == Thread(th.at, Send(e, report)) && r1.sh.channels == r.sh.channels;
    assert r1.sh.channels[e].sent + [report] == [report];
    var r2 := Next(r1, a, limit);
    assert r2.threads[t] == Thread(th.at, Close(e)) && r2.sh.channels == r.sh.channels[e := Channel([report], 0, 0)];
    var r3 := Next(r2, a, limit);
    assert r3.sh.channels == r.sh.channels[e := Channel([report], 0, 1)];
    hide Next, WaitersSound;
    RunPrepend(r2, a, [], limit);
    RunPrepend(r1, a, [a] + [], limit);
    RunPrepend(r, a, [a] + ([a] + []), limit);
    assert [a] + ([a] + ([a] + [])) == three;
  }

  lemma {:induction false} RunPrepend(s: State, a: Action, more: seq<Action>, limit: nat)
    requires Enabled(s, a) && Run(Next(s, a, limit), more, limit)
    ensures Run(s, [a] + more, limit) && After(s, [a] + more, limit) == After(Next(s, a, limit), more, limit)
  {
    hide Next, Enabled;
    assert ([a] + more)[1..] == more;
  }
}
