/** The queue limit is checked in one step and used in a later one.  The bound that survives the race,
    and runs that reach it. */
module QueueBound {
  import opened Base
  import opened Reports
  import opened Tables
  import opened Retention
  import opened Protocol
  import opened ClaimSafety
  import opened Wakeups
  import opened Reaching

  /** The goroutines that have passed the queue check for `wf` and not inserted yet. */
  ghost function Past(s: State, wf: string): set<nat> {
    set t | t in s.threads && s.threads[t].at.Insert? && s.threads[t].at.wf == wf
  }

  /** Queue length plus the goroutines past the check. */
  ghost function Load(s: State, wf: string): nat {
    |QueueOf(s.sh.db, wf)| + |Past(s, wf)|
  }

  /** In no state of the run have more than `n` goroutines passed the check for `wf` without inserting. */
  ghost predicate AtMostPast(s: State, actions: seq<Action>, limit: nat, wf: string, n: nat)
    requires Run(s, actions, limit)
    decreases |actions|
  {
    && |Past(s, wf)| <= n
    && (actions != [] ==> AtMostPast(Next(s, actions[0], limit), actions[1..], limit, wf, n))
  }

  // ---------------------------------------------------------------- one step

  /** The queue does not grow and nobody passes the check. */
  ghost predicate LoadShrinks(s: State, r: State, wf: string) {
    QueueOf(r.sh.db, wf) <= QueueOf(s.sh.db, wf) && Past(r, wf) <= Past(s, wf)
  }

  lemma ShrinkLoad(s: State, r: State, wf: string)
    requires LoadShrinks(s, r, wf)
    ensures Load(r, wf) <= Load(s, wf)
  {
    SubsetSize(QueueOf(r.sh.db, wf), QueueOf(s.sh.db, wf));
    SubsetSize(Past(r, wf), Past(s, wf));
    hide QueueOf, Past;
  }

  /** A goroutine that does not arrive before an insert adds nothing. */
  lemma StepShrinks(s: State, t: nat, o: Outcome, wf: string)
    requires t in s.threads && QueueShrinks(s.sh.db, o.sh.db)
    requires o.spawn.Some? ==> !o.spawn.value.Insert?
    requires o.next.Some? && o.next.value.at.Insert? ==> o.next.value.at == s.threads[t].at
    ensures LoadShrinks(s, Apply(s, t, o), wf)
  {
  }

  lemma CountLoad(s: State, t: nat, c: Choice, limit: nat, wf: string)
    requires t in s.threads && s.threads[t].at.Count?
    ensures var r := Apply(s, t, EnqueueStep(s.sh, s.threads[t].at, t, c, limit));
      Load(r, wf) <= Load(s, wf) || |QueueOf(r.sh.db, wf)| < limit
  {
    var at := s.threads[t].at;
    var o := EnqueueStep(s.sh, at, t, c, limit);
    var r := Apply(s, t, o);
    if at.wf == wf && |QueueOf(s.sh.db, wf)| < limit {
    } else {
      assert Past(r, wf) <= Past(s, wf);
      ShrinkLoad(s, r, wf);
    }
    hide Load;
  }

  lemma InsertLoad(s: State, t: nat, c: Choice, limit: nat, wf: string)
    requires t in s.threads && s.threads[t].at.Insert? && s.threads[t].at.wf in s.sh.db.workflows
    ensures Load(Apply(s, t, EnqueueStep(s.sh, s.threads[t].at, t, c, limit)), wf) <= Load(s, wf)
  {
    var at := s.threads[t].at;
    var r := Apply(s, t, EnqueueStep(s.sh, at, t, c, limit));
    var q := s.sh.db.nextQueue;
    if at.wf == wf {
      assert QueueOf(r.sh.db, wf) <= QueueOf(s.sh.db, wf) + {q};
      SubsetSize(QueueOf(r.sh.db, wf), QueueOf(s.sh.db, wf) + {q});
      assert Past(r, wf) == Past(s, wf) - {t};
      assert t in Past(s, wf);
    } else {
      assert QueueOf(r.sh.db, wf) <= QueueOf(s.sh.db, wf);
      assert Past(r, wf) <= Past(s, wf);
      ShrinkLoad(s, r, wf);
    }
  }

  /** Where a goroutine outside the check may go. */
  ghost predicate Plain(sh: Shared, at: Pc, o: Outcome) {
    && QueueShrinks(sh.db, o.sh.db)
    && (o.spawn.Some? ==> !o.spawn.value.Insert?)
    && (o.next.Some? && o.next.value.at.Insert? ==> o.next.value.at == at)
  }

  lemma WorkerPlain(sh: Shared, at: Pc, t: nat, c: Choice)
    requires InWorker(at)
    ensures Plain(sh, at, WorkerStep(sh, at, t, c))
  {
    WorkerQueue(sh, at, t, c);
    hide HasQueued, IsNext, Claim, Complete, QueueShrinks, WithToken, WithRunning, WorkflowOf;
  }

  lemma StopPlain(sh: Shared, at: Pc, c: Choice)
    requires InStop(at)
    ensures Plain(sh, at, StopStep(sh, at, c))
  {
    StopQueue(sh, at, c);
    hide NoDup, Elements, QueuedOf, Cancel, DeleteWorkflow, SetActive, QueueShrinks, WithToken, WithAccepting,
      WithStopped, WorkflowOf;
  }

  lemma EnqueuePlain(sh: Shared, at: Pc, t: nat, c: Choice, limit: nat)
    requires InEnqueue(at) && !at.Count? && (at.Insert? ==> at.wf !in sh.db.workflows)
    ensures Plain(sh, at, EnqueueStep(sh, at, t, c, limit))
  {
    hide QueueOf, Create, WithToken;
  }

  lemma StartPlain(sh: Shared, at: Pc, t: nat, spawned: nat, c: Choice)
    requires !InEnqueue(at) && !InWorker(at) && !InStop(at)
    ensures Plain(sh, at, StartStep(sh, at, t, spawned, c))
  {
  }

  lemma DeliveryPlain(sh: Shared, th: Thread, t: nat)
    ensures Plain(sh, th.at, DeliveryStep(sh, th, t))
  {
  }

  lemma PlainLoad(s: State, t: nat, o: Outcome, wf: string)
    requires t in s.threads && Plain(s.sh, s.threads[t].at, o)
    ensures Load(Apply(s, t, o), wf) <= Load(s, wf)
  {
    StepShrinks(s, t, o, wf);
    ShrinkLoad(s, Apply(s, t, o), wf);
    hide Load, LoadShrinks;
  }

  lemma ThreadLoad(s: State, t: nat, c: Choice, limit: nat, wf: string)
    requires t in s.threads
    ensures var r := Apply(s, t, ThreadStep(s.sh, s.threads[t], t, s.nextThread, c, limit));
      Load(r, wf) <= Load(s, wf) || |QueueOf(r.sh.db, wf)| < limit
  {
    hide Load, QueueOf, Plain, DeliveryStep, EnqueueStep, WorkerStep, StopStep, StartStep, Apply;
    var th := s.threads[t];
    if !th.delivery.Quiet? {
      DeliveryPlain(s.sh, th, t);
      PlainLoad(s, t, DeliveryStep(s.sh, th, t), wf);
    } else if th.at.Count? {
      CountLoad(s, t, c, limit, wf);
    } else if th.at.Insert? && th.at.wf in s.sh.db.workflows {
      InsertLoad(s, t, c, limit, wf);
    } else if InEnqueue(th.at) {
      EnqueuePlain(s.sh, th.at, t, c, limit);
      PlainLoad(s, t, EnqueueStep(s.sh, th.at, t, c, limit), wf);
    } else if InWorker(th.at) {
      WorkerPlain(s.sh, th.at, t, c);
      PlainLoad(s, t, WorkerStep(s.sh, th.at, t, c), wf);
    } else if InStop(th.at) {
      StopPlain(s.sh, th.at, c);
      PlainLoad(s, t, StopStep(s.sh, th.at, c), wf);
    } else {
      StartPlain(s.sh, th.at, t, s.nextThread, c);
      PlainLoad(s, t, StartStep(s.sh, th.at, t, s.nextThread, c), wf);
    }
  }

  /** No step adds to the load, except one that finds the queue below the limit. */
  lemma NextLoad(s: State, a: Action, limit: nat, wf: string)
    requires Enabled(s, a)
    ensures Load(Next(s, a, limit), wf) <= Load(s, wf) || |QueueOf(Next(s, a, limit).sh.db, wf)| < limit
  {
    hide OlderIds, OverflowIds, DeleteExecutions, Repair, QueueShrinks, ThreadStep, Load;
    var r := Next(s, a, limit);
    match a
    case Step(t, c) => ThreadLoad(s, t, c, limit, wf);
    case Request(pc) =>
      assert Past(r, wf) <= Past(s, wf);
      ShrinkLoad(s, r, wf);
    case Crash => ShrinkLoad(s, r, wf);
    case _ =>
      OutsideShrinks(s, a, limit);
      OutsideLoad(s, r, wf);
  }

  lemma OutsideLoad(s: State, r: State, wf: string)
    requires r.threads == s.threads && QueueShrinks(s.sh.db, r.sh.db)
    ensures Load(r, wf) <= Load(s, wf)
  {
    ShrinkLoad(s, r, wf);
    hide Load;
  }

  // ---------------------------------------------------------------- the bound

  function Max(a: int, b: int): int {
    if a < b then b else a
  }

  /** With at most `n` goroutines past the check at any time, the queue of a workflow plus those
      goroutines never exceed what was there at the start or `limit - 1 + n`. */
  lemma {:induction false} QueueStaysBounded(s: State, actions: seq<Action>, limit: nat, wf: string, n: nat)
    requires Run(s, actions, limit) && AtMostPast(s, actions, limit, wf, n)
    ensures Load(After(s, actions, limit), wf) <= Max(Load(s, wf), limit - 1 + n)
    decreases |actions|
  {
    hide Past, QueueOf, Next;
    if actions != [] {
      var r := Next(s, actions[0], limit);
      NextLoad(s, actions[0], limit, wf);
      QueueStaysBounded(r, actions[1..], limit, wf, n);
    }
  }

  /** One goroutine at a time keeps the limit exactly. */
  lemma {:induction false} SerialEnqueuersKeepLimit(s: State, actions: seq<Action>, limit: nat, wf: string)
    requires Init(s) && Run(s, actions, limit) && AtMostPast(s, actions, limit, wf, 1)
    ensures |QueueOf(After(s, actions, limit).sh.db, wf)| <= limit
  {
    assert QueueOf(s.sh.db, wf) == {} && Past(s, wf) == {};
    QueueStaysBounded(s, actions, limit, wf, 1);
    hide Run, After, AtMostPast, QueueOf, Past;
  }

  // ---------------------------------------------------------------- the bound is reached

  function Steps(ts: seq<nat>, c: Choice): (r: seq<Action>)
    ensures |r| == |ts|
  {
    seq(|ts|, i requires 0 <= i < |ts| => Step(ts[i], c))
  }

  ghost predicate AllAtCount(s: State, ts: seq<nat>, wf: string) {
    forall i :: 0 <= i < |ts| ==>
      && ts[i] in s.threads && s.threads[ts[i]].delivery.Quiet?
      && s.threads[ts[i]].at.Count? && s.threads[ts[i]].at.wf == wf
  }

  ghost predicate AllAtInsert(s: State, ts: seq<nat>, wf: string) {
    forall i :: 0 <= i < |ts| ==>
      && ts[i] in s.threads && s.threads[ts[i]].delivery.Quiet?
      && s.threads[ts[i]].at.Insert? && s.threads[ts[i]].at.wf == wf
  }

  /** While the queue is below the limit every goroutine at the check passes it. */
  lemma {:induction false} AllPass(s: State, done: seq<nat>, ts: seq<nat>, wf: string, c: Choice, limit: nat)
    requires s.phase.Up? && NoDup(done + ts) && AllAtInsert(s, done, wf) && AllAtCount(s, ts, wf)
      && |QueueOf(s.sh.db, wf)| < limit
    ensures Run(s, Steps(ts, c), limit)
    ensures var r := After(s, Steps(ts, c), limit); r.phase.Up? && r.sh == s.sh && AllAtInsert(r, done + ts, wf)
    decreases |ts|
  {
    if ts == [] {
      assert done + ts == done;
    } else {
      var a := Steps(ts, c);
      var r := Next(s, a[0], limit);
      var more := done + [ts[0]];
      assert more + ts[1..] == done + ts;
      var all := done + ts;
      assert all[|done|] == ts[0];
      forall i | 0 <= i < |done| ensures done[i] != ts[0] { assert all[i] != all[|done|]; }
      forall i | 0 <= i < |ts[1..]| ensures ts[1..][i] != ts[0] { assert all[|done| + 1 + i] != all[|done|]; }
      assert r.threads == s.threads[ts[0] := Thread(Insert(wf, s.threads[ts[0]].at.m, s.threads[ts[0]].at.manual),
        Quiet)];
      assert a[1..] == Steps(ts[1..], c);
      hide QueueOf;
      AllPass(r, more, ts[1..], wf, c, limit);
    }
  }

  /** Past the check every goroutine inserts, whatever the queue length is by then. */
  lemma {:induction false} AllInsert(s: State, ts: seq<nat>, wf: string, c: Choice, limit: nat)
    requires s.phase.Up? && NoDup(ts) && AllAtInsert(s, ts, wf) && wf in s.sh.db.workflows
    requires forall q :: q in s.sh.db.queue ==> q < s.sh.db.nextQueue
    ensures Run(s, Steps(ts, c), limit)
    ensures |QueueOf(After(s, Steps(ts, c), limit).sh.db, wf)| == |QueueOf(s.sh.db, wf)| + |ts|
    decreases |ts|
  {
    if ts != [] {
      var a := Steps(ts, c);
      var r := Next(s, a[0], limit);
      assert a[1..] == Steps(ts[1..], c);
      assert QueueOf(r.sh.db, wf) == QueueOf(s.sh.db, wf) + {s.sh.db.nextQueue};
      AllInsert(r, ts[1..], wf, c, limit);
    }
  }

  /** The bound is tight: `n` goroutines at the check of a queue one below its limit can take it to `limit - 1 + n`. */
  lemma {:induction false} RaceReachesBound(s: State, ts: seq<nat>, wf: string, c: Choice, limit: nat)
    requires s.phase.Up? && NoDup(ts) && AllAtCount(s, ts, wf) && wf in s.sh.db.workflows
    requires forall q :: q in s.sh.db.queue ==> q < s.sh.db.nextQueue
    requires |QueueOf(s.sh.db, wf)| == limit - 1
    ensures Run(s, Steps(ts, c) + Steps(ts, c), limit)
    ensures |QueueOf(After(s, Steps(ts, c) + Steps(ts, c), limit).sh.db, wf)| == limit - 1 + |ts|
  {
    assert [] + ts == ts;
    AllPass(s, [], ts, wf, c, limit);
    AllInsert(After(s, Steps(ts, c), limit), ts, wf, c, limit);
    RunJoins(s, Steps(ts, c), Steps(ts, c), limit);
  }

  // ---------------------------------------------------------------- a run that reaches it

  /** The workflow can be enqueued to through its registered object. */
  ghost predicate Open(s: State, wf: string, m: nat) {
    && s.phase.Up? && wf in s.sh.db.workflows && wf in s.sh.registered && s.sh.registered[wf] == m
    && m in s.sh.managed && s.sh.managed[m].accepting
    && (forall t :: t in s.threads ==> t < s.nextThread) && forall q :: q in s.sh.db.queue ==> q < s.sh.db.nextQueue
  }

  lemma {:induction false} Fill(s0: State, s: State, wf: string, m: nat, k: nat, limit: nat) returns (r: State)
    requires Reaches(s0, s, limit) && Open(s, wf, m) && |QueueOf(s.sh.db, wf)| + k <= limit
    ensures Reaches(s0, r, limit) && Open(r, wf, m) && |QueueOf(r.sh.db, wf)| == |QueueOf(s.sh.db, wf)| + k
    decreases k
  {
    hide Reaches;
    r := s;
    if k > 0 {
      Enqueue(s0, s, wf, m, limit);
      var next := s.(nextThread := s.nextThread + 1, sh := Enqueued(s.sh, wf, m, s.nextThread));
      assert QueueOf(next.sh.db, wf) == QueueOf(s.sh.db, wf) + {s.sh.db.nextQueue};
      hide QueueOf;
      r := Fill(s0, next, wf, m, k - 1, limit);
    }
  }

  /** `n` goroutines come to the check. */
  lemma {:induction false} Gather(s0: State, s: State, ts: seq<nat>, wf: string, m: nat, n: nat, limit: nat)
      returns (r: State, all: seq<nat>)
    requires Reaches(s0, s, limit) && Open(s, wf, m) && NoDup(ts) && AllAtCount(s, ts, wf)
    ensures Reaches(s0, r, limit) && Open(r, wf, m) && r.sh == s.sh && NoDup(all) && AllAtCount(r, all, wf)
      && |all| == |ts| + n
    decreases n
  {
    hide Reaches;
    r, all := s, ts;
    if n > 0 {
      var t := s.nextThread;
      Begin(s0, s, Lookup(wf, None), limit);
      var b := s.(nextThread := t + 1);
      Walk(s0, b, t, Lookup(wf, None), s.sh, Gate(wf, m, None), limit);
      Walk(s0, b, t, Gate(wf, m, None), s.sh, Count(wf, m, None), limit);
      var next := At(b, t, Count(wf, m, None));
      assert t !in Elements(ts);
      NoDupAppend(ts, t);
      hide NoDup, Elements;
      r, all := Gather(s0, next, ts + [t], wf, m, n - 1, limit);
    }
  }

  /** From the empty database, whatever the limit, `n` racing goroutines can take a queue to limit - 1 + n. */
  lemma BoundIsReached(n: nat, limit: nat)
    requires limit > 0
    ensures exists s, r :: Init(s) && Reaches(s, r, limit) && |QueueOf(r.sh.db, "id")| == limit - 1 + n
  {
    var s0 := State(Down, map[], 0, Shared(EMPTY, map[], map[], {}, map[], 0,
                    Log(multiset{}, map[], {}, map[], map[], map[], map[], map[])));
    hide Reaches;
    BootUp(s0, limit);
    var s1 := s0.(phase := Up);
    StartUp(s0, s1, "id", false, limit);
    var s2 := Started(s1, "id", false);
    assert QueueOf(s2.sh.db, "id") == {} && Open(s2, "id", 0);
    var s3 := Fill(s0, s2, "id", 0, limit - 1, limit);
    var s4, ts := Gather(s0, s3, [], "id", 0, n, limit);
    RaceReachesBound(s4, ts, "id", ANY, limit);
    ReachesRun(s0, s4, Steps(ts, ANY) + Steps(ts, ANY), limit);
  }
}
