/** An old worker that is not retired can be woken: whoever may open its object opens it, or whoever may notify
    it does, and no start is needed for that. */
module Waking {
  import opened Base
  import opened Reports
  import opened Tables
  import opened Retention
  import opened Protocol
  import opened ClaimSafety
  import opened Waiters
  import opened Wakeups
  import opened OwnInserts
  import opened Reaching
  import opened Knowledge
  import opened Retirement
  import opened SoleWorkers
  import opened OneStart

  // ---------------------------------------------------------------- the scene

  /** Goroutine `t` has announced object `n` with worker `w`; `u` is a worker of an older object `m`. */
  datatype Cast = Cast(wf: string, t: nat, u: nat, m: nat, w: nat, n: nat)

  /** Accepting, and no stop works on it that could change that. */
  ghost predicate Open(s: State, x: nat) {
    x in s.sh.managed && s.sh.managed[x].accepting && forall v :: v in s.threads ==> !MayOpen(s.threads[v].at, x)
  }

  ghost predicate NewSide(s: State, k: Cast) {
    && s.phase.Up? && Open(s, k.n) && k.wf in s.sh.registered && s.sh.registered[k.wf] == k.n
    && k.t in s.threads && s.threads[k.t].delivery.Quiet? && s.threads[k.t].at.Activate? && s.threads[k.t].at.m == k.n
    && k.w in s.threads && s.threads[k.w] == Thread(Parked(k.n), Quiet) && s.sh.managed[k.n].workflow == k.wf
  }

  ghost predicate OldSide(s: State, k: Cast) {
    && k.u in s.threads && WorkerAt(s.threads[k.u].at) == Some(k.m)
    && k.m != k.n && k.m in s.sh.managed && s.sh.managed[k.m].workflow == k.wf
  }

  ghost predicate Scene(s: State, k: Cast) {
    NewSide(s, k) && OldSide(s, k)
  }

  /** The scene goes on: no start, the old worker where it was, its object at least as open and as notified. */
  ghost predicate Onward(s: State, r: State, k: Cast) {
    && Scene(r, k) && Kept(s, r) && k.u in s.threads && r.threads[k.u] == s.threads[k.u]
    && (Open(s, k.m) ==> Open(r, k.m)) && (k.m in s.sh.managed && s.sh.managed[k.m].token ==> r.sh.managed[k.m].token)
  }

  lemma OnwardJoins(a: State, b: State, c: State, k: Cast)
    requires Onward(a, b, k) && Onward(b, c, k)
    ensures Onward(a, c, k)
  {
    KeptJoins(a, b, c);
    hide Kept, Open;
  }

  lemma OnwardItself(s: State, k: Cast)
    requires Scene(s, k)
    ensures Onward(s, s, k)
  {
    hide MayOpen;
  }

  /** Every other goroutine stands where it stood. */
  ghost predicate SameOthers(s: State, r: State, v: nat) {
    forall x :: x in s.threads && x != v ==> x in r.threads && r.threads[x] == s.threads[x]
  }

  // ---------------------------------------------------------------- helpers

  /** An enqueue, a stop before its wait is over, or an activation. */
  predicate Helper(at: Pc) {
    InEnqueue(at) || at.StopGate? || at.StopWait? || at.Reopen? || at.ReopenNotify? || at.Activate? || at.NotifyActive?
  }

  /** A helper shuts only what it may open again, takes no token, and leaves the workflow map alone. */
  ghost predicate Gentle(sh: Shared, r: Shared, at: Pc, x: nat) {
    && r.registered == sh.registered && r.nextManaged == sh.nextManaged && r.managed.Keys == sh.managed.Keys
       && x in sh.managed
    && r.managed[x].workflow == sh.managed[x].workflow && (sh.managed[x].token ==> r.managed[x].token)
    && (sh.managed[x].accepting && !MayOpen(at, x) ==> r.managed[x].accepting)
  }

  lemma EnqueueGentle(sh: Shared, at: Pc, t: nat, c: Choice, limit: nat, x: nat)
    requires InEnqueue(at) && x in sh.managed
    ensures Gentle(sh, EnqueueStep(sh, at, t, c, limit).sh, at, x)
  {
    hide QueueOf, Create, MayOpen;
  }

  lemma OpenerGentle(sh: Shared, at: Pc, c: Choice, x: nat)
    requires (at.StopGate? || at.StopWait? || at.Reopen? || at.ReopenNotify?) && x in sh.managed
    ensures Gentle(sh, StopStep(sh, at, c).sh, at, x)
  {
    assert at.StopGate? && at.i < |at.ms| && at.ms[at.i] == x ==> MayOpen(at, x);
    hide MayOpen;
  }

  lemma ActivatorGentle(sh: Shared, at: Pc, t: nat, n: nat, c: Choice, x: nat)
    requires (at.Activate? || at.NotifyActive?) && x in sh.managed
    ensures Gentle(sh, StartStep(sh, at, t, n, c).sh, at, x)
  {
    hide MayOpen, UpsertWorkflow;
  }

  lemma HelperGentle(s: State, v: nat, c: Choice, limit: nat, x: nat)
    requires v in s.threads && s.threads[v].delivery.Quiet? && Helper(s.threads[v].at) && x in s.sh.managed
    ensures Gentle(s.sh, ThreadStep(s.sh, s.threads[v], v, s.nextThread, c, limit).sh, s.threads[v].at, x)
  {
    var at := s.threads[v].at;
    hide Gentle, EnqueueStep, StopStep, StartStep;
    if InEnqueue(at) {
      EnqueueGentle(s.sh, at, v, c, limit, x);
    } else if at.Activate? || at.NotifyActive? {
      ActivatorGentle(s.sh, at, v, s.nextThread, c, x);
    } else {
      OpenerGentle(s.sh, at, c, x);
    }
  }

  lemma HelperAlone(s: State, v: nat, c: Choice, limit: nat)
    requires PublishersPlaced(s) && v in s.threads && s.threads[v].delivery.Quiet? && Helper(s.threads[v].at)
    ensures ThreadStep(s.sh, s.threads[v], v, s.nextThread, c, limit).spawn.None?
  {
    ThreadModest(s, v, c, limit);
    hide ThreadStep, SameBut, Learns;
  }

  lemma OpenKept(s: State, v: nat, o: Outcome, x: nat)
    requires o.spawn.None? && Open(s, x) && v in s.threads && Gentle(s.sh, o.sh, s.threads[v].at, x)
      && GoesTame(s, s.threads[v].at, o, x)
    ensures Open(Apply(s, v, o), x)
  {
    hide MayOpen, MayNotify;
  }

  lemma KeptApart(s: State, v: nat, o: Outcome, x: nat)
    requires o.spawn.None? && v in s.threads && !s.threads[v].at.Announce? && Gentle(s.sh, o.sh, s.threads[v].at, x)
      && s.nextThread !in s.threads
    ensures Kept(s, Apply(s, v, o))
  {
    assert x in s.sh.managed.Keys;
    hide MayOpen;
  }

  lemma ReachableSound(s0: State, r: State, limit: nat)
    requires Sound(s0) && Reaches(s0, r, limit)
    ensures Sound(r)
  {
    hide Sound;
    var actions :| Run(s0, actions, limit) && After(s0, actions, limit) == r;
    RunSound(s0, actions, limit);
  }

  /** One step of a helper. */
  lemma HelperStep(s0: State, s: State, k: Cast, v: nat, c: Choice, limit: nat) returns (r: State)
    requires Sound(s0) && Reaches(s0, s, limit) && Scene(s, k) && v != k.t && v in s.threads
    requires s.threads[v].delivery.Quiet? && Helper(s.threads[v].at)
    ensures var o := ThreadStep(s.sh, s.threads[v], v, s.nextThread, c, limit); o.spawn.None? && r == Apply(s, v, o)
    ensures Reaches(s0, r, limit) && Onward(s, r, k) && SameOthers(s, r, v)
  {
    var o := ThreadStep(s.sh, s.threads[v], v, s.nextThread, c, limit);
    hide Reaches, ThreadStep, Sound;
    r := StepTo(s0, s, v, c, limit);
    ReachableSound(s0, s, limit);
    SoundObjects(s);
    HelperGentle(s, v, c, limit, k.n);
    HelperGentle(s, v, c, limit, k.m);
    ThreadTame(s, v, c, limit, k.n);
    ThreadTame(s, v, c, limit, k.m);
    SoundPlaced(s);
    HelperAlone(s, v, c, limit);
    KeptApart(s, v, o, k.n);
    OthersSame(s, v, o);
    hide ObjectsSound, PublishersPlaced, SameOthers, GoesTame, Apply;
    HelperScene(s, k, v, o);
  }

  lemma OthersSame(s: State, v: nat, o: Outcome)
    requires o.spawn.None?
    ensures SameOthers(s, Apply(s, v, o), v)
  {
  }

  lemma SoundPlaced(s: State)
    requires Sound(s)
    ensures PublishersPlaced(s)
  {
  }

  lemma SoundObjects(s: State)
    requires Sound(s)
    ensures ObjectsSound(s) && s.nextThread !in s.threads
  {
    FreshThread(s);
  }

  lemma NoHelpers(s: State, k: Cast, v: nat)
    requires Scene(s, k) && v in s.threads && Helper(s.threads[v].at)
    ensures v != k.u && v != k.w
  {
    hide Open;
  }

  lemma HelperScene(s: State, k: Cast, v: nat, o: Outcome)
    requires Scene(s, k) && v != k.t && v in s.threads && Helper(s.threads[v].at) && o.spawn.None?
    requires Gentle(s.sh, o.sh, s.threads[v].at, k.n) && Gentle(s.sh, o.sh, s.threads[v].at, k.m)
    requires GoesTame(s, s.threads[v].at, o, k.n) && GoesTame(s, s.threads[v].at, o, k.m) && Kept(s, Apply(s, v, o))
    ensures Onward(s, Apply(s, v, o), k)
  {
    NoHelpers(s, k, v);
    OpenKept(s, v, o, k.n);
    if Open(s, k.m) {
      OpenKept(s, v, o, k.m);
    }
    hide GoesTame, Kept, Open, Helper, MayOpen;
  }

  // ---------------------------------------------------------------- a stop times out

  /** The stop comes to open the object and notify it. */
  ghost predicate Opening(sh: Shared, at: Pc, y: nat) {
    y in sh.managed && (MayOpen(at, y) || (at.ReopenNotify? && Notifies(at, y) && sh.managed[y].accepting))
  }

  /** How far a stop is from its end if its wait times out. */
  function OpenRank(at: Pc): nat {
    match at
    case StopGate(ms, i, _) => 2 * |ms| + 3 + if i < |ms| then |ms| - i else 0
    case StopWait(ms, _, _) => 2 * |ms| + 2
    case Reopen(ms, i) => if i <= |ms| then 2 * (|ms| - i) + 1 else 0
    case ReopenNotify(ms, i) => if i <= |ms| then 2 * (|ms| - i) else 0
    case _ => 0
  }

  /** The goroutine has opened and notified the object, or is nearer to it. */
  ghost predicate Nearer(at: Pc, o: Outcome, y: nat) {
    && y in o.sh.managed && o.next.Some? && o.next.value.delivery.Quiet?
    && ((Opening(o.sh, o.next.value.at, y) && OpenRank(o.next.value.at) < OpenRank(at))
       || (o.sh.managed[y].accepting && o.sh.managed[y].token))
  }

  lemma GateNearer(sh: Shared, ms: seq<nat>, i: nat, drop: Option<string>, c: Choice, y: nat)
    requires y in sh.managed && y in ms
    ensures Nearer(StopGate(ms, i, drop), StopStep(sh, StopGate(ms, i, drop), c), y)
  {
    assert |ms| > 0;
  }

  lemma WaitNearer(sh: Shared, ms: seq<nat>, i: nat, drop: Option<string>, c: Choice, y: nat)
    requires y in sh.managed && y in ms && !c.flag && i < |ms|
    ensures Nearer(StopWait(ms, i, drop), StopStep(sh, StopWait(ms, i, drop), c), y)
  {
    var j :| 0 <= j < |ms| && ms[j] == y;
    assert StopStep(sh, StopWait(ms, i, drop), c) == Goto(sh, Reopen(ms, 0));
    hide StopStep;
  }

  lemma ReopenNearer(sh: Shared, ms: seq<nat>, i: nat, c: Choice, y: nat)
    requires Opening(sh, Reopen(ms, i), y)
    ensures Nearer(Reopen(ms, i), StopStep(sh, Reopen(ms, i), c), y)
  {
  }

  lemma NotifyNearer(sh: Shared, ms: seq<nat>, i: nat, c: Choice, y: nat)
    requires Opening(sh, ReopenNotify(ms, i), y)
    ensures Nearer(ReopenNotify(ms, i), StopStep(sh, ReopenNotify(ms, i), c), y)
  {
  }

  lemma OpenStep(sh: Shared, at: Pc, c: Choice, y: nat)
    requires Opening(sh, at, y) && !c.flag
    ensures Nearer(at, StopStep(sh, at, c), y)
  {
    hide StopStep, Nearer;
    match at
    case StopGate(ms, i, drop) => GateNearer(sh, ms, i, drop, c, y);
    case StopWait(ms, i, drop) => WaitNearer(sh, ms, i, drop, c, y);
    case Reopen(ms, i) => ReopenNearer(sh, ms, i, c, y);
    case ReopenNotify(ms, i) => NotifyNearer(sh, ms, i, c, y);
    case _ =>
  }

  lemma {:induction false} OpenUp(s0: State, s: State, k: Cast, v: nat, y: nat, limit: nat) returns (r: State)
    requires Sound(s0) && Reaches(s0, s, limit) && Scene(s, k) && v in s.threads && Opening(s.sh, s.threads[v].at, y)
    ensures Reaches(s0, r, limit) && Onward(s, r, k) && SameOthers(s, r, v)
    ensures y in r.sh.managed && r.sh.managed[y].accepting && r.sh.managed[y].token
    decreases OpenRank(s.threads[v].at)
  {
    hide Reaches, Sound, Onward, StopStep, MayOpen, OpenRank;
    var at, c := s.threads[v].at, ANY.(flag := false);
    OpenersQuiet(s0, s, v, y, limit);
    OpenStep(s.sh, at, c, y);
    NotTheStart(s, k, v);
    var next := HelperStep(s0, s, k, v, c, limit);
    var o := StopStep(s.sh, at, c);
    StopIs(s, v, c, limit);
    hide Scene, ThreadStep;
    assert next.sh == o.sh && next.threads[v] == o.next.value;
    if next.sh.managed[y].accepting && next.sh.managed[y].token {
      r := next;
    } else {
      SceneOf(s, next, k);
      r := OpenUp(s0, next, k, v, y, limit);
      OnwardJoins(s, next, r, k);
    }
  }

  lemma StopIs(s: State, v: nat, c: Choice, limit: nat)
    requires v in s.threads && s.threads[v].delivery.Quiet? && InStop(s.threads[v].at)
    ensures ThreadStep(s.sh, s.threads[v], v, s.nextThread, c, limit) == StopStep(s.sh, s.threads[v].at, c)
  {
  }

  lemma SceneOf(s: State, r: State, k: Cast)
    requires Onward(s, r, k)
    ensures Scene(r, k)
  {
  }

  lemma NotTheStart(s: State, k: Cast, v: nat)
    requires Scene(s, k) && v in s.threads && !s.threads[v].at.Activate?
    ensures v != k.t
  {
  }

  lemma OpenersQuiet(s0: State, s: State, v: nat, y: nat, limit: nat)
    requires Sound(s0) && Reaches(s0, s, limit) && v in s.threads && Opening(s.sh, s.threads[v].at, y)
    ensures s.threads[v].delivery.Quiet? && Helper(s.threads[v].at) && !s.threads[v].at.Activate?
      && InStop(s.threads[v].at)
  {
    hide Reaches;
    ReachableSound(s0, s, limit);
    SoundPlaced(s);
  }

  // ---------------------------------------------------------------- an enqueue comes to its notify

  /** The tables may change and a start may wait before it builds its object. */
  lemma TablesOnward(s: State, r: State, k: Cast)
    requires Scene(s, k) && r.phase == s.phase && r.sh == s.sh.(db := r.sh.db, log := r.sh.log)
    requires forall x :: x in s.threads ==> x in r.threads && r.threads[x] == s.threads[x]
    requires forall x :: x in r.threads && x !in s.threads ==> r.threads[x].at.SpawnWorker?
    ensures Onward(s, r, k)
  {
    assert k.n in s.sh.managed.Keys;
    TablesOpen(s, r, k.n);
    TablesOpen(s, r, k.m);
    hide Open;
  }

  lemma TablesOpen(s: State, r: State, x: nat)
    requires r.sh.managed == s.sh.managed
    requires forall v :: v in r.threads ==>
      (v in s.threads && r.threads[v] == s.threads[v]) || r.threads[v].at.SpawnWorker?
    ensures Open(s, x) ==> Open(r, x)
  {
    assert forall at: Pc :: at.SpawnWorker? ==> !MayOpen(at, x);
    hide MayOpen;
  }

  /** A workflow that is gone comes back with the first step of a start. */
  lemma Present(s0: State, s: State, k: Cast, wf: string, limit: nat) returns (r: State)
    requires Sound(s0) && Reaches(s0, s, limit) && Scene(s, k)
    ensures Reaches(s0, r, limit) && Onward(s, r, k) && r.sh.managed == s.sh.managed && wf in r.sh.db.workflows
    ensures forall x :: x in s.threads ==> x in r.threads && r.threads[x] == s.threads[x]
  {
    hide Reaches, Sound, NewSide, OldSide, Onward;
    ScenePhase(s, k);
    r := s;
    if wf !in s.sh.db.workflows {
      ReachableFresh(s0, s, limit);
      FirstUpsert(s0, s, wf, false, limit);
      r := At(s.(nextThread := s.nextThread + 1, sh := s.sh.(db := UpsertWorkflow(s.sh.db, wf, ROW.(active := false)))),
              s.nextThread, SpawnWorker(wf, false));
    }
    TablesOnward(s, r, k);
  }

  lemma ScenePhase(s: State, k: Cast)
    requires Scene(s, k)
    ensures s.phase.Up?
  {
  }

  lemma ReachableFresh(s0: State, s: State, limit: nat)
    requires Sound(s0) && Reaches(s0, s, limit)
    ensures s.nextThread !in s.threads
  {
    hide Reaches;
    ReachableSound(s0, s, limit);
    SoundObjects(s);
  }

  ghost function Dropped(s: State, wf: string): State {
    s.(nextThread := s.nextThread + 1,
       sh := s.sh.(db := DeleteWorkflow(s.sh.db, wf),
         log := s.sh.log.(dropped := s.sh.log.dropped + QueuedOf(s.sh.db, wf))))
  }

  lemma DropRun(s0: State, s: State, wf: string, limit: nat)
    requires s.phase.Up? && s.nextThread !in s.threads && Reaches(s0, s, limit)
    ensures Reaches(s0, Dropped(s, wf), limit)
  {
    hide Reaches, DeleteWorkflow, QueuedOf;
    var t := s.nextThread;
    Begin(s0, s, DropWorkflow(wf), limit);
    Leave(s0, s.(nextThread := t + 1), t, DropWorkflow(wf), Dropped(s, wf).sh, limit);
  }

  lemma DropEmpties(s: State, wf: string)
    ensures QueueOf(Dropped(s, wf).sh.db, wf) == {}
  {
  }

  /** A full queue goes with the delete of its workflow. */
  lemma Room(s0: State, s: State, k: Cast, wf: string, limit: nat) returns (r: State)
    requires Sound(s0) && Reaches(s0, s, limit) && Scene(s, k) && limit > 0
    ensures Reaches(s0, r, limit) && Onward(s, r, k) && r.sh.managed == s.sh.managed && |QueueOf(r.sh.db, wf)| < limit
    ensures forall x :: x in s.threads ==> x in r.threads && r.threads[x] == s.threads[x]
  {
    hide Reaches, Sound, MayOpen, DeleteWorkflow, QueueOf;
    r := s;
    if |QueueOf(s.sh.db, wf)| >= limit {
      ReachableFresh(s0, s, limit);
      DropRun(s0, s, wf, limit);
      DropEmpties(s, wf);
      r := Dropped(s, wf);
    }
    TablesOnward(s, r, k);
  }

  /** An object that is not closed for good can be opened: it is open, a stop of it may time out, or it is in
      the workflow map and a new stop of it may. */
  lemma OpenOther(s0: State, s: State, k: Cast, v: nat, x: nat, limit: nat) returns (r: State)
    requires Sound(s0) && Reaches(s0, s, limit) && Scene(s, k) && v in s.threads && s.threads[v].at.Gate?
      && s.threads[v].at.m == x
    requires Open(s, k.m) && !Closed(s, x)
    ensures Reaches(s0, r, limit) && Onward(s, r, k) && v in r.threads && r.threads[v] == s.threads[v]
    ensures x in r.sh.managed && r.sh.managed[x].accepting
  {
    hide Reaches, MayOpen, Opening, Onward;
    ReferredHere(s0, s, v, x, limit);
    if s.sh.managed[x].accepting {
      r := s;
      OnwardItself(s, k);
    } else if b :| b in s.threads && MayOpen(s.threads[b].at, x) {
      MayOpens(s.sh, s.threads[b].at, x);
      r := OpenUp(s0, s, k, b, x, limit);
    } else {
      var wf :| wf in s.sh.registered && s.sh.registered[wf] == x;
      assert x in s.sh.registered.Values;
      ReachableFresh(s0, s, limit);
      Begin(s0, s, StopGate([x], 0, None), limit);
      var b, mid := s.nextThread, Begun(s, StopGate([x], 0, None));
      StopBegun(s, k, x);
      MayOpens(mid.sh, mid.threads[b].at, x);
      SceneOf(s, mid, k);
      r := OpenUp(s0, mid, k, b, x, limit);
      OnwardJoins(s, mid, r, k);
    }
  }

  lemma MayOpens(sh: Shared, at: Pc, x: nat)
    requires x in sh.managed && (MayOpen(at, x) || (at.StopGate? && x in at.ms))
    ensures Opening(sh, at, x) && !at.Gate?
  {
  }

  lemma StopBegun(s: State, k: Cast, x: nat)
    requires Scene(s, k) && x in s.sh.managed && !s.sh.managed[x].accepting && s.nextThread !in s.threads && x != k.m
    ensures Onward(s, Begun(s, StopGate([x], 0, None)), k)
  {
    assert k.n in s.sh.managed.Keys && x != k.n;
  }

  lemma ReferredHere(s0: State, s: State, v: nat, x: nat, limit: nat)
    requires Sound(s0) && Reaches(s0, s, limit) && v in s.threads && Refers(s.threads[v].at, x)
    ensures x in s.sh.managed && !Unannounced(s, x)
  {
    hide Reaches, Refers, Unannounced;
    ReachableSound(s0, s, limit);
  }

  /** How far a goroutine is from its notify. */
  function NotifyRank(at: Pc): nat {
    match at
    case Lookup(_, _) => 8
    case Gate(_, _, _) => 7
    case Count(_, _, _) => 6
    case Insert(_, _, _) => 5
    case NotifyInsert(_, _, _) => 4
    case Register(_, _) => 3
    case Activate(_, _) => 3
    case _ => 1
  }

  /** What must hold for the goroutine's next step to bring it on. */
  ghost predicate Passes(s: State, at: Pc, k: Cast, limit: nat) {
    match at
    case Lookup(wf, _) => wf == k.wf && wf in s.sh.db.workflows
    case Gate(_, x, _) => x in s.sh.managed && s.sh.managed[x].accepting
    case Count(wf, _, _) => |QueueOf(s.sh.db, wf)| < limit
    case Insert(wf, _, _) => wf in s.sh.db.workflows
    case _ => true
  }

  /** The step sets the object's token or brings the goroutine nearer to it. */
  ghost predicate Advances(s: State, at: Pc, o: Outcome, m: nat) {
    || (m in o.sh.managed && o.sh.managed[m].token)
    || (o.next.Some? && o.next.value.delivery.Quiet? && Helper(o.next.value.at)
       && NotifyRank(o.next.value.at) < NotifyRank(at)
        && match o.next.value.at
           case Gate(_, x, manual) => manual == Some(m) && x in o.sh.managed && o.sh.managed[x].accepting
           case _ => MayNotify(s, o.next.value.at, m))
  }

  lemma EnqueueAdvances(s: State, at: Pc, t: nat, c: Choice, k: Cast, limit: nat)
    requires InEnqueue(at) && Scene(s, k) && MayNotify(s, at, k.m) && Passes(s, at, k, limit)
    ensures Advances(s, at, EnqueueStep(s.sh, at, t, c, limit), k.m)
  {
    SceneManaged(s, k);
    if at.Lookup? {
      LookupAdvances(s, at, t, c, k, limit);
    } else if at.Gate? || at.Count? || at.Insert? {
      ChecksAdvance(s, at, t, c, k, limit);
    } else {
      assert !MayOpen(at, k.m);
      hide QueueOf, Create, MayOpen, Closed, Scene, Passes;
    }
  }

  lemma ChecksAdvance(s: State, at: Pc, t: nat, c: Choice, k: Cast, limit: nat)
    requires (at.Gate? || at.Count? || at.Insert?) && MayNotify(s, at, k.m) && Passes(s, at, k, limit)
    ensures Advances(s, at, EnqueueStep(s.sh, at, t, c, limit), k.m)
  {
    hide QueueOf, Create, Closed;
  }

  lemma LookupAdvances(s: State, at: Pc, t: nat, c: Choice, k: Cast, limit: nat)
    requires at.Lookup? && Scene(s, k) && MayNotify(s, at, k.m) && Passes(s, at, k, limit)
    ensures Advances(s, at, EnqueueStep(s.sh, at, t, c, limit), k.m)
  {
    assert EnqueueStep(s.sh, at, t, c, limit) == Goto(s.sh, Gate(k.wf, k.n, Some(k.m)));
    hide EnqueueStep, Closed, QueueOf;
  }

  lemma OtherAdvances(s: State, at: Pc, t: nat, n: nat, c: Choice, m: nat)
    requires m in s.sh.managed && !MayOpen(at, m) && MayNotify(s, at, m) && !InEnqueue(at)
    ensures at.ReopenNotify? || at.Activate? || at.NotifyActive?
    ensures if at.ReopenNotify? then Advances(s, at, StopStep(s.sh, at, c), m)
      else Advances(s, at, StartStep(s.sh, at, t, n, c), m)
  {
    hide MayOpen, Closed;
  }

  /** Before its step an enqueue gets what it needs: its workflow, room in the queue, an open object. */
  lemma Prepare(s0: State, s: State, k: Cast, v: nat, limit: nat) returns (r: State)
    requires Sound(s0) && Reaches(s0, s, limit) && Scene(s, k) && Open(s, k.m) && limit > 0
    requires v in s.threads && MayNotify(s, s.threads[v].at, k.m)
    ensures Reaches(s0, r, limit) && Onward(s, r, k) && v in r.threads && r.threads[v] == s.threads[v]
    ensures Passes(r, r.threads[v].at, k, limit) && MayNotify(r, r.threads[v].at, k.m)
  {
    hide Reaches, Sound, Onward, Open, Scene, MayOpen, QueueOf, Closed;
    match s.threads[v].at
    case Lookup(wf, _) =>
      ManualHere(s0, s, k, v, limit);
      r := Present(s0, s, k, wf, limit);
    case Gate(_, x, _) =>
      NotClosed(s, k.m);
      r := OpenOther(s0, s, k, v, x, limit);
      NotClosed(r, x);
    case Count(wf, _, _) =>
      r := Room(s0, s, k, wf, limit);
    case Insert(wf, _, _) =>
      r := Present(s0, s, k, wf, limit);
    case _ =>
      r := s;
      OnwardItself(s, k);
  }

  lemma NotClosed(s: State, x: nat)
    requires Open(s, x) || (x in s.sh.managed && s.sh.managed[x].accepting)
    ensures !Closed(s, x)
  {
  }

  lemma ManualHere(s0: State, s: State, k: Cast, v: nat, limit: nat)
    requires Sound(s0) && Reaches(s0, s, limit) && Scene(s, k) && v in s.threads && s.threads[v].at.Lookup?
    requires MayNotify(s, s.threads[v].at, k.m)
    ensures s.threads[v].at.wf == k.wf
  {
    hide Reaches;
    ReachableSound(s0, s, limit);
    assert ManualFits(s.sh, s.threads[v].at);
    hide Open;
  }

  lemma ThreadAdvances(s: State, v: nat, c: Choice, k: Cast, limit: nat)
    requires Scene(s, k) && Open(s, k.m) && v in s.threads && s.threads[v].delivery.Quiet?
    requires MayNotify(s, s.threads[v].at, k.m) && Passes(s, s.threads[v].at, k, limit)
    ensures Helper(s.threads[v].at)
      && Advances(s, s.threads[v].at, ThreadStep(s.sh, s.threads[v], v, s.nextThread, c, limit), k.m)
  {
    var at := s.threads[v].at;
    assert !MayOpen(at, k.m) && k.m in s.sh.managed;
    if InEnqueue(at) {
      EnqueueAdvances(s, at, v, c, k, limit);
    } else {
      OtherAdvances(s, at, v, s.nextThread, c, k.m);
    }
    hide Advances, EnqueueStep, StopStep, StartStep, MayNotify, Scene, Open, Passes;
  }

  lemma StillNotifies(s: State, r: State, at: Pc, v: nat, o: Outcome, m: nat)
    requires Advances(s, at, o, m) && v in s.threads && o.spawn.None? && r == Apply(s, v, o)
      && !(m in r.sh.managed && r.sh.managed[m].token)
    ensures v in r.threads && MayNotify(r, r.threads[v].at, m) && NotifyRank(r.threads[v].at) < NotifyRank(at)
  {
    if o.next.value.at.Gate? {
      NotClosed(r, o.next.value.at.m);
    }
    hide MayOpen, Closed, NotifyRank;
  }

  /** Whoever may notify an open object comes to do so. */
  lemma {:induction false} NotifyUp(s0: State, s: State, k: Cast, v: nat, limit: nat) returns (r: State)
    requires Sound(s0) && Reaches(s0, s, limit) && Scene(s, k) && Open(s, k.m) && limit > 0
    requires v in s.threads && v != k.t && MayNotify(s, s.threads[v].at, k.m)
    ensures Reaches(s0, r, limit) && Onward(s, r, k) && r.sh.managed[k.m].token
    decreases NotifyRank(s.threads[v].at)
  {
    hide Reaches, Sound, MayNotify, Advances, Passes, NotifyRank, Kept, MayOpen;
    var at := s.threads[v].at;
    var mid := Prepare(s0, s, k, v, limit);
    SceneOf(s, mid, k);
    NotifiersQuiet(s0, mid, v, k.m, limit);
    hide Scene;
    ThreadAdvances(mid, v, ANY, k, limit);
    var next := HelperStep(s0, mid, k, v, ANY, limit);
    OnwardJoins(s, mid, next, k);
    hide ThreadStep;
    SceneManaged(next, k);
    r := next;
    if !next.sh.managed[k.m].token {
      StillNotifies(mid, next, at, v, ThreadStep(mid.sh, mid.threads[v], v, mid.nextThread, ANY, limit), k.m);
      SceneOf(mid, next, k);
      r := NotifyUp(s0, next, k, v, limit);
      OnwardJoins(s, next, r, k);
    }
  }

  lemma SceneManaged(s: State, k: Cast)
    requires Scene(s, k)
    ensures k.m in s.sh.managed
  {
  }

  lemma NotifiersQuiet(s0: State, s: State, v: nat, m: nat, limit: nat)
    requires Sound(s0) && Reaches(s0, s, limit) && v in s.threads && MayNotify(s, s.threads[v].at, m)
    ensures s.threads[v].delivery.Quiet?
  {
    NoPublisher(s, s.threads[v].at, m);
    hide Reaches, MayNotify, Sound;
    ReachableSound(s0, s, limit);
    SoundPlaced(s);
  }

  lemma NoPublisher(s: State, at: Pc, m: nat)
    requires MayNotify(s, at, m)
    ensures !at.ClearRunning? && !at.Inform?
  {
    hide Closed;
  }

  // ---------------------------------------------------------------- the old worker

  /** The object of a worker that is not retired gets open, and its worker's sleep ends. */
  lemma WakeUp(s0: State, s: State, k: Cast, limit: nat) returns (r: State)
    requires Sound(s0) && Reaches(s0, s, limit) && Scene(s, k) && limit > 0
    requires BetweenRuns(s.threads[k.u].at, k.m) && !Unannounced(s, k.m) && !Retired(s, k.u, k.m)
    ensures Reaches(s0, r, limit) && Onward(s, r, k) && r.sh.managed[k.m].accepting
    ensures s.threads[k.u].at.Parked? ==> r.sh.managed[k.m].token
  {
    hide Reaches, Sound, Onward, MayOpen, Opening, MayNotify, Unannounced;
    NotListed(s0, s, k, limit);
    if b :| b in s.threads && MayOpen(s.threads[b].at, k.m) {
      MayOpens(s.sh, s.threads[b].at, k.m);
      r := OpenUp(s0, s, k, b, k.m, limit);
    } else if s.threads[k.u].at.Parked? && !s.sh.managed[k.m].token {
      var v :| v in s.threads && MayNotify(s, s.threads[v].at, k.m);
      NotItself(s, k);
      r := NotifyUp(s0, s, k, v, limit);
      OpenOnward(s, r, k);
    } else {
      r := s;
      OnwardItself(s, k);
    }
  }

  lemma NotItself(s: State, k: Cast)
    requires Scene(s, k)
    ensures !MayNotify(s, s.threads[k.t].at, k.m)
  {
    hide Open;
  }

  lemma OpenOnward(s: State, r: State, k: Cast)
    requires Onward(s, r, k) && Open(s, k.m)
    ensures r.sh.managed[k.m].accepting
  {
    hide Kept, MayOpen;
  }

  lemma NotListed(s0: State, s: State, k: Cast, limit: nat)
    requires Sound(s0) && Reaches(s0, s, limit) && Scene(s, k)
    ensures !Listed(s.sh, k.m)
  {
    hide Reaches, Unannounced, Open;
    ReachableSound(s0, s, limit);
  }

  /** The scene goes on, and the old worker may have moved. */
  ghost predicate Forward(s: State, r: State, k: Cast) {
    Scene(r, k) && Kept(s, r)
  }

  /** How far the old worker is from its next claim, once its object accepts and it has a reason to wake. */
  function Distance(th: Thread): nat {
    (match th.at
     case ClearRunning(_) => 4
     case Parked(_) => 2
     case LoopCheck(_) => 1
     case _ => 0)
    + match th.delivery
      case Take(_, _) => 3
      case Send(_, _) => 2
      case Close(_) => 1
      case Quiet => 0
  }

  /** A publisher can always go on. */
  lemma DeliveryGoesOn(s: State, u: nat)
    requires WaiterInv(s) && u in s.threads && !s.threads[u].delivery.Quiet?
    ensures var o := DeliveryStep(s.sh, s.threads[u], u);
      && o.next.Some? && o.next.value.at == s.threads[u].at && o.spawn.None?
         && Distance(o.next.value) < Distance(s.threads[u])
      && o.sh.managed == s.sh.managed && o.sh.registered == s.sh.registered && o.sh.nextManaged == s.sh.nextManaged
  {
    assert DeliverySound(s.sh, u, s.threads[u].delivery);
    assert s.threads[u].delivery.Send? ==> SendReady(s.sh, s.threads[u].delivery.e);
    assert s.threads[u].delivery.Close? ==> CloseReady(s.sh, s.threads[u].delivery.e);
    hide ThreadsSound, ChannelsSound, WaitersSound, KeysOld, CallSound, DeliverySound, Persisted, SendReady, CloseReady;
  }

  /** What the old worker's step leaves to the scene. */
  ghost predicate OldMoves(s: State, o: Outcome, k: Cast) {
    && o.next.Some? && WorkerAt(o.next.value.at) == Some(k.m) && o.spawn.None?
    && o.sh.registered == s.sh.registered && o.sh.nextManaged == s.sh.nextManaged
       && o.sh.managed.Keys == s.sh.managed.Keys
    && k.m in s.sh.managed && k.n in s.sh.managed && o.sh.managed[k.n] == s.sh.managed[k.n]
    && o.sh.managed[k.m].workflow == s.sh.managed[k.m].workflow
       && o.sh.managed[k.m].accepting == s.sh.managed[k.m].accepting
  }

  lemma WakesOrPasses(s: State, k: Cast)
    requires Scene(s, k) && s.threads[k.u].delivery.Quiet? && BetweenRuns(s.threads[k.u].at, k.m)
      && s.sh.managed[k.m].accepting
    requires s.threads[k.u].at.Parked? ==> s.sh.managed[k.m].token
    ensures var o := WorkerStep(s.sh, s.threads[k.u].at, k.u, ANY);
      && OldMoves(s, o, k) && o.next.value.delivery.Quiet? && Distance(o.next.value) < Distance(s.threads[k.u])
      && (o.next.value.at == LoopCheck(k.m) || o.next.value.at == ClaimNext(k.m))
  {
    assert k.n in s.sh.managed;
    hide Open, Claim, Complete, IsNext, HasQueued;
  }

  lemma OldForward(s: State, k: Cast, o: Outcome)
    requires Scene(s, k) && OldMoves(s, o, k)
    ensures Forward(s, Apply(s, k.u, o), k)
  {
    assert k.n in s.sh.managed.Keys;
  }

  /** The old worker's next step brings it nearer to its claim. */
  ghost predicate Comes(s: State, o: Outcome, k: Cast) {
    && k.u in s.threads && OldMoves(s, o, k) && Distance(o.next.value) < Distance(s.threads[k.u])
       && Ready(o.next.value, k.m)
    && !o.next.value.at.Parked?
  }

  /** On the way to the claim, or there. */
  predicate Ready(th: Thread, m: nat) {
    && (th.at.Parked? ==> th.delivery.Quiet?)
    && (BetweenRuns(th.at, m) || (th.at == ClaimNext(m) && th.delivery.Quiet?))
  }

  lemma OldComes(s: State, k: Cast, limit: nat)
    requires WaiterInv(s) && Scene(s, k) && BetweenRuns(s.threads[k.u].at, k.m) && s.sh.managed[k.m].accepting
    requires s.threads[k.u].at.Parked? ==> s.sh.managed[k.m].token && s.threads[k.u].delivery.Quiet?
    requires PublishersPlaced(s)
    ensures Comes(s, ThreadStep(s.sh, s.threads[k.u], k.u, s.nextThread, ANY, limit), k)
  {
    assert k.n in s.sh.managed;
    if !s.threads[k.u].delivery.Quiet? {
      hide WorkerStep, WaiterInv, PublishersPlaced, Open;
      DeliveryGoesOn(s, k.u);
      hide DeliveryStep;
    } else {
      WakesOrPasses(s, k);
      hide Scene, WaiterInv, PublishersPlaced, WorkerStep, OldMoves;
    }
  }

  lemma OldIs(s: State, k: Cast, o: Outcome)
    requires OldMoves(s, o, k)
    ensures var r := Apply(s, k.u, o);
      k.u in r.threads && r.threads[k.u] == o.next.value && k.m in r.sh.managed
        && r.sh.managed[k.m].accepting == s.sh.managed[k.m].accepting
  {
  }

  lemma OldStep(s0: State, s: State, k: Cast, limit: nat) returns (r: State)
    requires Sound(s0) && Reaches(s0, s, limit) && Scene(s, k) && BetweenRuns(s.threads[k.u].at, k.m)
      && s.sh.managed[k.m].accepting
    requires s.threads[k.u].at.Parked? ==> s.sh.managed[k.m].token && s.threads[k.u].delivery.Quiet?
    ensures Reaches(s0, r, limit) && Forward(s, r, k) && r.sh.managed[k.m].accepting
    ensures Distance(r.threads[k.u]) < Distance(s.threads[k.u]) && Ready(r.threads[k.u], k.m)
      && !r.threads[k.u].at.Parked?
  {
    var o := ThreadStep(s.sh, s.threads[k.u], k.u, s.nextThread, ANY, limit);
    hide Reaches, ThreadStep, Sound, WaiterInv, PublishersPlaced, Forward, Distance, Ready, Open, Apply, OldMoves;
    r := StepTo(s0, s, k.u, ANY, limit);
    ReachableSound(s0, s, limit);
    SoundPlaced(s);
    SoundWaits(s);
    OldComes(s, k, limit);
    hide Scene;
    OldForward(s, k, o);
    OldIs(s, k, o);
  }

  lemma SoundWaits(s: State)
    requires Sound(s)
    ensures WaiterInv(s)
  {
  }

  lemma {:induction false} OldToClaim(s0: State, s: State, k: Cast, limit: nat) returns (r: State)
    requires Sound(s0) && Reaches(s0, s, limit) && Scene(s, k) && Ready(s.threads[k.u], k.m)
      && s.sh.managed[k.m].accepting
    requires s.threads[k.u].at.Parked? ==> s.sh.managed[k.m].token
    ensures Reaches(s0, r, limit) && Forward(s, r, k) && r.threads[k.u] == Thread(ClaimNext(k.m), Quiet)
    decreases Distance(s.threads[k.u])
  {
    if s.threads[k.u].at == ClaimNext(k.m) {
      OnwardItself(s, k);
      r := s;
    } else {
      hide Reaches, Sound, Open;
      var next := OldStep(s0, s, k, limit);
      hide Scene, Distance;
      ForwardScene(s, next, k);
      r := OldToClaim(s0, next, k, limit);
      ForwardJoins(s, next, r, k);
    }
  }

  lemma ForwardScene(s: State, r: State, k: Cast)
    requires Forward(s, r, k)
    ensures Scene(r, k)
  {
  }

  lemma ForwardJoins(a: State, b: State, c: State, k: Cast)
    requires Forward(a, b, k) && Forward(b, c, k)
    ensures Forward(a, c, k)
  {
    KeptJoins(a, b, c);
  }
}
