/** Runs in which no start builds a workflow object or puts one into the workflow map, and how to tell them by
    their first and last state. */
module OneStart {
  import opened Base
  import opened Reports
  import opened Tables
  import opened Retention
  import opened Protocol
  import opened ClaimSafety
  import opened Waiters
  import opened Wakeups
  import opened OwnInserts
  import opened Knowledge
  import opened Retirement
  import opened SoleWorkers

  /** The next step of the goroutine builds a workflow object. */
  predicate Builds(s: State, t: nat) {
    t in s.threads && s.threads[t].delivery.Quiet? && s.threads[t].at.SpawnWorker?
  }

  /** No crash, no object built, none announced. */
  ghost predicate StartsNothing(s: State, a: Action) {
    !a.Crash? && (a.Step? ==> !Builds(s, a.t) && !Announces(s, a.t))
  }

  ghost predicate NoOtherStart(s: State, actions: seq<Action>, limit: nat)
    requires Run(s, actions, limit)
    decreases |actions|
  {
    actions != [] ==> StartsNothing(s, actions[0]) && NoOtherStart(Next(s, actions[0], limit), actions[1..], limit)
  }

  /** A goroutine about to announce an object in `r` was so in `s`. */
  ghost predicate NoNewAnnouncer(s: State, r: State) {
    forall v :: v in r.threads && r.threads[v].at.Announce? ==> v in s.threads && s.threads[v].at == r.threads[v].at
  }

  /** Between two states with as many objects built no new object and no new announcer appeared. */
  ghost predicate Grown(s: State, r: State) {
    && s.sh.nextManaged <= r.sh.nextManaged
    && (s.sh.nextManaged == r.sh.nextManaged ==> r.sh.managed.Keys <= s.sh.managed.Keys && NoNewAnnouncer(s, r))
  }

  lemma StepGrows(s: State, t: nat, c: Choice, limit: nat)
    requires PublishersPlaced(s) && s.nextThread !in s.threads && Enabled(s, Step(t, c))
    ensures Grown(s, Next(s, Step(t, c), limit))
  {
    StepIs(s, t, c, limit);
    var th := s.threads[t];
    if th.delivery.Quiet? && (th.at.SpawnWorker? || th.at.Announce?) {
      hide Next;
    } else {
      ThreadModest(s, t, c, limit);
      hide Next, ThreadStep;
    }
  }

  lemma NextGrows(s: State, a: Action, limit: nat)
    requires Sound(s) && Enabled(s, a)
    ensures Grown(s, Next(s, a, limit))
  {
    FreshThread(s);
    hide ClaimInv, WakeInv, WaiterInv, AllHoldOwn;
    if a.Step? {
      StepGrows(s, a.t, a.c, limit);
    } else if a.Request? {
      RequestIs(s, a.pc, limit);
      hide Next;
    } else if !a.Crash? {
      OutsideTables(s, a, limit);
      hide Next;
    }
  }

  lemma {:induction false} RunGrows(s: State, actions: seq<Action>, limit: nat)
    requires Sound(s) && Run(s, actions, limit)
    ensures Grown(s, After(s, actions, limit))
    decreases |actions|
  {
    hide Sound, Next, Enabled;
    if actions != [] {
      NextGrows(s, actions[0], limit);
      NextSound(s, actions[0], limit);
      RunGrows(Next(s, actions[0], limit), actions[1..], limit);
    }
  }

  /** No object was built or lost, and every goroutine that was about to announce one still is. */
  ghost predicate Kept(s: State, r: State) {
    && r.sh.nextManaged == s.sh.nextManaged && r.sh.managed.Keys == s.sh.managed.Keys && s.sh.managed.Keys != {}
    && forall v :: v in s.threads && s.threads[v].at.Announce? ==> v in r.threads && r.threads[v].at == s.threads[v].at
  }

  lemma KeptJoins(a: State, b: State, c: State)
    requires Kept(a, b) && Kept(b, c)
    ensures Kept(a, c)
  {
  }

  lemma BuildCounts(s: State, t: nat, c: Choice, limit: nat)
    requires Enabled(s, Step(t, c)) && Builds(s, t)
    ensures s.sh.nextManaged < Next(s, Step(t, c), limit).sh.nextManaged
  {
    StepIs(s, t, c, limit);
    hide Next;
  }

  lemma AnnouncerLeaves(s: State, t: nat, c: Choice, limit: nat)
    requires Enabled(s, Step(t, c)) && Announces(s, t)
    ensures t in Next(s, Step(t, c), limit).threads && !Next(s, Step(t, c), limit).threads[t].at.Announce?
  {
    StepIs(s, t, c, limit);
    hide Next;
  }

  lemma CrashLoses(s: State, limit: nat)
    ensures Next(s, Crash, limit).sh.managed == map[]
  {
  }

  lemma KeptGoesOn(s: State, mid: State, r: State)
    requires Grown(s, mid) && Grown(mid, r) && Kept(s, r)
    ensures mid.sh.nextManaged == s.sh.nextManaged && mid.sh.managed != map[] && NoNewAnnouncer(mid, r) && Kept(mid, r)
  {
    assert r.sh.managed.Keys <= mid.sh.managed.Keys <= s.sh.managed.Keys;
    var m :| m in s.sh.managed.Keys;
    assert m in mid.sh.managed;
  }

  /** An announcer that is kept has not moved. */
  lemma KeptStays(s: State, mid: State, r: State, t: nat)
    requires Kept(s, r) && NoNewAnnouncer(mid, r) && Announces(s, t)
    ensures t in mid.threads && mid.threads[t].at.Announce?
  {
  }

  /** The first action of a run to a kept state. */
  lemma FirstStarts(s: State, a: Action, r: State, limit: nat)
    requires Sound(s) && Enabled(s, a) && Grown(Next(s, a, limit), r) && Kept(s, r)
    ensures StartsNothing(s, a) && Kept(Next(s, a, limit), r)
  {
    NextGrows(s, a, limit);
    var mid := Next(s, a, limit);
    hide Sound, Next, Enabled, Kept, Grown, NoNewAnnouncer;
    KeptGoesOn(s, mid, r);
    if a.Step? && Builds(s, a.t) {
      BuildCounts(s, a.t, a.c, limit);
    } else if a.Step? && Announces(s, a.t) {
      AnnouncerLeaves(s, a.t, a.c, limit);
      KeptStays(s, mid, r, a.t);
    } else if a.Crash? {
      CrashLoses(s, limit);
    }
  }

  /** A run that keeps the built objects and the announcers contains no start. */
  lemma {:induction false} KeptHasNoStart(s: State, actions: seq<Action>, limit: nat)
    requires Sound(s) && Run(s, actions, limit) && Kept(s, After(s, actions, limit))
    ensures NoOtherStart(s, actions, limit)
    decreases |actions|
  {
    hide Sound, Next, Enabled, Kept, Grown, StartsNothing;
    if actions != [] {
      var mid := Next(s, actions[0], limit);
      NextSound(s, actions[0], limit);
      RunGrows(mid, actions[1..], limit);
      FirstStarts(s, actions[0], After(s, actions, limit), limit);
      KeptHasNoStart(mid, actions[1..], limit);
    }
  }

  /** Where nothing is announced every run is clean. */
  lemma {:induction false} NoStartIsClean(s: State, actions: seq<Action>, limit: nat)
    requires Run(s, actions, limit) && NoOtherStart(s, actions, limit)
    ensures CleanRun(s, actions, limit)
    decreases |actions|
  {
    hide Next, Enabled, OthersRetired;
    if actions != [] {
      NoStartIsClean(Next(s, actions[0], limit), actions[1..], limit);
    }
  }
}
