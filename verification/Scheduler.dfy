/** The scheduler trigger: a timer loop over an abstract plan, and the spacing of its fires over whole runs.
    Times are integers of the smallest clock unit. */
module Scheduler {
  import opened Base

  type Time = int

  /** The next planned time strictly after a given one. */
  ghost predicate Plan(next: Time -> Time) {
    forall t :: t < next(t)
  }

  /** One attempt to enqueue: the time it was planned for, and the time it happened. */
  datatype Fire = Fire(scheduled: Time, at: Time)

  /** A turn of the loop: the timer goes off, `late` after it was due, and the turn takes `busy` before the timer
      is set again; or the trigger is stopped first. */
  datatype Turn = Tick(late: nat, busy: nat) | Halt

  /** What the loop guarantees of its fires, from the first planned time on. */
  ghost predicate Timeline(next: Time -> Time, first: Time, fires: seq<Fire>) {
    && (fires != [] ==> fires[0].scheduled == first)
    && (forall i :: 0 <= i < |fires| ==> fires[i].scheduled <= fires[i].at)
    && (forall i {:trigger fires[i].scheduled} :: 0 < i < |fires| ==> fires[i].scheduled == next(fires[i - 1].at))
  }

  /** How many turns pass before the trigger is stopped. */
  function Ticks(turns: seq<Turn>): nat {
    if turns == [] || turns[0].Halt? then 0 else 1 + Ticks(turns[1..])
  }

  lemma {:induction false} TicksAre(turns: seq<Turn>, i: nat)
    requires i <= |turns| && forall j :: 0 <= j < i ==> turns[j].Tick?
    ensures i <= Ticks(turns) && (i == |turns| || turns[i].Halt? ==> Ticks(turns) == i)
    decreases i
  {
    if i > 0 {
      TicksAre(turns[1..], i - 1);
    }
  }

  /** The time planned after the given fires. */
  function Planned(next: Time -> Time, first: Time, fires: seq<Fire>): Time {
    if fires == [] then first else next(fires[|fires| - 1].at)
  }

  lemma NoFires(next: Time -> Time, first: Time)
    ensures Timeline(next, first, []) && Planned(next, first, []) == first
  {
  }

  lemma OneMoreFire(next: Time -> Time, first: Time, fires: seq<Fire>, at: Time)
    requires Timeline(next, first, fires) && Planned(next, first, fires) <= at
    ensures var more := fires + [Fire(Planned(next, first, fires), at)];
      Timeline(next, first, more) && Planned(next, first, more) == next(at)
  {
  }

  function Later(a: Time, b: Time): (r: Time)
    ensures r >= a && r >= b && (r == a || r == b)
  {
    if a < b then b else a
  }

  /** Fire `missed + i` is that of turn `i`: it comes as late as the timer was after its planned time, or after
      the time at which the timer was set if that was later. */
  ghost predicate OnTime(fires: seq<Fire>, missed: nat, turns: seq<Turn>, start: Time) {
    && missed <= |fires| <= missed + |turns|
    && (forall i :: 0 <= i < |fires| - missed ==> turns[i].Tick?)
    && forall i :: 0 <= i < |fires| - missed ==>
         fires[missed + i].at == turns[i].late
              + Later(fires[missed + i].scheduled,
                      if i == 0 then start else fires[missed + i - 1].at + turns[i - 1].busy)
  }

  lemma OnTimeNext(fires: seq<Fire>, missed: nat, turns: seq<Turn>, start: Time, i: nat, now: Time, f: Fire)
    requires OnTime(fires, missed, turns, start) && |fires| == missed + i && i < |turns| && turns[i].Tick?
    requires now == if i == 0 || turns[i - 1].Halt? then start else fires[|fires| - 1].at + turns[i - 1].busy
    requires f.at == turns[i].late + Later(f.scheduled, now)
    ensures OnTime(fires + [f], missed, turns, start)
  {
  }

  /** The trigger's start, the attempt at a missed slot and the loop, until the trigger is stopped.  The first
      planned time is the stored one, or the plan's next after the start.  A restart that finds the stored time in
      the past attempts that slot at once.  The timer is set for the time left, and never goes off early; the clock
      does not go back. */
  method RunScheduler(next: Time -> Time, stored: Option<Time>, restoring: bool, start: Time, turns: seq<Turn>)
    returns (fires: seq<Fire>, planned: Time)
    requires Plan(next)
    ensures var first := if stored.Some? then stored.value else next(start);
      var missed := restoring && stored.Some? && stored.value < start;
      && Timeline(next, first, fires)
      && |fires| == Ticks(turns) + (if missed then 1 else 0)
      && (missed ==> fires[0] == Fire(stored.value, start))
      && OnTime(fires, if missed then 1 else 0, turns, start)
      && planned == if fires == [] then first else next(fires[|fires| - 1].at)
    ensures forall f :: f in fires ==> start <= f.at
  {
    hide Timeline, Ticks;
    var nextRun := if stored.Some? then stored.value else next(start);
    ghost var first := nextRun;
    NoFires(next, first);
    fires := [];
    if restoring && nextRun < start {
      OneMoreFire(next, first, fires, start);
      assert fires + [Fire(nextRun, start)] == [Fire(nextRun, start)];
      fires := [Fire(nextRun, start)];
      nextRun := next(start);
    }
    var more, last := FireLoop(next, first, fires, nextRun, start, turns);
    fires, planned := more, last;
  }

  /** The loop, from the time `now` on. */
  method FireLoop(next: Time -> Time, ghost first: Time, earlier: seq<Fire>, nextRun: Time, start: Time,
      turns: seq<Turn>)
    returns (fires: seq<Fire>, planned: Time)
    requires Timeline(next, first, earlier) && nextRun == Planned(next, first, earlier) && forall f ::
      f in earlier ==> start == f.at
    ensures Timeline(next, first, fires) && planned == Planned(next, first, fires)
    ensures earlier <= fires && |fires| == |earlier| + Ticks(turns) && forall f :: f in fires ==> start <= f.at
    ensures OnTime(fires, |earlier|, turns, start)
  {
    hide Timeline, Ticks, Planned, OnTime;
    fires, planned := earlier, nextRun;
    var now := start;
    var i := 0;
    TicksAre(turns, 0);
    NothingLate(earlier, turns, start);
    while i < |turns| && turns[i].Tick?
      invariant i <= |turns| && earlier <= fires && |fires| == |earlier| + i && forall j ::
        0 <= j < i ==> turns[j].Tick?
      invariant Timeline(next, first, fires) && planned == Planned(next, first, fires)
      invariant start <= now && forall f :: f in fires ==> start <= f.at
      invariant now == if i == 0 || turns[i - 1].Halt? then start else fires[|fires| - 1].at + turns[i - 1].busy
      invariant OnTime(fires, |earlier|, turns, start)
    {
      var delay := if planned - now < 0 then 0 else planned - now;
      var firedAt := now + delay + turns[i].late;
      OneMoreFire(next, first, fires, firedAt);
      OnTimeNext(fires, |earlier|, turns, start, i, now, Fire(planned, firedAt));
      fires := fires + [Fire(planned, firedAt)];
      planned := next(firedAt);
      now := firedAt + turns[i].busy;
      i := i + 1;
    }
    TicksAre(turns, i);
  }

  lemma NothingLate(fires: seq<Fire>, turns: seq<Turn>, start: Time)
    ensures OnTime(fires, |fires|, turns, start)
  {
  }

  /** Planned times and fires alternate and strictly increase: s0 <= f0 < s1 <= f1 < ... */
  lemma {:induction false} TimesIncrease(next: Time -> Time, first: Time, fires: seq<Fire>, i: nat, j: nat)
    requires Plan(next) && Timeline(next, first, fires) && i < j < |fires|
    ensures fires[i].at < fires[j].scheduled && fires[i].scheduled < fires[j].scheduled && fires[i].at < fires[j].at
    decreases j - i
  {
    assert fires[j].scheduled == next(fires[j - 1].at);
    if i < j - 1 {
      TimesIncrease(next, first, fires, i, j - 1);
    }
  }

  /** The plan of an interval trigger. */
  ghost predicate Every(next: Time -> Time, d: Time) {
    d > 0 && forall t :: next(t) == t + d
  }

  lemma MulStep(n: nat, d: Time)
    ensures (n + 1) * d == n * d + d
  {
  }

  lemma {:induction false} IntervalSpacing(next: Time -> Time, d: Time, first: Time, fires: seq<Fire>, i: nat, j: nat)
    requires Every(next, d) && Timeline(next, first, fires) && i <= j < |fires|
    ensures fires[i].at + (j - i) * d <= fires[j].at
    decreases j - i
  {
    hide Every, Timeline;
    if i < j {
      Spaced(next, d, first, fires, j);
      IntervalSpacing(next, d, first, fires, i, j - 1);
      Telescope(fires[i].at, fires[j - 1].at, fires[j].at, j - 1 - i, d);
    }
  }

  lemma Telescope(a: Time, b: Time, c: Time, n: nat, d: Time)
    requires a + n * d <= b && b + d <= c
    ensures a + (n + 1) * d <= c
  {
    MulStep(n, d);
  }

  lemma Spaced(next: Time -> Time, d: Time, first: Time, fires: seq<Fire>, j: nat)
    requires Every(next, d) && Timeline(next, first, fires) && 0 < j < |fires|
    ensures fires[j - 1].at + d <= fires[j].at
  {
    assert fires[j].scheduled == next(fires[j - 1].at);
  }

  lemma MulMonotone(a: nat, b: nat, d: Time)
    requires d > 0 && a <= b
    ensures a * d <= b * d
    decreases b - a
  {
    if a < b {
      MulMonotone(a, b - 1, d);
      MulStep(b - 1, d);
    }
  }

  lemma AtMost(n: nat, d: Time, length: Time)
    requires d > 0 && n * d <= length
    ensures n <= length / d
  {
    MulMonotone(0, n, d);
    var q: nat := length / d;
    MulStep(q, d);
    assert length < (q + 1) * d;
    MulStrict(q + 1, n, d);
  }

  lemma MulStrict(a: nat, b: nat, d: Time)
    requires d > 0 && b * d < a * d
    ensures b < a
  {
    var c := if a <= b then b else a;
    MulMonotone(a, c, d);
  }

  /** A window of length T holds at most floor(T / d) + 1 fires of an interval d. */
  lemma WindowBound(next: Time -> Time, d: Time, first: Time, fires: seq<Fire>, i: nat, j: nat,
      from: Time, length: Time)
    requires Every(next, d) && Timeline(next, first, fires) && i <= j < |fires|
    requires from <= fires[i].at && fires[j].at <= from + length
    ensures j - i + 1 <= length / d + 1
  {
    IntervalSpacing(next, d, first, fires, i, j);
    AtMost(j - i, d, length);
  }

  // ---------------------------------------------------------------- missed slots

  /** The plan takes the least slot after the given time. */
  ghost predicate LeastSlot(next: Time -> Time, slot: Time -> bool) {
    forall t :: t < next(t) && slot(next(t)) && forall x :: t < x < next(t) ==> !slot(x)
  }

  /** The slot `x` was fired on its own, by fire `i`, or went by between the planned time and the late fire `i`. */
  predicate Served(fires: seq<Fire>, x: Time, i: nat) {
    i < |fires| && fires[i].scheduled <= x <= fires[i].at
  }

  /** Every slot from the first planned time to the last fire is served by exactly one fire: slots missed
      while a fire was late are coalesced into it, and no slot is skipped in any other way. */
  lemma {:induction false} EverySlotServedOnce(next: Time -> Time, slot: Time -> bool, first: Time,
      fires: seq<Fire>, x: Time) returns (i: nat)
    requires LeastSlot(next, slot) && Timeline(next, first, fires) && fires != []
    requires slot(x) && first <= x <= fires[|fires| - 1].at
    ensures Served(fires, x, i) && forall j :: 0 <= j < |fires| && Served(fires, x, j) ==> j == i
  {
    i := SlotServer(next, slot, first, fires, x);
    forall j | 0 <= j < |fires| && Served(fires, x, j) ensures j == i {
      if i < j {
        TimesIncrease(next, first, fires, i, j);
      } else if j < i {
        TimesIncrease(next, first, fires, j, i);
      }
    }
  }

  lemma NotSkipped(next: Time -> Time, slot: Time -> bool, t: Time, x: Time)
    requires LeastSlot(next, slot) && slot(x)
    ensures t < x ==> next(t) <= x
  {
  }

  /** The fires but the last, which was planned after the last of them. */
  lemma EarlierFires(next: Time -> Time, first: Time, fires: seq<Fire>)
    requires Timeline(next, first, fires) && |fires| > 1
    ensures Timeline(next, first, fires[..|fires| - 1]) && fires[|fires| - 1].scheduled == next(fires[|fires| - 2].at)
  {
  }

  lemma {:induction false} SlotServer(next: Time -> Time, slot: Time -> bool, first: Time, fires: seq<Fire>, x: Time)
      returns (i: nat)
    requires LeastSlot(next, slot) && Timeline(next, first, fires) && fires != []
    requires slot(x) && first <= x <= fires[|fires| - 1].at
    ensures Served(fires, x, i)
    decreases |fires|
  {
    i := |fires| - 1;
    if x < fires[i].scheduled {
      assert |fires| > 1;
      hide LeastSlot, Timeline;
      EarlierFires(next, first, fires);
      NotSkipped(next, slot, fires[i - 1].at, x);
      i := SlotServer(next, slot, first, fires[..i], x);
    }
  }
}
