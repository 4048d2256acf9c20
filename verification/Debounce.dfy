/** The file watcher's debounce: a timer map and a kind map, against the splitting of each file's events
    into bursts. */
module Debounce {
  import opened Base

  type Time = int

  datatype Op = Create | Write | Remove | Rename | Chmod

  datatype Event = Event(file: string, ops: set<Op>)

  /** `accepts` is the name pattern, an empty pattern accepting every name; `event` is create, modify, delete or any. */
  datatype Config = Config(accepts: string -> bool, event: string, debounce: Time)

  /** Match: the kind of the event, if the trigger wants it. */
  function Match(cfg: Config, e: Event): Option<string> {
    if !cfg.accepts(e.file) then None
    else if Create in e.ops then Wanted(cfg, "create")
    else if Write in e.ops then Wanted(cfg, "modify")
    else if Remove in e.ops || Rename in e.ops then Wanted(cfg, "delete")
    else None
  }

  function Wanted(cfg: Config, kind: string): Option<string> {
    if cfg.event == "any" || cfg.event == kind then Some(kind) else None
  }

  /** The trigger wants the event as one of this kind: a creation, or else a write, or else a removal or renaming. */
  ghost predicate Matches(cfg: Config, e: Event, kind: string) {
    && cfg.accepts(e.file) && (cfg.event == "any" || cfg.event == kind)
    && match kind
       case "create" => Create in e.ops
       case "modify" => Create !in e.ops && Write in e.ops
       case "delete" => Create !in e.ops && Write !in e.ops && (Remove in e.ops || Rename in e.ops)
       case _ => false
  }

  lemma MatchIff(cfg: Config, e: Event, kind: string)
    ensures Match(cfg, e) == Some(kind) <==> Matches(cfg, e, kind)
  {
  }

  /** A matched event of one file. */
  datatype Touch = Touch(at: Time, kind: string)

  /** An enqueued execution. */
  datatype Firing = Firing(file: string, at: Time, kind: string)

  // ---------------------------------------------------------------- bursts

  /** Index `i` is the last of a maximal run of touches with gaps below `d`. */
  predicate EndsBurst(ts: seq<Touch>, d: Time, i: nat)
    requires i < |ts|
  {
    i + 1 == |ts| || d <= ts[i + 1].at - ts[i].at
  }

  /** One firing for every burst: at its last touch plus `d`, with the kind of that touch. */
  function Bursts(file: string, ts: seq<Touch>, d: Time): seq<Firing> {
    if ts == [] then []
    else (if EndsBurst(ts, d, 0) then [Firing(file, ts[0].at + d, ts[0].kind)] else []) + Bursts(file, ts[1..], d)
  }

  /** The firings are those of the burst ends, and of nothing else. */
  lemma {:induction false} BurstsAreEnds(file: string, ts: seq<Touch>, d: Time)
    ensures forall x :: x in Bursts(file, ts, d) <==>
      exists i :: 0 <= i < |ts| && EndsBurst(ts, d, i) && x == Firing(file, ts[i].at + d, ts[i].kind)
    decreases |ts|
  {
    if ts != [] {
      var rest := ts[1..];
      BurstsAreEnds(file, rest, d);
      forall x ensures x in Bursts(file, ts, d) <==>
        exists i :: 0 <= i < |ts| && EndsBurst(ts, d, i) && x == Firing(file, ts[i].at + d, ts[i].kind) {
        if i :| 0 <= i < |ts| && EndsBurst(ts, d, i) && x == Firing(file, ts[i].at + d, ts[i].kind) {
          if i > 0 {
            assert EndsBurst(rest, d, i - 1) && rest[i - 1] == ts[i];
          }
        }
        if x in Bursts(file, rest, d) {
          var i :| 0 <= i < |rest| && EndsBurst(rest, d, i) && x == Firing(file, rest[i].at + d, rest[i].kind);
          assert EndsBurst(ts, d, i + 1) && ts[i + 1] == rest[i];
        } else if x in Bursts(file, ts, d) {
          assert EndsBurst(ts, d, 0) && x == Firing(file, ts[0].at + d, ts[0].kind);
        }
      }
    }
  }

  lemma {:induction false} BurstsEnd(file: string, ts: seq<Touch>, d: Time)
    requires ts != []
    ensures Bursts(file, ts, d) != []
    ensures Bursts(file, ts, d)[|Bursts(file, ts, d)| - 1] == Firing(file, ts[|ts| - 1].at + d, ts[|ts| - 1].kind)
    decreases |ts|
  {
    if |ts| > 1 {
      BurstsEnd(file, ts[1..], d);
    } else {
      assert ts[1..] == [];
    }
  }

  /** The bursts before the touch `t`: an early touch takes the place of the last one. */
  function Settled(file: string, ts: seq<Touch>, d: Time, t: Touch): seq<Firing> {
    var fs := Bursts(file, ts, d);
    if ts == [] || d <= t.at - ts[|ts| - 1].at || fs == [] then fs else fs[..|fs| - 1]
  }

  function Head(file: string, ts: seq<Touch>, d: Time): seq<Firing>
    requires ts != []
  {
    if EndsBurst(ts, d, 0) then [Firing(file, ts[0].at + d, ts[0].kind)] else []
  }

  lemma {:induction false} BurstsSplit(file: string, ts: seq<Touch>, d: Time)
    requires ts != []
    ensures Bursts(file, ts, d) == Head(file, ts, d) + Bursts(file, ts[1..], d)
  {
  }

  lemma PutLast(head: seq<Firing>, rest: seq<Firing>, last: seq<Firing>)
    ensures head + (rest + last) == head + rest + last
    ensures rest != [] ==> (head + rest)[..|head + rest| - 1] == head + rest[..|rest| - 1]
  {
  }

  /** A new touch extends the last burst if it comes early enough, and otherwise starts one. */
  lemma {:induction false} BurstsExtend(file: string, ts: seq<Touch>, d: Time, t: Touch)
    ensures Bursts(file, ts + [t], d) == Settled(file, ts, d, t) + [Firing(file, t.at + d, t.kind)]
    decreases |ts|
  {
    var all, last := ts + [t], [Firing(file, t.at + d, t.kind)];
    BurstsSplit(file, all, d);
    if ts == [] {
      assert all[1..] == [];
    } else {
      BurstsSplit(file, ts, d);
      assert all[1..] == ts[1..] + [t];
      BurstsExtend(file, ts[1..], d, t);
      var head, rest := Head(file, ts, d), Bursts(file, ts[1..], d);
      if |ts| == 1 {
        assert ts[1..] == [] && rest == [];
        assert head + rest == head && (head + rest)[..0] == [];
      } else {
        BurstsEnd(file, ts[1..], d);
        hide Bursts;
        assert Head(file, all, d) == head;
        PutLast(head, if d <= t.at - ts[|ts| - 1].at then rest else rest[..|rest| - 1], last);
        PutLast(head, rest, last);
      }
    }
  }

  /** The firings of one file, in order. */
  function Of(fs: seq<Firing>, file: string): seq<Firing> {
    if fs == [] then [] else Of(fs[..|fs| - 1], file) + (if fs[|fs| - 1].file == file then [fs[|fs| - 1]] else [])
  }

  lemma {:induction false} OfAppend(fs: seq<Firing>, x: Firing, file: string)
    ensures Of(fs + [x], file) == Of(fs, file) + if x.file == file then [x] else []
  {
    assert (fs + [x])[..|fs|] == fs;
  }

  lemma {:induction false} OfMember(fs: seq<Firing>, file: string)
    ensures forall x :: x in Of(fs, file) <==> x in fs && x.file == file
    decreases |fs|
  {
    if fs != [] {
      OfMember(fs[..|fs| - 1], file);
      assert fs == fs[..|fs| - 1] + [fs[|fs| - 1]];
    }
  }

  // ---------------------------------------------------------------- the machine

  function Pending(timers: map<string, Time>, kinds: map<string, string>, file: string): seq<Firing> {
    if file in timers && file in kinds then [Firing(file, timers[file], kinds[file])] else []
  }

  function HistoryOf(history: map<string, seq<Touch>>, file: string): seq<Touch> {
    if file in history then history[file] else []
  }

  /** What the file fired, then what is pending for it, are the firings of its bursts. */
  ghost predicate RefinesAt(enqueued: seq<Firing>, timers: map<string, Time>, kinds: map<string, string>,
      history: map<string, seq<Touch>>, d: Time, file: string) {
    Of(enqueued, file) + Pending(timers, kinds, file) == Bursts(file, HistoryOf(history, file), d)
  }

  ghost predicate Refines(enqueued: seq<Firing>, timers: map<string, Time>, kinds: map<string, string>,
      history: map<string, seq<Touch>>, d: Time) {
    timers.Keys == kinds.Keys && forall f :: RefinesAt(enqueued, timers, kinds, history, d, f)
  }

  /** Firings are in order of time, none is late, and no pending one precedes them. */
  ghost predicate Ordered(enqueued: seq<Firing>, timers: map<string, Time>, now: Time) {
    && (forall i :: 0 <= i < |enqueued| ==> enqueued[i].at <= now)
    && (forall i, j :: 0 <= i < j < |enqueued| ==> enqueued[i].at <= enqueued[j].at)
    && (forall f :: f in timers && 0 < |enqueued| ==> enqueued[|enqueued| - 1].at <= timers[f])
  }

  lemma FireRefinesAt(enqueued: seq<Firing>, timers: map<string, Time>, kinds: map<string, string>,
      history: map<string, seq<Touch>>, d: Time, file: string, f: string)
    requires timers.Keys == kinds.Keys && RefinesAt(enqueued, timers, kinds, history, d, f) && file in timers
    ensures RefinesAt(enqueued + [Firing(file, timers[file], kinds[file])], timers - {file},
      kinds - {file}, history, d, f)
  {
    OfAppend(enqueued, Firing(file, timers[file], kinds[file]), f);
    hide Bursts, Of, HistoryOf;
  }

  lemma FireRefines(enqueued: seq<Firing>, timers: map<string, Time>, kinds: map<string, string>,
      history: map<string, seq<Touch>>, d: Time, file: string)
    requires Refines(enqueued, timers, kinds, history, d) && file in timers
    ensures Refines(enqueued + [Firing(file, timers[file], kinds[file])], timers - {file}, kinds - {file}, history, d)
  {
    hide RefinesAt;
    forall f ensures RefinesAt(enqueued + [Firing(file, timers[file], kinds[file])], timers - {file}, kinds - {file},
      history, d, f) {
      FireRefinesAt(enqueued, timers, kinds, history, d, file, f);
    }
  }

  lemma FireOrdered(enqueued: seq<Firing>, timers: map<string, Time>, now: Time, file: string, kind: string)
    requires Ordered(enqueued, timers, now) && file in timers && timers[file] <= now && forall f ::
      f in timers ==> timers[file] <= timers[f]
    ensures Ordered(enqueued + [Firing(file, timers[file], kind)], timers - {file}, now)
  {
  }

  /** The last firing of a file's bursts stands in front of the new one if the file has no timer. */
  lemma {:induction false} EndedBurst(enqueued: seq<Firing>, file: string, ts: seq<Touch>, d: Time, now: Time)
    requires ts != [] && Of(enqueued, file) == Bursts(file, ts, d) && forall i ::
      0 <= i < |enqueued| ==> enqueued[i].at <= now
    ensures ts[|ts| - 1].at + d <= now
  {
    BurstsEnd(file, ts, d);
    OfMember(enqueued, file);
    hide Bursts, Of;
    var fs := Bursts(file, ts, d);
    assert fs[|fs| - 1] in fs;
  }

  /** A running timer is that of the last burst. */
  lemma {:induction false} RunningBurst(front: seq<Firing>, x: Firing, file: string, ts: seq<Touch>, d: Time)
    requires ts != [] && front + [x] == Bursts(file, ts, d)
    ensures x == Firing(file, ts[|ts| - 1].at + d, ts[|ts| - 1].kind)
    ensures Bursts(file, ts, d)[..|Bursts(file, ts, d)| - 1] == front
  {
    BurstsEnd(file, ts, d);
    hide Bursts;
    var fs := Bursts(file, ts, d);
    assert fs[|fs| - 1] == x && fs[..|fs| - 1] == front;
  }

  lemma {:induction false} NoBursts(front: seq<Firing>, pending: seq<Firing>, file: string, d: Time)
    requires front + pending == Bursts(file, [], d)
    ensures front == [] && pending == []
  {
    assert |front + pending| == 0;
  }

  lemma PendingCases(timers: map<string, Time>, kinds: map<string, string>, file: string, front: seq<Firing>)
    requires timers.Keys == kinds.Keys
    ensures if file in timers then Pending(timers, kinds, file) == [Firing(file, timers[file], kinds[file])]
            else Pending(timers, kinds, file) == [] && front + Pending(timers, kinds, file) == front
  {
  }

  /** The touched file: its pending firing, if any, gives way to the new one. */
  lemma {:induction false} TouchRefines(enqueued: seq<Firing>, timers: map<string, Time>, kinds: map<string, string>,
      file: string, ts: seq<Touch>, d: Time,
      now: Time, kind: string)
    requires timers.Keys == kinds.Keys && (file in timers ==> now < timers[file])
    requires forall i :: 0 <= i < |enqueued| ==> enqueued[i].at <= now
    requires Of(enqueued, file) + Pending(timers, kinds, file) == Bursts(file, ts, d)
    ensures Of(enqueued, file) + [Firing(file, now + d, kind)] == Bursts(file, ts + [Touch(now, kind)], d)
  {
    BurstsExtend(file, ts, d, Touch(now, kind));
    PendingCases(timers, kinds, file, Of(enqueued, file));
    if ts == [] {
      NoBursts(Of(enqueued, file), Pending(timers, kinds, file), file, d);
      hide Bursts, Of, Pending;
    } else {
      BurstsEnd(file, ts, d);
      hide Bursts, Of, Pending;
      if file in timers {
        RunningBurst(Of(enqueued, file), Firing(file, timers[file], kinds[file]), file, ts, d);
      } else {
        EndedBurst(enqueued, file, ts, d, now);
      }
    }
  }

  lemma OtherFile(timers: map<string, Time>, kinds: map<string, string>, history: map<string, seq<Touch>>,
      file: string, f: string,
      at: Time, kind: string, ts: seq<Touch>)
    requires f != file
    ensures Pending(timers[file := at], kinds[file := kind], f) == Pending(timers, kinds, f)
    ensures HistoryOf(history[file := ts], f) == HistoryOf(history, f)
  {
  }

  lemma ThisFile(timers: map<string, Time>, kinds: map<string, string>, history: map<string, seq<Touch>>, file: string,
      at: Time, kind: string, ts: seq<Touch>)
    ensures Pending(timers[file := at], kinds[file := kind], file) == [Firing(file, at, kind)]
    ensures HistoryOf(history[file := ts], file) == ts
  {
  }

  lemma {:induction false} EventRefinesAt(enqueued: seq<Firing>, timers: map<string, Time>, kinds: map<string, string>,
      history: map<string, seq<Touch>>, d: Time, file: string, now: Time, kind: string, f: string)
    requires timers.Keys == kinds.Keys && (file in timers ==> now < timers[file])
    requires forall i :: 0 <= i < |enqueued| ==> enqueued[i].at <= now
    requires RefinesAt(enqueued, timers, kinds, history, d, f)
    ensures RefinesAt(enqueued, timers[file := now + d], kinds[file := kind],
                      history[file := HistoryOf(history, file) + [Touch(now, kind)]], d, f)
  {
    var ts := HistoryOf(history, file);
    var more := ts + [Touch(now, kind)];
    hide Bursts, Of, HistoryOf, Pending;
    if f == file {
      TouchRefines(enqueued, timers, kinds, file, ts, d, now, kind);
      ThisFile(timers, kinds, history, file, now + d, kind, more);
    } else {
      OtherFile(timers, kinds, history, file, f, now + d, kind, more);
    }
  }

  lemma EventRefines(enqueued: seq<Firing>, timers: map<string, Time>, kinds: map<string, string>,
      history: map<string, seq<Touch>>, d: Time, file: string, now: Time, kind: string)
    requires Refines(enqueued, timers, kinds, history, d) && Ordered(enqueued, timers, now) && forall f ::
      f in timers ==> now < timers[f]
    ensures Refines(enqueued, timers[file := now + d], kinds[file := kind],
                    history[file := HistoryOf(history, file) + [Touch(now, kind)]], d)
  {
    var timers2, kinds2 := timers[file := now + d], kinds[file := kind];
    var history2 := history[file := HistoryOf(history, file) + [Touch(now, kind)]];
    hide RefinesAt, HistoryOf;
    forall f ensures RefinesAt(enqueued, timers2, kinds2, history2, d, f) {
      EventRefinesAt(enqueued, timers, kinds, history, d, file, now, kind, f);
    }
  }

  lemma EventOrdered(enqueued: seq<Firing>, timers: map<string, Time>, now: Time, file: string, d: Time)
    requires Ordered(enqueued, timers, now) && d > 0
    ensures Ordered(enqueued, timers[file := now + d], now)
  {
  }

  lemma OneFewer(timers: map<string, Time>, file: string)
    requires file in timers
    ensures |timers - {file}| < |timers|
  {
    assert timers == (timers - {file})[file := timers[file]];
  }

  lemma FireKeeps(enqueued: seq<Firing>, timers: map<string, Time>, kinds: map<string, string>,
      history: map<string, seq<Touch>>, d: Time, now: Time, file: string)
    requires Refines(enqueued, timers, kinds, history, d) && Ordered(enqueued, timers, now)
    requires file in timers && timers[file] <= now && forall f :: f in timers ==> timers[file] <= timers[f]
    ensures file in kinds && |timers - {file}| < |timers|
    ensures var x := Firing(file, timers[file], kinds[file]);
      Refines(enqueued + [x], timers - {file}, kinds - {file}, history, d)
        && Ordered(enqueued + [x], timers - {file}, now)
  {
    assert file in kinds;
    FireRefines(enqueued, timers, kinds, history, d, file);
    FireOrdered(enqueued, timers, now, file, kinds[file]);
    OneFewer(timers, file);
    hide Refines, Ordered;
  }

  class Watcher {
    const cfg: Config
    var timers: map<string, Time>      // the expiry of each running timer
    var kinds: map<string, string>
    var enqueued: seq<Firing>
    var now: Time
    var stopped: bool
    ghost var history: map<string, seq<Touch>>   // the matched events of each file

    ghost predicate Valid()
      reads this
    {
      cfg.debounce > 0 && Ordered(enqueued, timers, now) && Refines(enqueued, timers, kinds, history, cfg.debounce)
    }

    constructor (cfg: Config, now: Time)
      requires cfg.debounce > 0
      ensures Valid() && this.cfg == cfg && this.now == now && enqueued == [] && !stopped
      ensures history == map[]
    {
      this.cfg, this.now := cfg, now;
      timers, kinds, enqueued, stopped := map[], map[], [], false;
      history := map[];
    }

    /** Time passes to `t`: the due timers expire, earliest first, each with its callback. */
    method Advance(t: Time)
      requires Valid() && now <= t
      modifies this`timers, this`kinds, this`enqueued, this`now
      ensures Valid() && now == t
      ensures if stopped then enqueued == old(enqueued) && timers == old(timers)
              else old(enqueued) <= enqueued && forall f :: f in timers <==> f in old(timers) && old(timers[f]) > t
      ensures forall f :: f in timers ==> f in old(timers) && timers[f] == old(timers[f])
    {
      hide Refines;
      now := t;
      if stopped {
        return;
      }
      while exists f :: f in timers && timers[f] <= t
        invariant Valid() && now == t && old(enqueued) <= enqueued
        invariant forall f :: f in timers ==> f in old(timers) && timers[f] == old(timers[f])
        invariant forall f :: f in old(timers) && old(timers[f]) > t ==> f in timers
        decreases |timers|
      {
        var file := Earliest(timers);
        Fire(file);
      }
    }

    /** The callback of a timer. */
    method Fire(file: string)
      requires Valid() && file in timers && timers[file] <= now && forall f :: f in timers ==> timers[file] <= timers[f]
      modifies this`timers, this`kinds, this`enqueued
      ensures Valid() && timers == old(timers) - {file} && |timers| < |old(timers)| && kinds == old(kinds) - {file}
      ensures enqueued == old(enqueued) + [Firing(file, old(timers[file]), old(kinds[file]))]
    {
      FireKeeps(enqueued, timers, kinds, history, cfg.debounce, now, file);
      var x := Firing(file, timers[file], kinds[file]);
      hide Refines, Ordered;
      timers := timers - {file};
      kinds := kinds - {file};
      enqueued := enqueued + [x];
    }

    /** One event from the file system, at the current time, after the due timers have expired. */
    method OnEvent(e: Event)
      requires Valid() && forall f :: f in timers ==> now < timers[f]
      modifies this`timers, this`kinds, this`history
      ensures Valid()
      ensures history == match Match(cfg, e)
        case Some(kind) => if stopped then old(history)
          else old(history)[e.file := HistoryOf(old(history), e.file) + [Touch(now, kind)]]
        case None => old(history)
      ensures forall kind :: !stopped && Matches(cfg, e, kind) ==>
        timers == old(timers)[e.file := now + cfg.debounce] && kinds == old(kinds)[e.file := kind]
      ensures stopped || (forall kind :: !Matches(cfg, e, kind)) ==> timers == old(timers) && kinds == old(kinds)
    {
      var kind := Match(cfg, e);
      forall k ensures Matches(cfg, e, k) <==> kind == Some(k) { MatchIff(cfg, e, k); }
      hide Match, Matches;
      if kind.None? || stopped {
        return;
      }
      hide Refines, Ordered;
      EventRefines(enqueued, timers, kinds, history, cfg.debounce, e.file, now, kind.value);
      EventOrdered(enqueued, timers, now, e.file, cfg.debounce);
      kinds := kinds[e.file := kind.value];
      timers := timers[e.file := now + cfg.debounce];
      history := history[e.file := HistoryOf(history, e.file) + [Touch(now, kind.value)]];
    }

    /** The trigger's stop: no timer expires any more. */
    method Stop()
      requires Valid()
      modifies this`stopped
      ensures Valid() && stopped
    {
      stopped := true;
    }
  }

  /** A timer that no other precedes. */
  method Earliest(timers: map<string, Time>) returns (file: string)
    requires timers != map[]
    ensures file in timers && forall f :: f in timers ==> timers[file] <= timers[f]
  {
    var left := timers.Keys;
    file :| file in left;
    left := left - {file};
    while left != {}
      invariant file in timers && left <= timers.Keys
      invariant forall f :: f in timers && f !in left ==> timers[file] <= timers[f]
      decreases |left|
    {
      var f :| f in left;
      left := left - {f};
      if timers[f] < timers[file] {
        file := f;
      }
    }
  }

  // ---------------------------------------------------------------- whole traces

  datatype Timed = Timed(at: Time, event: Event)

  /** The matched events of one file in a trace. */
  function Touches(cfg: Config, trace: seq<Timed>, file: string): seq<Touch> {
    if trace == [] then []
    else
      var last := trace[|trace| - 1];
      Touches(cfg, trace[..|trace| - 1], file)
      + if last.event.file == file && Match(cfg, last.event).Some?
        then [Touch(last.at, Match(cfg, last.event).value)] else []
  }

  /** The firings due by `end`. */
  function Due(fs: seq<Firing>, end: Time): seq<Firing> {
    if fs == [] then [] else (if fs[0].at <= end then [fs[0]] else []) + Due(fs[1..], end)
  }

  lemma {:induction false} DueSplit(a: seq<Firing>, b: seq<Firing>, end: Time)
    requires forall x :: x in a ==> x.at <= end
    requires forall x :: x in b ==> end < x.at
    ensures Due(a + b, end) == a
    decreases |a| + |b|
  {
    if a != [] {
      assert (a + b)[1..] == a[1..] + b;
      DueSplit(a[1..], b, end);
    } else if b != [] {
      assert a + b == b;
      DueSplit(a, b[1..], end);
      assert a + b[1..] == b[1..];
    } else {
      assert a + b == [];
    }
  }

  ghost predicate Recorded(history: map<string, seq<Touch>>, cfg: Config, trace: seq<Timed>) {
    forall f :: HistoryOf(history, f) == Touches(cfg, trace, f)
  }

  lemma RecordedNext(before: map<string, seq<Touch>>, after: map<string, seq<Touch>>, cfg: Config,
      trace: seq<Timed>, i: nat)
    requires i < |trace| && Recorded(before, cfg, trace[..i])
    requires after == match Match(cfg, trace[i].event)
      case Some(kind) => before[trace[i].event.file := HistoryOf(before, trace[i].event.file) +
        [Touch(trace[i].at, kind)]]
      case None => before
    ensures Recorded(after, cfg, trace[..i + 1])
  {
    hide Match;
    assert trace[..i + 1][..i] == trace[..i];
    forall f ensures HistoryOf(after, f) == Touches(cfg, trace[..i + 1], f) {
      assert HistoryOf(before, f) == Touches(cfg, trace[..i], f);
    }
  }

  lemma {:induction false} FileDue(enqueued: seq<Firing>, timers: map<string, Time>, kinds: map<string, string>,
      history: map<string, seq<Touch>>, d: Time, end: Time, f: string)
    requires Refines(enqueued, timers, kinds, history, d) && Ordered(enqueued, timers, end) && forall g ::
      g in timers ==> end < timers[g]
    ensures Of(enqueued, f) == Due(Bursts(f, HistoryOf(history, f), d), end)
  {
    assert RefinesAt(enqueued, timers, kinds, history, d, f);
    OfMember(enqueued, f);
    DueSplit(Of(enqueued, f), Pending(timers, kinds, f), end);
    hide Of, Bursts, Due;
  }

  ghost predicate InTime(trace: seq<Timed>, start: Time, end: Time) {
    && (forall i :: 0 <= i < |trace| ==> start <= trace[i].at <= end)
    && forall i, j :: 0 <= i < j < |trace| ==> trace[i].at <= trace[j].at
  }

  /** The time before event `i`. */
  function Before(trace: seq<Timed>, start: Time, i: nat): Time
    requires i <= |trace|
  {
    if i == 0 then start else trace[i - 1].at
  }

  lemma TimeGoesOn(trace: seq<Timed>, start: Time, end: Time, i: nat)
    requires InTime(trace, start, end) && i <= |trace| && start <= end
    ensures Before(trace, start, i) <= end && (i < |trace| ==> Before(trace, start, i) <= trace[i].at)
  {
  }

  lemma NothingRecorded(cfg: Config)
    ensures Recorded(map[], cfg, [])
  {
  }

  lemma {:induction false} AllDue(enqueued: seq<Firing>, timers: map<string, Time>, kinds: map<string, string>,
      history: map<string, seq<Touch>>, cfg: Config,
      trace: seq<Timed>, end: Time)
    requires Refines(enqueued, timers, kinds, history, cfg.debounce) && Ordered(enqueued, timers, end) && forall g ::
      g in timers ==> end < timers[g]
    requires Recorded(history, cfg, trace)
    ensures forall f :: Of(enqueued, f) == Due(Bursts(f, Touches(cfg, trace, f), cfg.debounce), end)
  {
    forall f ensures Of(enqueued, f) == Due(Bursts(f, Touches(cfg, trace, f), cfg.debounce), end) {
      FileDue(enqueued, timers, kinds, history, cfg.debounce, end, f);
    }
    hide Refines, Ordered, Of, Due, Bursts, Touches;
  }

  // ---------------------------------------------------------------- in terms of the trace

  ghost predicate Wants(cfg: Config, e: Event) {
    exists kind :: Matches(cfg, e, kind)
  }

  /** Event `i` leads to the firing `x`: no later matched event of its file comes before the debounce is over. */
  ghost predicate Leads(cfg: Config, trace: seq<Timed>, end: Time, i: nat, x: Firing) {
    && i < |trace| && trace[i].event.file == x.file && Matches(cfg, trace[i].event, x.kind)
    && x.at == trace[i].at + cfg.debounce && x.at <= end
    && forall j :: i < j < |trace| && trace[j].event.file == x.file && Wants(cfg, trace[j].event) ==>
       x.at <= trace[j].at
  }

  /** Position `i` holds a matched event of the file, recorded as the touch. */
  ghost predicate Touched(cfg: Config, trace: seq<Timed>, file: string, t: Touch, i: nat) {
    i < |trace| && trace[i].event.file == file && trace[i].at == t.at && Matches(cfg, trace[i].event, t.kind)
  }

  /** Where the matched events of a file stand in the trace. */
  ghost predicate Places(cfg: Config, trace: seq<Timed>, file: string, ts: seq<Touch>, ps: seq<nat>) {
    && |ps| == |ts|
    && (forall k :: 0 <= k < |ps| ==> Touched(cfg, trace, file, ts[k], ps[k]))
    && (forall k, l :: 0 <= k < l < |ps| ==> ps[k] < ps[l])
    && forall i: nat :: i < |trace| && trace[i].event.file == file && Wants(cfg, trace[i].event) ==> i in ps
  }

  lemma PlacesNext(cfg: Config, trace: seq<Timed>, file: string, ts: seq<Touch>, ps: seq<nat>, t: Touch, last: Timed)
    requires Places(cfg, trace, file, ts, ps)
    requires last.event.file == file && last.at == t.at && Matches(cfg, last.event, t.kind)
    ensures Places(cfg, trace + [last], file, ts + [t], ps + [|trace|])
  {
    hide Matches, Wants;
    forall k | 0 <= k < |ps| ensures Touched(cfg, trace + [last], file, ts[k], ps[k]) && ps[k] < |trace| {
      assert Touched(cfg, trace, file, ts[k], ps[k]);
    }
    var more := ps + [|trace|];
    assert more[|ps|] == |trace|;
    forall i: nat | i < |trace| + 1 && (trace + [last])[i].event.file == file && Wants(cfg, (trace + [last])[i].event)
      ensures i in more
    {
      if i < |trace| {
        assert trace[i].event == (trace + [last])[i].event && i in ps;
      }
    }
  }

  lemma PlacesSame(cfg: Config, trace: seq<Timed>, file: string, ts: seq<Touch>, ps: seq<nat>, last: Timed)
    requires Places(cfg, trace, file, ts, ps) && !(last.event.file == file && Wants(cfg, last.event))
    ensures Places(cfg, trace + [last], file, ts, ps)
  {
    hide Matches, Wants;
    forall k | 0 <= k < |ps| ensures Touched(cfg, trace + [last], file, ts[k], ps[k]) {
      assert Touched(cfg, trace, file, ts[k], ps[k]);
    }
    forall i: nat | i < |trace| + 1 && (trace + [last])[i].event.file == file && Wants(cfg, (trace + [last])[i].event)
      ensures i in ps
    {
      assert trace[i].event == (trace + [last])[i].event;
    }
  }

  lemma {:induction false} TouchPlaces(cfg: Config, trace: seq<Timed>, file: string) returns (ps: seq<nat>)
    ensures Places(cfg, trace, file, Touches(cfg, trace, file), ps)
    decreases |trace|
  {
    hide Places, Matches, Match;
    if trace == [] {
      ps := [];
      NoPlaces(cfg, file);
    } else {
      var n := |trace| - 1;
      var front, last := trace[..n], trace[n];
      assert trace == front + [last];
      ps := TouchPlaces(cfg, front, file);
      forall k ensures Match(cfg, last.event) == Some(k) <==> Matches(cfg, last.event, k) {
        MatchIff(cfg, last.event, k);
      }
      if last.event.file == file && Match(cfg, last.event).Some? {
        PlacesNext(cfg, front, file, Touches(cfg, front, file), ps, Touch(last.at, Match(cfg, last.event).value), last);
        ps := ps + [n];
      } else {
        PlacesSame(cfg, front, file, Touches(cfg, front, file), ps, last);
        assert Touches(cfg, trace, file) == Touches(cfg, front, file);
      }
    }
  }

  lemma NoPlaces(cfg: Config, file: string)
    ensures Places(cfg, [], file, [], [])
  {
  }

  /** In order of time, touches after the end of a burst keep away from it. */
  ghost predicate Chronological(ts: seq<Touch>) {
    forall i, j :: 0 <= i < j < |ts| ==> ts[i].at <= ts[j].at
  }

  lemma PlacesChronological(cfg: Config, trace: seq<Timed>, file: string, ts: seq<Touch>, ps: seq<nat>)
    requires Places(cfg, trace, file, ts, ps) && forall i, j :: 0 <= i < j < |trace| ==> trace[i].at <= trace[j].at
    ensures Chronological(ts)
  {
    hide Matches;
    assert forall k :: 0 <= k < |ps| ==> Touched(cfg, trace, file, ts[k], ps[k]);
  }

  /** A burst ends where the trace says so. */
  lemma EndsIffLeads(cfg: Config, trace: seq<Timed>, file: string, ts: seq<Touch>, ps: seq<nat>, end: Time, k: nat)
    requires Places(cfg, trace, file, ts, ps) && Chronological(ts) && k < |ps|
    ensures Leads(cfg, trace, end, ps[k], Firing(file, ts[k].at + cfg.debounce, ts[k].kind)) <==>
      EndsBurst(ts, cfg.debounce, k) && ts[k].at + cfg.debounce <= end
  {
    hide Matches;
    assert forall l :: 0 <= l < |ps| ==> Touched(cfg, trace, file, ts[l], ps[l]);
    if k + 1 < |ts| && Leads(cfg, trace, end, ps[k], Firing(file, ts[k].at + cfg.debounce, ts[k].kind)) {
      assert Wants(cfg, trace[ps[k + 1]].event);
    }
    if EndsBurst(ts, cfg.debounce, k) {
      forall j | ps[k] < j < |trace| && trace[j].event.file == file && Wants(cfg, trace[j].event)
        ensures ts[k].at + cfg.debounce <= trace[j].at
      {
        var l :| 0 <= l < |ps| && ps[l] == j;
        assert l > k;
      }
    }
  }

  lemma KindUnique(cfg: Config, e: Event, k: string, l: string)
    requires Matches(cfg, e, k) && Matches(cfg, e, l)
    ensures k == l
  {
    MatchIff(cfg, e, k);
    MatchIff(cfg, e, l);
  }

  lemma {:induction false} DueMember(fs: seq<Firing>, end: Time)
    ensures forall x :: x in Due(fs, end) <==> x in fs && x.at <= end
    decreases |fs|
  {
    if fs != [] {
      DueMember(fs[1..], end);
      assert fs == [fs[0]] + fs[1..];
    }
  }

  /** What a file has enqueued, read off the trace. */
  lemma {:induction false} FileFirings(cfg: Config, trace: seq<Timed>, start: Time, end: Time, file: string)
    requires InTime(trace, start, end)
    ensures forall x :: x in Due(Bursts(file, Touches(cfg, trace, file), cfg.debounce), end) <==>
      x.file == file && exists i :: Leads(cfg, trace, end, i, x)
    ensures Chronological(Touches(cfg, trace, file))
  {
    var ts, d := Touches(cfg, trace, file), cfg.debounce;
    var ps := TouchPlaces(cfg, trace, file);
    PlacesChronological(cfg, trace, file, ts, ps);
    BurstsAreEnds(file, ts, d);
    DueMember(Bursts(file, ts, d), end);
    assert |ps| == |ts| && forall k :: 0 <= k < |ps| ==> Touched(cfg, trace, file, ts[k], ps[k]);
    hide InTime, Due, Bursts, Touches, Matches, Chronological, EndsBurst;
    forall k | 0 <= k < |ps|
      ensures Leads(cfg, trace, end, ps[k], Firing(file, ts[k].at + d, ts[k].kind)) <==>
        EndsBurst(ts, d, k) && ts[k].at + d <= end
    {
      EndsIffLeads(cfg, trace, file, ts, ps, end, k);
    }
    forall x: Firing, i: nat | x.file == file && Leads(cfg, trace, end, i, x)
      ensures exists k :: 0 <= k < |ts| && EndsBurst(ts, d, k) && x == Firing(file, ts[k].at + d, ts[k].kind)
    {
      var k := LeaderTouched(cfg, trace, file, ts, ps, end, i, x);
    }
    hide Leads, Places, Touched;
  }

  /** The event that leads to a firing is one of the touches. */
  lemma LeaderTouched(cfg: Config, trace: seq<Timed>, file: string, ts: seq<Touch>, ps: seq<nat>, end: Time, i: nat,
      x: Firing) returns (k: nat)
    requires Places(cfg, trace, file, ts, ps) && x.file == file && Leads(cfg, trace, end, i, x)
    ensures k < |ps| && ps[k] == i && x == Firing(file, ts[k].at + cfg.debounce, ts[k].kind)
  {
    hide Matches;
    assert Wants(cfg, trace[i].event);
    k :| 0 <= k < |ps| && ps[k] == i;
    assert Touched(cfg, trace, file, ts[k], ps[k]);
    KindUnique(cfg, trace[i].event, x.kind, ts[k].kind);
  }

  ghost predicate Increasing(fs: seq<Firing>) {
    forall i, j :: 0 <= i < j < |fs| ==> fs[i].at < fs[j].at
  }

  lemma IncreasingMore(x: Firing, rest: seq<Firing>)
    requires Increasing(rest) && forall y :: y in rest ==> x.at < y.at
    ensures Increasing([x] + rest)
  {
  }

  lemma {:induction false} BurstsIncrease(file: string, ts: seq<Touch>, d: Time)
    requires Chronological(ts) && d > 0
    ensures Increasing(Bursts(file, ts, d)) && forall x :: x in Bursts(file, ts, d) ==> ts[0].at + d <= x.at
    decreases |ts|
  {
    if ts != [] {
      var rest := Bursts(file, ts[1..], d);
      BurstsIncrease(file, ts[1..], d);
      BurstsSplit(file, ts, d);
      var first := Firing(file, ts[0].at + d, ts[0].kind);
      hide Bursts, Increasing;
      if |ts| > 1 {
        assert ts[0].at <= ts[1].at && ts[1..][0] == ts[1];
        hide Chronological;
        if EndsBurst(ts, d, 0) {
          IncreasingMore(first, rest);
        } else {
          assert Head(file, ts, d) + rest == rest;
        }
      } else {
        NothingAfter(file, d);
        assert ts[1..] == [];
        assert Bursts(file, ts, d) == [first];
        IncreasingMore(first, rest);
      }
    }
  }

  lemma {:induction false} NothingAfter(file: string, d: Time)
    ensures Bursts(file, [], d) == []
  {
  }

  lemma {:induction false} DueIncreases(fs: seq<Firing>, end: Time)
    requires Increasing(fs)
    ensures Increasing(Due(fs, end))
    decreases |fs|
  {
    if fs != [] {
      DueIncreases(fs[1..], end);
      DueMember(fs[1..], end);
      var rest := Due(fs[1..], end);
      forall i | 0 <= i < |rest| ensures fs[0].at < rest[i].at {
        assert rest[i] in fs[1..];
      }
    }
  }

  lemma {:induction false} OfTwice(fs: seq<Firing>, i: nat, j: nat)
    requires i < j < |fs| && fs[i] == fs[j]
    ensures !Increasing(Of(fs, fs[i].file))
    decreases |fs|
  {
    var front, x := fs[..|fs| - 1], fs[|fs| - 1];
    if j == |fs| - 1 {
      OfMember(front, x.file);
      assert front[i] == x && x in Of(front, x.file);
      var k :| 0 <= k < |Of(front, x.file)| && Of(front, x.file)[k] == x;
      assert Of(fs, x.file) == Of(front, x.file) + [x];
      assert Of(fs, x.file)[k].at == Of(fs, x.file)[|Of(front, x.file)|].at;
    } else {
      OfTwice(front, i, j);
      var was := Of(front, fs[i].file);
      assert forall k :: 0 <= k < |was| ==> Of(fs, fs[i].file)[k] == was[k];
    }
  }

  lemma {:induction false} AllFirings(cfg: Config, trace: seq<Timed>, start: Time, end: Time, enqueued: seq<Firing>)
    requires cfg.debounce > 0 && InTime(trace, start, end)
    requires forall f :: Of(enqueued, f) == Due(Bursts(f, Touches(cfg, trace, f), cfg.debounce), end)
    ensures forall x :: x in enqueued <==> exists i :: Leads(cfg, trace, end, i, x)
    ensures NoDup(enqueued)
  {
    hide InTime, Due, Bursts, Touches, Leads, Of, Chronological, Increasing;
    forall x ensures x in enqueued <==> exists i :: Leads(cfg, trace, end, i, x) {
      OfMember(enqueued, x.file);
      FileFirings(cfg, trace, start, end, x.file);
    }
    forall i, j | 0 <= i < j < |enqueued| ensures enqueued[i] != enqueued[j] {
      if enqueued[i] == enqueued[j] {
        var f := enqueued[i].file;
        OfTwice(enqueued, i, j);
        FileFirings(cfg, trace, start, end, f);
        BurstsIncrease(f, Touches(cfg, trace, f), cfg.debounce);
        DueIncreases(Bursts(f, Touches(cfg, trace, f), cfg.debounce), end);
      }
    }
  }

  /** For every trace of events: what a file enqueues by time `end` is exactly one firing for every burst of
      its matched events whose last event lies at least the debounce back, with that event's kind.  All firings
      together are, once each and in order of time, those of the events that no further one follows in time. */
  method Watch(cfg: Config, start: Time, trace: seq<Timed>, end: Time) returns (enqueued: seq<Firing>)
    requires cfg.debounce > 0 && start <= end && InTime(trace, start, end)
    ensures forall f :: Of(enqueued, f) == Due(Bursts(f, Touches(cfg, trace, f), cfg.debounce), end)
    ensures forall x :: x in enqueued <==> exists i :: Leads(cfg, trace, end, i, x)
    ensures NoDup(enqueued) && forall i, j :: 0 <= i < j < |enqueued| ==> enqueued[i].at <= enqueued[j].at
  {
    hide Leads, Matches, Refines, Of, Bursts, Match, InTime, Recorded, Touches, Due;
    var w := new Watcher(cfg, start);
    NothingRecorded(cfg);
    assert trace[..0] == [];
    for i := 0 to |trace|
      invariant fresh(w) && w.Valid() && !w.stopped && w.cfg == cfg && w.now == Before(trace, start, i)
      invariant Recorded(w.history, cfg, trace[..i])
    {
      TimeGoesOn(trace, start, end, i);
      w.Advance(trace[i].at);
      ghost var before := w.history;
      w.OnEvent(trace[i].event);
      RecordedNext(before, w.history, cfg, trace, i);
    }
    TimeGoesOn(trace, start, end, |trace|);
    w.Advance(end);
    assert trace[..|trace|] == trace;
    enqueued := w.enqueued;
    AllDue(enqueued, w.timers, w.kinds, w.history, cfg, trace, end);
    AllFirings(cfg, trace, start, end, enqueued);
  }
}
