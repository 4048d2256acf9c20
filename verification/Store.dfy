/** The store as the object it is: tables updated in place, one method per operation.
    Every method is proved against the transaction it performs. */
module Stores {
  import opened Base
  import opened Reports
  import opened Tables
  import opened Retention

  /** One day on the clock, in nanoseconds. */
  const DAY: Time := 24 * 3600 * 1000000000

  function LimitsFor(maxExecutions: int, maxDays: int, now: Time): Limits {
    Limits(if maxDays > 0 then Some(now - maxDays * DAY) else None,
           if maxExecutions > 0 then Some(maxExecutions) else None)
  }

  lemma {:induction false} NextExists(db: Db, wf: string, rows: set<nat>)
    requires rows != {} && forall q :: q in rows ==> q in db.queue
    ensures exists q :: q in rows && forall p :: p in rows ==> Before(db.queue[q].queuedAt, q, db.queue[p].queuedAt, p)
    decreases |rows|
  {
    var x :| x in rows;
    var rest := rows - {x};
    assert rows == rest + {x};
    if rest == {} {
      assert forall p :: p in rows ==> Before(db.queue[x].queuedAt, x, db.queue[p].queuedAt, p);
    } else {
      NextExists(db, wf, rest);
      var y :| y in rest && forall p :: p in rest ==> Before(db.queue[y].queuedAt, y, db.queue[p].queuedAt, p);
      var z := if Before(db.queue[x].queuedAt, x, db.queue[y].queuedAt, y) then x else y;
      assert forall p :: p in rows ==> Before(db.queue[z].queuedAt, z, db.queue[p].queuedAt, p);
    }
  }

  lemma ClaimableHasNext(db: Db, wf: string)
    requires HasQueued(db, wf)
    ensures exists q :: IsNext(db, wf, q)
  {
    var rows := set q | q in db.queue && db.queue[q].workflow == wf;
    var w :| w in db.queue && db.queue[w].workflow == wf;
    assert w in rows;
    NextExists(db, wf, rows);
    var q :| q in rows && forall p :: p in rows ==> Before(db.queue[q].queuedAt, q, db.queue[p].queuedAt, p);
    assert IsNext(db, wf, q);
  }

  /** The effect of MarkStaleRunningExecutions on the rows `ids`, each finished at its own clock reading. */
  ghost function Repaired(db: Db, ids: set<nat>, message: string, clock: nat -> Time): Db {
    db.(executions := map e | e in db.executions ::
          if e in ids && db.executions[e].workflow in db.workflows
          then Finish(db.executions[e], Error, StaleReport(db.workflows[db.executions[e].workflow], message), clock(e))
          else db.executions[e])
  }

  lemma RepairStep(db: Db, done: set<nat>, e: nat, message: string, clock: nat -> Time)
    requires Coupled(Repaired(db, done, message, clock))
    requires e in StaleIds(db) && e !in done
    ensures var now := Repaired(db, done, message, clock);
      && e in now.executions && now.executions[e].workflow in now.workflows
      && Complete(now, e, Error, StaleReport(now.workflows[now.executions[e].workflow], message), clock(e))
         == Repaired(db, done + {e}, message, clock)
    ensures Coupled(Repaired(db, done + {e}, message, clock))
  {
    var now := Repaired(db, done, message, clock);
    var report := StaleReport(now.workflows[now.executions[e].workflow], message);
    CompleteCoupled(now, e, Error, report, clock(e));
    assert Complete(now, e, Error, report, clock(e)).executions == Repaired(db, done + {e}, message, clock).executions;
  }

  /** CancelQueuedExecutions once the queue rows are deleted and the executions in `done` are finished. */
  ghost function Cancelling(db: Db, wf: string, done: set<nat>, message: string, now: Time): Db {
    db.(queue := map q | q in db.queue && db.queue[q].workflow != wf :: db.queue[q],
        executions := map e | e in db.executions ::
          if e in done && wf in db.workflows
            then Finish(db.executions[e], Error, CancelReport(db.workflows[wf], message), now)
          else db.executions[e])
  }

  lemma CoupledRows(db: Db)
    requires Coupled(db)
    ensures RowsSound(db)
  {
  }

  lemma CancelStart(db: Db, wf: string, message: string, now: Time)
    ensures Cancelling(db, wf, Elements<nat>([]), message, now)
         == db.(queue := map q | q in db.queue && db.queue[q].workflow != wf :: db.queue[q])
  {
    assert Cancelling(db, wf, {}, message, now).executions == db.executions;
  }

  lemma CancelStep(db: Db, wf: string, done: set<nat>, e: nat, message: string, now: Time)
    requires RowsSound(db) && e in QueuedOf(db, wf) && e !in done
    ensures wf in db.workflows
    ensures Complete(Cancelling(db, wf, done, message, now), e, Error, CancelReport(db.workflows[wf], message), now)
         == Cancelling(db, wf, done + {e}, message, now)
  {
    var next := Complete(Cancelling(db, wf, done, message, now), e, Error,
      CancelReport(db.workflows[wf], message), now);
    assert next.executions == Cancelling(db, wf, done + {e}, message, now).executions;
  }

  lemma CancelEnd(db: Db, wf: string, message: string, now: Time)
    ensures Cancelling(db, wf, QueuedOf(db, wf), message, now) == Cancel(db, wf, message, now)
  {
    assert Cancelling(db, wf, QueuedOf(db, wf), message, now).executions == Cancel(db, wf, message, now).executions;
  }

  ghost function ExecutionsOf(db: Db, rows: set<nat>): set<nat>
    requires rows <= db.queue.Keys
  {
    set q | q in rows :: db.queue[q].execution
  }

  lemma ExecutionsOfAdd(db: Db, rows: set<nat>, q: nat)
    requires RowsSound(db) && rows <= db.queue.Keys && q in db.queue && q !in rows
    ensures ExecutionsOf(db, rows + {q}) == ExecutionsOf(db, rows) + {db.queue[q].execution}
    ensures db.queue[q].execution !in ExecutionsOf(db, rows)
  {
    forall e | e in ExecutionsOf(db, rows) + {db.queue[q].execution} ensures e in ExecutionsOf(db, rows + {q}) {
      var p :| p in rows + {q} && db.queue[p].execution == e;
    }
  }

  lemma CursorStart(db: Db, all: set<nat>)
    requires all <= db.queue.Keys
    ensures ExecutionsOf(db, all - all) == {} == Elements<nat>([]) && NoDup<nat>([])
  {
  }

  lemma CursorStep(db: Db, all: set<nat>, left: set<nat>, q: nat, rows: seq<nat>)
    requires RowsSound(db) && left <= all <= db.queue.Keys && q in left
    requires NoDup(rows) && Elements(rows) == ExecutionsOf(db, all - left)
    ensures NoDup(rows + [db.queue[q].execution])
    ensures Elements(rows + [db.queue[q].execution]) == ExecutionsOf(db, all - (left - {q}))
  {
    ExecutionsOfAdd(db, all - left, q);
    NoDupAppend(rows, db.queue[q].execution);
    assert all - (left - {q}) == (all - left) + {q};
  }

  lemma CursorEnd(db: Db, wf: string, all: set<nat>)
    requires wf in db.workflows && all == set q | q in db.queue && db.queue[q].workflow == wf
    ensures ExecutionsOf(db, all) == QueuedOf(db, wf)
  {
  }

  /** The finished rows of the same workflow that finished later, or at the same time with a higher id. */
  ghost function NewerRuns(executions: map<nat, Execution>, e: nat): set<nat>
    requires e in executions
  {
    set f | f in executions && executions[f].workflow == executions[e].workflow
            && executions[f].status != Queued && executions[f].status != Running
            && executions[e].finishedAt.Some? && executions[f].finishedAt.Some?
            && (executions[e].finishedAt.value < executions[f].finishedAt.value
                || (executions[e].finishedAt.value == executions[f].finishedAt.value && e < f))
  }

  /** Retention, told by the options, the clock and the columns of a row. */
  ghost predicate KeptByOptions(before: map<nat, Execution>, after: map<nat, Execution>,
      maxExecutions: int, maxDays: int, now: Time) {
    && (forall e :: e in after ==> e in before && after[e] == before[e])
    && (forall e :: e in before ==>
          (e in after <==>
             var x := before[e];
             || x.status == Queued || x.status == Running
             || ((maxDays <= 0
                  || (x.finishedAt.Some? && now - maxDays * 24 * 3600 * 1000000000 <= x.finishedAt.value))
                 && (maxExecutions <= 0 || |NewerRuns(before, e)| < maxExecutions))))
  }

  lemma RetainedMeans(executions: map<nat, Execution>, maxExecutions: int, maxDays: int, now: Time)
    requires forall e :: e in executions ==> RowShape(executions[e])
    ensures KeptByOptions(executions, Retained(executions, LimitsFor(maxExecutions, maxDays, now)),
                          maxExecutions, maxDays, now)
    ensures maxDays <= 0 && maxExecutions <= 0 ==>
      Retained(executions, LimitsFor(maxExecutions, maxDays, now)) == executions
  {
    assert maxDays * DAY == maxDays * 24 * 3600 * 1000000000;
    forall e | e in executions && executions[e].status != Queued && executions[e].status != Running
      ensures executions[e].finishedAt.Some? && Rank(executions, e) == |NewerRuns(executions, e)|
    {
      assert Ahead(executions, FinishedOf(executions, executions[e].workflow), e) == NewerRuns(executions, e);
    }
    hide Rank;
  }

  /** What is left after a delete by age. */
  ghost predicate YoungerOnly(before: map<nat, Execution>, after: map<nat, Execution>, cutoff: Time) {
    && (forall e :: e in after ==> e in before && after[e] == before[e])
    && (forall e :: e in before ==>
          (e in after <==>
             var x := before[e];
             x.status == Queued || x.status == Running || (x.finishedAt.Some? && cutoff <= x.finishedAt.value)))
  }

  /** What is left after a delete by count for one workflow. */
  ghost predicate NewestOnly(before: map<nat, Execution>, after: map<nat, Execution>, wf: string, keep: nat) {
    && (forall e :: e in after ==> e in before && after[e] == before[e])
    && (forall e :: e in before ==>
          (e in after <==>
             var x := before[e];
             x.workflow != wf || x.status == Queued || x.status == Running || |NewerRuns(before, e)| < keep))
  }

  lemma AgeMeans(executions: map<nat, Execution>, cutoff: Time)
    requires forall e :: e in executions ==> RowShape(executions[e])
    ensures YoungerOnly(executions, ByAge(executions, Some(cutoff)), cutoff)
  {
  }

  lemma OlderGone(executions: map<nat, Execution>, cutoff: Time)
    ensures executions - OlderIds(executions, cutoff) == ByAge(executions, Some(cutoff))
    ensures forall e :: e in OlderIds(executions, cutoff) && e in executions ==> executions[e].status.Finished()
  {
  }

  lemma OverflowMeans(executions: map<nat, Execution>, wf: string, keep: nat)
    requires forall e :: e in executions ==> RowShape(executions[e])
    ensures NewestOnly(executions, executions - OverflowIds(executions, wf, keep), wf, keep)
  {
    forall e | e in executions && executions[e].status != Queued && executions[e].status != Running
      ensures executions[e].finishedAt.Some? && Rank(executions, e) == |NewerRuns(executions, e)|
    {
      assert Ahead(executions, FinishedOf(executions, executions[e].workflow), e) == NewerRuns(executions, e);
    }
    forall e | e in executions { OverflowIsRank(executions, wf, keep, e); }
    hide Rank, OverflowIds;
  }

  /** The two deletes in the order of ApplyRetention. */
  lemma TwoDeletes(executions: map<nat, Execution>, maxExecutions: int, maxDays: int, now: Time)
    requires forall e :: e in executions ==> RowShape(executions[e])
    ensures var aged := if maxDays > 0 then ByAge(executions, Some(now - maxDays * DAY)) else executions;
      var left := if maxExecutions > 0 then ByCount(aged, Some(maxExecutions)) else aged;
      && left == Retained(executions, LimitsFor(maxExecutions, maxDays, now))
      && KeptByOptions(executions, left, maxExecutions, maxDays, now)
      && (maxDays <= 0 && maxExecutions <= 0 ==> left == executions)
  {
    RetainedMeans(executions, maxExecutions, maxDays, now);
    assert FinishedStamped(executions);
    hide KeptByOptions, RowShape, FinishedStamped;
    RetentionCommutes(executions, LimitsFor(maxExecutions, maxDays, now));
    NoLimit(executions);
    NoLimit(ByAge(executions, LimitsFor(maxExecutions, maxDays, now).cutoff));
    hide ByAge, ByCount, Retained;
  }

  lemma SoundRows(db: Db)
    requires Coupled(db)
    ensures forall e :: e in db.executions ==> RowShape(db.executions[e])
  {
  }

  /** A longer retention time never deletes more. */
  lemma LongerKeepsMore(executions: map<nat, Execution>, maxExecutions: int, shorter: int, longer: int, now: Time)
    requires forall e :: e in executions ==> RowShape(executions[e])
    requires longer <= 0 || 0 < shorter <= longer
    ensures Retained(executions, LimitsFor(maxExecutions, shorter, now)).Keys
         <= Retained(executions, LimitsFor(maxExecutions, longer, now)).Keys
  {
    RetainedMeans(executions, maxExecutions, shorter, now);
    RetainedMeans(executions, maxExecutions, longer, now);
    assert longer > 0 ==> now - longer * 24 * 3600 * 1000000000 <= now - shorter * 24 * 3600 * 1000000000;
    hide Retained, NewerRuns;
  }

  lemma OneSeen(rows: set<nat>, left: set<nat>, q: nat)
    requires q in left
    ensures |rows - (left - {q})| == |rows - left| + if q in rows then 1 else 0
  {
    if q in rows {
      assert rows - (left - {q}) == (rows - left) + {q};
    } else {
      assert rows - (left - {q}) == rows - left;
    }
  }

  lemma QueueRows(db: Db, wf: string)
    ensures QueueOf(db, wf) == set q | q in db.queue && db.queue[q].workflow == wf
  {
  }

  /** One execution and one queue row pointing at it, with new ids. */
  ghost predicate BothInserted(before: Db, after: Db, e: nat, wf: string, trigger: string, now: Time) {
    && e !in before.executions && after.workflows == before.workflows
    && after.executions == before.executions[e := Execution(wf, trigger, Queued, now, None, None, None)]
    && exists q: nat :: q !in before.queue && after.queue == before.queue[q := QueueRow(e, wf, trigger, now)]
  }

  /** The first row of the workflow by (queued_at, id) is gone and its execution started now. */
  ghost predicate FirstTaken(before: Db, after: Db, q: nat, row: QueueRow, wf: string, now: Time) {
    && q in before.queue && before.queue[q] == row && row.workflow == wf && after.queue == before.queue - {q}
    && (forall p :: p in before.queue && before.queue[p].workflow == wf ==>
          row.queuedAt < before.queue[p].queuedAt || (row.queuedAt == before.queue[p].queuedAt && q <= p))
    && after.workflows == before.workflows && row.execution in before.executions
    && var x := before.executions[row.execution];
       && x.status == Queued && x.workflow == wf
       && after.executions
          == before.executions[row.execution := Execution(wf, x.trigger, Running, x.queuedAt, Some(now), None, None)]
  }

  lemma CreateInserts(db: Db, wf: string, trigger: string, now: Time)
    requires Coupled(db) && wf in db.workflows
    ensures BothInserted(db, Create(db, wf, trigger, now).value, db.nextExecution, wf, trigger, now)
  {
    assert db.nextQueue !in db.queue;
  }

  lemma ClaimTakesFirst(db: Db, q: nat, wf: string, now: Time)
    requires Coupled(db) && IsNext(db, wf, q)
    ensures FirstTaken(db, Claim(db, q, now), q, db.queue[q], wf, now)
  {
    assert RowShape(db.executions[db.queue[q].execution]);
  }

  /** What a cancel writes, column by column: the workflow's queue rows are gone, and their executions ended now
      with an error that carries the message. */
  ghost predicate CancelledNow(before: Db, after: Db, wf: string, message: string, now: Time) {
    && after == before.(queue := after.queue, executions := after.executions)
    && after.queue == (map q | q in before.queue && before.queue[q].workflow != wf :: before.queue[q])
    && after.executions.Keys == before.executions.Keys
    && forall e :: e in before.executions ==>
         var x := before.executions[e];
         if WasQueued(before, wf, e)
         then && wf in before.workflows
              && after.executions[e]
                 == Execution(wf, x.trigger, Error, x.queuedAt, None, Some(now),
                              Some(Report(before.workflows[wf].name, before.workflows[wf].version, Error, 0, 0,
                                          [ReportError("generic", "", 0, message, "")])))
         else after.executions[e] == x
  }

  ghost predicate WasQueued(db: Db, wf: string, e: nat) {
    exists q :: q in db.queue && db.queue[q].workflow == wf && db.queue[q].execution == e
  }

  lemma CancelledMean(db: Db, wf: string, message: string, now: Time)
    requires Coupled(db)
    ensures CancelledNow(db, Cancel(db, wf, message, now), wf, message, now)
    ensures forall e :: e in QueuedOf(db, wf) <==> WasQueued(db, wf, e)
  {
    assert forall q :: q in db.queue && db.queue[q].workflow == wf ==>
      db.queue[q].execution in db.executions && wf in db.workflows && RowShape(db.executions[db.queue[q].execution])
      && db.executions[db.queue[q].execution].workflow == wf;
    hide Elements;
  }

  lemma ElementsAre(ids: seq<nat>)
    ensures forall e :: e in ids <==> e in Elements(ids)
  {
  }

  /** What the boot repair writes, column by column: every running row ended with an error at its own reading. */
  ghost predicate RepairedNow(before: Db, after: Db, message: string, clock: nat -> Time) {
    && after == before.(executions := after.executions) && after.executions.Keys == before.executions.Keys
    && forall e :: e in before.executions ==>
         var x := before.executions[e];
         if x.status == Running
         then && x.workflow in before.workflows
              && after.executions[e]
                 == Execution(x.workflow, x.trigger, Error, x.queuedAt, x.startedAt, Some(clock(e)),
                              Some(Report(before.workflows[x.workflow].name,
                                before.workflows[x.workflow].version, Error, 0, 0,
                                          [ReportError("runtime", "", 0, message, "")])))
         else after.executions[e] == x
  }

  lemma RepairedMean(db: Db, message: string, clock: nat -> Time)
    requires Coupled(db)
    ensures RepairedNow(db, Repaired(db, StaleIds(db), message, clock), message, clock)
  {
  }

  class Store {
    var workflows: map<string, Workflow>
    var executions: map<nat, Execution>
    var queue: map<nat, QueueRow>
    var nextExecution: nat
    var nextQueue: nat

    function View(): Db
      reads this
    {
      Db(workflows, executions, queue, nextExecution, nextQueue)
    }

    ghost predicate Valid()
      reads this
    {
      Coupled(View())
    }

    constructor ()
      ensures Valid() && View() == EMPTY
    {
      workflows, executions, queue, nextExecution, nextQueue := map[], map[], map[], 0, 0;
    }

    /** The rows of the workflow, one after the other, in whatever order the engine yields them. */
    method QueueCount(wf: string) returns (count: nat)
      ensures count == |QueueOf(View(), wf)|
    {
      count := 0;
      var left := queue.Keys;
      ghost var rows := set q | q in queue && queue[q].workflow == wf;
      QueueRows(View(), wf);
      hide QueueOf;
      assert rows - left == {};
      while left != {}
        invariant left <= queue.Keys && count == |rows - left|
        decreases |left|
      {
        var q :| q in left;
        OneSeen(rows, left, q);
        if queue[q].workflow == wf {
          count := count + 1;
        }
        left := left - {q};
      }
      assert rows - left == rows;
    }

    method CreateQueuedExecution(wf: string, trigger: string, now: Time) returns (r: Option<nat>)
      requires Valid()
      modifies this
      ensures Valid()
      ensures r.None? <==> wf !in old(workflows)
      ensures r.None? ==> View() == old(View())
      ensures r.Some? ==> r.value == old(nextExecution) && Some(View()) == Create(old(View()), wf, trigger, now)
      ensures r.Some? ==> BothInserted(old(View()), View(), r.value, wf, trigger, now)
    {
      if wf !in workflows {
        return None;
      }
      CreateCoupled(View(), wf, trigger, now);
      CreateInserts(View(), wf, trigger, now);
      hide Coupled, QueuedIds, BothInserted;
      var id := nextExecution;
      nextExecution := nextExecution + 1;
      executions := executions[id := Execution(wf, trigger, Queued, now, None, None, None)];
      queue := queue[nextQueue := QueueRow(id, wf, trigger, now)];
      nextQueue := nextQueue + 1;
      return Some(id);
    }

    /** Returns the claimed queue row, or nothing when the workflow has no queued execution. */
    method ClaimNextQueueItem(wf: string, now: Time) returns (r: Option<(nat, QueueRow)>)
      requires Valid()
      modifies this
      ensures Valid()
      ensures r.None? <==> forall q :: q in old(queue) ==> old(queue)[q].workflow != wf
      ensures r.None? ==> View() == old(View())
      ensures r.Some? ==>
        && IsNext(old(View()), wf, r.value.0)
        && r.value.1 == old(queue)[r.value.0]
        && View() == Claim(old(View()), r.value.0, now)
      ensures r.Some? ==> FirstTaken(old(View()), View(), r.value.0, r.value.1, wf, now)
    {
      if !exists q :: q in queue && queue[q].workflow == wf {
        return None;
      }
      ClaimableHasNext(View(), wf);
      var q :| q in queue && queue[q].workflow == wf
               && forall p :: p in queue && queue[p].workflow == wf ==>
                  Before(queue[q].queuedAt, q, queue[p].queuedAt, p);
      ClaimCoupled(View(), q, now);
      ClaimTakesFirst(View(), q, wf, now);
      hide Coupled, QueuedIds, FirstTaken;
      var row := queue[q];
      queue := queue - {q};
      executions := MarkRunning(executions, row.execution, now);
      return Some((q, row));
    }

    /** The UPDATE has no condition on the old status. */
    method CompleteExecution(e: nat, status: Status, report: Report, now: Time)
      modifies this
      ensures View() == Complete(old(View()), e, status, report, now)
      ensures View() == old(View()).(executions := executions)
      ensures e !in old(executions) ==> executions == old(executions)
      ensures e in old(executions) ==>
        var x := old(executions)[e];
        executions == old(executions)[e := Execution(x.workflow, x.trigger, status, x.queuedAt, x.startedAt,
                                                     Some(now), Some(report))]
    {
      if e in executions {
        executions := executions[e := Finish(executions[e], status, report, now)];
      }
    }

    /** The cursor over the queue rows of a workflow, in whatever order the engine yields them. */
    method ListQueued(wf: string) returns (rows: seq<nat>)
      requires Valid()
      ensures NoDup(rows) && Elements(rows) == QueuedOf(View(), wf)
    {
      rows := [];
      if wf in workflows {
        ghost var db := View();
        var left := set q | q in queue && queue[q].workflow == wf;
        ghost var all := left;
        hide Coupled, RowsSound, NoDup, Elements, ExecutionsOf;
        CursorStart(db, all);
        while left != {}
          invariant left <= all
          invariant NoDup(rows) && Elements(rows) == ExecutionsOf(db, all - left)
          decreases |left|
        {
          var q :| q in left;
          CursorStep(db, all, left, q, rows);
          rows := rows + [queue[q].execution];
          left := left - {q};
        }
        assert all - left == all;
        CursorEnd(db, wf, all);
      } else {
        assert QueuedOf(View(), wf) == {};
      }
    }

    method CancelQueuedExecutions(wf: string, message: string, now: Time) returns (ids: seq<nat>)
      requires Valid()
      modifies this
      ensures Valid()
      ensures NoDup(ids) && Elements(ids) == QueuedOf(old(View()), wf)
      ensures View() == Cancel(old(View()), wf, message, now)
      ensures CancelledNow(old(View()), View(), wf, message, now)
      ensures forall e :: e in ids <==> WasQueued(old(View()), wf, e)
    {
      hide Coupled, RowsSound, NoDup, Elements, Cancel, QueuedOf, QueuedIds, CancelledNow, WasQueued;
      ghost var before := View();
      CancelCoupled(before, wf, message, now);
      CoupledRows(before);
      var rows := ListQueued(wf);
      CancelStart(before, wf, message, now);
      queue := map q | q in queue && queue[q].workflow != wf :: queue[q];
      ids := [];
      var i := 0;
      hide Cancelling;
      while i < |rows|
        invariant 0 <= i <= |rows| && ids == rows[..i]
        invariant View() == Cancelling(before, wf, Elements(rows[..i]), message, now)
      {
        var e := rows[i];
        NoDupTake(rows, i);
        CancelStep(before, wf, Elements(rows[..i]), e, message, now);
        CompleteExecution(e, Error, CancelReport(workflows[wf], message), now);
        ids := ids + [e];
        i := i + 1;
      }
      assert rows[..i] == rows;
      CancelEnd(before, wf, message, now);
      CancelledMean(before, wf, message, now);
      assert forall e :: e in ids <==> e in Elements(ids) by { ElementsAre(ids); }
    }

    method ListStale() returns (rows: seq<nat>)
      ensures NoDup(rows) && Elements(rows) == StaleIds(View())
    {
      rows := [];
      var left := set e | e in executions && executions[e].status == Running && executions[e].workflow in workflows;
      ghost var all := left;
      while left != {}
        invariant left <= all && NoDup(rows) && Elements(rows) == all - left
        decreases |left|
      {
        var e :| e in left;
        NoDupAppend(rows, e);
        rows := rows + [e];
        left := left - {e};
      }
    }

    /** The boot repair: afterwards nothing is running and nothing else has changed. */
    method MarkStaleRunningExecutions(message: string, clock: nat -> Time)
      requires Valid()
      modifies this
      ensures Valid()
      ensures View() == Repaired(old(View()), StaleIds(old(View())), message, clock)
      ensures forall e :: e in executions ==> executions[e].status != Running
      ensures RepairedNow(old(View()), View(), message, clock)
    {
      ghost var before := View();
      RepairedMean(before, message, clock);
      hide RepairedNow;
      var rows := ListStale();
      var i := 0;
      while i < |rows|
        invariant 0 <= i <= |rows| && Valid()
        invariant View() == Repaired(before, Elements(rows[..i]), message, clock)
      {
        var e := rows[i];
        NoDupTake(rows, i);
        RepairStep(before, Elements(rows[..i]), e, message, clock);
        CompleteExecution(e, Error, StaleReport(workflows[executions[e].workflow], message), clock(e));
        i := i + 1;
      }
      assert rows[..i] == rows;
    }

    method DeleteExecutionsOlderThan(cutoff: Time)
      requires Valid()
      modifies this
      ensures Valid()
      ensures executions == ByAge(old(executions), Some(cutoff))
      ensures View() == old(View()).(executions := executions)
      ensures YoungerOnly(old(executions), executions, cutoff)
    {
      var gone := OlderIds(executions, cutoff);
      SoundRows(View());
      AgeMeans(executions, cutoff);
      OlderGone(executions, cutoff);
      DeleteFinishedCoupled(View(), gone);
      hide YoungerOnly, Coupled, OlderIds, ByAge;
      executions := executions - gone;
      queue := map q | q in queue && queue[q].execution !in gone :: queue[q];
    }

    method DeleteExecutionOverflowByWorkflow(wf: string, keep: nat)
      requires Valid()
      modifies this
      ensures Valid()
      ensures executions == old(executions) - OverflowIds(old(executions), wf, keep)
      ensures View() == old(View()).(executions := executions)
      ensures NewestOnly(old(executions), executions, wf, keep)
    {
      var gone := OverflowIds(executions, wf, keep);
      OverflowSize(executions, wf, keep);
      OverflowMeans(executions, wf, keep);
      hide NewestOnly;
      DeleteFinishedCoupled(View(), gone);
      executions := executions - gone;
      queue := map q | q in queue && queue[q].execution !in gone :: queue[q];
    }

    method TrimAll(keep: nat)
      requires Valid()
      modifies this
      ensures Valid()
      ensures executions == ByCount(old(executions), Some(keep))
      ensures View() == old(View()).(executions := executions)
    {
      ghost var aged := executions;
      var left := workflows.Keys;
      TrimNone(aged, keep);
      while left != {}
        invariant left <= workflows.Keys && Valid()
        invariant View() == old(View()).(executions := executions)
        invariant executions == Trimmed(aged, workflows.Keys - left, keep)
        decreases |left|
      {
        var wf :| wf in left;
        TrimOne(aged, workflows.Keys - left, wf, keep);
        DeleteExecutionOverflowByWorkflow(wf, keep);
        assert workflows.Keys - (left - {wf}) == (workflows.Keys - left) + {wf};
        left := left - {wf};
      }
      TrimEvery(aged, workflows.Keys - left, keep);
    }

    /** Exactly the executions that are not finished, or are among the newest of their workflow
        and not older than the cutoff, survive; the queue and everything else is untouched. */
    method ApplyRetention(maxExecutions: int, maxDays: int, now: Time)
      requires Valid()
      modifies this
      ensures Valid()
      ensures executions == Retained(old(executions), LimitsFor(maxExecutions, maxDays, now))
      ensures View() == old(View()).(executions := executions)
      ensures KeptByOptions(old(executions), executions, maxExecutions, maxDays, now)
      ensures maxDays <= 0 && maxExecutions <= 0 ==> executions == old(executions)
    {
      ghost var before := executions;
      SoundRows(View());
      hide Coupled, RowShape, ByAge, ByCount, Retained, KeptByOptions, YoungerOnly, LimitsFor;
      TwoDeletes(before, maxExecutions, maxDays, now);
      ghost var aged := if maxDays > 0 then ByAge(before, Some(now - maxDays * DAY)) else before;
      if maxDays > 0 {
        DeleteExecutionsOlderThan(now - maxDays * DAY);
      }
      assert executions == aged;
      if maxExecutions > 0 {
        TrimAll(maxExecutions);
      }
    }

    method DeleteWorkflow(wf: string)
      requires Valid()
      modifies this
      ensures Valid() && View() == Tables.DeleteWorkflow(old(View()), wf)
      ensures forall e :: e in executions <==> e in old(executions) && old(executions)[e].workflow != wf
      ensures forall e :: e in executions ==> executions[e] == old(executions)[e]
      ensures forall q :: q in queue <==> q in old(queue) && old(queue)[q].workflow != wf
      ensures forall q :: q in queue ==> queue[q] == old(queue)[q]
      ensures workflows == old(workflows) - {wf}
    {
      hide Coupled, QueuedOf, QueuedIds;
      DeleteWorkflowCoupled(View(), wf);
      CascadeRows(View(), wf);
      var gone := set e | e in executions && executions[e].workflow == wf;
      queue := map q | q in queue && queue[q].workflow != wf && queue[q].execution !in gone :: queue[q];
      executions := map e | e in executions && executions[e].workflow != wf :: executions[e];
      workflows := workflows - {wf};
      assert View().queue == Tables.DeleteWorkflow(old(View()), wf).queue;
    }
  }

  /** The two cascades into the queue agree: a row goes exactly when its workflow does. */
  lemma CascadeRows(db: Db, wf: string)
    requires Coupled(db)
    ensures forall q :: q in Tables.DeleteWorkflow(db, wf).queue <==> q in db.queue && db.queue[q].workflow != wf
  {
  }

  lemma NoLimit(executions: map<nat, Execution>)
    ensures ByAge(executions, None) == executions
    ensures ByCount(executions, None) == executions
  {
  }

  /** The table after the overflow delete has run for the workflows in `done`. */
  ghost function Trimmed(executions: map<nat, Execution>, done: set<string>, keep: nat): map<nat, Execution> {
    map e | e in executions && (executions[e].workflow in done ==>
      Survives(executions, e, Limits(None, Some(keep)))) :: executions[e]
  }

  lemma TrimNone(executions: map<nat, Execution>, keep: nat)
    ensures Trimmed(executions, {}, keep) == executions
  {
  }

  lemma TrimEvery(executions: map<nat, Execution>, done: set<string>, keep: nat)
    requires forall e :: e in executions ==> executions[e].workflow in done
    ensures Trimmed(executions, done, keep) == ByCount(executions, Some(keep))
  {
  }

  lemma TrimKeepsOthers(executions: map<nat, Execution>, done: set<string>, wf: string, keep: nat, e: nat)
    requires wf !in done && e in executions && executions[e].workflow == wf
    ensures e in Trimmed(executions, done, keep)
    ensures Rank(Trimmed(executions, done, keep), e) == Rank(executions, e)
  {
    var now := Trimmed(executions, done, keep);
    assert Ahead(now, FinishedOf(now, wf), e) == Ahead(executions, FinishedOf(executions, wf), e);
  }

  lemma TrimOneRow(executions: map<nat, Execution>, done: set<string>, wf: string, keep: nat, e: nat)
    requires wf !in done
    ensures var now := Trimmed(executions, done, keep);
      e in now - OverflowIds(now, wf, keep) <==> e in Trimmed(executions, done + {wf}, keep)
  {
    var now := Trimmed(executions, done, keep);
    if e in now {
      OverflowIsRank(now, wf, keep, e);
      if now[e].workflow == wf {
        TrimKeepsOthers(executions, done, wf, keep, e);
      }
    }
  }

  lemma TrimOne(executions: map<nat, Execution>, done: set<string>, wf: string, keep: nat)
    requires wf !in done
    ensures var now := Trimmed(executions, done, keep);
      now - OverflowIds(now, wf, keep) == Trimmed(executions, done + {wf}, keep)
  {
    var now := Trimmed(executions, done, keep);
    forall e ensures e in now - OverflowIds(now, wf, keep) <==> e in Trimmed(executions, done + {wf}, keep) {
      TrimOneRow(executions, done, wf, keep, e);
    }
  }
}
