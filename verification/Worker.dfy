/** The inner loop of one worker wake-up, with nobody else touching the queue meanwhile. */
module Workers {
  import opened Base
  import opened Reports
  import opened Tables
  import opened Stores

  ghost predicate InOrder(db: Db, rows: seq<nat>) {
    && (forall q :: q in rows ==> q in db.queue)
    && forall i, j :: 0 <= i < j < |rows| ==>
       Before(db.queue[rows[i]].queuedAt, rows[i], db.queue[rows[j]].queuedAt, rows[j])
  }

  /** The database once the queue rows in `log` have been claimed, run and completed;
      `log` maps an execution to the two clock readings its run took. */
  ghost function Drained(db: Db, done: set<nat>, log: map<nat, (Time, Time)>, engine: nat -> Report): Db {
    db.(queue := db.queue - done,
        executions := map e | e in db.executions ::
          if e in log
          then Finish(db.executions[e].(startedAt := Some(log[e].0)), engine(e).status, engine(e), log[e].1)
          else db.executions[e])
  }

  /** One turn of the loop, on an execution that no earlier turn has run. */
  function Turn(db: Db, q: nat, report: Report, started: Time, finished: Time): Db
    requires q in db.queue
  {
    Complete(Claim(db, q, started), db.queue[q].execution, report.status, report, finished)
  }

  lemma TurnCoupled(db: Db, q: nat, report: Report, started: Time, finished: Time)
    requires Coupled(db) && q in db.queue && report.status.Finished()
    ensures Coupled(Turn(db, q, report, started, finished))
  {
    ClaimCoupled(db, q, started);
    CompleteCoupled(Claim(db, q, started), db.queue[q].execution, report.status, report, finished);
  }

  lemma TurnDrains(db: Db, done: set<nat>, log: map<nat, (Time, Time)>, engine: nat -> Report,
                   q: nat, started: Time, finished: Time)
    requires q in db.queue && q !in done
    requires db.queue[q].execution in db.executions && db.queue[q].execution !in log
    ensures var e := db.queue[q].execution;
      Turn(Drained(db, done, log, engine), q, engine(e), started, finished)
      == Drained(db, done + {q}, log[e := (started, finished)], engine)
  {
    var e := db.queue[q].execution;
    var next := Turn(Drained(db, done, log, engine), q, engine(e), started, finished);
    var goal := Drained(db, done + {q}, log[e := (started, finished)], engine);
    assert next.queue == goal.queue;
    assert next.executions == goal.executions;
  }

  /** What holds at every head of the loop. */
  ghost predicate Progress(db: Db, now: Db, wf: string, engine: nat -> Report,
                           claimed: seq<nat>, done: set<nat>, log: map<nat, (Time, Time)>) {
    && done <= QueueOf(db, wf)
    && NoDup(claimed) && Elements(claimed) == done && InOrder(db, claimed)
    && (forall p, q :: p in done && q in QueueOf(db, wf) - done ==>
       Before(db.queue[p].queuedAt, p, db.queue[q].queuedAt, q))
    && log.Keys == ExecutionsOf(db, done)
    && now == Drained(db, done, log, engine)
  }

  lemma ProgressStart(db: Db, wf: string, engine: nat -> Report)
    ensures Progress(db, db, wf, engine, [], {}, map[])
  {
    assert Drained(db, {}, map[], engine).executions == db.executions;
    assert Drained(db, {}, map[], engine).queue == db.queue;
  }

  /** The next row comes before every other row that is left. */
  lemma NextIsAhead(db: Db, now: Db, wf: string, done: set<nat>, log: map<nat, (Time, Time)>,
      engine: nat -> Report, q: nat)
    requires now == Drained(db, done, log, engine) && IsNext(now, wf, q) && done <= QueueOf(db, wf)
    requires forall p, r :: p in done && r in QueueOf(db, wf) - done ==>
      Before(db.queue[p].queuedAt, p, db.queue[r].queuedAt, r)
    ensures forall p, r :: p in done + {q} && r in QueueOf(db, wf) - (done + {q}) ==>
      Before(db.queue[p].queuedAt, p, db.queue[r].queuedAt, r)
  {
    forall p, r | p in done + {q} && r in QueueOf(db, wf) - (done + {q})
      ensures Before(db.queue[p].queuedAt, p, db.queue[r].queuedAt, r)
    {
      assert r in now.queue;
    }
  }

  lemma ProgressStep(db: Db, now: Db, wf: string, engine: nat -> Report, claimed: seq<nat>, done: set<nat>,
                     log: map<nat, (Time, Time)>, q: nat, started: Time, finished: Time)
    requires RowsSound(db) && Progress(db, now, wf, engine, claimed, done, log) && IsNext(now, wf, q)
    ensures now.queue[q] == db.queue[q]
    ensures var e := db.queue[q].execution;
      Progress(db, Turn(now, q, engine(e), started, finished), wf, engine,
               claimed + [q], done + {q}, log[e := (started, finished)])
  {
    assert q in QueueOf(db, wf) && q !in done;
    hide IsNext, Drained, Turn, Before, NoDup, InOrder, ExecutionsOf, Complete, Claim;
    ExecutionsOfAdd(db, done, q);
    TurnDrains(db, done, log, engine, q, started, finished);
    NoDupAppend(claimed, q);
    ExtendOrder(db, claimed, q);
    NextIsAhead(db, now, wf, done, log, engine, q);
  }

  /** Every queued execution of the workflow started and finished at the two readings its run took, with the
      status and report the engine gave it; every other row is as it was. */
  ghost predicate EachRan(before: Db, after: Db, wf: string, engine: nat -> Report, log: map<nat, (Time, Time)>) {
    && after == before.(queue := after.queue, executions := after.executions)
    && after.queue == (map q | q in before.queue && before.queue[q].workflow != wf :: before.queue[q])
    && after.executions.Keys == before.executions.Keys
    && (forall e :: e in log <==>
          exists q :: q in before.queue && before.queue[q].workflow == wf && before.queue[q].execution == e)
    && forall e :: e in before.executions ==>
         var x := before.executions[e];
         after.executions[e] ==
           if e in log
           then Execution(x.workflow, x.trigger, engine(e).status, x.queuedAt, Some(log[e].0), Some(log[e].1),
             Some(engine(e)))
           else x
  }

  lemma DrainedMeans(db: Db, wf: string, engine: nat -> Report, claimed: seq<nat>, log: map<nat, (Time, Time)>)
    requires Progress(db, Drained(db, QueueOf(db, wf), log, engine), wf, engine, claimed, QueueOf(db, wf), log)
    ensures EachRan(db, Drained(db, QueueOf(db, wf), log, engine), wf, engine, log)
  {
    var r := Drained(db, QueueOf(db, wf), log, engine);
    assert r.queue == map q | q in db.queue && db.queue[q].workflow != wf :: db.queue[q];
    forall e ensures e in log <==> exists q ::
      q in db.queue && db.queue[q].workflow == wf && db.queue[q].execution == e {
      assert e in log <==> e in ExecutionsOf(db, QueueOf(db, wf));
    }
    hide InOrder, NoDup, Elements, Before;
  }

  lemma NoRows(db: Db, wf: string)
    requires !HasQueued(db, wf)
    ensures QueueOf(db, wf) == {}
  {
  }

  lemma ProgressEnd(db: Db, now: Db, wf: string, engine: nat -> Report, claimed: seq<nat>, done: set<nat>,
                    log: map<nat, (Time, Time)>)
    requires Progress(db, now, wf, engine, claimed, done, log) && !HasQueued(now, wf)
    ensures done == QueueOf(db, wf)
  {
    NoRows(now, wf);
    assert QueueOf(now, wf) == QueueOf(db, wf) - done;
    assert QueueOf(db, wf) == done + (QueueOf(db, wf) - done);
  }

  /** Every queued row of the workflow is claimed exactly once, in (queued_at, id) order, and ends finished
      with its own report; the loop stops because the queue runs dry.  `engine` gives the report of the one
      run each execution gets; the clock may read anything. */
  method DrainQueue(store: Store, wf: string, engine: nat -> Report)
    returns (claimed: seq<nat>, ghost log: map<nat, (Time, Time)>)
    requires store.Valid() && forall e :: engine(e).status.Finished()
    modifies store
    ensures store.Valid()
    ensures NoDup(claimed) && Elements(claimed) == QueueOf(old(store.View()), wf)
    ensures InOrder(old(store.View()), claimed)
    ensures log.Keys == ExecutionsOf(old(store.View()), QueueOf(old(store.View()), wf))
    ensures store.View() == Drained(old(store.View()), QueueOf(old(store.View()), wf), log, engine)
    ensures EachRan(old(store.View()), store.View(), wf, engine, log)
    ensures !HasQueued(store.View(), wf)
  {
    ghost var before := store.View();
    hide EachRan;
    claimed, log := [], map[];
    ghost var done: set<nat> := {};
    ProgressStart(before, wf, engine);
    while true
      invariant store.Valid() && Progress(before, store.View(), wf, engine, claimed, done, log)
      decreases QueueOf(before, wf) - done
    {
      var started: Time, finished: Time := *, *;
      ghost var now := store.View();
      var item := store.ClaimNextQueueItem(wf, started);
      if item.None? {
        ProgressEnd(before, now, wf, engine, claimed, done, log);
        DrainedMeans(before, wf, engine, claimed, log);
        break;
      }
      var q, e := item.value.0, item.value.1.execution;
      ProgressStep(before, now, wf, engine, claimed, done, log, q, started, finished);
      TurnCoupled(now, q, engine(e), started, finished);
      store.CompleteExecution(e, engine(e).status, engine(e), finished);
      log := log[e := (started, finished)];
      claimed := claimed + [q];
      done := done + {q};
    }
  }

  lemma ExtendOrder(db: Db, rows: seq<nat>, q: nat)
    requires InOrder(db, rows) && q in db.queue
    requires forall p :: p in Elements(rows) ==> Before(db.queue[p].queuedAt, p, db.queue[q].queuedAt, q)
    ensures InOrder(db, rows + [q])
  {
    assert forall i :: 0 <= i < |rows| ==> rows[i] in Elements(rows);
  }

  /** While the clock does not go back, queue order is insertion order. */
  lemma InsertionOrder(db: Db, rows: seq<nat>)
    requires InOrder(db, rows) && NoDup(rows)
    requires forall p, q :: p in db.queue && q in db.queue && p < q ==> db.queue[p].queuedAt <= db.queue[q].queuedAt
    ensures forall i, j :: 0 <= i < j < |rows| ==> rows[i] < rows[j]
  {
    forall i, j | 0 <= i < j < |rows| ensures rows[i] < rows[j] {
      assert rows[i] in db.queue && rows[j] in db.queue;
    }
  }

  /** enqueueExecution with nobody else at the queue: refused exactly when the workflow is stopping, its queue
      is full or it is gone, and otherwise one more row, so that the queue never passes the limit. */
  method EnqueueExecution(store: Store, accepting: bool, wf: string, trigger: string, limit: nat, now: Time)
      returns (r: Option<nat>)
    requires store.Valid()
    modifies store
    ensures store.Valid()
    ensures r.None? <==> !accepting || limit <= |QueueOf(old(store.View()), wf)| || wf !in old(store.workflows)
    ensures r.None? ==> store.View() == old(store.View())
    ensures r.Some? ==>
      r.value == old(store.nextExecution) && Some(store.View()) == Create(old(store.View()), wf, trigger, now)
    ensures r.Some? ==> BothInserted(old(store.View()), store.View(), r.value, wf, trigger, now)
    ensures r.Some? ==> |QueueOf(store.View(), wf)| == |QueueOf(old(store.View()), wf)| + 1 <= limit
  {
    if !accepting {
      return None;
    }
    var count := store.QueueCount(wf);
    if count >= limit {
      return None;
    }
    ghost var before := store.View();
    r := store.CreateQueuedExecution(wf, trigger, now);
    if r.Some? {
      OneMoreRow(before, store.View(), wf, trigger, now);
    }
  }

  lemma OneMoreRow(db: Db, more: Db, wf: string, trigger: string, now: Time)
    requires Coupled(db) && Some(more) == Create(db, wf, trigger, now)
    ensures |QueueOf(more, wf)| == |QueueOf(db, wf)| + 1
  {
    assert db.nextQueue !in db.queue;
    assert more.queue == db.queue[db.nextQueue := more.queue[db.nextQueue]] && more.queue[db.nextQueue].workflow == wf;
    hide Coupled, Create;
    assert QueueOf(more, wf) == QueueOf(db, wf) + {db.nextQueue};
  }
}
