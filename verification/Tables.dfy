/** The four-table database of the daemon as a value, and every SQL transaction of the
    execution queue as a function on it.  Foreign keys cascade and AUTOINCREMENT keys
    are never handed out twice, as the schema declares. */
module Tables {
  import opened Base
  import opened Reports

  type Time = int

  datatype Workflow = Workflow(name: string, version: string, active: bool)

  datatype Execution = Execution(workflow: string, trigger: string, status: Status, queuedAt: Time,
                                 startedAt: Option<Time>, finishedAt: Option<Time>,
                                 report: Option<Report>)

  datatype QueueRow = QueueRow(execution: nat, workflow: string, trigger: string, queuedAt: Time)

  datatype Db = Db(workflows: map<string, Workflow>, executions: map<nat, Execution>,
                   queue: map<nat, QueueRow>, nextExecution: nat, nextQueue: nat)

  const EMPTY := Db(map[], map[], map[], 0, 0)

  // ---------------------------------------------------------------- invariant

  /** What the columns of one execution row say about each other. */
  predicate RowShape(x: Execution) {
    match x.status
    case Queued => x.startedAt.None? && x.finishedAt.None? && x.report.None?
    case Running => x.startedAt.Some? && x.finishedAt.None? && x.report.None?
    case _ => x.finishedAt.Some? && x.report.Some? && x.report.value.status == x.status
  }

  ghost predicate HasRow(db: Db, e: nat) {
    exists q :: q in db.queue && db.queue[q].execution == e
  }

  ghost predicate RowsSound(db: Db) {
    && (forall q :: q in db.queue ==>
          && q < db.nextQueue
          && db.queue[q].execution in db.executions
          && db.executions[db.queue[q].execution].status == Queued
          && db.executions[db.queue[q].execution].workflow == db.queue[q].workflow)
    && (forall p, q :: p in db.queue && q in db.queue && db.queue[p].execution == db.queue[q].execution ==> p == q)
  }

  ghost predicate ExecutionsSound(db: Db) {
    forall e :: e in db.executions ==>
      && e < db.nextExecution
      && db.executions[e].workflow in db.workflows
      && RowShape(db.executions[e])
  }

  ghost predicate QueuedHaveRows(db: Db) {
    forall e :: e in db.executions && db.executions[e].status == Queued ==> HasRow(db, e)
  }

  /** An execution is `queued` iff exactly one queue row points at it, with the same workflow. */
  ghost predicate Coupled(db: Db) {
    RowsSound(db) && ExecutionsSound(db) && QueuedHaveRows(db)
  }

  ghost function QueuedIds(db: Db): set<nat> {
    set q | q in db.queue :: db.queue[q].execution
  }

  /** The queue rows of one workflow. */
  ghost function QueueOf(db: Db, wf: string): set<nat> {
    set q | q in db.queue && db.queue[q].workflow == wf
  }

  // ---------------------------------------------------------------- transactions

  /** CreateQueuedExecution: one execution row and one queue row, or a foreign-key failure. */
  function Create(db: Db, wf: string, trigger: string, now: Time): (r: Option<Db>)
    ensures r.Some? <==> wf in db.workflows
  {
    if wf !in db.workflows then None
    else
      var x := Execution(wf, trigger, Queued, now, None, None, None);
      Some(db.(executions := db.executions[db.nextExecution := x],
               queue := db.queue[db.nextQueue := QueueRow(db.nextExecution, wf, trigger, now)],
               nextExecution := db.nextExecution + 1,
               nextQueue := db.nextQueue + 1))
  }

  predicate Before(a: Time, i: nat, b: Time, j: nat) {
    a < b || (a == b && i <= j)
  }

  /** `q` is the row that ORDER BY queued_at, id LIMIT 1 selects for the workflow. */
  ghost predicate IsNext(db: Db, wf: string, q: nat) {
    && q in db.queue && db.queue[q].workflow == wf
    && forall p :: p in db.queue && db.queue[p].workflow == wf ==>
       Before(db.queue[q].queuedAt, q, db.queue[p].queuedAt, p)
  }

  predicate HasQueued(db: Db, wf: string) {
    exists q :: q in db.queue && db.queue[q].workflow == wf
  }

  /** MarkExecutionRunning, an unconditional UPDATE by id. */
  function MarkRunning(executions: map<nat, Execution>, e: nat, now: Time): map<nat, Execution> {
    if e in executions
    then executions[e := executions[e].(status := Running, startedAt := Some(now), finishedAt := None)]
    else executions
  }

  /** ClaimNextQueueItem on the selected row. */
  function Claim(db: Db, q: nat, now: Time): Db
    requires q in db.queue
  {
    db.(queue := db.queue - {q}, executions := MarkRunning(db.executions, db.queue[q].execution, now))
  }

  function Finish(x: Execution, status: Status, report: Report, now: Time): Execution {
    x.(status := status, finishedAt := Some(now), report := Some(report))
  }

  /** CompleteExecution, an unconditional UPDATE by id. */
  function Complete(db: Db, e: nat, status: Status, report: Report, now: Time): Db {
    if e in db.executions
    then db.(executions := db.executions[e := Finish(db.executions[e], status, report, now)])
    else db
  }

  /** The executions ListQueuedExecutionVersionsByWorkflow returns: an inner join with workflows. */
  ghost function QueuedOf(db: Db, wf: string): set<nat> {
    set q | q in db.queue && db.queue[q].workflow == wf && wf in db.workflows :: db.queue[q].execution
  }

  function CancelReport(w: Workflow, message: string): Report {
    ErrorReport(w.name, w.version, "generic", message)
  }

  /** CancelQueuedExecutions. */
  ghost function Cancel(db: Db, wf: string, message: string, now: Time): Db {
    var ids := QueuedOf(db, wf);
    db.(queue := map q | q in db.queue && db.queue[q].workflow != wf :: db.queue[q],
        executions := map e | e in db.executions ::
          if e in ids then Finish(db.executions[e], Error, CancelReport(db.workflows[wf], message), now)
          else db.executions[e])
  }

  function StaleReport(w: Workflow, message: string): Report {
    ErrorReport(w.name, w.version, "runtime", message)
  }

  /** The rows ListStaleRunningExecutions returns. */
  ghost function StaleIds(db: Db): set<nat> {
    set e | e in db.executions && db.executions[e].status == Running && db.executions[e].workflow in db.workflows
  }

  /** DELETE FROM workflows, with ON DELETE CASCADE into executions and queue. */
  function DeleteWorkflow(db: Db, wf: string): Db {
    db.(workflows := db.workflows - {wf},
        executions := map e | e in db.executions && db.executions[e].workflow != wf :: db.executions[e],
        queue := map q | q in db.queue && db.queue[q].workflow != wf
                      && !(db.queue[q].execution in db.executions
                         && db.executions[db.queue[q].execution].workflow == wf)
                   :: db.queue[q])
  }

  function UpsertWorkflow(db: Db, wf: string, w: Workflow): Db {
    db.(workflows := db.workflows[wf := w])
  }

  /** UPDATE workflows SET status, which affects no row when the workflow is gone. */
  function SetActive(db: Db, wf: string, active: bool): Db {
    if wf in db.workflows then db.(workflows := db.workflows[wf := db.workflows[wf].(active := active)]) else db
  }

  /** DELETE FROM executions by id, with ON DELETE CASCADE into queue. */
  function DeleteExecutions(db: Db, gone: set<nat>): Db {
    db.(executions := db.executions - gone,
        queue := map q | q in db.queue && db.queue[q].execution !in gone :: db.queue[q])
  }

  // ---------------------------------------------------------------- every transaction keeps the coupling

  lemma CreateQueues(db: Db, wf: string, trigger: string, now: Time)
    requires RowsSound(db) && wf in db.workflows
    ensures QueuedIds(Create(db, wf, trigger, now).value) == QueuedIds(db) + {db.nextExecution}
  {
    var d := Create(db, wf, trigger, now).value;
    forall e | e in QueuedIds(db) + {db.nextExecution} ensures e in QueuedIds(d) {
      if e == db.nextExecution {
        assert d.queue[db.nextQueue].execution == e;
      } else {
        var q :| q in db.queue && db.queue[q].execution == e;
        assert d.queue[q].execution == e;
      }
    }
  }

  lemma CreateCoupled(db: Db, wf: string, trigger: string, now: Time)
    requires Coupled(db) && wf in db.workflows
    ensures Coupled(Create(db, wf, trigger, now).value)
    ensures QueuedIds(Create(db, wf, trigger, now).value) == QueuedIds(db) + {db.nextExecution}
  {
    var d := Create(db, wf, trigger, now).value;
    CreateQueues(db, wf, trigger, now);
    hide QueuedIds;
    forall e | e in d.executions && d.executions[e].status == Queued
      ensures HasRow(d, e)
    {
      if e == db.nextExecution {
        assert d.queue[db.nextQueue].execution == e;
      } else {
        var q :| q in db.queue && db.queue[q].execution == e;
        assert d.queue[q].execution == e;
      }
    }
  }

  lemma ClaimCoupled(db: Db, q: nat, now: Time)
    requires Coupled(db) && q in db.queue
    ensures Coupled(Claim(db, q, now))
    ensures QueuedIds(Claim(db, q, now)) == QueuedIds(db) - {db.queue[q].execution}
  {
    var d := Claim(db, q, now);
    var c := db.queue[q].execution;
    forall e | e in d.executions && d.executions[e].status == Queued
      ensures HasRow(d, e)
    {
      assert HasRow(db, e);
      var p :| p in db.queue && db.queue[p].execution == e;
      assert d.queue[p].execution == e;
    }
    forall e | e in QueuedIds(db) - {c} ensures e in QueuedIds(d) {
      var p :| p in db.queue && db.queue[p].execution == e;
      assert p in d.queue;
    }
  }

  lemma CompleteCoupled(db: Db, e: nat, status: Status, report: Report, now: Time)
    requires Coupled(db) && status.Finished() && report.status == status
    requires e in db.executions ==> db.executions[e].status == Running
    ensures Coupled(Complete(db, e, status, report, now))
    ensures QueuedIds(Complete(db, e, status, report, now)) == QueuedIds(db)
  {
    var d := Complete(db, e, status, report, now);
    forall x | x in d.executions && d.executions[x].status == Queued ensures HasRow(d, x) {
      assert HasRow(db, x);
      var p :| p in db.queue && db.queue[p].execution == x;
      assert d.queue[p].execution == x;
    }
  }

  lemma CancelKeepsRows(db: Db, wf: string, message: string, now: Time)
    requires RowsSound(db) && ExecutionsSound(db)
    ensures RowsSound(Cancel(db, wf, message, now)) && ExecutionsSound(Cancel(db, wf, message, now))
  {
  }

  lemma CancelEmpties(db: Db, wf: string, message: string, now: Time)
    requires Coupled(db)
    ensures QueuedIds(Cancel(db, wf, message, now)) == QueuedIds(db) - QueuedOf(db, wf)
  {
    var d := Cancel(db, wf, message, now);
    forall e | e in QueuedIds(db) - QueuedOf(db, wf) ensures e in QueuedIds(d) {
      var p :| p in db.queue && db.queue[p].execution == e;
      assert p in d.queue;
    }
  }

  lemma CancelCoupled(db: Db, wf: string, message: string, now: Time)
    requires Coupled(db)
    ensures Coupled(Cancel(db, wf, message, now))
    ensures QueuedIds(Cancel(db, wf, message, now)) == QueuedIds(db) - QueuedOf(db, wf)
  {
    var d := Cancel(db, wf, message, now);
    CancelKeepsRows(db, wf, message, now);
    CancelEmpties(db, wf, message, now);
    hide RowsSound, ExecutionsSound, QueuedIds;
    forall x | x in d.executions && d.executions[x].status == Queued ensures HasRow(d, x) {
      assert HasRow(db, x);
      var p :| p in db.queue && db.queue[p].execution == x;
      assert x !in QueuedOf(db, wf);
      assert p in d.queue && d.queue[p].execution == x;
    }
  }

  lemma DeleteWorkflowCoupled(db: Db, wf: string)
    requires Coupled(db)
    ensures Coupled(DeleteWorkflow(db, wf))
    ensures QueuedIds(DeleteWorkflow(db, wf)) == QueuedIds(db) - QueuedOf(db, wf)
  {
    var d := DeleteWorkflow(db, wf);
    forall x | x in d.executions && d.executions[x].status == Queued ensures HasRow(d, x) {
      assert HasRow(db, x);
      var p :| p in db.queue && db.queue[p].execution == x;
      assert p in d.queue && d.queue[p].execution == x;
    }
    forall e | e in QueuedIds(db) - QueuedOf(db, wf) ensures e in QueuedIds(d) {
      var p :| p in db.queue && db.queue[p].execution == e;
      assert p in d.queue;
    }
  }

  lemma DeleteFinishedCoupled(db: Db, gone: set<nat>)
    requires Coupled(db)
    requires forall e :: e in gone && e in db.executions ==> db.executions[e].status.Finished()
    ensures Coupled(DeleteExecutions(db, gone))
    ensures DeleteExecutions(db, gone).queue == db.queue
  {
    var d := DeleteExecutions(db, gone);
    assert d.queue == db.queue;
    forall x | x in d.executions && d.executions[x].status == Queued ensures HasRow(d, x) {
      assert HasRow(db, x);
      var p :| p in db.queue && db.queue[p].execution == x;
      assert d.queue[p].execution == x;
    }
  }

  lemma WorkflowWriteCoupled(db: Db, d: Db)
    requires Coupled(db) && d == db.(workflows := d.workflows) && db.workflows.Keys <= d.workflows.Keys
    ensures Coupled(d) && QueuedIds(d) == QueuedIds(db)
  {
    forall x | x in d.executions && d.executions[x].status == Queued ensures HasRow(d, x) {
      assert HasRow(db, x);
      var p :| p in db.queue && db.queue[p].execution == x;
      assert d.queue[p].execution == x;
    }
  }

  // ---------------------------------------------------------------- what no transaction does

  /** Ids are not reused, deleted rows do not come back, and finished rows keep every column. */
  ghost predicate Ages(d: Db, r: Db) {
    && d.nextExecution <= r.nextExecution
    && forall e :: e in r.executions && e < d.nextExecution ==>
         e in d.executions && (d.executions[e].status.Finished() ==> r.executions[e] == d.executions[e])
  }

  lemma AgesTransitive(a: Db, b: Db, c: Db)
    requires Ages(a, b) && Ages(b, c)
    ensures Ages(a, c)
  {
  }
}
