/** Retention of finished executions: the two DELETE statements as the SQL states them,
    and the declarative reading "among the K newest of its workflow and not too old". */
module Retention {
  import opened Base
  import opened Reports
  import opened Tables

  // ---------------------------------------------------------------- the two statements

  /** DeleteExecutionsOlderThan. */
  function OlderIds(executions: map<nat, Execution>, cutoff: Time): set<nat> {
    set e | e in executions && executions[e].status.Finished()
            && executions[e].finishedAt.Some? && executions[e].finishedAt.value < cutoff
  }

  /** COALESCE(finished_at, started_at, queued_at). */
  function Stamp(x: Execution): Time {
    match x.finishedAt
    case Some(t) => t
    case None => match x.startedAt
      case Some(t) => t
      case None => x.queuedAt
  }

  /** `f` comes strictly before `e` in ORDER BY stamp DESC, id DESC. */
  predicate Newer(executions: map<nat, Execution>, f: nat, e: nat)
    requires f in executions && e in executions
  {
    Stamp(executions[f]) > Stamp(executions[e])
    || (Stamp(executions[f]) == Stamp(executions[e]) && f > e)
  }

  function FinishedOf(executions: map<nat, Execution>, wf: string): set<nat> {
    set e | e in executions && executions[e].workflow == wf && executions[e].status.Finished()
  }

  predicate IsNewest(executions: map<nat, Execution>, ids: set<nat>, e: nat)
    requires ids <= executions.Keys
  {
    e in ids && forall f :: f in ids && f != e ==> Newer(executions, e, f)
  }

  lemma {:induction false} NewestExists(executions: map<nat, Execution>, ids: set<nat>)
    requires ids <= executions.Keys && ids != {}
    ensures exists e :: IsNewest(executions, ids, e)
    decreases |ids|
  {
    var x :| x in ids;
    var rest := ids - {x};
    assert ids == rest + {x};
    if rest == {} {
      assert IsNewest(executions, ids, x);
    } else {
      NewestExists(executions, rest);
      var y :| IsNewest(executions, rest, y);
      assert IsNewest(executions, ids, if Newer(executions, x, y) then x else y);
    }
  }

  function Newest(executions: map<nat, Execution>, ids: set<nat>): (e: nat)
    requires ids <= executions.Keys && ids != {}
    ensures IsNewest(executions, ids, e)
  {
    NewestExists(executions, ids);
    var e :| IsNewest(executions, ids, e);
    e
  }

  /** The rows in the statement's ORDER BY order. */
  function Ranked(executions: map<nat, Execution>, ids: set<nat>): (r: seq<nat>)
    requires ids <= executions.Keys
    ensures |r| == |ids| && Elements(r) == ids
    decreases |ids|
  {
    if ids == {} then []
    else
      var e := Newest(executions, ids);
      var r := [e] + Ranked(executions, ids - {e});
      assert Elements(r) == {e} + Elements(Ranked(executions, ids - {e}));
      r
  }

  /** DeleteExecutionOverflowByWorkflow: LIMIT -1 OFFSET keep. */
  function OverflowIds(executions: map<nat, Execution>, wf: string, keep: nat): set<nat> {
    var ranked := Ranked(executions, FinishedOf(executions, wf));
    if keep <= |ranked| then Elements(ranked[keep..]) else {}
  }

  // ---------------------------------------------------------------- OFFSET is a rank test

  ghost function Ahead(executions: map<nat, Execution>, ids: set<nat>, e: nat): set<nat>
    requires ids <= executions.Keys && e in executions
  {
    set f | f in ids && Newer(executions, f, e)
  }

  /** The position of a row in the ORDER BY is the number of rows newer than it. */
  lemma {:induction false} RankedPosition(executions: map<nat, Execution>, ids: set<nat>, i: nat)
    requires ids <= executions.Keys && i < |Ranked(executions, ids)|
    ensures Ranked(executions, ids)[i] in ids
    ensures |Ahead(executions, ids, Ranked(executions, ids)[i])| == i
    decreases |ids|
  {
    var first := Newest(executions, ids);
    var rest := ids - {first};
    var e := Ranked(executions, ids)[i];
    if i == 0 {
      assert Ahead(executions, ids, first) == {};
    } else {
      RankedPosition(executions, rest, i - 1);
      assert e == Ranked(executions, rest)[i - 1];
      assert Ahead(executions, ids, e) == Ahead(executions, rest, e) + {first};
    }
  }

  /** How many finished executions of the same workflow are newer. */
  ghost function Rank(executions: map<nat, Execution>, e: nat): nat
    requires e in executions
  {
    |Ahead(executions, FinishedOf(executions, executions[e].workflow), e)|
  }

  lemma OverflowIsRank(executions: map<nat, Execution>, wf: string, keep: nat, e: nat)
    requires e in executions
    ensures e in OverflowIds(executions, wf, keep)
       <==> executions[e].workflow == wf && executions[e].status.Finished() && Rank(executions, e) >= keep
  {
    var ids := FinishedOf(executions, wf);
    var ranked := Ranked(executions, ids);
    if e in OverflowIds(executions, wf, keep) {
      var j :| 0 <= j < |ranked[keep..]| && ranked[keep..][j] == e;
      RankedPosition(executions, ids, keep + j);
    }
    if e in ids && Rank(executions, e) >= keep {
      assert e in Elements(ranked);
      var i :| 0 <= i < |ranked| && ranked[i] == e;
      RankedPosition(executions, ids, i);
      assert ranked[keep..][i - keep] == e;
    }
  }

  // ---------------------------------------------------------------- what retention means

  /** The limits of the configuration; None where the option is not positive. */
  datatype Limits = Limits(cutoff: Option<Time>, keep: Option<nat>)

  ghost predicate Fresh(x: Execution, cutoff: Option<Time>) {
    cutoff.Some? ==> !(x.finishedAt.Some? && x.finishedAt.value < cutoff.value)
  }

  ghost predicate Survives(executions: map<nat, Execution>, e: nat, limits: Limits)
    requires e in executions
  {
    executions[e].status.Finished() ==>
      Fresh(executions[e], limits.cutoff) && (limits.keep.Some? ==> Rank(executions, e) < limits.keep.value)
  }

  ghost function Retained(executions: map<nat, Execution>, limits: Limits): map<nat, Execution> {
    map e | e in executions && Survives(executions, e, limits) :: executions[e]
  }

  ghost predicate FinishedStamped(executions: map<nat, Execution>) {
    forall e :: e in executions && executions[e].status.Finished() ==> executions[e].finishedAt.Some?
  }

  /** Deleting rows that are all older than `e` does not move `e` in the order. */
  lemma RankStable(executions: map<nat, Execution>, kept: map<nat, Execution>, e: nat)
    requires e in kept && kept.Keys <= executions.Keys
    requires forall f :: f in kept ==> kept[f] == executions[f]
    requires forall f :: f in executions && f !in kept ==> !Newer(executions, f, e) || !executions[f].status.Finished()
    ensures Rank(kept, e) == Rank(executions, e)
  {
    var wf := executions[e].workflow;
    assert Ahead(kept, FinishedOf(kept, wf), e) == Ahead(executions, FinishedOf(executions, wf), e);
  }

  ghost function ByAge(executions: map<nat, Execution>, cutoff: Option<Time>): map<nat, Execution> {
    Retained(executions, Limits(cutoff, None))
  }

  ghost function ByCount(executions: map<nat, Execution>, keep: Option<nat>): map<nat, Execution> {
    Retained(executions, Limits(None, keep))
  }

  lemma AgeKeepsRank(executions: map<nat, Execution>, cutoff: Option<Time>, e: nat)
    requires FinishedStamped(executions) && e in ByAge(executions, cutoff) && executions[e].status.Finished()
    ensures Rank(ByAge(executions, cutoff), e) == Rank(executions, e)
  {
    RankStable(executions, ByAge(executions, cutoff), e);
  }

  /** Counting only deletes rows that are older than every row it keeps. */
  lemma CountKeepsRank(executions: map<nat, Execution>, keep: Option<nat>, e: nat)
    requires e in ByCount(executions, keep) && executions[e].status.Finished()
    ensures Rank(ByCount(executions, keep), e) == Rank(executions, e)
  {
    var kept := ByCount(executions, keep);
    var wf := executions[e].workflow;
    var ids := FinishedOf(executions, wf);
    forall f | f in ids && Newer(executions, f, e) ensures f in kept {
      assert Ahead(executions, ids, f) <= Ahead(executions, ids, e);
      SubsetSize(Ahead(executions, ids, f), Ahead(executions, ids, e));
    }
    assert Ahead(kept, FinishedOf(kept, wf), e) == Ahead(executions, ids, e);
  }

  /** The two deletes commute, and either order computes the declarative survivors. */
  lemma RetentionCommutes(executions: map<nat, Execution>, limits: Limits)
    requires FinishedStamped(executions)
    ensures ByCount(ByAge(executions, limits.cutoff), limits.keep) == Retained(executions, limits)
    ensures ByAge(ByCount(executions, limits.keep), limits.cutoff) == Retained(executions, limits)
  {
    var aged := ByAge(executions, limits.cutoff);
    forall e | e in aged && executions[e].status.Finished() ensures Rank(aged, e) == Rank(executions, e) {
      AgeKeepsRank(executions, limits.cutoff, e);
    }
    assert ByCount(aged, limits.keep) == Retained(executions, limits);
    assert ByAge(ByCount(executions, limits.keep), limits.cutoff) == Retained(executions, limits);
  }

  /** A second run with the same limits deletes nothing more. */
  lemma RetentionIdempotent(executions: map<nat, Execution>, limits: Limits)
    requires FinishedStamped(executions)
    ensures Retained(Retained(executions, limits), limits) == Retained(executions, limits)
  {
    var once := Retained(executions, limits);
    var aged := ByAge(executions, limits.cutoff);
    RetentionCommutes(executions, limits);
    forall e | e in once && once[e].status.Finished() ensures Rank(once, e) == Rank(executions, e) {
      CountKeepsRank(aged, limits.keep, e);
      AgeKeepsRank(executions, limits.cutoff, e);
    }
  }

  lemma {:induction false} RankedDistinct(executions: map<nat, Execution>, ids: set<nat>)
    requires ids <= executions.Keys
    ensures NoDup(Ranked(executions, ids))
  {
    var ranked := Ranked(executions, ids);
    forall i, j | 0 <= i < j < |ranked| ensures ranked[i] != ranked[j] {
      RankedPosition(executions, ids, i);
      RankedPosition(executions, ids, j);
    }
  }

  lemma OverflowSize(executions: map<nat, Execution>, wf: string, keep: nat)
    ensures OverflowIds(executions, wf, keep) <= FinishedOf(executions, wf)
    ensures var n := |FinishedOf(executions, wf)|;
      |OverflowIds(executions, wf, keep)| == if n < keep then 0 else n - keep
  {
    var ids := FinishedOf(executions, wf);
    var ranked := Ranked(executions, ids);
    if keep <= |ranked| {
      RankedDistinct(executions, ids);
      NoDupSize(ranked[keep..]);
      assert Elements(ranked[keep..]) <= Elements(ranked);
    }
  }

  lemma CountKeepsRest(executions: map<nat, Execution>, wf: string, keep: nat, e: nat)
    ensures e in FinishedOf(ByCount(executions, Some(keep)), wf)
       <==> e in FinishedOf(executions, wf) - OverflowIds(executions, wf, keep)
  {
    if e in executions {
      OverflowIsRank(executions, wf, keep, e);
    }
  }

  lemma DifferenceSize(whole: set<nat>, gone: set<nat>, left: set<nat>)
    requires gone <= whole && left == whole - gone
    ensures |left| == |whole| - |gone|
  {
    assert whole == left + gone;
  }

  /** With a count limit, exactly min(K, n) of the n finished rows of a workflow are left. */
  lemma RetentionCount(executions: map<nat, Execution>, wf: string, keep: nat)
    ensures var n := |FinishedOf(executions, wf)|;
      |FinishedOf(ByCount(executions, Some(keep)), wf)| == if n < keep then n else keep
  {
    var kept := FinishedOf(ByCount(executions, Some(keep)), wf);
    forall e ensures e in kept <==> e in FinishedOf(executions, wf) - OverflowIds(executions, wf, keep) {
      CountKeepsRest(executions, wf, keep, e);
    }
    OverflowSize(executions, wf, keep);
    DifferenceSize(FinishedOf(executions, wf), OverflowIds(executions, wf, keep), kept);
  }
}
