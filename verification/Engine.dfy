/** The final report of an execution and its exit code. */
module Engine {
  import opened Base
  import opened Reports
  import opened LuaHeap
  import opened Flow
  import opened Registry
  import opened Executor

  function ErrorOf(f: Fault): ReportError {
    ReportError(f.kind, f.primitive, f.position, f.message, f.callable)
  }

  /** A workflow whose flow is loaded, or the error of loading it. */
  datatype Target = Loaded(rt: Runtime, nodes: seq<Node>) | Broken(fault: Fault)

  /** RunTargetWithOptions, after the workflow's name and version have been resolved; None when the flow panics. */
  method RunTarget(target: Target, name: string, version: string, triggerKeys: seq<string>, triggerValues: seq<GoValue>)
    returns (r: Option<(Report, nat)>)
    requires target.Loaded? ==> target.rt.Valid() && forall n :: n in target.nodes ==> Bound(n, target.rt.live)
    modifies if target.Loaded? then {target.rt} else {}
    ensures match target
      case Broken(f) =>
        r == Some((Report(name, version, Error, 0, 0,
                          [ReportError(f.kind, f.primitive, f.position, f.message, f.callable)]), f.code))
      case Loaded(rt, nodes) =>
        var lua := old(rt.lua);
        var env := Env(rt.script, old(rt.registry)[old(rt.nextRef) := Table(lua.heap.next)], Table(lua.heap.next));
        match RunFlow(nodes, Going([], 0, Prepared(triggerKeys, triggerValues, lua, rt.script)), env)
        case Panicking(_) => r == None
        case Failed(f, itemsIn, _) =>
          r == Some((Report(name, version, Error, itemsIn, 0,
                            [ReportError(f.kind, f.primitive, f.position, f.message, f.callable)]), f.code))
        case Going(items, itemsIn, _) =>
          r == Some((Report(name, version, if nodes != [] && items == [] then Empty else Ok, itemsIn, |items|, []), 0))
    ensures r.Some? ==> Coherent(r.value.0, r.value.1)
  {
    if target.Broken? {
      return Some((Report(name, version, Error, 0, 0, [ErrorOf(target.fault)]), target.fault.code));
    }
    hide RunFlow, Prepared;
    ghost var start := Prepared(triggerKeys, triggerValues, target.rt.lua, target.rt.script);
    ghost var state := Table(target.rt.lua.heap.next);
    ghost var env := Env(target.rt.script, target.rt.registry[target.rt.nextRef := state], state);
    var report, end, batch := Run(target.rt, target.nodes, triggerKeys, triggerValues);
    report := report.(workflow := name, version := version);
    match end
    case Panic => r := None;
    case Wrong(f) => r := Some((report.(status := Error, itemsOut := 0, errors := [ErrorOf(f)]), f.code));
    case Fine(_) => r := Some((report, 0));
    if r.Some? {
      ReportIsCoherent(r.value.0, r.value.1, target.nodes, start, env);
    }
  }

  /** `error` iff there is exactly one error and no other status has any, an error iff the exit code is not 0,
      `empty` only without items, never more items out than in, and nothing comes out of an error. */
  ghost predicate Coherent(report: Report, code: nat) {
    && (report.status == Error <==> |report.errors| == 1) && (report.status != Error <==> report.errors == [])
    && (report.status == Error <==> code != 0)
    && report.itemsOut <= report.itemsIn && (report.status != Ok ==> report.itemsOut == 0)
    && report.status.Finished()
  }

  /** What every report of a flow says, whatever the callbacks do. */
  lemma {:induction false} ReportIsCoherent(report: Report, code: nat, nodes: seq<Node>, lua: Lua, env: Env)
    requires match RunFlow(nodes, Going([], 0, lua), env)
      case Panicking(_) => false
      case Failed(f, itemsIn, _) =>
        report.status == Error && report.itemsIn == itemsIn && report.itemsOut == 0 && |report.errors| == 1
          && code == f.code
      case Going(items, itemsIn, _) =>
        && report.status == (if nodes != [] && items == [] then Empty else Ok) && report.itemsIn == itemsIn
        && report.itemsOut == |items| && report.errors == [] && code == 0
    ensures Coherent(report, code) && (report.status == Ok && nodes != [] ==> 0 < report.itemsOut)
  {
    hide RunFlow;
    if RunFlow(nodes, Going([], 0, lua), env).Going? {
      ItemsOutAtMostIn(nodes, Going([], 0, lua), env);
    }
  }
}
