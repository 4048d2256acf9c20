/** The pipeline as a recursive semantics: a flow of nodes over a batch of Lua values, threading the Lua
    state through every callback.  It knows no registry keys. */
module Flow {
  import opened Base
  import opened LuaHeap
  import opened CloneInput

  /** Whatever a script can see besides tables. */
  type World(!new)

  datatype Lua = Lua(heap: Heap, world: World)

  /** The exit codes of errors; 0 is success. */
  type ErrorCode = c: nat | 1 <= c <= 9 witness 1

  /** A typed error with its exit code. */
  datatype Fault = Fault(code: ErrorCode, kind: string, message: string, primitive: string, position: nat,
      callable: string)

  const ERR_UNKNOWN_PRIMITIVE: ErrorCode := 4
  const ERR_RUNTIME: ErrorCode := 7

  /** The callbacks: `invoke` runs a callable on an input and the state table, `apply` a function on one value;
      `order` is how Go happens to iterate its maps. */
  datatype Script = Script(order: World -> GoValue -> GoValue,
                           invoke: (Value, Value, Value, Lua) -> (Lua, Result<Value, Fault>),
                           apply: (Value, Value, Lua) -> (Lua, Result<Value, Fault>))

  datatype Kind = Call | Set | Filter | Tap | Unknown(text: string)

  /** `callable`, `fn` and `onData` are registry keys. */
  datatype Node = Node(kind: Kind, position: nat, name: string, callable: nat, fn: nat, onData: Option<nat>)

  /** What the nodes refer to: the callbacks, the registry when the run starts, the state table. */
  datatype Env = Env(script: Script, refs: map<nat, Value>, state: Value)

  function Read(refs: map<nat, Value>, key: nat): Value {
    if key in refs then refs[key] else Nil
  }

  function KindName(kind: Kind): string {
    match kind
    case Call => "call"
    case Set => "set"
    case Filter => "filter"
    case Tap => "tap"
    case Unknown(text) => text
  }

  function WithContext(f: Fault, primitive: string, position: nat, callable: string): Fault {
    f.(primitive := if primitive != "" then primitive else f.primitive,
       position := if position > 0 then position else f.position,
       callable := if callable != "" then callable else f.callable)
  }

  function RuntimeFault(message: string, n: Node, callable: string): Fault {
    Fault(ERR_RUNTIME, "runtime", message, KindName(n.kind), n.position, callable)
  }

  function AtNode(f: Fault, n: Node, callable: string): Fault {
    WithContext(f, KindName(n.kind), n.position, callable)
  }

  /** The end of one node: a value, an error, or a Go panic. */
  datatype Ending<T> = Fine(value: T) | Wrong(fault: Fault) | Panic

  function Joined(done: seq<Value>, rest: (Lua, Ending<seq<Value>>)): (Lua, Ending<seq<Value>>) {
    if rest.1.Fine? then (rest.0, Fine(done + rest.1.value)) else rest
  }

  // ---------------------------------------------------------------- call

  predicate PureArray(h: Heap, a: nat) {
    a in h.tables && OnlyArrayKeys(h.tables[a].order, h.tables[a].border)
  }

  function RawGet(h: Heap, a: nat, k: Value): Value {
    if a in h.tables then Get(h.tables[a], k) else Nil
  }

  /** callResultToItem. */
  function OnData(n: Node, v: Value, lua: Lua, env: Env): (Lua, Ending<Value>) {
    if n.onData.None? then (lua, Fine(v))
    else
      var (lua1, r) := env.script.apply(Read(env.refs, n.onData.value), v, lua);
      if r.Failure? then (lua1, Wrong(AtNode(r.error, n, n.name)))
      else if r.value.Nil? then (lua1, Wrong(RuntimeFault("call on_data must return item, got nil", n, n.name)))
      else (lua1, Fine(r.value))
  }

  /** The items of the elements from index `i` to the length read before the first of them. */
  function Expand(n: Node, a: nat, i: nat, len: nat, lua: Lua, env: Env): (Lua, Ending<seq<Value>>)
    decreases len + 1 - i
  {
    if i > len then (lua, Fine([]))
    else
      var (lua1, r) := OnData(n, RawGet(lua.heap, a, Int(i)), lua, env);
      match r
      case Fine(item) => Joined([item], Expand(n, a, i + 1, len, lua1, env))
      case Wrong(f) => (lua1, Wrong(f))
      case Panic => (lua1, Panic)
  }

  /** buildCallItems. */
  function BuildItems(n: Node, v: Value, lua: Lua, env: Env): (Lua, Ending<seq<Value>>) {
    if v.Table? && PureArray(lua.heap, v.a) then Expand(n, v.a, 1, lua.heap.tables[v.a].border, lua, env)
    else
      var (lua1, r) := OnData(n, v, lua, env);
      match r
      case Fine(item) => (lua1, Fine([item]))
      case Wrong(f) => (lua1, Wrong(f))
      case Panic => (lua1, Panic)
  }

  function CallNode(n: Node, lua: Lua, env: Env): (Lua, Ending<seq<Value>>) {
    var (lua1, r) := env.script.invoke(Read(env.refs, n.callable), Nil, env.state, lua);
    if r.Failure? then (lua1, Wrong(AtNode(r.error, n, n.name))) else BuildItems(n, r.value, lua1, env)
  }

  // ---------------------------------------------------------------- set, filter, tap

  function SetItems(n: Node, items: seq<Value>, lua: Lua, env: Env): (Lua, Ending<seq<Value>>)
    decreases |items|
  {
    if items == [] then (lua, Fine([]))
    else
      var (lua1, r) := env.script.apply(Read(env.refs, n.fn), items[0], lua);
      if r.Failure? then (lua1, Wrong(AtNode(r.error, n, "")))
      else if r.value.Nil? then (lua1, Wrong(RuntimeFault("set.to must return item, got nil", n, "")))
      else Joined([r.value], SetItems(n, items[1..], lua1, env))
  }

  function FilterItems(n: Node, items: seq<Value>, lua: Lua, env: Env): (Lua, Ending<seq<Value>>)
    decreases |items|
  {
    if items == [] then (lua, Fine([]))
    else
      var (lua1, r) := env.script.apply(Read(env.refs, n.fn), items[0], lua);
      if r.Failure? then (lua1, Wrong(AtNode(r.error, n, "")))
      else if !r.value.Bool? then (lua1, Wrong(RuntimeFault("filter.condition must return a boolean", n, "")))
      else Joined(if r.value.b then [items[0]] else [], FilterItems(n, items[1..], lua1, env))
  }

  /** The error of a clone that is refused. */
  function CloneFault(c: Conv<Value>): Fault {
    Fault(ERR_RUNTIME, "runtime",
            if c.Unsupported? then "unsupported Lua value type " + c.kind
              else "cyclic table values are not supported", "", 0, "")
  }

  function TapItems(n: Node, items: seq<Value>, lua: Lua, env: Env): (Lua, Ending<seq<Value>>)
    decreases |items|
  {
    if items == [] then (lua, Fine([]))
    else
      var (heap, c) := Clone(lua.heap, items[0], env.script.order(lua.world));
      if c.Panicked? then (lua.(heap := heap), Panic)
      else if !c.Done? then (lua.(heap := heap), Wrong(AtNode(CloneFault(c), n, n.name)))
      else
        var (lua1, r) := env.script.invoke(Read(env.refs, n.callable), c.value, env.state, lua.(heap := heap));
        if r.Failure? then (lua1, Wrong(AtNode(r.error, n, n.name)))
        else Joined([items[0]], TapItems(n, items[1..], lua1, env))
  }

  /** A tap on an empty batch runs once, without input. */
  function TapNothing(n: Node, lua: Lua, env: Env): (Lua, Ending<seq<Value>>) {
    var (lua1, r) := env.script.invoke(Read(env.refs, n.callable), Nil, env.state, lua);
    if r.Failure? then (lua1, Wrong(AtNode(r.error, n, n.name))) else (lua1, Fine([]))
  }

  // ---------------------------------------------------------------- flows

  /** `itemsIn` is the size of the batch the last call built. */
  datatype Stage = Going(items: seq<Value>, itemsIn: nat, lua: Lua)
                 | Failed(fault: Fault, itemsIn: nat, lua: Lua)
                 | Panicking(lua: Lua)

  function NodeItems(n: Node, items: seq<Value>, lua: Lua, env: Env): (Lua, Ending<seq<Value>>) {
    match n.kind
    case Call => CallNode(n, lua, env)
    case Set => SetItems(n, items, lua, env)
    case Filter => FilterItems(n, items, lua, env)
    case Tap => if items == [] then TapNothing(n, lua, env) else TapItems(n, items, lua, env)
    case Unknown(text) =>
      (lua, Wrong(Fault(ERR_UNKNOWN_PRIMITIVE, "unknown_primitive", "unknown primitive \"" + text + "\"", text,
        n.position, "")))
  }

  function RunNode(n: Node, s: Stage, env: Env): Stage
    requires s.Going?
  {
    var (lua1, r) := NodeItems(n, s.items, s.lua, env);
    match r
    case Fine(items) => Going(items, if n.kind.Call? then |items| else s.itemsIn, lua1)
    case Wrong(f) => Failed(f, s.itemsIn, lua1)
    case Panic => Panicking(lua1)
  }

  function RunFlow(nodes: seq<Node>, s: Stage, env: Env): Stage
    decreases |nodes|
  {
    if nodes == [] || !s.Going? then s else RunFlow(nodes[1..], RunNode(nodes[0], s, env), env)
  }

  // ---------------------------------------------------------------- laws of flows

  /** Running two flows one after the other is running their concatenation; the first error wins. */
  lemma {:induction false} FlowComposes(a: seq<Node>, b: seq<Node>, s: Stage, env: Env)
    ensures RunFlow(a + b, s, env) == RunFlow(b, RunFlow(a, s, env), env)
    decreases |a|
  {
    hide RunNode;
    if a == [] {
      assert a + b == b;
    } else if s.Going? {
      assert (a + b)[1..] == a[1..] + b;
      FlowComposes(a[1..], b, RunNode(a[0], s, env), env);
    }
  }

  /** A failed or panicking stage stays as it is, whatever nodes follow. */
  lemma {:induction false} FirstErrorWins(a: seq<Node>, b: seq<Node>, s: Stage, env: Env)
    requires !RunFlow(a, s, env).Going?
    ensures RunFlow(a + b, s, env) == RunFlow(a, s, env)
  {
    FlowComposes(a, b, s, env);
  }

  /** The Lua states between the callbacks of one node. */
  ghost predicate Threads(luas: seq<Lua>, n: nat, first: Lua, last: Lua) {
    |luas| == n + 1 && luas[0] == first && luas[n] == last
  }

  /** Set calls its function on the items in order and puts each result, never nil, in its item's place. */
  lemma {:induction false} SetIsPointwise(n: Node, items: seq<Value>, lua: Lua, env: Env) returns (luas: seq<Lua>)
    requires SetItems(n, items, lua, env).1.Fine?
    ensures var (last, r) := SetItems(n, items, lua, env);
      && Threads(luas, |items|, lua, last) && |r.value| == |items|
      && forall i :: 0 <= i < |items| ==>
           !r.value[i].Nil? && env.script.apply(Read(env.refs, n.fn), items[i], luas[i])
             == (luas[i + 1], Success(r.value[i]))
    decreases |items|
  {
    if items == [] {
      luas := [lua];
    } else {
      var (lua1, r) := env.script.apply(Read(env.refs, n.fn), items[0], lua);
      var rest := SetIsPointwise(n, items[1..], lua1, env);
      luas := [lua] + rest;
      var out, tail := SetItems(n, items, lua, env).1.value, SetItems(n, items[1..], lua1, env).1.value;
      assert out == [r.value] + tail;
      forall i | 0 < i < |items|
        ensures !out[i].Nil? && env.script.apply(Read(env.refs, n.fn), items[i], luas[i])
          == (luas[i + 1], Success(out[i]))
      {
        assert items[i] == items[1..][i - 1] && luas[i] == rest[i - 1] && luas[i + 1] == rest[i - 1 + 1]
          && out[i] == tail[i - 1];
      }
    }
  }

  /** The items whose verdict is true, in their order. */
  function Kept(items: seq<Value>, verdicts: seq<bool>): seq<Value>
    requires |items| == |verdicts|
  {
    if items == [] then [] else (if verdicts[0] then [items[0]] else []) + Kept(items[1..], verdicts[1..])
  }

  /** Filter asks for a boolean on every item in order, and keeps exactly the items answered true. */
  lemma {:induction false} FilterIsStable(n: Node, items: seq<Value>, lua: Lua,
      env: Env) returns (luas: seq<Lua>, verdicts: seq<bool>)
    requires FilterItems(n, items, lua, env).1.Fine?
    ensures var (last, r) := FilterItems(n, items, lua, env);
      && Threads(luas, |items|, lua, last) && |verdicts| == |items| && r.value == Kept(items, verdicts)
      && forall i :: 0 <= i < |items| ==>
           env.script.apply(Read(env.refs, n.fn), items[i], luas[i]) == (luas[i + 1], Success(Bool(verdicts[i])))
    decreases |items|
  {
    if items == [] {
      luas, verdicts := [lua], [];
    } else {
      var (lua1, r) := env.script.apply(Read(env.refs, n.fn), items[0], lua);
      var restLuas, restVerdicts := FilterIsStable(n, items[1..], lua1, env);
      luas, verdicts := [lua] + restLuas, [r.value.b] + restVerdicts;
      assert verdicts[1..] == restVerdicts;
      forall i | 0 < i < |items|
        ensures env.script.apply(Read(env.refs, n.fn), items[i], luas[i]) == (luas[i + 1], Success(Bool(verdicts[i])))
      {
        assert items[i] == items[1..][i - 1] && verdicts[i] == restVerdicts[i - 1];
        assert luas[i] == restLuas[i - 1] && luas[i + 1] == restLuas[i - 1 + 1];
      }
    }
  }

  lemma {:induction false} KeptSize(items: seq<Value>, verdicts: seq<bool>)
    requires |items| == |verdicts|
    ensures |Kept(items, verdicts)| <= |items|
  {
    if items != [] {
      KeptSize(items[1..], verdicts[1..]);
    }
  }

  /** Tap leaves the batch as it was. */
  lemma {:induction false} TapKeepsBatch(n: Node, items: seq<Value>, lua: Lua, env: Env)
    ensures TapItems(n, items, lua, env).1.Fine? ==> TapItems(n, items, lua, env).1.value == items
    decreases |items|
  {
    hide Clone;
    if items != [] {
      var (heap, c) := Clone(lua.heap, items[0], env.script.order(lua.world));
      if c.Done? {
        var (lua1, r) := env.script.invoke(Read(env.refs, n.callable), c.value, env.state, lua.(heap := heap));
        TapKeepsBatch(n, items[1..], lua1, env);
        assert items == [items[0]] + items[1..];
      }
    }
  }

  /** Only a call makes a batch larger. */
  lemma NodeShrinks(n: Node, s: Stage, env: Env)
    requires s.Going? && !n.kind.Call? && RunNode(n, s, env).Going?
    ensures var r := RunNode(n, s, env);
      r.itemsIn == s.itemsIn && |r.items| <= |s.items| && (!n.kind.Filter? ==> |r.items| == |s.items|)
        && (n.kind.Tap? ==> r.items == s.items)
  {
    hide SetItems, FilterItems, TapItems;
    match n.kind
    case Set => var luas := SetIsPointwise(n, s.items, s.lua, env);
    case Filter =>
      var luas, verdicts := FilterIsStable(n, s.items, s.lua, env);
      KeptSize(s.items, verdicts);
    case Tap => TapKeepsBatch(n, s.items, s.lua, env);
    case Unknown(_) =>
  }

  lemma NodeKeepsCount(n: Node, s: Stage, env: Env)
    requires s.Going? && |s.items| <= s.itemsIn && RunNode(n, s, env).Going?
    ensures |RunNode(n, s, env).items| <= RunNode(n, s, env).itemsIn
  {
    if !n.kind.Call? {
      NodeShrinks(n, s, env);
    }
    hide NodeItems;
  }

  /** The batch is never larger than what the last call built. */
  lemma {:induction false} ItemsOutAtMostIn(nodes: seq<Node>, s: Stage, env: Env)
    requires s.Going? && |s.items| <= s.itemsIn && RunFlow(nodes, s, env).Going?
    ensures |RunFlow(nodes, s, env).items| <= RunFlow(nodes, s, env).itemsIn
    decreases |nodes|
  {
    hide RunNode;
    if nodes != [] {
      NodeKeepsCount(nodes[0], s, env);
      ItemsOutAtMostIn(nodes[1..], RunNode(nodes[0], s, env), env);
    }
  }

  predicate HasCall(nodes: seq<Node>) {
    exists i :: 0 <= i < |nodes| && nodes[i].kind.Call?
  }

  /** Without a call the count stays and the batch does not grow. */
  lemma {:induction false} NoCallKeepsCount(nodes: seq<Node>, s: Stage, env: Env)
    requires s.Going? && !HasCall(nodes)
    ensures var r := RunFlow(nodes, s, env);
      (!r.Panicking? ==> r.itemsIn == s.itemsIn) && (r.Going? ==> |r.items| <= |s.items|)
    decreases |nodes|
  {
    if nodes != [] {
      var n, r := nodes[0], RunNode(nodes[0], s, env);
      assert !n.kind.Call?;
      assert forall i :: 0 <= i < |nodes[1..]| ==> nodes[1..][i] == nodes[i + 1];
      if r.Going? {
        NodeShrinks(n, s, env);
        hide RunNode;
        NoCallKeepsCount(nodes[1..], r, env);
      }
    }
  }

  lemma {:induction false} RunOne(n: Node, s: Stage, env: Env)
    requires s.Going?
    ensures RunFlow([n], s, env) == RunNode(n, s, env)
  {
    hide RunNode;
    assert [n][1..] == [];
  }

  /** The reported number of items in is the size of the batch right after the last call that succeeded:
      `quiet` has no call, and what follows it, if anything, begins with a call that fails. */
  lemma {:induction false} ItemsInIsLastCall(before: seq<Node>, call: Node, quiet: seq<Node>, rest: seq<Node>,
      s: Stage, env: Env)
    requires call.kind.Call? && !HasCall(quiet) && RunFlow(before + [call], s, env).Going?
    requires rest != [] ==> rest[0].kind.Call? && !RunFlow(before + [call] + quiet + [rest[0]], s, env).Going?
    ensures var mid, r := RunFlow(before + [call], s, env), RunFlow(before + [call] + quiet + rest, s, env);
      !r.Panicking? ==> r.itemsIn == |mid.items|
  {
    var b := RunFlow(before, s, env);
    FlowComposes(before, [call], s, env);
    assert b.Going?;
    RunOne(call, b, env);
    var mid, q := RunFlow(before + [call], s, env), RunFlow(before + [call] + quiet, s, env);
    assert mid.itemsIn == |mid.items|;
    FlowComposes(before + [call], quiet, s, env);
    NoCallKeepsCount(quiet, mid, env);
    hide HasCall, NodeItems;
    if rest == [] {
      assert before + [call] + quiet + rest == before + [call] + quiet;
    } else {
      FlowComposes(before + [call] + quiet, [rest[0]], s, env);
      assert before + [call] + quiet + rest == before + [call] + quiet + [rest[0]] + rest[1..];
      FirstErrorWins(before + [call] + quiet + [rest[0]], rest[1..], s, env);
      if q.Going? {
        RunOne(rest[0], q, env);
      }
    }
  }

  /** Once empty, a batch stays empty until the next call. */
  lemma {:induction false} EmptyUntilCall(nodes: seq<Node>, s: Stage, env: Env)
    requires s.Going? && s.items == [] && !HasCall(nodes) && RunFlow(nodes, s, env).Going?
    ensures RunFlow(nodes, s, env).items == []
  {
    NoCallKeepsCount(nodes, s, env);
  }

  // ---------------------------------------------------------------- what an empty batch skips

  lemma EmptySkips(n: Node, s: Stage, env: Env)
    requires s.Going? && s.items == [] && (n.kind.Set? || n.kind.Filter?)
    ensures RunNode(n, s, env) == s
  {
  }

  predicate OnlySetAndFilter(nodes: seq<Node>) {
    forall n :: n in nodes ==> n.kind.Set? || n.kind.Filter?
  }

  lemma {:induction false} EmptySkipsAll(nodes: seq<Node>, s: Stage, env: Env)
    requires s.Going? && s.items == [] && OnlySetAndFilter(nodes)
    ensures RunFlow(nodes, s, env) == s
    decreases |nodes|
  {
    if nodes != [] {
      EmptySkips(nodes[0], s, env);
      EmptySkipsAll(nodes[1..], s, env);
    }
  }

  const REFUSED := Fault(ERR_RUNTIME, "runtime", "refused", "", 0, "")

  /** Callbacks that all fail. */
  function Refusing(): Env {
    Env(Script(_ => g => g, (c, x, state, lua) => (lua, Failure(REFUSED)), (f, x, lua) => (lua, Failure(REFUSED))),
      map[], Nil)
  }

  /** The first call, tap or unknown primitive runs even on an empty batch: with failing callbacks the flow
      fails there. */
  lemma {:induction false} EmptyStillRuns(nodes: seq<Node>, s: Stage)
    requires s.Going? && s.items == [] && !OnlySetAndFilter(nodes)
    ensures RunFlow(nodes, s, Refusing()).Failed?
    decreases |nodes|
  {
    var n := nodes[0];
    if n.kind.Set? || n.kind.Filter? {
      EmptySkips(n, s, Refusing());
      assert OnlySetAndFilter(nodes[1..]) ==>
        OnlySetAndFilter(nodes) by { assert forall x :: x in nodes ==> x == n || x in nodes[1..]; }
      EmptyStillRuns(nodes[1..], s);
    } else {
      assert RunNode(n, s, Refusing()).Failed?;
      hide RunNode;
      assert RunFlow(nodes, s, Refusing()) == RunFlow(nodes[1..], RunNode(n, s, Refusing()), Refusing());
    }
  }

  /** From an empty batch the rest of a flow does nothing, whatever the callbacks, exactly if it consists of
      set and filter nodes: a later tap or call is executed. */
  lemma {:induction false} EmptyBatchStandsIff(nodes: seq<Node>, itemsIn: nat, lua: Lua)
    ensures (forall env: Env :: RunFlow(nodes, Going([], itemsIn, lua), env) == Going([], itemsIn, lua)) <==>
      OnlySetAndFilter(nodes)
  {
    hide OnlySetAndFilter, RunNode;
    var s := Going([], itemsIn, lua);
    if OnlySetAndFilter(nodes) {
      forall env: Env ensures RunFlow(nodes, s, env) == s {
        EmptySkipsAll(nodes, s, env);
      }
    } else {
      EmptyStillRuns(nodes, s);
      assert RunFlow(nodes, s, Refusing()) != s;
    }
  }

  // ---------------------------------------------------------------- what a call takes apart

  /** The table's keys are exactly 1..m. */
  ghost predicate Proper(h: Heap, v: Value, m: nat) {
    v.Table? && v.a in h.tables && h.tables[v.a].entries.Keys == Indices(m)
  }

  lemma PureIffProper(h: Heap, v: Value)
    requires HeapOk(h) && ValueIn(h, v)
    ensures v.Table? && PureArray(h, v.a) <==> exists m: nat :: Proper(h, v, m)
    ensures forall m: nat :: Proper(h, v, m) ==> m == h.tables[v.a].border
  {
    if v.Table? {
      var t := h.tables[v.a];
      assert TableOk(t);
      PureArrayIffProper(t);
      assert forall m: nat :: Proper(h, v, m) <==> t.entries.Keys == Indices(m);
      hide HeapOk, TableOk, OnlyArrayKeys, Indices;
    }
  }

  /** Element by element: each item comes from the element then at its index. */
  lemma {:induction false} ExpandIsIndexed(n: Node, a: nat, i: nat, len: nat, lua: Lua, env: Env)
      returns (luas: seq<Lua>)
    requires 1 <= i <= len + 1 && Expand(n, a, i, len, lua, env).1.Fine?
    ensures var (last, r) := Expand(n, a, i, len, lua, env); var k: nat := len + 1 - i;
      && Threads(luas, k, lua, last) && |r.value| == k
      && forall j :: 0 <= j < k ==>
           OnData(n, RawGet(luas[j].heap, a, Int(i + j)), luas[j], env) == (luas[j + 1], Fine(r.value[j]))
    decreases len + 1 - i
  {
    hide OnData, RawGet;
    if i > len {
      luas := [lua];
    } else {
      var (lua1, first) := OnData(n, RawGet(lua.heap, a, Int(i)), lua, env);
      var rest := ExpandIsIndexed(n, a, i + 1, len, lua1, env);
      luas := [lua] + rest;
      var out, tail := Expand(n, a, i, len, lua, env).1.value, Expand(n, a, i + 1, len, lua1, env).1.value;
      assert out == [first.value] + tail;
      forall j | 0 < j < len + 1 - i
        ensures OnData(n, RawGet(luas[j].heap, a, Int(i + j)), luas[j], env) == (luas[j + 1], Fine(out[j]))
      {
        assert luas[j] == rest[j - 1] && luas[j + 1] == rest[j - 1 + 1] && out[j] == tail[j - 1]
          && i + j == i + 1 + (j - 1);
      }
    }
  }

  /** On a well-formed heap a call takes apart exactly the tables whose keys are 1..m, in index order and into
      m items, so the empty table into none; everything else becomes one item. */
  lemma BuildTakesProperApart(n: Node, v: Value, lua: Lua, env: Env) returns (luas: seq<Lua>)
    requires HeapOk(lua.heap) && ValueIn(lua.heap, v) && BuildItems(n, v, lua, env).1.Fine?
    ensures var (last, r) := BuildItems(n, v, lua, env);
      && (forall m: nat :: Proper(lua.heap, v, m) ==>
            && Threads(luas, m, lua, last) && |r.value| == m
            && forall j :: 0 <= j < m ==>
                 OnData(n, RawGet(luas[j].heap, v.a, Int(j + 1)), luas[j], env) == (luas[j + 1], Fine(r.value[j])))
      && ((forall m: nat :: !Proper(lua.heap, v, m)) ==>
         |r.value| == 1 && OnData(n, v, lua, env) == (last, Fine(r.value[0])))
  {
    PureIffProper(lua.heap, v);
    hide HeapOk, PureArray, OnData, RawGet;
    luas := [];
    if v.Table? && PureArray(lua.heap, v.a) {
      luas := ExpandIsIndexed(n, v.a, 1, lua.heap.tables[v.a].border, lua, env);
    }
  }
}
