/** What each kind of node does to a running flow: which callbacks it has made, on what and in which order, and the
    stage in which the first callback that fails leaves the flow. */
module NodeLaws {
  import opened Base
  import opened LuaHeap
  import opened CloneInput
  import opened Flow

  /** An error at a node: the callback's own code, kind and message; the node's primitive, and its position and the
      callable's name unless they are missing. */
  predicate PlacedAt(f: Fault, was: Fault, primitive: string, position: nat, callable: string) {
    && f.code == was.code && f.kind == was.kind && f.message == was.message && f.primitive == primitive
    && f.position == (if position > 0 then position else was.position)
    && f.callable == (if callable != "" then callable else was.callable)
  }

  /** An error of the run itself. */
  predicate RuntimeError(f: Fault, message: string, primitive: string, position: nat, callable: string) {
    f == Fault(7, "runtime", message, primitive, position, callable)
  }

  /** What the run finds behind a registry key. */
  function Behind(env: Env, key: nat): Value {
    if key in env.refs then env.refs[key] else Nil
  }

  /** The function behind a registry key answered each item in turn. */
  ghost predicate Answered(env: Env, fn: nat, items: seq<Value>, luas: seq<Lua>, answers: seq<Value>) {
    && |answers| <= |items| && |luas| == |answers| + 1
    && forall j :: 0 <= j < |answers| ==>
         env.script.apply(Behind(env, fn), items[j], luas[j]) == (luas[j + 1], Success(answers[j]))
  }

  lemma AnsweredMore(env: Env, fn: nat, items: seq<Value>, luas: seq<Lua>, answers: seq<Value>, lua: Lua, first: Value)
    requires items != [] && Answered(env, fn, items[1..], luas, answers)
    requires env.script.apply(Behind(env, fn), items[0], lua) == (luas[0], Success(first))
    ensures Answered(env, fn, items, [lua] + luas, [first] + answers)
  {
    forall j | 0 <= j < |answers| + 1
      ensures env.script.apply(Behind(env, fn), items[j], ([lua] + luas)[j])
           == (([lua] + luas)[j + 1], Success(([first] + answers)[j]))
    {
      if j > 0 {
        assert items[j] == items[1..][j - 1] && ([lua] + luas)[j] == luas[j - 1]
          && ([first] + answers)[j] == answers[j - 1];
      }
    }
  }

  // ---------------------------------------------------------------- set

  /** Where a set stands after its last callback. */
  ghost predicate SetEnds(n: Node, env: Env, items: seq<Value>, luas: seq<Lua>, out: seq<Value>,
      r: (Lua, Ending<seq<Value>>)) {
    && Answered(env, n.fn, items, luas, out) && (forall x :: x in out ==> !x.Nil?)
    && if |out| == |items| then r == (luas[|out|], Fine(out))
       else
         var (lua, last) := env.script.apply(Behind(env, n.fn), items[|out|], luas[|out|]);
         && r.0 == lua && r.1.Wrong?
         && if last.Failure? then PlacedAt(r.1.fault, last.error, "set", n.position, "")
            else last.value.Nil? && RuntimeError(r.1.fault, "set.to must return item, got nil", "set", n.position, "")
  }

  lemma {:induction false} SetTrace(n: Node, items: seq<Value>, lua: Lua, env: Env)
      returns (luas: seq<Lua>, out: seq<Value>)
    requires n.kind.Set?
    ensures SetEnds(n, env, items, luas, out, SetItems(n, items, lua, env)) && luas[0] == lua
    decreases |items|
  {
    luas, out := [lua], [];
    if items != [] {
      var (lua1, r) := env.script.apply(Read(env.refs, n.fn), items[0], lua);
      if r.Success? && !r.value.Nil? {
        var restLuas, restOut := SetTrace(n, items[1..], lua1, env);
        luas, out := [lua] + restLuas, [r.value] + restOut;
        AnsweredMore(env, n.fn, items, restLuas, restOut, lua, r.value);
        hide Answered;
        assert luas[|out|] == restLuas[|restOut|];
        assert |restOut| < |items[1..]| ==> items[|out|] == items[1..][|restOut|];
      }
    }
  }

  /** A set calls its function on the items in order.  If no callback fails and none answers nil, every item is
      replaced by its answer; otherwise the flow ends with that error at the first such item. */
  lemma SetNode(n: Node, s: Stage, env: Env) returns (luas: seq<Lua>, out: seq<Value>)
    requires s.Going? && n.kind.Set?
    ensures Answered(env, n.fn, s.items, luas, out) && luas[0] == s.lua && forall x :: x in out ==> !x.Nil?
    ensures var r := RunFlow([n], s, env);
      if |out| == |s.items| then r == Going(out, s.itemsIn, luas[|out|])
      else
        var (lua, last) := env.script.apply(Behind(env, n.fn), s.items[|out|], luas[|out|]);
        && r.Failed? && r.itemsIn == s.itemsIn && r.lua == lua
        && if last.Failure? then PlacedAt(r.fault, last.error, "set", n.position, "")
           else last.value.Nil? && RuntimeError(r.fault, "set.to must return item, got nil", "set", n.position, "")
  {
    RunOne(n, s, env);
    luas, out := SetTrace(n, s.items, s.lua, env);
    hide SetItems, Answered, RunFlow;
  }

  // ---------------------------------------------------------------- filter

  ghost predicate AllTrue(verdicts: seq<bool>, places: seq<nat>) {
    forall j :: 0 <= j < |places| ==> places[j] < |verdicts| && verdicts[places[j]]
  }

  ghost predicate Increasing(places: seq<nat>) {
    forall i, j :: 0 <= i < j < |places| ==> places[i] < places[j]
  }

  ghost predicate AllThere(verdicts: seq<bool>, places: seq<nat>) {
    forall i :: 0 <= i < |verdicts| && verdicts[i] ==> i in places
  }

  /** `places` are the positions of the items answered true, in order. */
  ghost predicate Chosen(verdicts: seq<bool>, places: seq<nat>) {
    AllTrue(verdicts, places) && Increasing(places) && AllThere(verdicts, places)
  }

  /** The batch holds exactly the chosen items. */
  ghost predicate Picked(items: seq<Value>, places: seq<nat>, out: seq<Value>) {
    |out| == |places| && forall j :: 0 <= j < |places| ==> places[j] < |items| && out[j] == items[places[j]]
  }

  function Moved(places: seq<nat>): (r: seq<nat>)
    ensures |r| == |places| && forall j :: 0 <= j < |places| ==> r[j] == places[j] + 1
  {
    seq(|places|, j requires 0 <= j < |places| => places[j] + 1)
  }

  lemma TrueMore(verdicts: seq<bool>, rest: seq<nat>)
    requires verdicts != [] && AllTrue(verdicts[1..], rest)
    ensures AllTrue(verdicts, Moved(rest)) && (verdicts[0] ==> AllTrue(verdicts, [0] + Moved(rest)))
  {
    forall j | 0 <= j < |rest| ensures rest[j] + 1 < |verdicts| && verdicts[rest[j] + 1] {
      assert verdicts[1..][rest[j]] == verdicts[rest[j] + 1];
    }
  }

  lemma IncreasingMore(rest: seq<nat>)
    requires Increasing(rest)
    ensures Increasing(Moved(rest)) && Increasing([0] + Moved(rest))
  {
  }

  lemma ThereMore(verdicts: seq<bool>, rest: seq<nat>)
    requires verdicts != [] && AllThere(verdicts[1..], rest)
    ensures AllThere(verdicts, [0] + Moved(rest)) && (!verdicts[0] ==> AllThere(verdicts, Moved(rest)))
  {
    forall i | 0 < i < |verdicts| && verdicts[i] ensures i in Moved(rest) {
      assert verdicts[1..][i - 1];
      var j :| 0 <= j < |rest| && rest[j] == i - 1;
      assert Moved(rest)[j] == i;
    }
    hide Moved;
  }

  lemma ChosenMore(verdicts: seq<bool>, rest: seq<nat>)
    requires verdicts != [] && Chosen(verdicts[1..], rest)
    ensures Chosen(verdicts, (if verdicts[0] then [0] else []) + Moved(rest))
  {
    TrueMore(verdicts, rest);
    IncreasingMore(rest);
    ThereMore(verdicts, rest);
    hide AllTrue, Increasing, AllThere, Moved;
    assert [] + Moved(rest) == Moved(rest);
  }

  lemma PickedMore(items: seq<Value>, rest: seq<nat>, out: seq<Value>)
    requires items != [] && Picked(items[1..], rest, out)
    ensures Picked(items, Moved(rest), out) && Picked(items, [0] + Moved(rest), [items[0]] + out)
  {
    forall j | 0 <= j < |rest| ensures rest[j] + 1 < |items| && out[j] == items[rest[j] + 1] {
      assert items[1..][rest[j]] == items[rest[j] + 1];
    }
  }

  lemma {:induction false} KeptIsPicked(items: seq<Value>, verdicts: seq<bool>) returns (places: seq<nat>)
    requires |items| == |verdicts|
    ensures Chosen(verdicts, places) && Picked(items, places, Kept(items, verdicts))
    decreases |items|
  {
    places := [];
    if items != [] {
      var rest := KeptIsPicked(items[1..], verdicts[1..]);
      hide Chosen, Picked;
      ChosenMore(verdicts, rest);
      PickedMore(items, rest, Kept(items[1..], verdicts[1..]));
      places := (if verdicts[0] then [0] else []) + Moved(rest);
      assert [] + Moved(rest) == Moved(rest) && [] + Kept(items[1..], verdicts[1..]) == Kept(items[1..], verdicts[1..]);
    }
  }

  lemma {:induction false} FilterTrace(n: Node, items: seq<Value>, lua: Lua, env: Env)
      returns (luas: seq<Lua>, answers: seq<Value>, verdicts: seq<bool>)
    requires n.kind.Filter?
    ensures Answered(env, n.fn, items, luas, answers) && luas[0] == lua && |verdicts| == |answers|
    ensures forall j :: 0 <= j < |answers| ==> answers[j] == Bool(verdicts[j])
    ensures var r := FilterItems(n, items, lua, env);
      if |answers| == |items| then r == (luas[|answers|], Fine(Kept(items, verdicts)))
      else
        var (last, x) := env.script.apply(Behind(env, n.fn), items[|answers|], luas[|answers|]);
        && r.0 == last && r.1.Wrong?
        && if x.Failure? then PlacedAt(r.1.fault, x.error, "filter", n.position, "")
           else !x.value.Bool? && RuntimeError(r.1.fault, "filter.condition must return a boolean", "filter",
             n.position, "")
    decreases |items|
  {
    luas, answers, verdicts := [lua], [], [];
    if items != [] {
      var (lua1, r) := env.script.apply(Read(env.refs, n.fn), items[0], lua);
      if r.Success? && r.value.Bool? {
        var restLuas, restAnswers, rest := FilterTrace(n, items[1..], lua1, env);
        luas, answers, verdicts := [lua] + restLuas, [r.value] + restAnswers, [r.value.b] + rest;
        AnsweredMore(env, n.fn, items, restLuas, restAnswers, lua, r.value);
        hide Answered;
        assert luas[|answers|] == restLuas[|restAnswers|] && verdicts[1..] == rest;
        assert |restAnswers| < |items[1..]| ==> items[|answers|] == items[1..][|restAnswers|];
      }
    }
  }

  /** A filter asks its function about the items in order.  If every answer is a boolean, exactly the items answered
      true are left, in their order; otherwise the flow ends with that error. */
  lemma FilterNode(n: Node, s: Stage, env: Env)
      returns (luas: seq<Lua>, answers: seq<Value>, verdicts: seq<bool>, places: seq<nat>)
    requires s.Going? && n.kind.Filter?
    ensures Answered(env, n.fn, s.items, luas, answers) && luas[0] == s.lua && |verdicts| == |answers|
    ensures forall j :: 0 <= j < |answers| ==> answers[j] == Bool(verdicts[j])
    ensures var r := RunFlow([n], s, env);
      if |answers| == |s.items|
      then r.Going? && Chosen(verdicts, places) && Picked(s.items, places, r.items) && r.itemsIn == s.itemsIn
           && r.lua == luas[|answers|]
      else
        var (last, x) := env.script.apply(Behind(env, n.fn), s.items[|answers|], luas[|answers|]);
        && r.Failed? && r.itemsIn == s.itemsIn && r.lua == last
        && if x.Failure? then PlacedAt(r.fault, x.error, "filter", n.position, "")
           else !x.value.Bool? && RuntimeError(r.fault, "filter.condition must return a boolean", "filter",
             n.position, "")
  {
    RunOne(n, s, env);
    luas, answers, verdicts := FilterTrace(n, s.items, s.lua, env);
    places := [];
    if |answers| == |s.items| {
      places := KeptIsPicked(s.items, verdicts);
    }
    hide FilterItems, Answered, RunFlow, Kept, Chosen, Picked;
  }

  // ---------------------------------------------------------------- tap

  /** The callable was invoked on a copy of each item in turn. */
  ghost predicate Tapped(n: Node, env: Env, items: seq<Value>, luas: seq<Lua>, copies: seq<Value>) {
    && |copies| <= |items| && |luas| == |copies| + 1
    && forall j :: 0 <= j < |copies| ==> TappedOne(n, env, items[j], luas[j], copies[j], luas[j + 1])
  }

  ghost predicate TappedOne(n: Node, env: Env, item: Value, lua: Lua, copy: Value, after: Lua) {
    var (heap, c) := Clone(lua.heap, item, env.script.order(lua.world));
    && c == Done(copy)
    && var (lua1, r) := env.script.invoke(Behind(env, n.callable), copy, env.state,
                                          lua.(heap := heap));
       r.Success? && lua1 == after
  }

  /** The stage in which a tap that cannot go on from an item leaves the flow. */
  ghost predicate TapFails(n: Node, env: Env, item: Value, lua: Lua, r: (Lua, Ending<seq<Value>>)) {
    var (heap, c) := Clone(lua.heap, item, env.script.order(lua.world));
    match c
    case Done(copy) =>
      var (lua1, x) := env.script.invoke(Behind(env, n.callable), copy, env.state,
                                         lua.(heap := heap));
      r.0 == lua1 && x.Failure? && r.1.Wrong? && PlacedAt(r.1.fault, x.error, "tap", n.position, n.name)
    case Panicked => r == (lua.(heap := heap), Panic)
    case Unsupported(kind) =>
      r.0 == lua.(heap := heap) && r.1.Wrong?
      && RuntimeError(r.1.fault, "unsupported Lua value type " + kind, "tap", n.position, n.name)
    case _ =>
      r.0 == lua.(heap := heap) && r.1.Wrong?
      && RuntimeError(r.1.fault, "cyclic table values are not supported", "tap", n.position, n.name)
  }

  lemma TappedMore(n: Node, env: Env, items: seq<Value>, luas: seq<Lua>, copies: seq<Value>, lua: Lua, first: Value)
    requires items != [] && Tapped(n, env, items[1..], luas, copies) && TappedOne(n, env, items[0], lua, first, luas[0])
    ensures Tapped(n, env, items, [lua] + luas, [first] + copies)
  {
    hide TappedOne;
    forall j | 0 <= j < |copies| + 1
      ensures TappedOne(n, env, items[j], ([lua] + luas)[j], ([first] + copies)[j], ([lua] + luas)[j + 1])
    {
      if j > 0 {
        assert items[j] == items[1..][j - 1] && ([lua] + luas)[j] == luas[j - 1]
          && ([first] + copies)[j] == copies[j - 1];
        assert TappedOne(n, env, items[1..][j - 1], luas[j - 1], copies[j - 1], luas[j - 1 + 1]);
      }
    }
  }

  lemma {:induction false} TapTrace(n: Node, items: seq<Value>, lua: Lua, env: Env)
      returns (luas: seq<Lua>, copies: seq<Value>)
    requires n.kind.Tap?
    ensures Tapped(n, env, items, luas, copies) && luas[0] == lua
    ensures var r := TapItems(n, items, lua, env);
      if |copies| == |items| then r == (luas[|copies|], Fine(items))
      else TapFails(n, env, items[|copies|], luas[|copies|], r)
    decreases |items|
  {
    hide Clone;
    luas, copies := [lua], [];
    if items != [] {
      var (heap, c) := Clone(lua.heap, items[0], env.script.order(lua.world));
      if c.Done? {
        var (lua1, r) := env.script.invoke(Read(env.refs, n.callable), c.value, env.state, lua.(heap := heap));
        if r.Success? {
          var restLuas, restCopies := TapTrace(n, items[1..], lua1, env);
          luas, copies := [lua] + restLuas, [c.value] + restCopies;
          assert TappedOne(n, env, items[0], lua, c.value, lua1);
          TappedMore(n, env, items, restLuas, restCopies, lua, c.value);
          hide Tapped, TappedOne, TapFails;
          assert luas[|copies|] == restLuas[|restCopies|] && [items[0]] + items[1..] == items;
          assert |restCopies| < |items[1..]| ==> items[|copies|] == items[1..][|restCopies|];
        }
      }
    }
  }

  /** A tap invokes its callable on a copy of every item in order and leaves the batch as it was; on an empty batch it
      invokes the callable once, without input.  The first copy or callback that fails ends the flow. */
  lemma TapNode(n: Node, s: Stage, env: Env) returns (luas: seq<Lua>, copies: seq<Value>)
    requires s.Going? && n.kind.Tap?
    ensures s.items != [] ==> Tapped(n, env, s.items, luas, copies) && luas[0] == s.lua
    ensures var r := RunFlow([n], s, env);
      if s.items == []
      then
        var (lua, x) := env.script.invoke(Behind(env, n.callable), Nil, env.state, s.lua);
        if x.Success? then r == Going([], s.itemsIn, lua)
        else
          r.Failed? && r.itemsIn == s.itemsIn && r.lua == lua
          && PlacedAt(r.fault, x.error, "tap", n.position, n.name)
      else if |copies| == |s.items| then r == Going(s.items, s.itemsIn, luas[|copies|])
      else
        match r
        case Going(_, _, _) => false
        case Failed(f, itemsIn, lua) => itemsIn == s.itemsIn
          && TapFails(n, env, s.items[|copies|], luas[|copies|], (lua, Wrong(f)))
        case Panicking(lua) => TapFails(n, env, s.items[|copies|], luas[|copies|], (lua, Panic))
  {
    RunOne(n, s, env);
    luas, copies := [], [];
    if s.items == [] {
      TapEmpty(n, s, env);
      hide *;
    } else {
      luas, copies := TapTrace(n, s.items, s.lua, env);
      TapNeverFine(n, env, s.items, luas, copies);
      hide TapItems, Tapped, TapFails, RunFlow, Clone;
    }
  }

  lemma TapEmpty(n: Node, s: Stage, env: Env)
    requires s.Going? && n.kind.Tap? && s.items == []
    ensures var (lua, x) := env.script.invoke(Behind(env, n.callable), Nil, env.state, s.lua);
      match x
      case Success(_) => RunNode(n, s, env) == Going([], s.itemsIn, lua)
      case Failure(e) =>
        var r := RunNode(n, s, env);
        r.Failed? && r.itemsIn == s.itemsIn && r.lua == lua && PlacedAt(r.fault, e, "tap", n.position, n.name)
  {
    var (lua, x) := env.script.invoke(Read(env.refs, n.callable), Nil, env.state, s.lua);
    assert TapNothing(n, s.lua, env) == (lua, if x.Failure? then Wrong(AtNode(x.error, n, n.name)) else Fine([]));
  }

  lemma TapNeverFine(n: Node, env: Env, items: seq<Value>, luas: seq<Lua>, copies: seq<Value>)
    requires |luas| == |copies| + 1
    ensures |copies| < |items| ==>
      forall r: (Lua, Ending<seq<Value>>) :: TapFails(n, env, items[|copies|], luas[|copies|], r) ==> !r.1.Fine?
  {
    hide Clone;
  }

  // ---------------------------------------------------------------- call

  /** The element of a table at an index. */
  function Element(h: Heap, a: nat, i: int): Value {
    if a in h.tables && Int(i) in h.tables[a].entries then h.tables[a].entries[Int(i)] else Nil
  }

  /** on_data, if there is one, made the item. */
  ghost predicate MadeItem(n: Node, env: Env, data: Value, lua: Lua, after: Lua, item: Value) {
    match n.onData
    case None => after == lua && item == data
    case Some(k) =>
      env.script.apply(Behind(env, k), data, lua) == (after, Success(item)) && !item.Nil?
  }

  ghost predicate ItemFails(n: Node, env: Env, data: Value, lua: Lua, after: Lua, f: Fault) {
    match n.onData
    case None => false
    case Some(k) =>
      var (lua1, r) := env.script.apply(Behind(env, k), data, lua);
      && after == lua1
      && if r.Failure? then PlacedAt(f, r.error, "call", n.position, n.name)
         else r.value.Nil? && RuntimeError(f, "call on_data must return item, got nil", "call", n.position, n.name)
  }

  lemma OnDataMeans(n: Node, v: Value, lua: Lua, env: Env)
    requires n.kind.Call?
    ensures var (after, r) := OnData(n, v, lua, env);
      match r
      case Fine(item) => MadeItem(n, env, v, lua, after, item)
      case Wrong(f) => ItemFails(n, env, v, lua, after, f)
      case Panic => false
  {
  }

  /** The items made so far of the elements from index `i` on. */
  ghost predicate MadeAll(n: Node, env: Env, a: nat, i: int, luas: seq<Lua>, items: seq<Value>) {
    && |luas| == |items| + 1
    && forall j :: 0 <= j < |items| ==>
         MadeItem(n, env, Element(luas[j].heap, a, i + j), luas[j], luas[j + 1], items[j])
  }

  lemma MadeMore(n: Node, env: Env, a: nat, i: int, luas: seq<Lua>, items: seq<Value>, lua: Lua, first: Value)
    requires MadeAll(n, env, a, i + 1, luas, items) && MadeItem(n, env, Element(lua.heap, a, i), lua, luas[0], first)
    ensures MadeAll(n, env, a, i, [lua] + luas, [first] + items)
  {
    hide MadeItem, Element;
    forall j | 0 <= j < |items| + 1
      ensures MadeItem(n, env, Element(([lua] + luas)[j].heap, a, i + j), ([lua] + luas)[j], ([lua] + luas)[j + 1],
        ([first] + items)[j])
    {
      if j > 0 {
        assert ([lua] + luas)[j] == luas[j - 1] && ([lua] + luas)[j + 1] == luas[j - 1 + 1]
          && ([first] + items)[j] == items[j - 1];
        assert MadeItem(n, env, Element(luas[j - 1].heap, a, i + 1 + (j - 1)), luas[j - 1],
          luas[j - 1 + 1], items[j - 1]);
      }
    }
  }

  lemma {:induction false} ExpandTrace(n: Node, a: nat, i: nat, len: nat, lua: Lua, env: Env)
      returns (luas: seq<Lua>, items: seq<Value>)
    requires n.kind.Call? && 1 <= i <= len + 1
    ensures MadeAll(n, env, a, i, luas, items) && luas[0] == lua && |items| <= len + 1 - i
    ensures var r := Expand(n, a, i, len, lua, env);
      if |items| == len + 1 - i then r == (luas[|items|], Fine(items))
      else r.1.Wrong? && ItemFails(n, env, Element(luas[|items|].heap, a, i + |items|), luas[|items|], r.0, r.1.fault)
    decreases len + 1 - i
  {
    luas, items := [lua], [];
    if i <= len {
      var v := RawGet(lua.heap, a, Int(i));
      assert v == Element(lua.heap, a, i);
      OnDataMeans(n, v, lua, env);
      var (lua1, r) := OnData(n, v, lua, env);
      hide OnData, RawGet, MadeItem, ItemFails, Element;
      if r.Fine? {
        var restLuas, restItems := ExpandTrace(n, a, i + 1, len, lua1, env);
        luas, items := [lua] + restLuas, [r.value] + restItems;
        MadeMore(n, env, a, i, restLuas, restItems, lua, r.value);
        hide MadeAll;
        assert luas[|items|] == restLuas[|restItems|];
      }
    }
  }

  /** The result was taken apart into the items of its elements 1..m. */
  ghost predicate Apart(n: Node, env: Env, a: nat, m: nat, luas: seq<Lua>, items: seq<Value>, r: Stage, itemsIn: nat) {
    && MadeAll(n, env, a, 1, luas, items) && |items| <= m
    && if |items| == m then r == Going(items, m, luas[m])
       else r.Failed? && r.itemsIn == itemsIn
            && ItemFails(n, env, Element(luas[|items|].heap, a, 1 + |items|), luas[|items|], r.lua, r.fault)
  }

  /** The result became one item. */
  ghost predicate Whole(n: Node, env: Env, v: Value, lua: Lua, r: Stage, itemsIn: nat) {
    if r.Going? then r.itemsIn == 1 && |r.items| == 1 && MadeItem(n, env, v, lua, r.lua, r.items[0])
    else r.Failed? && r.itemsIn == itemsIn && ItemFails(n, env, v, lua, r.lua, r.fault)
  }

  /** What a call does with the result of its callable. */
  ghost predicate Builds(n: Node, env: Env, v: Value, lua: Lua, luas: seq<Lua>, items: seq<Value>, r: Stage,
      itemsIn: nat) {
    && luas != [] && luas[0] == lua
    && (forall m: nat :: Proper(lua.heap, v, m) ==> Apart(n, env, v.a, m, luas, items, r, itemsIn))
    && ((forall m: nat :: !Proper(lua.heap, v, m)) ==> Whole(n, env, v, lua, r, itemsIn))
  }

  /** A call invokes its callable once, without input.  If that fails the flow ends with the error; otherwise the batch
      becomes the items made of the result: element by element if its keys are 1..m, and else the one result. */
  lemma CallNode(n: Node, s: Stage, env: Env) returns (luas: seq<Lua>, items: seq<Value>)
    requires s.Going? && n.kind.Call?
    ensures var (lua, x) := env.script.invoke(Behind(env, n.callable), Nil, env.state, s.lua);
      var r := RunFlow([n], s, env);
      match x
      case Failure(e) => r.Failed? && r.itemsIn == s.itemsIn && r.lua == lua
        && PlacedAt(r.fault, e, "call", n.position, n.name)
      case Success(v) => HeapOk(lua.heap) && ValueIn(lua.heap, v) ==> Builds(n, env, v, lua, luas, items, r, s.itemsIn)
  {
    RunOne(n, s, env);
    var (lua, x) := env.script.invoke(Read(env.refs, n.callable), Nil, env.state, s.lua);
    luas, items := [lua], [];
    if x.Success? && HeapOk(lua.heap) && ValueIn(lua.heap, x.value) {
      luas, items := BuildTrace(n, s, env, x.value, lua);
    }
    hide RunFlow, BuildItems, HeapOk, ValueIn, Builds;
  }

  /** The stage at which a call leaves the flow. */
  function Left(s: Stage, r: (Lua, Ending<seq<Value>>)): Stage
    requires s.Going?
  {
    match r.1
    case Fine(out) => Going(out, |out|, r.0)
    case Wrong(f) => Failed(f, s.itemsIn, r.0)
    case Panic => Panicking(r.0)
  }

  lemma BuildApart(n: Node, s: Stage, env: Env, a: nat, len: nat, lua: Lua) returns (luas: seq<Lua>, items: seq<Value>)
    requires s.Going? && n.kind.Call?
    ensures luas != [] && luas[0] == lua
      && Apart(n, env, a, len, luas, items, Left(s, Expand(n, a, 1, len, lua, env)), s.itemsIn)
  {
    hide Expand, MadeAll, ItemFails, Element;
    luas, items := ExpandTrace(n, a, 1, len, lua, env);
    assert |items| <= len && luas != [] by { MadeSize(n, env, a, luas, items); }
  }

  lemma MadeSize(n: Node, env: Env, a: nat, luas: seq<Lua>, items: seq<Value>)
    requires MadeAll(n, env, a, 1, luas, items)
    ensures |luas| == |items| + 1
  {
  }

  lemma BuildWhole(n: Node, s: Stage, env: Env, v: Value, lua: Lua)
    requires s.Going? && n.kind.Call? && !(v.Table? && PureArray(lua.heap, v.a))
    ensures Whole(n, env, v, lua, Left(s, BuildItems(n, v, lua, env)), s.itemsIn)
  {
    OnDataMeans(n, v, lua, env);
    hide OnData, MadeItem, ItemFails, PureArray;
  }

  lemma BuildTrace(n: Node, s: Stage, env: Env, v: Value, lua: Lua) returns (luas: seq<Lua>, items: seq<Value>)
    requires s.Going? && n.kind.Call? && HeapOk(lua.heap) && ValueIn(lua.heap, v)
    ensures Builds(n, env, v, lua, luas, items, Left(s, BuildItems(n, v, lua, env)), s.itemsIn)
  {
    PureIffProper(lua.heap, v);
    hide HeapOk, ValueIn, Proper, Apart, Whole, Left;
    luas, items := [lua], [];
    if v.Table? && PureArray(lua.heap, v.a) {
      luas, items := BuildApart(n, s, env, v.a, lua.heap.tables[v.a].border, lua);
      assert BuildItems(n, v, lua, env) == Expand(n, v.a, 1, lua.heap.tables[v.a].border, lua, env);
      hide BuildItems, PureArray;
    } else {
      BuildWhole(n, s, env, v, lua);
      hide BuildItems, PureArray;
    }
  }

  /** A primitive that no run knows ends the flow at once. */
  lemma {:induction false} UnknownNode(n: Node, s: Stage, env: Env)
    requires s.Going? && n.kind.Unknown?
    ensures RunFlow([n], s, env)
         == Failed(Fault(4, "unknown_primitive", "unknown primitive \"" + n.kind.text + "\"", n.kind.text,
           n.position, ""),
                   s.itemsIn, s.lua)
  {
    RunOne(n, s, env);
  }
}
