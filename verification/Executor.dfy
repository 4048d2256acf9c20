/** Run as the source has it: a loop over the nodes that rewrites a batch of registry keys and allocates
    and deletes keys by hand.  It is proved against the flow semantics, and for every node it is stated
    which keys are live afterwards. */
module Executor {
  import opened Base
  import opened Reports
  import opened LuaHeap
  import opened Flow
  import opened Registry

  // ---------------------------------------------------------------- keys come and go

  lemma OwnsStore(registry: map<nat, Value>, live: set<nat>, base: set<nat>, keys: seq<nat>,
      was: map<nat, Value>, key: nat, v: Value)
    requires Owns(registry, live, base, keys, was) && key !in live
    ensures Owns(Stored(registry, key, v), live + {key}, base, keys + [key], was)
    ensures Values(Stored(registry, key, v), keys + [key]) == Values(registry, keys) + [v]
  {
    NoDupAppend(keys, key);
    assert forall i :: 0 <= i < |keys| ==> keys[i] in Elements(keys);
  }

  /** One key of the batch is replaced by a new one. */
  lemma OwnsReplace(registry: map<nat, Value>, live: set<nat>, base: set<nat>, keys: seq<nat>,
      was: map<nat, Value>, i: nat, key: nat, v: Value)
    requires Owns(registry, live, base, keys, was) && key !in live && i < |keys|
    ensures Owns(Stored(registry, key, v) - {keys[i]}, live + {key} - {keys[i]}, base, keys[i := key], was)
    ensures Values(Stored(registry, key, v) - {keys[i]}, keys[i := key]) == Values(registry, keys)[i := v]
  {
    var out := keys[i := key];
    assert forall j :: 0 <= j < |keys| ==> keys[j] in Elements(keys);
    forall x | x in Elements(keys) + {key} - {keys[i]} ensures x in Elements(out) {
      if x == key {
        assert out[i] == x;
      } else {
        var j :| 0 <= j < |keys| && keys[j] == x;
        assert out[j] == x;
      }
    }
  }

  lemma DropElements(a: seq<nat>, key: nat, b: seq<nat>)
    requires NoDup(a + [key] + b)
    ensures NoDup(a + b) && Elements(a + b) == Elements(a + [key] + b) - {key} && key in Elements(a + [key] + b)
  {
    var all := a + [key] + b;
    assert all[|a|] == key;
    forall i | 0 <= i < |a + b| ensures (a + b)[i] == all[if i < |a| then i else i + 1] && (a + b)[i] != key {}
    forall x | x in Elements(all) - {key} ensures x in Elements(a + b) {
      var i :| 0 <= i < |all| && all[i] == x;
      assert (a + b)[if i < |a| then i else i - 1] == x;
    }
  }

  lemma ValuesKept(registry: map<nat, Value>, gone: nat, a: seq<nat>, b: seq<nat>)
    requires gone !in Elements(a + b)
    ensures Values(registry - {gone}, a + b) == Values(registry, a) + Values(registry, b)
  {
    var all, out := Values(registry - {gone}, a + b), Values(registry, a) + Values(registry, b);
    forall i | 0 <= i < |a + b| ensures all[i] == out[i] { assert (a + b)[i] in Elements(a + b); }
  }

  /** One key of the batch is deleted. */
  lemma OwnsDrop(registry: map<nat, Value>, live: set<nat>, base: set<nat>, a: seq<nat>, key: nat, b: seq<nat>,
      was: map<nat, Value>)
    requires Owns(registry, live, base, a + [key] + b, was)
    ensures Owns(registry - {key}, live - {key}, base, a + b, was)
    ensures Values(registry - {key}, a + b) == Values(registry, a) + Values(registry, b)
  {
    DropElements(a, key, b);
    hide NoDup, Elements;
    ValuesKept(registry, key, a, b);
  }

  /** A key that is not part of the batch is stored and deleted again. */
  lemma OwnsPassing(registry: map<nat, Value>, live: set<nat>, base: set<nat>, keys: seq<nat>,
      was: map<nat, Value>, key: nat, v: Value)
    requires Owns(registry, live, base, keys, was) && key !in live && Sound(registry, live, key)
    ensures Stored(registry, key, v) - {key} == registry && live + {key} - {key} == live
  {
  }

  lemma OwnsSame(registry: map<nat, Value>, live: set<nat>)
    ensures Owns(registry, live, live, [], registry) && Values(registry, []) == []
  {
  }

  /** The old batch is deleted after the new one has been built beside it. */
  lemma OwnsRelease(registry: map<nat, Value>, live: set<nat>, base: set<nat>, earlier: seq<nat>,
      keys: seq<nat>, mid: map<nat, Value>, was: map<nat, Value>)
    requires Owns(registry, live, base + Elements(earlier), keys, mid) && Elements(earlier) !! base
    requires forall k :: k in base ==> Read(mid, k) == Read(was, k)
    ensures Owns(registry - Elements(earlier), live - Elements(earlier), base, keys, was)
    ensures Values(registry - Elements(earlier), keys) == Values(registry, keys)
  {
    assert forall i :: 0 <= i < |keys| ==> keys[i] in Elements(keys);
  }

  method DeleteItemRefs(rt: Runtime, keys: seq<nat>)
    requires rt.Valid()
    modifies rt`registry, rt`live
    ensures rt.Valid() && rt.registry == old(rt.registry) - Elements(keys) && rt.live == old(rt.live) - Elements(keys)
  {
    for i := 0 to |keys|
      invariant rt.Valid() && rt.registry == old(rt.registry) - Elements(keys[..i])
        && rt.live == old(rt.live) - Elements(keys[..i])
    {
      assert keys[..i + 1] == keys[..i] + [keys[i]];
      ElementsAppend(keys[..i], keys[i]);
      rt.DeleteRef(keys[i]);
    }
    assert keys[..|keys|] == keys;
  }

  // ---------------------------------------------------------------- one turn of each loop

  lemma {:induction false} SetNext(n: Node, vals: seq<Value>, i: nat, lua: Lua, env: Env, front: seq<Value>)
    requires i < |vals|
    ensures var (lua1, r) := env.script.apply(Read(env.refs, n.fn), vals[i], lua);
      Joined(front, SetItems(n, vals[i..], lua, env))
      == if r.Failure? then (lua1, Wrong(AtNode(r.error, n, "")))
         else if r.value.Nil? then (lua1, Wrong(RuntimeFault("set.to must return item, got nil", n, "")))
         else Joined(front + [r.value], SetItems(n, vals[i + 1..], lua1, env))
  {
    assert vals[i..][1..] == vals[i + 1..];
    var (lua1, r) := env.script.apply(Read(env.refs, n.fn), vals[i], lua);
    if r.Success? {
      JoinedJoined(front, [r.value], SetItems(n, vals[i + 1..], lua1, env));
    }
  }

  lemma JoinedJoined(a: seq<Value>, b: seq<Value>, rest: (Lua, Ending<seq<Value>>))
    ensures Joined(a, Joined(b, rest)) == Joined(a + b, rest)
    ensures Joined([], rest) == rest && forall lua :: Joined(a, (lua, Fine([]))) == (lua, Fine(a))
  {
    assert a + [] == a;
    if rest.1.Fine? {
      assert a + (b + rest.1.value) == a + b + rest.1.value;
      assert [] + rest.1.value == rest.1.value;
    }
  }

  lemma {:induction false} FilterNext(n: Node, vals: seq<Value>, i: nat, lua: Lua, env: Env, front: seq<Value>)
    requires i < |vals|
    ensures var (lua1, r) := env.script.apply(Read(env.refs, n.fn), vals[i], lua);
      Joined(front, FilterItems(n, vals[i..], lua, env))
      == if r.Failure? then (lua1, Wrong(AtNode(r.error, n, "")))
         else if !r.value.Bool? then (lua1, Wrong(RuntimeFault("filter.condition must return a boolean", n, "")))
         else Joined(if r.value.b then front + [vals[i]] else front, FilterItems(n, vals[i + 1..], lua1, env))
  {
    assert vals[i..][1..] == vals[i + 1..];
    var (lua1, r) := env.script.apply(Read(env.refs, n.fn), vals[i], lua);
    if r.Success? && r.value.Bool? {
      JoinedJoined(front, if r.value.b then [vals[i]] else [], FilterItems(n, vals[i + 1..], lua1, env));
      assert front + [] == front;
    }
  }

  lemma {:induction false} TapNext(n: Node, vals: seq<Value>, i: nat, lua: Lua, env: Env, front: seq<Value>)
    requires i < |vals|
    ensures var (heap, c) := Clone(lua.heap, vals[i], env.script.order(lua.world));
      Joined(front, TapItems(n, vals[i..], lua, env))
      == if c.Panicked? then (lua.(heap := heap), Panic)
         else if !c.Done? then (lua.(heap := heap), Wrong(AtNode(CloneFault(c), n, n.name)))
         else
           var (lua1, r) := env.script.invoke(Read(env.refs, n.callable), c.value, env.state, lua.(heap := heap));
           if r.Failure? then (lua1, Wrong(AtNode(r.error, n, n.name)))
           else Joined(front + [vals[i]], TapItems(n, vals[i + 1..], lua1, env))
  {
    hide Clone;
    assert vals[i..][1..] == vals[i + 1..];
    var (heap, c) := Clone(lua.heap, vals[i], env.script.order(lua.world));
    if c.Done? {
      var (lua1, r) := env.script.invoke(Read(env.refs, n.callable), c.value, env.state, lua.(heap := heap));
      JoinedJoined(front, [vals[i]], TapItems(n, vals[i + 1..], lua1, env));
    }
  }

  // ---------------------------------------------------------------- the nodes

  /** The keys a node reads were live before the run. */
  predicate Bound(n: Node, base: set<nat>) {
    match n.kind
    case Call => n.callable in base && (n.onData.Some? ==> n.onData.value in base)
    case Set => n.fn in base
    case Filter => n.fn in base
    case Tap => n.callable in base
    case Unknown(_) => true
  }

  /** The batch keys that a node leaves live when it does not finish. */
  ghost predicate LeftBehind(kind: Kind, items: seq<nat>, batch: seq<nat>) {
    match kind
    case Set => |batch| == |items|
    case Filter => exists i, kept ::
      0 <= i < |items| && Elements(kept) <= Elements(items[..i]) && batch == kept + items[i..]
    case _ => batch == items
  }

  /** What the source's key-rewriting form must agree on with the semantics on values. */
  ghost predicate Agrees(end: Ending<seq<nat>>, lua: Lua, batch: seq<nat>, registry: map<nat, Value>,
      spec: (Lua, Ending<seq<Value>>)) {
    && lua == spec.0
    && match spec.1
       case Fine(vals) => end == Fine(batch) && Values(registry, batch) == vals
       case Wrong(f) => end == Wrong(f)
       case Panic => end.Panic?
  }

  /** The function of a set node on item `i`: the new value takes the item's place under a new key. */
  method SetItem(rt: Runtime, n: Node, items: seq<nat>, i: nat, ghost base: set<nat>,
      ghost env: Env) returns (r: Ending<seq<nat>>)
    requires rt.Valid() && Owns(rt.registry, rt.live, base, items, env.refs) && n.kind.Set? && Bound(n, base)
      && env.script == rt.script
    requires i < |items|
    modifies rt
    ensures rt.Valid() && rt.executionState == old(rt.executionState) && rt.stale == old(rt.stale)
    ensures Owns(rt.registry, rt.live, base, if r.Fine? then r.value else items, env.refs)
    ensures var (lua1, out) := env.script.apply(Read(env.refs, n.fn), Read(old(rt.registry), items[i]), old(rt.lua));
      && rt.lua == lua1
      && if out.Failure? then r == Wrong(AtNode(out.error, n, ""))
         else if out.value.Nil? then r == Wrong(RuntimeFault("set.to must return item, got nil", n, ""))
         else
           && r.Fine? && |r.value| == |items|
           && Values(rt.registry, r.value) == Values(old(rt.registry), items)[i := out.value]
  {
    assert items[i] in Elements(items);
    assert n.fn in base && Read(rt.registry, n.fn) == Read(env.refs, n.fn);
    ghost var registry, live, lua := rt.registry, rt.live, rt.lua;
    var key := rt.CallFunction(n.fn, items[i]);
    assert key.Failure? ==> env.script.apply(Read(env.refs, n.fn), Read(registry, items[i]), lua).1.Failure?;
    if key.Failure? {
      return Wrong(AtNode(key.error, n, ""));
    }
    ghost var v := Read(rt.registry, key.value);
    var result := rt.PushRef(key.value);
    hide Owns;
    if result.Nil? {
      OwnsPassing(registry, live, base, items, env.refs, key.value, v);
      rt.DeleteRef(key.value);
      return Wrong(RuntimeFault("set.to must return item, got nil", n, ""));
    }
    OwnsReplace(registry, live, base, items, env.refs, i, key.value, v);
    rt.DeleteRef(items[i]);
    r := Fine(items[i := key.value]);
  }

  method SetNode(rt: Runtime, n: Node, batch: seq<nat>, ghost base: set<nat>, ghost env: Env)
    returns (end: Ending<seq<nat>>, ghost left: seq<nat>)
    requires rt.Valid() && Owns(rt.registry, rt.live, base, batch, env.refs) && n.kind.Set? && Bound(n, base)
      && env.script == rt.script
    modifies rt
    ensures rt.Valid() && rt.executionState == old(rt.executionState) && rt.stale == old(rt.stale)
    ensures Owns(rt.registry, rt.live, base, left, env.refs) && (!end.Fine? ==> LeftBehind(n.kind, batch, left))
    ensures Agrees(end, rt.lua, left, rt.registry, SetItems(n, Values(old(rt.registry), batch), old(rt.lua), env))
  {
    hide Owns, SetItems, Joined, Sound;
    var items := batch;
    ghost var vals := Values(rt.registry, batch);
    ghost var spec := SetItems(n, vals, rt.lua, env);
    assert vals[0..] == vals;
    JoinedJoined([], [], spec);
    for i := 0 to |items|
      invariant |items| == |batch| && rt.Valid() && rt.executionState == old(rt.executionState)
        && rt.stale == old(rt.stale)
      invariant Owns(rt.registry, rt.live, base, items, env.refs)
      invariant Values(rt.registry, items)[i..] == vals[i..]
      invariant spec == Joined(Values(rt.registry, items)[..i], SetItems(n, vals[i..], rt.lua, env))
    {
      left := items;
      ghost var now := Values(rt.registry, items);
      assert now[i] == vals[i] by { assert now[i..][0] == vals[i..][0]; }
      SetNext(n, vals, i, rt.lua, env, now[..i]);
      var r := SetItem(rt, n, items, i, base, env);
      if !r.Fine? {
        return r, left;
      }
      items := r.value;
      ghost var updated := Values(rt.registry, items);
      assert updated[..i + 1] == now[..i] + [updated[i]];
      assert updated[i + 1..] == now[i..][1..];
      assert vals[i + 1..] == vals[i..][1..];
    }
    left := items;
    assert vals[|items|..] == [];
    assert Values(rt.registry, items)[..|items|] == Values(rt.registry, items);
    JoinedJoined(Values(rt.registry, items), [], spec);
    SetNothing(n, rt.lua, env);
    end := Fine(items);
  }

  lemma {:induction false} SetNothing(n: Node, lua: Lua, env: Env)
    ensures SetItems(n, [], lua, env) == (lua, Fine([])) && FilterItems(n, [], lua, env) == (lua, Fine([]))
    ensures TapItems(n, [], lua, env) == (lua, Fine([]))
  {
  }

  // ---------------------------------------------------------------- filter

  /** The condition of a filter node on one item: its verdict, and no key more than before. */
  method FilterItem(rt: Runtime, n: Node, key: nat, ghost keys: seq<nat>, ghost base: set<nat>,
      ghost env: Env) returns (r: Ending<bool>)
    requires rt.Valid() && Owns(rt.registry, rt.live, base, keys, env.refs) && n.kind.Filter? && Bound(n, base)
      && env.script == rt.script
    requires key in Elements(keys)
    modifies rt
    ensures rt.Valid() && rt.executionState == old(rt.executionState) && rt.stale == old(rt.stale)
    ensures rt.registry == old(rt.registry) && rt.live == old(rt.live)
    ensures var (lua1, out) := env.script.apply(Read(env.refs, n.fn), Read(old(rt.registry), key), old(rt.lua));
      && rt.lua == lua1
      && if out.Failure? then r == Wrong(AtNode(out.error, n, ""))
         else if !out.value.Bool? then r == Wrong(RuntimeFault("filter.condition must return a boolean", n, ""))
         else r == Fine(out.value.b)
  {
    assert n.fn in base && Read(rt.registry, n.fn) == Read(env.refs, n.fn);
    ghost var registry, live, lua := rt.registry, rt.live, rt.lua;
    var result := rt.CallFunction(n.fn, key);
    assert result.Failure? ==> env.script.apply(Read(env.refs, n.fn), Read(registry, key), lua).1.Failure?;
    if result.Failure? {
      return Wrong(AtNode(result.error, n, ""));
    }
    ghost var v := Read(rt.registry, result.value);
    var verdict := rt.PushRef(result.value);
    OwnsPassing(registry, live, base, keys, env.refs, result.value, v);
    hide Owns;
    rt.DeleteRef(result.value);
    if !verdict.Bool? {
      return Wrong(RuntimeFault("filter.condition must return a boolean", n, ""));
    }
    r := Fine(verdict.b);
  }

  /** Before item `i` exactly the kept prefix and the unvisited suffix are live. */
  ghost predicate FilterAt(registry: map<nat, Value>, live: set<nat>, base: set<nat>, filtered: seq<nat>,
      items: seq<nat>, i: nat,
                           vals: seq<Value>, was: map<nat, Value>) {
    && i <= |items| == |vals| && Owns(registry, live, base, filtered + items[i..], was)
    && Values(registry, items[i..]) == vals[i..] && Elements(filtered) <= Elements(items[..i])
  }

  lemma FilterHead(registry: map<nat, Value>, live: set<nat>, base: set<nat>, filtered: seq<nat>,
      items: seq<nat>, i: nat,
                   vals: seq<Value>, was: map<nat, Value>)
    requires FilterAt(registry, live, base, filtered, items, i, vals, was) && i < |items|
    ensures vals[i] == Read(registry, items[i]) && items[i] in Elements(filtered + items[i..])
    ensures Owns(registry, live, base, filtered + items[i..], was) && LeftBehind(Filter, items, filtered + items[i..])
  {
    hide Owns;
    assert vals[i..][0] == Values(registry, items[i..])[0];
    assert (filtered + items[i..])[|filtered|] == items[i];
  }

  lemma FilterKeeps(registry: map<nat, Value>, live: set<nat>, base: set<nat>, filtered: seq<nat>,
      items: seq<nat>, i: nat,
                    vals: seq<Value>, was: map<nat, Value>)
    requires FilterAt(registry, live, base, filtered, items, i, vals, was) && i < |items|
    ensures FilterAt(registry, live, base, filtered + [items[i]], items, i + 1, vals, was)
    ensures Values(registry, filtered + [items[i]]) == Values(registry, filtered) + [vals[i]]
  {
    hide Owns;
    FilterHead(registry, live, base, filtered, items, i, vals, was);
    assert filtered + [items[i]] + items[i + 1..] == filtered + items[i..];
    ValuesTail(registry, items, i);
    assert vals[i + 1..] == vals[i..][1..];
    assert items[..i + 1] == items[..i] + [items[i]];
    ElementsAppend(items[..i], items[i]);
    ElementsAppend(filtered, items[i]);
  }

  lemma FilterDrops(registry: map<nat, Value>, live: set<nat>, base: set<nat>, filtered: seq<nat>,
      items: seq<nat>, i: nat,
                    vals: seq<Value>, was: map<nat, Value>)
    requires FilterAt(registry, live, base, filtered, items, i, vals, was) && i < |items|
    ensures FilterAt(registry - {items[i]}, live - {items[i]}, base, filtered, items, i + 1, vals, was)
    ensures Values(registry - {items[i]}, filtered) == Values(registry, filtered)
  {
    hide Owns;
    assert filtered + [items[i]] + items[i + 1..] == filtered + items[i..];
    OwnsDrop(registry, live, base, filtered, items[i], items[i + 1..], was);
    ValuesTail(registry, items, i);
    assert vals[i + 1..] == vals[i..][1..];
    ValuesSplit(registry - {items[i]}, filtered, items[i + 1..], Values(registry, filtered), vals[i + 1..]);
    assert items[..i + 1] == items[..i] + [items[i]];
    ElementsAppend(items[..i], items[i]);
  }

  lemma FilterStarts(registry: map<nat, Value>, live: set<nat>, base: set<nat>, items: seq<nat>, was: map<nat, Value>)
    requires Owns(registry, live, base, items, was)
    ensures FilterAt(registry, live, base, [], items, 0, Values(registry, items), was) && Values(registry, []) == []
  {
    assert [] + items[0..] == items;
    hide Owns;
  }

  method FilterNode(rt: Runtime, n: Node, items: seq<nat>, ghost base: set<nat>, ghost env: Env)
    returns (end: Ending<seq<nat>>, ghost left: seq<nat>)
    requires rt.Valid() && Owns(rt.registry, rt.live, base, items, env.refs) && n.kind.Filter? && Bound(n, base)
      && env.script == rt.script
    modifies rt
    ensures rt.Valid() && rt.executionState == old(rt.executionState) && rt.stale == old(rt.stale)
    ensures Owns(rt.registry, rt.live, base, left, env.refs) && (!end.Fine? ==> LeftBehind(n.kind, items, left))
    ensures Agrees(end, rt.lua, left, rt.registry, FilterItems(n, Values(old(rt.registry), items), old(rt.lua), env))
  {
    hide Owns, FilterItems, Joined, Sound, LeftBehind, FilterAt;
    var filtered: seq<nat> := [];
    ghost var vals := Values(rt.registry, items);
    ghost var spec := FilterItems(n, vals, rt.lua, env);
    assert vals[0..] == vals;
    JoinedJoined([], [], spec);
    FilterStarts(rt.registry, rt.live, base, items, env.refs);
    for i := 0 to |items|
      invariant rt.Valid() && rt.executionState == old(rt.executionState) && rt.stale == old(rt.stale)
      invariant FilterAt(rt.registry, rt.live, base, filtered, items, i, vals, env.refs)
      invariant spec == Joined(Values(rt.registry, filtered), FilterItems(n, vals[i..], rt.lua, env))
    {
      left := filtered + items[i..];
      FilterHead(rt.registry, rt.live, base, filtered, items, i, vals, env.refs);
      FilterNext(n, vals, i, rt.lua, env, Values(rt.registry, filtered));
      var r := FilterItem(rt, n, items[i], left, base, env);
      if !r.Fine? {
        return if r.Wrong? then Wrong(r.fault) else Panic, left;
      }
      if r.value {
        FilterKeeps(rt.registry, rt.live, base, filtered, items, i, vals, env.refs);
        filtered := filtered + [items[i]];
      } else {
        FilterDrops(rt.registry, rt.live, base, filtered, items, i, vals, env.refs);
        rt.DeleteRef(items[i]);
      }
    }
    left := filtered;
    FilterEnds(rt.registry, rt.live, base, filtered, items, vals, env.refs);
    JoinedJoined(Values(rt.registry, filtered), [], spec);
    SetNothing(n, rt.lua, env);
    end := Fine(filtered);
  }

  lemma FilterEnds(registry: map<nat, Value>, live: set<nat>, base: set<nat>, filtered: seq<nat>,
      items: seq<nat>, vals: seq<Value>, was: map<nat, Value>)
    requires FilterAt(registry, live, base, filtered, items, |items|, vals, was)
    ensures Owns(registry, live, base, filtered, was) && vals[|items|..] == []
  {
    assert filtered + items[|items|..] == filtered;
    hide Owns;
  }

  lemma ValuesTail(registry: map<nat, Value>, keys: seq<nat>, i: nat)
    requires i < |keys|
    ensures Values(registry, keys[i..])[1..] == Values(registry, keys[i + 1..])
  {
  }

  lemma ValuesSplit(registry: map<nat, Value>, a: seq<nat>, b: seq<nat>, va: seq<Value>, vb: seq<Value>)
    requires Values(registry, a + b) == va + vb && |va| == |a| && |vb| == |b|
    ensures Values(registry, a) == va && Values(registry, b) == vb
  {
    var all := Values(registry, a + b);
    forall i | 0 <= i < |a| ensures Values(registry, a)[i] == va[i] { assert all[i] == (va + vb)[i]; }
    forall i | 0 <= i < |b| ensures Values(registry, b)[i] == vb[i] { assert all[|a| + i] == (va + vb)[|a| + i]; }
  }

  // ---------------------------------------------------------------- tap

  /** One run of a tap's callable on a copy of one item: copy and result are gone afterwards. */
  method TapItem(rt: Runtime, n: Node, key: nat, state: nat, ghost keys: seq<nat>, ghost base: set<nat>,
      ghost env: Env) returns (r: Ending<()>)
    requires rt.Valid() && Owns(rt.registry, rt.live, base, keys, env.refs) && n.kind.Tap? && Bound(n, base)
      && env.script == rt.script
    requires key in Elements(keys) && state in base && Read(env.refs, state) == env.state
    modifies rt
    ensures rt.Valid() && rt.executionState == old(rt.executionState) && rt.stale == old(rt.stale)
    ensures rt.registry == old(rt.registry) && rt.live == old(rt.live)
    ensures var (heap, c) := Clone(old(rt.lua.heap), Read(old(rt.registry), key), env.script.order(old(rt.lua.world)));
      if c.Panicked? then rt.lua == old(rt.lua).(heap := heap) && r.Panic?
      else if !c.Done? then rt.lua == old(rt.lua).(heap := heap) && r == Wrong(AtNode(CloneFault(c), n, n.name))
      else
        var (lua1, out) := env.script.invoke(Read(env.refs, n.callable), c.value, env.state,
          old(rt.lua).(heap := heap));
        rt.lua == lua1 && r == if out.Failure? then Wrong(AtNode(out.error, n, n.name)) else Fine(())
  {
    hide Clone, Owns;
    OwnsParts(rt.registry, rt.live, base, keys, env.refs);
    ghost var registry, live, lua := rt.registry, rt.live, rt.lua;
    var copy := rt.CloneRef(key);
    ghost var c := Clone(lua.heap, Read(registry, key), env.script.order(lua.world)).1;
    hide AtNode, CloneFault;
    if !copy.Done? {
      RefusedFault(c);
      return if copy.Panicked? then Panic else Wrong(AtNode(CloneFault(Refused(copy)), n, n.name));
    }
    ghost var mid, midLua := rt.registry, rt.lua;
    OwnsPassing(registry, live, base, keys, env.refs, copy.value, c.value);
    PassingReads(registry, live, base, copy.value, c.value);
    var result := rt.CallCallable(n.callable, Some(copy.value), state);
    assert result.Failure? <==> env.script.invoke(Read(env.refs, n.callable), c.value, env.state, midLua).1.Failure?;
    rt.DeleteRef(copy.value);
    if result.Failure? {
      return Wrong(AtNode(result.error, n, n.name));
    }
    rt.DeleteRef(result.value);
    r := Fine(());
  }

  /** Whatever kind of value was refused, the error is the same. */
  lemma RefusedFault(c: Conv<Value>)
    requires !c.Done?
    ensures CloneFault(Refused(Refused<Value, nat>(c))) == CloneFault(c)
  {
  }

  lemma PassingReads(registry: map<nat, Value>, live: set<nat>, base: set<nat>, key: nat, v: Value)
    requires key !in live && base <= live && Sound(registry, live, key)
    ensures Read(Stored(registry, key, v), key) == v
    ensures forall k :: k in base ==> Read(Stored(registry, key, v), k) == Read(registry, k)
  {
  }

  method TapNode(rt: Runtime, n: Node, items: seq<nat>, state: nat, ghost base: set<nat>,
      ghost env: Env) returns (end: Ending<seq<nat>>)
    requires rt.Valid() && Owns(rt.registry, rt.live, base, items, env.refs) && n.kind.Tap? && Bound(n, base)
      && env.script == rt.script
    requires state in base && Read(env.refs, state) == env.state
    modifies rt
    ensures rt.Valid() && rt.executionState == old(rt.executionState) && rt.stale == old(rt.stale)
    ensures rt.registry == old(rt.registry) && rt.live == old(rt.live)
    ensures Agrees(end, rt.lua, items, rt.registry, NodeItems(n, Values(old(rt.registry), items), old(rt.lua), env))
  {
    hide TapItems, Joined, Sound, Clone;
    ghost var vals := Values(rt.registry, items);
    if items == [] {
      assert Read(rt.registry, n.callable) == Read(env.refs, n.callable) && Read(rt.registry, state) == env.state;
      ghost var registry, live, lua := rt.registry, rt.live, rt.lua;
      var result := rt.CallCallable(n.callable, None, state);
      assert result.Failure? <==> env.script.invoke(Read(env.refs, n.callable), Nil, env.state, lua).1.Failure?;
      if result.Failure? {
        return Wrong(AtNode(result.error, n, n.name));
      }
      OwnsPassing(registry, live, base, items, env.refs, result.value, Read(rt.registry, result.value));
      rt.DeleteRef(result.value);
      return Fine(items);
    }
    hide Owns;
    ghost var spec := TapItems(n, vals, rt.lua, env);
    assert vals[0..] == vals && vals[..0] == [];
    JoinedJoined([], [], spec);
    for i := 0 to |items|
      invariant rt.Valid() && rt.executionState == old(rt.executionState) && rt.stale == old(rt.stale)
      invariant rt.registry == old(rt.registry) && rt.live == old(rt.live)
      invariant spec == Joined(vals[..i], TapItems(n, vals[i..], rt.lua, env))
    {
      TapNext(n, vals, i, rt.lua, env, vals[..i]);
      assert vals[..i + 1] == vals[..i] + [vals[i]];
      assert items[i] in Elements(items);
      var r := TapItem(rt, n, items[i], state, items, base, env);
      if !r.Fine? {
        return if r.Wrong? then Wrong(r.fault) else Panic;
      }
    }
    assert vals[|items|..] == [] && vals[..|items|] == vals;
    JoinedJoined(vals, [], spec);
    SetNothing(n, rt.lua, env);
    end := Fine(items);
  }

  // ---------------------------------------------------------------- call

  lemma ExpandNext(n: Node, a: nat, i: nat, len: nat, lua: Lua, env: Env, front: seq<Value>)
    requires i <= len
    ensures var (lua1, r) := OnData(n, RawGet(lua.heap, a, Int(i)), lua, env);
      Joined(front, Expand(n, a, i, len, lua, env))
      == match r
         case Fine(item) => Joined(front + [item], Expand(n, a, i + 1, len, lua1, env))
         case Wrong(f) => (lua1, Wrong(f))
         case Panic => (lua1, Panic)
  {
    hide OnData;
    var (lua1, r) := OnData(n, RawGet(lua.heap, a, Int(i)), lua, env);
    if r.Fine? {
      JoinedJoined(front, [r.value], Expand(n, a, i + 1, len, lua1, env));
    }
  }

  lemma OwnsDropLast(registry: map<nat, Value>, live: set<nat>, base: set<nat>, a: seq<nat>, key: nat,
      was: map<nat, Value>)
    requires Owns(registry, live, base, a + [key], was)
    ensures Owns(registry - {key}, live - {key}, base, a, was) && Values(registry - {key}, a) == Values(registry, a)
    ensures key in live && key !in base
  {
    assert a + [key] + [] == a + [key] && a + [] == a && Values(registry, []) == [];
    assert (a + [key])[|a|] == key;
    OwnsDrop(registry, live, base, a, key, [], was);
  }

  lemma {:induction false} OwnsDropAll(registry: map<nat, Value>, live: set<nat>, base: set<nat>, a: seq<nat>,
      b: seq<nat>, was: map<nat, Value>)
    requires Owns(registry, live, base, a + b, was)
    ensures Owns(registry - Elements(b), live - Elements(b), base, a, was)
    decreases |b|
  {
    if b == [] {
      assert a + b == a && registry - Elements(b) == registry && live - Elements(b) == live;
    } else {
      var init, key := b[..|b| - 1], b[|b| - 1];
      assert a + b == a + init + [key] && b == init + [key];
      ElementsAppend(init, key);
      OwnsDropLast(registry, live, base, a + init, key, was);
      hide Owns;
      OwnsDropAll(registry - {key}, live - {key}, base, a, init, was);
      assert registry - {key} - Elements(init) == registry - Elements(b)
        && live - {key} - Elements(init) == live - Elements(b);
    }
  }

  /** A node's on_data key still reads what it read when the run started. */
  ghost predicate OnDataBound(n: Node, base: set<nat>, was: map<nat, Value>, env: Env) {
    n.onData.Some? ==> n.onData.value in base && Read(was, n.onData.value) == Read(env.refs, n.onData.value)
  }

  /** The key of a result gives way to the key of the item made from it, or to nothing. */
  lemma ResultReplaced(registry: map<nat, Value>, live: set<nat>, base: set<nat>, keys: seq<nat>, result: nat,
      was: map<nat, Value>, key: nat, v: Value)
    requires Owns(registry, live, base, keys + [result], was) && key !in live && Sound(registry, live, key)
    ensures Owns(Stored(registry, key, v) - {result}, live + {key} - {result}, base, keys + [key], was)
    ensures Values(Stored(registry, key, v) - {result}, keys + [key]) == Values(registry, keys) + [v]
    ensures Owns(Stored(registry, key, v) - {result} - {key}, live + {key} - {result} - {key}, base, keys, was)
  {
    var whole := keys + [result];
    OwnsReplace(registry, live, base, whole, was, |keys|, key, v);
    OwnsDropLast(registry, live, base, keys, result, was);
    OwnsPassing(registry, live, base, whole, was, key, v);
    hide Owns, Sound;
    assert whole[|keys| := key] == keys + [key];
    assert Values(registry, whole)[|keys| := v] == Values(registry, keys) + [v];
    assert Stored(registry, key, v) - {result} - {key} == registry - {result};
    assert live + {key} - {result} - {key} == live - {result};
  }

  lemma LastOwned(registry: map<nat, Value>, live: set<nat>, base: set<nat>, keys: seq<nat>, result: nat,
      was: map<nat, Value>)
    requires Owns(registry, live, base, keys + [result], was)
    ensures result in live && base <= live && forall k :: k in base ==> Read(registry, k) == Read(was, k)
    ensures Values(registry, keys + [result]) == Values(registry, keys) + [Read(registry, result)]
  {
    assert (keys + [result])[|keys|] == result;
  }

  /** callResultToItem: the item's key takes the place of the result's key, or the result's key is gone. */
  method CallResultToItem(rt: Runtime, n: Node, result: nat, ghost keys: seq<nat>, ghost base: set<nat>,
      ghost was: map<nat, Value>, ghost env: Env)
    returns (r: Ending<nat>)
    requires rt.Valid() && Owns(rt.registry, rt.live, base, keys + [result], was) && OnDataBound(n, base, was, env)
      && env.script == rt.script
    modifies rt
    ensures rt.Valid() && rt.executionState == old(rt.executionState) && rt.stale == old(rt.stale)
    ensures var (lua1, out) := OnData(n, Read(old(rt.registry), result), old(rt.lua), env);
      && rt.lua == lua1
      && match out
         case Fine(item) => r.Fine? && Owns(rt.registry, rt.live, base, keys + [r.value], was)
                            && Values(rt.registry, keys + [r.value]) == Values(old(rt.registry), keys) + [item]
         case Wrong(f) => r == Wrong(f) && Owns(rt.registry, rt.live, base, keys, was)
         case Panic => false
  {
    hide Owns;
    LastOwned(rt.registry, rt.live, base, keys, result, was);
    if n.onData.None? {
      return Fine(result);
    }
    ghost var registry, live, lua := rt.registry, rt.live, rt.lua;
    OwnsDropLast(registry, live, base, keys, result, was);
    var item := rt.CallFunction(n.onData.value, result);
    assert item.Failure? <==> env.script.apply(Read(env.refs, n.onData.value), Read(registry, result), lua).1.Failure?;
    if item.Failure? {
      rt.DeleteRef(result);
      return Wrong(AtNode(item.error, n, n.name));
    }
    ResultReplaced(registry, live, base, keys, result, was, item.value, Read(rt.registry, item.value));
    rt.DeleteRef(result);
    var pushed := rt.PushRef(item.value);
    if pushed.Nil? {
      rt.DeleteRef(item.value);
      return Wrong(RuntimeFault("call on_data must return item, got nil", n, n.name));
    }
    r := Fine(item.value);
  }

  lemma SourceOwned(registry: map<nat, Value>, live: set<nat>, base: set<nat>, source: nat, items: seq<nat>,
      was: map<nat, Value>)
    requires Owns(registry, live, base, [source] + items, was)
    ensures source in live
    ensures Owns(registry - {source}, live - {source}, base, items, was)
      && Values(registry - {source}, items) == Values(registry, items)
    ensures Owns(registry - Elements(items), live - Elements(items), base, [source], was)
  {
    FirstLive(registry, live, base, source, items, was);
    hide Owns;
    OwnsDropAll(registry, live, base, [source], items, was);
    assert [] + [source] + items == [source] + items && [] + items == items && Values(registry, []) == [];
    OwnsDrop(registry, live, base, [], source, items, was);
  }

  lemma FirstLive(registry: map<nat, Value>, live: set<nat>, base: set<nat>, source: nat, items: seq<nat>,
      was: map<nat, Value>)
    requires Owns(registry, live, base, [source] + items, was)
    ensures source in live
  {
    assert ([source] + items)[0] == source;
  }

  /** The source still reads the same, and the new item stands behind the earlier ones. */
  lemma HeadTail(before: map<nat, Value>, after: map<nat, Value>, source: nat, items: seq<nat>, key: nat, x: Value)
    requires Values(after, [source] + items + [key]) == Values(before, [source] + items) + [x]
    ensures Read(after, source) == Read(before, source)
    ensures Values(after, items + [key]) == Values(before, items) + [x]
  {
    var a, b := Values(after, [source] + items + [key]), Values(before, [source] + items);
    assert a[0] == b[0] && a[|items| + 1] == x;
    forall i | 0 <= i < |items| ensures Values(after, items + [key])[i]
      == Values(before, items)[i] { assert a[i + 1] == b[i + 1]; }
  }

  /** buildCallItems: a proper sequence is taken apart, anything else is one item; the source's key is gone
      either way, unless it is the item's own. */
  method BuildCallItems(rt: Runtime, n: Node, source: nat, ghost base: set<nat>, ghost was: map<nat, Value>,
      ghost env: Env)
    returns (r: Ending<seq<nat>>)
    requires rt.Valid() && Owns(rt.registry, rt.live, base, [source], was) && OnDataBound(n, base, was, env)
      && env.script == rt.script
    modifies rt
    ensures rt.Valid() && rt.executionState == old(rt.executionState) && rt.stale == old(rt.stale)
    ensures Owns(rt.registry, rt.live, base, if r.Fine? then r.value else [], was)
    ensures Agrees(r, rt.lua, if r.Fine? then r.value
      else [], rt.registry, BuildItems(n, Read(old(rt.registry), source), old(rt.lua), env))
  {
    hide Owns, Sound, OnDataBound, OnData, Expand, Joined, OnlyArrayKeys;
    assert [] + [source] == [source] && [source] + [] == [source] && Values(rt.registry, []) == [];
    SourceOwned(rt.registry, rt.live, base, source, [], was);
    var pure := rt.RefIsPureArrayTable(source);
    if !pure {
      var item := CallResultToItem(rt, n, source, [], base, was, env);
      match item
      case Fine(key) =>
        assert [] + [key] == [key];
        return Fine([key]);
      case Wrong(f) => return Wrong(f);
      case Panic => return Panic;
    }
    var table := rt.PushRef(source);
    var len := rt.lua.heap.tables[table.a].border;
    var items: seq<nat> := [];
    ghost var spec := Expand(n, table.a, 1, len, rt.lua, env);
    JoinedJoined([], [], spec);
    for i := 1 to len + 1
      invariant rt.Valid() && rt.executionState == old(rt.executionState) && rt.stale == old(rt.stale)
      invariant Owns(rt.registry, rt.live, base, [source] + items, was) && Read(rt.registry, source) == table
      invariant spec == Joined(Values(rt.registry, items), Expand(n, table.a, i, len, rt.lua, env))
    {
      SourceOwned(rt.registry, rt.live, base, source, items, was);
      ghost var registry, live, lua := rt.registry, rt.live, rt.lua;
      ExpandNext(n, table.a, i, len, rt.lua, env, Values(registry, items));
      var result := rt.ArrayValueRef(source, i);
      OwnsStore(registry, live, base, [source] + items, was, result, Read(rt.registry, result));
      ghost var stored := rt.registry;
      HeadTail(registry, stored, source, items, result, Read(stored, result));
      SameFront(registry, stored, [source] + items, result, Read(stored, result));
      var item := CallResultToItem(rt, n, result, [source] + items, base, was, env);
      if !item.Fine? {
        SourceOwned(rt.registry, rt.live, base, source, items, was);
        DeleteItemRefs(rt, items);
        OwnsDropLast(rt.registry, rt.live, base, [], source, was);
        rt.DeleteRef(source);
        return if item.Wrong? then Wrong(item.fault) else Panic;
      }
      assert [source] + items + [item.value] == [source] + (items + [item.value]);
      ghost var made := OnData(n, Read(stored, result), lua, env);
      assert Read(stored, result) == RawGet(lua.heap, table.a, Int(i));
      HeadTail(registry, rt.registry, source, items, item.value, made.1.value);
      items := items + [item.value];
    }
    SourceOwned(rt.registry, rt.live, base, source, items, was);
    JoinedJoined(Values(rt.registry, items), [], spec);
    ExpandedAll(n, table.a, len, rt.lua, env);
    rt.DeleteRef(source);
    r := Fine(items);
  }

  lemma SameFront(before: map<nat, Value>, after: map<nat, Value>, keys: seq<nat>, key: nat, x: Value)
    requires Values(after, keys + [key]) == Values(before, keys) + [x]
    ensures Values(after, keys) == Values(before, keys)
  {
    var a, b := Values(after, keys + [key]), Values(before, keys) + [x];
    forall i | 0 <= i < |keys| ensures Values(after, keys)[i] == Values(before, keys)[i] { assert a[i] == b[i]; }
  }

  lemma ExpandedAll(n: Node, a: nat, len: nat, lua: Lua, env: Env)
    ensures Expand(n, a, len + 1, len, lua, env) == (lua, Fine([]))
  {
  }

  lemma OwnsBack(registry: map<nat, Value>, live: set<nat>, base: set<nat>, items: seq<nat>,
      mid: map<nat, Value>, was: map<nat, Value>)
    requires Owns(registry, live, base + Elements(items), [], mid) && NoDup(items) && Elements(items) !! base
    requires forall k :: k in base ==> Read(mid, k) == Read(was, k)
    ensures Owns(registry, live, base, items, was)
  {
  }

  lemma OwnsParts(registry: map<nat, Value>, live: set<nat>, base: set<nat>, keys: seq<nat>, was: map<nat, Value>)
    requires Owns(registry, live, base, keys, was)
    ensures NoDup(keys) && Elements(keys) !! base && live == base + Elements(keys) && forall k ::
      k in base ==> Read(registry, k) == Read(was, k)
  {
  }

  /** A call that succeeds deletes the old batch only after the new one is built; a failing one keeps it. */
  method CallNode(rt: Runtime, n: Node, items: seq<nat>, state: nat, ghost base: set<nat>, ghost env: Env)
    returns (end: Ending<seq<nat>>, ghost left: seq<nat>)
    requires rt.Valid() && Owns(rt.registry, rt.live, base, items, env.refs) && n.kind.Call? && Bound(n, base)
      && env.script == rt.script
    requires state in base && Read(env.refs, state) == env.state
    modifies rt
    ensures rt.Valid() && rt.executionState == old(rt.executionState) && rt.stale == old(rt.stale)
    ensures Owns(rt.registry, rt.live, base, left, env.refs) && (!end.Fine? ==> LeftBehind(n.kind, items, left))
    ensures Agrees(end, rt.lua, left, rt.registry, Flow.CallNode(n, old(rt.lua), env))
  {
    hide Owns, Sound, BuildItems;
    left := items;
    ghost var registry, live, lua := rt.registry, rt.live, rt.lua;
    OwnsParts(registry, live, base, items, env.refs);
    OwnsSame(registry, live);
    var source := rt.CallCallable(n.callable, None, state);
    assert source.Failure? <==> env.script.invoke(Read(env.refs, n.callable), Nil, env.state, lua).1.Failure?;
    if source.Failure? {
      return Wrong(AtNode(source.error, n, n.name)), left;
    }
    OwnsStore(registry, live, live, [], registry, source.value, Read(rt.registry, source.value));
    assert [] + [source.value] == [source.value];
    var built := BuildCallItems(rt, n, source.value, live, registry, env);
    if !built.Fine? {
      OwnsBack(rt.registry, rt.live, base, items, registry, env.refs);
      return if built.Wrong? then Wrong(built.fault) else Panic, left;
    }
    OwnsRelease(rt.registry, rt.live, base, items, built.value, registry, env.refs);
    DeleteItemRefs(rt, items);
    left := built.value;
    end := built;
  }

  // ---------------------------------------------------------------- the whole run

  /** The trigger data with its type filled in. */
  function NormalTrigger(keys: seq<string>, values: seq<GoValue>): (seq<string>, seq<GoValue>) {
    if keys == [] then (["type"], [Plain(Str("none"))])
    else if "type" in keys then (keys, values)
    else (keys + ["type"], values + [Plain(Str("none"))])
  }

  function Strings(keys: seq<string>): (r: seq<Value>)
    ensures |r| == |keys|
  {
    seq(|keys|, i requires 0 <= i < |keys| => Str(keys[i]))
  }

  const TRIGGER_FIELD := Str("__lumn_trigger_data")

  /** The state table with the trigger data in it. */
  function Prepared(keys: seq<string>, values: seq<GoValue>, lua: Lua, script: Script): Lua {
    var (ks, vs) := NormalTrigger(keys, values);
    var (heap, data) := Push(LuaHeap.NewTable(lua.heap), script.order(lua.world)(Dict(Strings(ks), vs)));
    lua.(heap := HeapSet(heap, lua.heap.next, TRIGGER_FIELD, data))
  }

  /** The body of the node loop. */
  method RunNodeKeys(rt: Runtime, n: Node, items: seq<nat>, state: nat, ghost base: set<nat>, ghost env: Env)
    returns (end: Ending<seq<nat>>, ghost left: seq<nat>)
    requires rt.Valid() && Owns(rt.registry, rt.live, base, items, env.refs) && Bound(n, base)
      && env.script == rt.script
    requires state in base && Read(env.refs, state) == env.state
    modifies rt
    ensures rt.Valid() && rt.executionState == old(rt.executionState) && rt.stale == old(rt.stale)
    ensures Owns(rt.registry, rt.live, base, left, env.refs) && (!end.Fine? ==> LeftBehind(n.kind, items, left))
    ensures Agrees(end, rt.lua, left, rt.registry, NodeItems(n, Values(old(rt.registry), items), old(rt.lua), env))
  {
    hide Owns, Sound, Flow.CallNode, SetItems, FilterItems, TapItems, TapNothing;
    left := items;
    match n.kind
    case Call => end, left := CallNode(rt, n, items, state, base, env);
    case Set =>
      if items == [] {
        SetNothing(n, rt.lua, env);
        return Fine(items), items;
      }
      end, left := SetNode(rt, n, items, base, env);
    case Filter =>
      if items == [] {
        SetNothing(n, rt.lua, env);
        return Fine(items), items;
      }
      end, left := FilterNode(rt, n, items, base, env);
    case Tap => end := TapNode(rt, n, items, state, base, env);
    case Unknown(text) =>
      end := Wrong(Fault(ERR_UNKNOWN_PRIMITIVE, "unknown_primitive", "unknown primitive \"" + text + "\"", text,
        n.position, ""));
  }

  lemma {:induction false} FlowNext(nodes: seq<Node>, i: nat, items: seq<Value>, itemsIn: nat, lua: Lua, env: Env)
    requires i < |nodes|
    ensures var (lua1, r) := NodeItems(nodes[i], items, lua, env);
      RunFlow(nodes[i..], Going(items, itemsIn, lua), env)
      == match r
         case Fine(vals) => RunFlow(nodes[i + 1..],
           Going(vals, if nodes[i].kind.Call? then |vals| else itemsIn, lua1), env)
         case Wrong(f) => Failed(f, itemsIn, lua1)
         case Panic => Panicking(lua1)
  {
    hide NodeItems;
    assert nodes[i..][1..] == nodes[i + 1..];
  }

  /** The node loop on keys, between the preparation of a run and its deferred calls. */
  method RunNodes(rt: Runtime, nodes: seq<Node>, state: nat, ghost base: set<nat>, ghost env: Env)
    returns (report: Report, end: Ending<()>, ghost batch: seq<nat>)
    requires rt.Valid() && Owns(rt.registry, rt.live, base, [], env.refs) && env.script == rt.script
    requires state in base && Read(env.refs, state) == env.state && forall n :: n in nodes ==> Bound(n, base)
    modifies rt
    ensures rt.Valid() && rt.executionState == old(rt.executionState) && rt.stale == old(rt.stale)
    ensures Owns(rt.registry, rt.live, base, batch, env.refs)
    ensures Delivers(report, end, rt.lua, rt.registry, batch, nodes, RunFlow(nodes, Going([], 0, old(rt.lua)), env))
  {
    hide Owns, Sound, NodeItems, Bound, RunFlow;
    report := Report("", "", Ok, 0, 0, []);
    var items: seq<nat> := [];
    ghost var goal := RunFlow(nodes, Going([], 0, rt.lua), env);
    assert nodes[0..] == nodes && Values(rt.registry, []) == [];
    for i := 0 to |nodes|
      invariant rt.Valid() && rt.executionState == old(rt.executionState) && rt.stale == old(rt.stale)
      invariant Owns(rt.registry, rt.live, base, items, env.refs) && report == Report("", "", Ok, report.itemsIn, 0, [])
      invariant goal == RunFlow(nodes[i..], Going(Values(rt.registry, items), report.itemsIn, rt.lua), env)
    {
      assert nodes[i] in nodes;
      FlowNext(nodes, i, Values(rt.registry, items), report.itemsIn, rt.lua, env);
      var next;
      next, batch := RunNodeKeys(rt, nodes[i], items, state, base, env);
      match next
      case Wrong(f) => return report, Wrong(f), batch;
      case Panic => return report, Panic, batch;
      case Fine(keys) =>
        items := keys;
        if nodes[i].kind.Call? {
          report := report.(itemsIn := |items|);
        }
    }
    FlowDone(nodes, Going(Values(rt.registry, items), report.itemsIn, rt.lua), env);
    batch := items;
    report := report.(itemsOut := |items|);
    if |nodes| > 0 && |items| == 0 {
      report := report.(status := Empty);
    }
    end := Fine(());
  }

  lemma {:induction false} FlowDone(nodes: seq<Node>, s: Stage, env: Env)
    ensures RunFlow(nodes[|nodes|..], s, env) == s
  {
  }

  /** What a run returns, and leaves in the runtime, for the stage at which its flow ends. */
  ghost predicate Delivers(report: Report, end: Ending<()>, lua: Lua, registry: map<nat, Value>,
      batch: seq<nat>, nodes: seq<Node>, s: Stage) {
    && lua == s.lua
    && (s.Going? ==> end == Fine(()) && Values(registry, batch) == s.items)
    && (s.Failed? ==> end == Wrong(s.fault))
    && (s.Panicking? <==> end.Panic?)
    && (s.Going? ==>
          var status := if nodes != [] && s.items == [] then Empty else Ok;
          report == Report("", "", status, s.itemsIn, |s.items|, []))
    && (s.Failed? ==> report == Report("", "", Ok, s.itemsIn, 0, []))
  }

  lemma OwnsLeave(registry: map<nat, Value>, live: set<nat>, base: set<nat>, state: nat, batch: seq<nat>,
      was: map<nat, Value>, v: Value)
    requires Owns(registry, live, base + {state}, batch, was[state := v]) && state !in base
    ensures Owns(registry - {state}, live - {state}, base, batch, was)
      && Values(registry - {state}, batch) == Values(registry, batch)
  {
    assert forall i :: 0 <= i < |batch| ==> batch[i] in Elements(batch);
  }

  /** A run: the flow semantics decides Lua state, report and error; besides the keys from before the run
      exactly the last batch's keys stay live, since the deferred deletion was given the empty batch. */
  method Run(rt: Runtime, nodes: seq<Node>, triggerKeys: seq<string>, triggerValues: seq<GoValue>)
    returns (report: Report, end: Ending<()>, ghost batch: seq<nat>)
    requires rt.Valid() && forall n :: n in nodes ==> Bound(n, rt.live)
    modifies rt
    ensures var env := Env(rt.script, old(rt.registry)[old(rt.nextRef) := Table(old(rt.lua).heap.next)],
      Table(old(rt.lua).heap.next));
      Delivers(report, end, rt.lua, rt.registry, batch, nodes,
               RunFlow(nodes, Going([], 0, Prepared(triggerKeys, triggerValues, old(rt.lua), rt.script)), env))
    ensures rt.Valid() && Owns(rt.registry, rt.live, old(rt.live), batch, old(rt.registry))
    ensures rt.executionState == Nil && rt.stale == old(rt.stale)
  {
    hide RunFlow, Push, RawSet;
    ghost var env := Env(rt.script, rt.registry[rt.nextRef := Table(rt.lua.heap.next)], Table(rt.lua.heap.next));
    ghost var base := rt.live + {rt.nextRef};
    ghost var start := Prepared(triggerKeys, triggerValues, rt.lua, rt.script);
    var table := rt.lua.heap.next;
    rt.lua := rt.lua.(heap := LuaHeap.NewTable(rt.lua.heap));
    var state := rt.StoreRef(Table(table));
    var pushed := rt.PushRef(state);
    var (ks, vs) := NormalTrigger(triggerKeys, triggerValues);
    var data := rt.PushGoValue(rt.script.order(rt.lua.world)(Dict(Strings(ks), vs)));
    rt.lua := rt.lua.(heap := HeapSet(rt.lua.heap, table, TRIGGER_FIELD, data));
    assert rt.lua == start;
    rt.SetExecutionState(Some(state));
    OwnsSame(rt.registry, rt.live);
    BoundMore(nodes, old(rt.live), base);
    report, end, batch := RunNodes(rt, nodes, state, base, env);
    OwnsLeave(rt.registry, rt.live, old(rt.live), state, batch, old(rt.registry), Table(old(rt.lua).heap.next));
    hide Owns;
    rt.SetExecutionState(None);
    rt.DeleteRef(state);
  }

  lemma BoundMore(nodes: seq<Node>, live: set<nat>, base: set<nat>)
    requires live <= base && forall n :: n in nodes ==> Bound(n, live)
    ensures forall n :: n in nodes ==> Bound(n, base)
  {
    forall n | n in nodes ensures Bound(n, base) { assert Bound(n, live); }
  }
}
