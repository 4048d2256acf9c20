/** The reference registry of the Lua runtime, and the deep copy over it, in the imperative form of the
    source.  The value stack is balanced by every operation and is left out. */
module Registry {
  import opened Base
  import opened LuaHeap
  import opened Flow

  /** The tables on the path from the root of a conversion, shared by all its recursive calls. */
  class Seen {
    var tables: set<nat>

    constructor ()
      ensures tables == {}
    {
      tables := {};
    }
  }

  // ---------------------------------------------------------------- ownership of keys

  function Values(registry: map<nat, Value>, keys: seq<nat>): (r: seq<Value>)
    ensures |r| == |keys| && forall i :: 0 <= i < |keys| ==> r[i] == Read(registry, keys[i])
  {
    seq(|keys|, i requires 0 <= i < |keys| => Read(registry, keys[i]))
  }

  /** Only live keys hold a value, and no live key will be handed out again. */
  ghost predicate Sound(registry: map<nat, Value>, live: set<nat>, next: nat) {
    (forall k :: k in registry ==> k in live && !registry[k].Nil?) && forall k :: k in live ==> k < next
  }

  /** Besides the keys of `base`, which hold what they held in `was`, exactly `keys` are live, each once. */
  ghost predicate Owns(registry: map<nat, Value>, live: set<nat>, base: set<nat>, keys: seq<nat>,
      was: map<nat, Value>) {
    && NoDup(keys) && Elements(keys) !! base && live == base + Elements(keys)
    && forall k :: k in base ==> Read(registry, k) == Read(was, k)
  }

  function Stored(registry: map<nat, Value>, key: nat, v: Value): map<nat, Value> {
    if v.Nil? then registry - {key} else registry[key := v]
  }

  // ---------------------------------------------------------------- the loops of the conversion

  /** A conversion of a whole list, given that of its front part. */
  function Appended(front: seq<GoValue>, rest: Conv<seq<GoValue>>): Conv<seq<GoValue>> {
    if rest.Done? then Done(front + rest.value) else rest
  }

  lemma AppendedEnds(front: seq<GoValue>, rest: Conv<seq<GoValue>>)
    ensures Appended([], rest) == rest && Appended(front, Done([])) == Done(front)
  {
    assert front + [] == front;
    if rest.Done? {
      assert [] + rest.value == rest.value;
    }
  }

  lemma {:induction false} EmptyDone(h: Heap, t: LuaTable, seen: set<nat>)
    ensures ToGoItems(h, [], seen) == Done([]) && ToGoFields(h, t, [], seen) == Done([])
  {
  }

  lemma {:induction false} ItemsNext(h: Heap, t: LuaTable, i: nat, seen: set<nat>, front: seq<GoValue>)
    requires i < t.border
    ensures var v := ToGo(h, Get(t, Int(i + 1)), seen);
      Appended(front, ToGoItems(h, ArrayPart(t, i, t.border), seen))
      == if v.Done? then Appended(front + [v.value], ToGoItems(h, ArrayPart(t, i + 1, t.border), seen)) else Refused(v)
  {
    hide ToGo;
    assert ArrayPart(t, i, t.border)[1..] == ArrayPart(t, i + 1, t.border);
    var rest := ToGoItems(h, ArrayPart(t, i + 1, t.border), seen);
    var v := ToGo(h, Get(t, Int(i + 1)), seen);
    if v.Done? && rest.Done? {
      assert front + ([v.value] + rest.value) == front + [v.value] + rest.value;
    }
  }

  lemma {:induction false} FieldsNext(h: Heap, t: LuaTable, i: nat, seen: set<nat>, front: seq<GoValue>)
    requires i < |t.order|
    ensures var k, v := ToGo(h, t.order[i], seen), ToGo(h, Get(t, t.order[i]), seen);
      Appended(front, ToGoFields(h, t, t.order[i..], seen))
      == if !k.Done? then Refused(k) else if !v.Done? then Refused(v) else if !k.value.Plain? then Panicked
         else Appended(front + [v.value], ToGoFields(h, t, t.order[i + 1..], seen))
  {
    hide ToGo;
    assert t.order[i..][1..] == t.order[i + 1..];
    var rest := ToGoFields(h, t, t.order[i + 1..], seen);
    var v := ToGo(h, Get(t, t.order[i]), seen);
    if v.Done? && rest.Done? {
      assert front + ([v.value] + rest.value) == front + [v.value] + rest.value;
    }
  }

  class Runtime {
    const script: Script
    var registry: map<nat, Value>
    var nextRef: nat
    var executionState: Value
    var lua: Lua
    ghost var live: set<nat>   // keys handed out and not deleted
    ghost var stale: bool      // a key that was not live has been pushed

    ghost predicate Valid()
      reads this
    {
      Sound(registry, live, nextRef)
    }

    constructor (script: Script, lua: Lua)
      ensures Valid() && live == {} && !stale && this.script == script && this.lua == lua
    {
      this.script, this.lua := script, lua;
      registry, nextRef, executionState := map[], 0, Nil;
      live, stale := {}, false;
    }

    /** Storing nil leaves the new key without an entry; reading it gives nil all the same. */
    method StoreRef(v: Value) returns (key: nat)
      requires Valid()
      modifies this`registry, this`nextRef, this`live
      ensures Valid() && key == old(nextRef) && nextRef == old(nextRef) + 1
      ensures key !in old(live) && live == old(live) + {key}
      ensures registry == Stored(old(registry), key, v)
    {
      key := nextRef;
      nextRef := nextRef + 1;
      registry := if v.Nil? then registry - {key} else registry[key := v];
      live := live + {key};
    }

    method DeleteRef(key: nat)
      requires Valid()
      modifies this`registry, this`live
      ensures Valid() && registry == old(registry) - {key} && live == old(live) - {key}
    {
      registry := registry - {key};
      live := live - {key};
    }

    method PushRef(key: nat) returns (v: Value)
      modifies this`stale
      ensures v == Read(registry, key)
      ensures stale == (old(stale) || key !in live)
    {
      v := if key in registry then registry[key] else Nil;
      stale := stale || key !in live;
    }

    method SetExecutionState(key: Option<nat>)
      modifies this`executionState, this`stale
      ensures executionState == (if key.Some? then Read(registry, key.value) else Nil)
      ensures stale == (old(stale) || (key.Some? && key.value !in live))
    {
      if key.None? {
        executionState := Nil;
      } else {
        var v := PushRef(key.value);
        executionState := v;
      }
    }

    method CallCallable(callable: nat, input: Option<nat>, state: nat) returns (r: Result<nat, Fault>)
      requires Valid()
      modifies this
      ensures Valid() && executionState == old(executionState)
      ensures stale == (old(stale) || callable !in old(live) || state !in old(live)
        || (input.Some? && input.value !in old(live)))
      ensures var (lua1, out) := script.invoke(Read(old(registry), callable), if input.Some?
        then Read(old(registry), input.value) else Nil,
                                               Read(old(registry), state), old(lua));
        && lua == lua1
        && match out
           case Success(v) => r == Success(old(nextRef)) && nextRef == old(nextRef) + 1 && r.value !in old(live)
                              && live == old(live) + {r.value} && registry == Stored(old(registry), r.value, v)
           case Failure(f) =>
             r == Failure(f) && nextRef == old(nextRef) && live == old(live) && registry == old(registry)
    {
      var c := PushRef(callable);
      var x := Nil;
      if input.Some? {
        x := PushRef(input.value);
      }
      var s := PushRef(state);
      var (lua1, out) := script.invoke(c, x, s, lua);
      lua := lua1;
      if out.Failure? {
        return Failure(out.error);
      }
      var key := StoreRef(out.value);
      r := Success(key);
    }

    /** One argument and one result, as every caller in the executor asks for. */
    method CallFunction(fn: nat, arg: nat) returns (r: Result<nat, Fault>)
      requires Valid()
      modifies this
      ensures Valid() && executionState == old(executionState)
      ensures stale == (old(stale) || fn !in old(live) || arg !in old(live))
      ensures var (lua1, out) := script.apply(Read(old(registry), fn), Read(old(registry), arg), old(lua));
        && lua == lua1
        && match out
           case Success(v) => r == Success(old(nextRef)) && nextRef == old(nextRef) + 1 && r.value !in old(live)
                              && live == old(live) + {r.value} && registry == Stored(old(registry), r.value, v)
           case Failure(f) =>
             r == Failure(f) && nextRef == old(nextRef) && live == old(live) && registry == old(registry)
    {
      var f := PushRef(fn);
      var x := PushRef(arg);
      var (lua1, out) := script.apply(f, x, lua);
      lua := lua1;
      if out.Failure? {
        return Failure(out.error);
      }
      var key := StoreRef(out.value);
      r := Success(key);
    }

    // -------------------------------------------------------------- tables

    /** The loop over `next`: counts the keys, and gives up at the first that is no integer in 1..n. */
    method TableHasOnlyArrayKeys(t: LuaTable, n: nat) returns (r: bool)
      ensures r == OnlyArrayKeys(t.order, n)
    {
      var count := 0;
      while count < |t.order|
        invariant count <= |t.order|
        invariant forall j :: 0 <= j < count ==> t.order[j].Int? && 1 <= t.order[j].i <= n
      {
        var key := t.order[count];
        count := count + 1;
        if !key.Int? || key.i < 1 || key.i > n {
          return false;
        }
      }
      r := count == n;
    }

    method RefIsPureArrayTable(key: nat) returns (r: bool)
      modifies this`stale
      ensures stale == (old(stale) || key !in live)
      ensures r == (Read(registry, key).Table? && PureArray(lua.heap, Read(registry, key).a))
    {
      var v := PushRef(key);
      if !v.Table? || v.a !in lua.heap.tables {
        return false;
      }
      var t := lua.heap.tables[v.a];
      r := TableHasOnlyArrayKeys(t, t.border);
    }

    method ArrayValueRef(key: nat, index: nat) returns (r: nat)
      requires Valid()
      modifies this
      ensures Valid() && executionState == old(executionState) && lua == old(lua)
      ensures stale == (old(stale) || key !in old(live))
      ensures r == old(nextRef) && nextRef == old(nextRef) + 1 && r !in old(live) && live == old(live) + {r}
      ensures var v := Read(old(registry), key);
        registry == Stored(old(registry), r, if v.Table? then RawGet(lua.heap, v.a, Int(index)) else Nil)
    {
      var v := PushRef(key);
      r := StoreRef(if v.Table? then RawGet(lua.heap, v.a, Int(index)) else Nil);
    }

    // -------------------------------------------------------------- the deep copy

    method ToGoValue(v: Value, seen: Seen) returns (r: Conv<GoValue>)
      modifies seen
      ensures seen.tables == old(seen.tables)
      ensures r == ToGo(lua.heap, v, old(seen.tables))
      decreases Unseen(lua.heap, seen.tables), 0
    {
      match v
      case Other(kind) => r := Unsupported(kind);
      case Table(a) =>
        if a in seen.tables {
          return Cyclic;
        }
        if a !in lua.heap.tables {
          return Unsupported("table");
        }
        UnseenShrinks(lua.heap, seen.tables, a);
        ghost var path := seen.tables;
        seen.tables := seen.tables + {a};
        r := TableToGoValue(a, seen);
        assert path + {a} - {a} == path;
        seen.tables := seen.tables - {a};
      case _ => r := Done(Plain(v));
    }

    method TableToGoValue(a: nat, seen: Seen) returns (r: Conv<GoValue>)
      requires a in lua.heap.tables && a in seen.tables
      modifies seen
      ensures seen.tables == old(seen.tables)
      ensures r == TableToGo(lua.heap, lua.heap.tables[a], old(seen.tables))
      decreases Unseen(lua.heap, seen.tables), |lua.heap.tables[a].order| + lua.heap.tables[a].border + 2
    {
      hide ToGo, ToGoItems, ToGoFields, OnlyArrayKeys, ArrayPart, Appended;
      var t := lua.heap.tables[a];
      ghost var all := ArrayPart(t, 0, t.border);
      AppendedEnds([], ToGoItems(lua.heap, all, seen.tables));
      assert ArrayPart(t, t.border, t.border) == [];
      EmptyDone(lua.heap, t, seen.tables);
      if t.border > 0 {
        var values: seq<GoValue> := [];
        for i := 1 to t.border + 1
          invariant |values| == i - 1 && seen.tables == old(seen.tables)
          invariant ToGoItems(lua.heap, all, seen.tables)
            == Appended(values, ToGoItems(lua.heap, ArrayPart(t, i - 1, t.border), seen.tables))
        {
          ItemsNext(lua.heap, t, i - 1, seen.tables, values);
          var value := ToGoValue(Get(t, Int(i)), seen);
          if !value.Done? {
            return Refused(value);
          }
          values := values + [value.value];
        }
        AppendedEnds(values, Done([]));
        var pure := TableHasOnlyArrayKeys(t, t.border);
        if pure {
          return Done(Slice(values));
        }
      }
      var fields: seq<GoValue> := [];
      AppendedEnds([], ToGoFields(lua.heap, t, t.order, seen.tables));
      assert t.order[0..] == t.order && t.order[|t.order|..] == [];
      for i := 0 to |t.order|
        invariant |fields| == i && seen.tables == old(seen.tables)
        invariant ToGoFields(lua.heap, t, t.order, seen.tables)
          == Appended(fields, ToGoFields(lua.heap, t, t.order[i..], seen.tables))
      {
        FieldsNext(lua.heap, t, i, seen.tables, fields);
        var key := ToGoValue(t.order[i], seen);
        if !key.Done? {
          return Refused(key);
        }
        var value := ToGoValue(Get(t, t.order[i]), seen);
        if !value.Done? {
          return Refused(value);
        }
        if !key.value.Plain? {
          return Panicked;
        }
        fields := fields + [value.value];
      }
      AppendedEnds(fields, Done([]));
      r := Done(Dict(t.order, fields));
    }

    method PushGoValue(g: GoValue) returns (v: Value)
      modifies this`lua
      ensures lua.world == old(lua.world)
      ensures (lua.heap, v) == Push(old(lua.heap), g)
      decreases g
    {
      match g
      case Plain(x) => v := PushPlain(x);
      case Slice(items) =>
        var a := lua.heap.next;
        lua := lua.(heap := LuaHeap.NewTable(lua.heap));
        ghost var target := PushItems(lua.heap, a, g, 0);
        for i := 0 to |items|
          invariant lua.world == old(lua.world) && PushItems(lua.heap, a, g, i) == target
        {
          var item := PushGoValue(items[i]);
          lua := lua.(heap := HeapSet(lua.heap, a, Int(i + 1), item));
        }
        v := Table(a);
      case Dict(keys, values) =>
        var a := lua.heap.next;
        lua := lua.(heap := LuaHeap.NewTable(lua.heap));
        ghost var target := PushFields(lua.heap, a, g, 0);
        var i := 0;
        while i < |keys| && i < |values|
          invariant i <= |keys| && lua.world == old(lua.world) && PushFields(lua.heap, a, g, i) == target
        {
          var item := PushGoValue(values[i]);
          lua := lua.(heap := HeapSet(lua.heap, a, PushPlain(keys[i]), item));
          i := i + 1;
        }
        v := Table(a);
    }

    /** The copy gets a key of its own; a refused value leaves everything as it was. */
    method CloneRef(key: nat) returns (r: Conv<nat>)
      requires Valid()
      modifies this
      ensures Valid() && executionState == old(executionState) && lua.world == old(lua.world)
      ensures stale == (old(stale) || key !in old(live))
      ensures var (heap, c) := Clone(old(lua.heap), Read(old(registry), key), script.order(old(lua.world)));
        && lua.heap == heap
        && match c
           case Done(v) => r == Done(old(nextRef)) && nextRef == old(nextRef) + 1 && r.value !in old(live)
                           && live == old(live) + {r.value} && registry == Stored(old(registry), r.value, v)
           case _ => r == Refused(c) && nextRef == old(nextRef) && live == old(live) && registry == old(registry)
    {
      var v := PushRef(key);
      var seen := new Seen();
      var g := ToGoValue(v, seen);
      if !g.Done? {
        return Refused(g);
      }
      var w := PushGoValue(script.order(lua.world)(g.value));
      var copy := StoreRef(w);
      r := Done(copy);
    }
  }
}
