/** What a run starts from: a fresh state table with a copy of the trigger data in it. */
module TriggerData {
  import opened Base
  import opened LuaHeap
  import opened CloneOutput
  import opened Clones
  import opened Flow
  import opened Executor

  /** The value at `w` is a copy of the Go value, its maps listed in some order. */
  ghost predicate CopyOf(h: Heap, w: Value, g: GoValue, lo: nat) {
    exists r :: Reordered(g, r) && Copies(h, w, r, lo)
  }

  lemma StringsNoDup(keys: seq<string>)
    requires NoDup(keys)
    ensures NoDup(Strings(keys))
  {
  }

  /** The keys of the data, in any order: none of them changes on the way. */
  lemma StringKeys(keys: seq<string>, ks: seq<Value>)
    requires Elements(ks) == Elements(Strings(keys))
    ensures TameKeys(ks) && PushedKeys(ks) == set k | k in keys :: Str(k)
  {
    forall k | k in ks ensures k.Str? && k.s in keys {
      assert k in Elements(Strings(keys));
      var i :| 0 <= i < |keys| && Strings(keys)[i] == k;
    }
    forall k | k in keys ensures Str(k) in ks {
      var i :| 0 <= i < |keys| && keys[i] == k;
      assert Strings(keys)[i] in Elements(ks);
    }
  }

  /** One field of a copied dictionary. */
  lemma {:induction false} FieldCopied(h: Heap, w: Value, keys: seq<string>, values: seq<GoValue>, r: GoValue,
      lo: nat, i: nat)
    requires NoDup(keys) && |keys| == |values| && i < |keys|
    requires Reordered(Dict(Strings(keys), values), r) && Copies(h, w, r, lo)
    ensures w.Table? && w.a in h.tables && Str(keys[i]) in h.tables[w.a].entries
      && CopyOf(h, h.tables[w.a].entries[Str(keys[i])], values[i], lo)
  {
    StringKeys(keys, r.keys);
    var k := Strings(keys)[i];
    assert k in Elements(r.keys);
    var j :| 0 <= j < |r.keys| && r.keys[j] == k;
    assert k in PushedKeys(r.keys);
    assert Copies(h, Get(h.tables[w.a], r.keys[j]), r.values[j], lo);
    hide Copies, Reordered;
  }

  /** Another table changes below the copy. */
  lemma CopyStays(h: Heap, r: Heap, w: Value, g: GoValue, a: nat)
    requires Copies(h, w, g, a + 1) && GrowsBut(h, r, a)
    ensures Copies(r, w, g, a + 1)
  {
    CopiesStay(h, r, w, g, a + 1, a + 1);
    hide Copies;
  }

  /** The first `next` of a heap makes an empty table, and the data goes into later ones. */
  lemma {:induction false} StateStored(h: Heap, g: GoValue)
    requires HeapOk(h) && Storable(g) && !g.Plain?
    ensures var (h1, w) := Push(NewTable(h), g);
      var r := HeapSet(h1, h.next, Str("__lumn_trigger_data"), w);
      && HeapOk(r) && GrowsBut(h, r, h.next) && h.next in r.tables
      && r.tables[h.next].entries == map[Str("__lumn_trigger_data") := w]
      && Copies(r, w, g, h.next + 1) && w.Table? && h.next < w.a
  {
    hide HeapOk, Storable, Closed, Copies, Push, HeapSet, KeyOk, GrowsBut;
    var h0, key := NewTable(h), Str("__lumn_trigger_data");
    NewTableOk(h);
    NothingAbove(h0);
    PushCopies(h0, g, h0.next);
    var (h1, w) := Push(h0, g);
    assert KeyOk(key) by { StrKeyOk(key); }
    Stored(h0, h1, h.next, key, w);
    var r := HeapSet(h1, h.next, key, w);
    GrowsButJoin(h, h0, r, h.next);
    CopyStays(h1, r, w, g, h.next);
    RootIsNew(r, w, g, h.next + 1);
    StateKept(h0, h1, h.next, key, w);
  }

  lemma StrKeyOk(k: Value)
    requires k.Str?
    ensures KeyOk(k)
  {
  }

  lemma StateKept(h0: Heap, h1: Heap, a: nat, key: Value, w: Value)
    requires HeapOk(h1) && Grows(h0, h1) && a in h0.tables && KeyOk(key) && Scalar(key) && NewValue(h1, w, h0.next)
    ensures HeapOk(HeapSet(h1, a, key, w)) && a in HeapSet(h1, a, key, w).tables
  {
    hide HeapOk, KeyOk, HeapSet;
    assert ValueIn(h1, w) && !w.Nil?;
    SetOk(h1, a, key, w);
    hide NewValue;
  }

  lemma {:induction false} RootIsNew(h: Heap, w: Value, g: GoValue, lo: nat)
    requires Copies(h, w, g, lo) && !g.Plain?
    ensures w.Table? && lo <= w.a
  {
  }

  lemma {:induction false} ReorderedStorable(g: GoValue, r: GoValue)
    requires Storable(g) && Reordered(g, r)
    ensures Storable(r) && (r == Plain(Nil) <==> g == Plain(Nil))
    decreases g
  {
    match g
    case Plain(_) =>
    case Slice(items) =>
      forall i | 0 <= i < |items| ensures r.items[i] != Plain(Nil) && Storable(r.items[i]) {
        ReorderedStorable(items[i], r.items[i]);
      }
    case Dict(keys, values) =>
      forall k | k in r.keys ensures KeyOk(k) && Scalar(k) {
        assert k in Elements(r.keys);
      }
      forall j | 0 <= j < |r.values| ensures r.values[j] != Plain(Nil) && Storable(r.values[j]) {
        assert r.keys[j] in Elements(r.keys);
        var i :| 0 <= i < |keys| && keys[i] == r.keys[j];
        ReorderedStorable(values[i], r.values[j]);
      }
  }

  /** Every field of a copied dictionary, and no other. */
  lemma {:induction false} AllFields(h: Heap, w: Value, keys: seq<string>, values: seq<GoValue>, r: GoValue, lo: nat)
    requires NoDup(keys) && |keys| == |values|
    requires Reordered(Dict(Strings(keys), values), r) && Copies(h, w, r, lo)
    ensures w.Table? && w.a in h.tables && h.tables[w.a].entries.Keys == set k | k in keys :: Str(k)
    ensures forall i :: 0 <= i < |keys| ==>
      Str(keys[i]) in h.tables[w.a].entries && CopyOf(h, h.tables[w.a].entries[Str(keys[i])], values[i], lo)
  {
    StringKeys(keys, r.keys);
    assert w.Table? && w.a in h.tables && h.tables[w.a].entries.Keys == PushedKeys(r.keys);
    forall i | 0 <= i < |keys|
      ensures Str(keys[i]) in h.tables[w.a].entries && CopyOf(h, h.tables[w.a].entries[Str(keys[i])], values[i], lo)
    {
      FieldCopied(h, w, keys, values, r, lo, i);
    }
  }

  lemma PlainCopied(h: Heap, w: Value, v: Value, lo: nat)
    requires v.Str? && CopyOf(h, w, Plain(v), lo)
    ensures w == v
  {
  }

  /** The trigger data a run is given: strings as keys, once each, and no null among the values. */
  ghost predicate GoodData(keys: seq<string>, values: seq<GoValue>) {
    NoDup(keys) && |keys| == |values| && forall i ::
      0 <= i < |values| ==> values[i] != Plain(Nil) && Storable(values[i])
  }

  lemma NormalIsGood(keys: seq<string>, values: seq<GoValue>)
    requires GoodData(keys, values)
    ensures var (ks, vs) := NormalTrigger(keys, values);
      && GoodData(ks, vs) && |values| == |keys| <= |ks| == |vs| && Storable(Dict(Strings(ks), vs))
      && (set k | k in ks :: Str(k)) == (set k | k in keys :: Str(k)) + {Str("type")}
      && (forall i :: 0 <= i < |keys| ==> ks[i] == keys[i] && vs[i] == values[i])
      && ("type" !in keys ==> |ks| == |keys| + 1 && ks[|keys|] == "type" && vs[|keys|] == Plain(Str("none")))
  {
    var (ks, vs) := NormalTrigger(keys, values);
    StringsNoDup(ks);
    assert forall k :: k in ks <==> k in keys || k == "type";
    assert forall v :: v in Strings(ks) ==> v.Str?;
  }

  /** The world and every table from before are as they were; the new state table has one field, and that field is a
      table made for it with exactly the given fields and `type`.  Each given value is copied, and `type` is "none"
      unless it was given. */
  lemma RunStartsWithTrigger(keys: seq<string>, values: seq<GoValue>, lua: Lua, script: Script)
    requires HeapOk(lua.heap) && GoodData(keys, values) && Shuffles(script.order(lua.world))
    ensures var after := Prepared(keys, values, lua, script);
      && after.world == lua.world && HeapOk(after.heap)
      && (forall a :: a in lua.heap.tables ==> a in after.heap.tables && after.heap.tables[a] == lua.heap.tables[a])
      && lua.heap.next !in lua.heap.tables && lua.heap.next in after.heap.tables
      && var fields := after.heap.tables[lua.heap.next].entries;
         && fields.Keys == {Str("__lumn_trigger_data")}
         && var data := fields[Str("__lumn_trigger_data")];
            && data.Table? && lua.heap.next < data.a && data.a in after.heap.tables
            && var given := after.heap.tables[data.a].entries;
               && given.Keys == (set k | k in keys :: Str(k)) + {Str("type")}
               && (forall i :: 0 <= i < |keys| ==>
                     CopyOf(after.heap, given[Str(keys[i])], values[i], lua.heap.next + 1))
               && ("type" !in keys ==> given[Str("type")] == Str("none"))
  {
    hide *;
    var (ks, vs) := NormalTrigger(keys, values);
    NormalIsGood(keys, values);
    var dict := Dict(Strings(ks), vs);
    var g := script.order(lua.world)(dict);
    DataShuffled(script.order(lua.world), ks, vs);
    StateStored(lua.heap, g);
    PreparedIs(keys, values, lua, script);
    var after := Prepared(keys, values, lua, script);
    OldKept(lua.heap, after.heap);
    var data := after.heap.tables[lua.heap.next].entries[Str("__lumn_trigger_data")];
    GoodSizes(ks, vs);
    AllFields(after.heap, data, ks, vs, g, lua.heap.next + 1);
    var given := after.heap.tables[data.a].entries;
    forall i | 0 <= i < |keys| ensures CopyOf(after.heap, given[Str(keys[i])], values[i], lua.heap.next + 1) {
      assert ks[i] == keys[i] && vs[i] == values[i];
    }
    if "type" !in keys {
      var last := |keys|;
      assert ks[last] == "type";
      PlainCopied(after.heap, given[Str("type")], Str("none"), lua.heap.next + 1);
    }
  }

  lemma GoodSizes(keys: seq<string>, values: seq<GoValue>)
    requires GoodData(keys, values)
    ensures NoDup(keys) && |keys| == |values|
  {
  }

  lemma DataShuffled(order: GoValue -> GoValue, keys: seq<string>, values: seq<GoValue>)
    requires Shuffles(order) && Storable(Dict(Strings(keys), values))
    ensures var dict := Dict(Strings(keys), values);
      Reordered(dict, order(dict)) && Storable(order(dict)) && !order(dict).Plain?
  {
    var dict := Dict(Strings(keys), values);
    assert Reordered(dict, order(dict));
    ReorderedStorable(dict, order(dict));
  }

  lemma PreparedIs(keys: seq<string>, values: seq<GoValue>, lua: Lua, script: Script)
    ensures var (ks, vs) := NormalTrigger(keys, values);
      var (h1, w) := Push(LuaHeap.NewTable(lua.heap), script.order(lua.world)(Dict(Strings(ks), vs)));
      Prepared(keys, values, lua, script)
      == Lua(HeapSet(h1, lua.heap.next, Str("__lumn_trigger_data"), w), lua.world)
  {
    hide Push, HeapSet, NormalTrigger, Strings;
  }

  lemma OldKept(h: Heap, r: Heap)
    requires HeapOk(h) && GrowsBut(h, r, h.next)
    ensures h.next !in h.tables
    ensures forall a :: a in h.tables ==> a in r.tables && r.tables[a] == h.tables[a]
  {
  }
}
