/** When converting a Lua value panics instead of returning an error: exactly if the first obstacle met in
    traversal order is a table used as a key that could itself be converted. */
module ClonePanic {
  import opened Base
  import opened LuaHeap
  import opened CloneInput

  // ---------------------------------------------------------------- the first obstacle of one table

  ghost predicate ItemDone(h: Heap, t: LuaTable, path: set<nat>, j: nat) {
    ToGo(h, Get(t, Int(j + 1)), path).Done?
  }

  /** The array part is converted up to element `i`, which is refused. */
  ghost predicate ItemStops(h: Heap, t: LuaTable, path: set<nat>, i: nat) {
    i < t.border && !ItemDone(h, t, path, i) && forall j :: 0 <= j < i ==> ItemDone(h, t, path, j)
  }

  ghost predicate FieldDone(h: Heap, t: LuaTable, path: set<nat>, k: Value) {
    Scalar(k) && ToGo(h, Get(t, k), path).Done?
  }

  /** The array part is converted, and the fields up to the one of key `i` in traversal order, which is not. */
  ghost predicate FieldStops(h: Heap, t: LuaTable, path: set<nat>, i: nat) {
    && (forall j :: 0 <= j < t.border ==> ItemDone(h, t, path, j))
    && i < |t.order| && !FieldDone(h, t, path, t.order[i])
    && forall j :: 0 <= j < i ==> FieldDone(h, t, path, t.order[j])
  }

  /** What becomes of a field that cannot be converted: its key comes first, then its value, then the use as a key. */
  function FieldOutcome(h: Heap, t: LuaTable, path: set<nat>, k: Value): Conv<GoValue> {
    var key, value := ToGo(h, k, path), ToGo(h, Get(t, k), path);
    if !key.Done? then key else if !value.Done? then value else Panicked
  }

  lemma {:induction false} ItemsStop(h: Heap, vs: seq<Value>, path: set<nat>, i: nat)
    requires i < |vs| && !ToGo(h, vs[i], path).Done? && forall j :: 0 <= j < i ==> ToGo(h, vs[j], path).Done?
    ensures ToGoItems(h, vs, path) == Refused(ToGo(h, vs[i], path))
    decreases |vs|
  {
    hide ToGo;
    if i > 0 {
      assert vs[1..][i - 1] == vs[i] && forall j :: 0 <= j < i - 1 ==> vs[1..][j] == vs[j + 1];
      ItemsStop(h, vs[1..], path, i - 1);
    }
  }

  lemma {:induction false} FieldsStop(h: Heap, t: LuaTable, ks: seq<Value>, path: set<nat>, i: nat)
    requires i < |ks| && !FieldDone(h, t, path, ks[i]) && forall j :: 0 <= j < i ==> FieldDone(h, t, path, ks[j])
    ensures !FieldOutcome(h, t, path, ks[i]).Done?
      && ToGoFields(h, t, ks, path) == Refused(FieldOutcome(h, t, path, ks[i]))
    decreases |ks|
  {
    PlainIffScalar(h, ks[0], path);
    hide ToGo, Get, Scalar;
    if i > 0 {
      assert FieldDone(h, t, path, ks[0]);
      assert ks[1..][i - 1] == ks[i] && forall j :: 0 <= j < i - 1 ==> ks[1..][j] == ks[j + 1];
      FieldsStop(h, t, ks[1..], path, i - 1);
    }
  }

  /** One level of toGoValue, with the outcome of a refusal. */
  lemma {:induction false} UnfoldRefusal(h: Heap, a: nat, seen: set<nat>)
    requires a in h.tables && a !in seen
    ensures var t := h.tables[a];
      var listed := ToGoItems(h, ArrayPart(t, 0, t.border), seen + {a});
      var fields := ToGoFields(h, t, t.order, seen + {a});
      var r := ToGo(h, Table(a), seen);
      if !listed.Done? then r == Refused(listed)
      else !(t.border > 0 && OnlyArrayKeys(t.order, t.border)) && !fields.Done? ==> r == Refused(fields)
  {
    hide OnlyArrayKeys, ToGoItems, ToGoFields;
  }

  lemma {:induction false} ItemDecides(h: Heap, a: nat, seen: set<nat>, i: nat)
    requires a in h.tables && a !in seen && ItemStops(h, h.tables[a], seen + {a}, i)
    ensures ToGo(h, Table(a), seen) == ToGo(h, Get(h.tables[a], Int(i + 1)), seen + {a})
  {
    var t := h.tables[a];
    UnfoldRefusal(h, a, seen);
    hide ToGo, OnlyArrayKeys, ToGoFields, ToGoItems;
    var vs := ArrayPart(t, 0, t.border);
    forall j | 0 <= j <= i ensures ToGo(h, vs[j], seen + {a}).Done? <==> ItemDone(h, t, seen + {a}, j) {}
    ItemsStop(h, vs, seen + {a}, i);
  }

  lemma {:induction false} FieldDecides(h: Heap, a: nat, seen: set<nat>, i: nat)
    requires HeapOk(h) && a in h.tables && a !in seen && FieldStops(h, h.tables[a], seen + {a}, i)
    ensures ToGo(h, Table(a), seen) == FieldOutcome(h, h.tables[a], seen + {a}, h.tables[a].order[i])
  {
    var t, path := h.tables[a], seen + {a};
    UnfoldRefusal(h, a, seen);
    assert TableOk(t);
    ArrayDone(h, t, path);
    StopsEntries(h, t, path, i);
    hide ToGo, ToGoItems, ToGoFields, HeapOk, TableOk, OnlyArrayKeys, EntriesDone, FieldOutcome, FieldDone;
    var vs := ArrayPart(t, 0, t.border);
    forall j | 0 <= j < |vs| ensures ToGo(h, vs[j], path).Done? { assert ItemDone(h, t, path, j); }
    ItemsDone(h, vs, path);
    FieldsStop(h, t, t.order, path, i);
  }

  lemma StopsEntries(h: Heap, t: LuaTable, path: set<nat>, i: nat)
    requires TableOk(t) && FieldStops(h, t, path, i)
    ensures !EntriesDone(h, t, path)
  {
    assert t.order[i] in Elements(t.order);
    hide ToGo;
  }

  /** A refused table that is not on the path has a first obstacle. */
  lemma FirstObstacle(h: Heap, a: nat, seen: set<nat>) returns (item: bool, i: nat)
    requires HeapOk(h) && a in h.tables && a !in seen && !ToGo(h, Table(a), seen).Done?
    ensures if item then ItemStops(h, h.tables[a], seen + {a}, i) else FieldStops(h, h.tables[a], seen + {a}, i)
  {
    var t, path := h.tables[a], seen + {a};
    TableDone(h, a, seen);
    hide ToGo, ItemDone, FieldDone;
    assert TableOk(t);
    item := exists j :: 0 <= j < t.border && !ItemDone(h, t, path, j);
    if item {
      i := FirstItem(h, t, path);
    } else {
      i := FirstField(h, t, path);
    }
    hide HeapOk, TableOk, EntriesDone;
  }

  lemma FirstItem(h: Heap, t: LuaTable, path: set<nat>) returns (i: nat)
    requires exists j :: 0 <= j < t.border && !ItemDone(h, t, path, j)
    ensures ItemStops(h, t, path, i)
  {
    hide ItemDone;
    i := 0;
    while ItemDone(h, t, path, i)
      invariant i < t.border && forall j :: 0 <= j < i ==> ItemDone(h, t, path, j)
      decreases t.border - i
    {
      i := i + 1;
    }
  }

  lemma FirstField(h: Heap, t: LuaTable, path: set<nat>) returns (i: nat)
    requires TableOk(t) && !EntriesDone(h, t, path) && forall j :: 0 <= j < t.border ==> ItemDone(h, t, path, j)
    ensures FieldStops(h, t, path, i)
  {
    hide ToGo, ItemDone;
    var k :| k in t.entries && !(Scalar(k) && ToGo(h, t.entries[k], path).Done?);
    assert k in Elements(t.order) && !FieldDone(h, t, path, k);
    hide FieldDone, EntriesDone, TableOk;
    i := 0;
    while FieldDone(h, t, path, t.order[i])
      invariant i < |t.order| && forall j :: 0 <= j < i ==> FieldDone(h, t, path, t.order[j])
      decreases |t.order| - i
    {
      i := i + 1;
    }
  }

  // ---------------------------------------------------------------- the chain of first obstacles

  /** The first obstacle of the table is the next table of the chain, as an element, a key or a value. */
  ghost predicate LeadsTo(h: Heap, t: LuaTable, path: set<nat>, b: nat) {
    || (exists i: nat :: ItemStops(h, t, path, i) && Get(t, Int(i + 1)) == Table(b))
    || (exists i: nat :: FieldStops(h, t, path, i)
          && (t.order[i] == Table(b) || (ToGo(h, t.order[i], path).Done? && Get(t, t.order[i]) == Table(b))))
  }

  /** The first obstacle is a table as a key; the key and its value can both be converted. */
  ghost predicate KeyedByTable(h: Heap, t: LuaTable, path: set<nat>) {
    exists i: nat :: FieldStops(h, t, path, i) && ToGo(h, t.order[i], path).Done?
      && ToGo(h, Get(t, t.order[i]), path).Done?
  }

  ghost predicate PanicChain(h: Heap, p: seq<nat>, seen: set<nat>)
    decreases |p|
  {
    && p != [] && p[0] !in seen && p[0] in h.tables
    && if |p| == 1 then KeyedByTable(h, h.tables[p[0]], seen + {p[0]})
       else LeadsTo(h, h.tables[p[0]], seen + {p[0]}, p[1]) && PanicChain(h, p[1..], seen + {p[0]})
  }

  lemma {:induction false} KeyPanics(h: Heap, a: nat, seen: set<nat>)
    requires HeapOk(h) && a in h.tables && a !in seen && KeyedByTable(h, h.tables[a], seen + {a})
    ensures ToGo(h, Table(a), seen) == Panicked
  {
    var t, path := h.tables[a], seen + {a};
    hide ToGo, HeapOk, FieldStops;
    var i: nat :| FieldStops(h, t, path, i) && ToGo(h, t.order[i], path).Done?
      && ToGo(h, Get(t, t.order[i]), path).Done?;
    FieldDecides(h, a, seen, i);
  }

  lemma {:induction false} NextPanics(h: Heap, a: nat, b: nat, seen: set<nat>)
    requires HeapOk(h) && a in h.tables && a !in seen && LeadsTo(h, h.tables[a], seen + {a}, b)
      && ToGo(h, Table(b), seen + {a}) == Panicked
    ensures ToGo(h, Table(a), seen) == Panicked
  {
    var t, path := h.tables[a], seen + {a};
    hide ToGo, HeapOk, FieldStops, ItemStops;
    if i: nat :| ItemStops(h, t, path, i) && Get(t, Int(i + 1)) == Table(b) {
      ItemDecides(h, a, seen, i);
    } else {
      var i: nat :| FieldStops(h, t, path, i)
                    && (t.order[i] == Table(b) || (ToGo(h, t.order[i], path).Done? && Get(t, t.order[i]) == Table(b)));
      FieldDecides(h, a, seen, i);
    }
  }

  lemma {:induction false} ChainPanics(h: Heap, p: seq<nat>, seen: set<nat>)
    requires HeapOk(h) && PanicChain(h, p, seen)
    ensures ToGo(h, Table(p[0]), seen) == Panicked
    decreases |p|
  {
    hide ToGo, HeapOk, LeadsTo, KeyedByTable;
    if |p| == 1 {
      KeyPanics(h, p[0], seen);
    } else {
      ChainPanics(h, p[1..], seen + {p[0]});
      NextPanics(h, p[0], p[1], seen);
    }
  }

  lemma {:induction false} OnlyTablesPanic(h: Heap, v: Value, seen: set<nat>)
    requires ToGo(h, v, seen) == Panicked
    ensures v.Table? && v.a !in seen && v.a in h.tables
  {
  }

  lemma {:induction false} PanicHasChain(h: Heap, a: nat, seen: set<nat>) returns (p: seq<nat>)
    requires HeapOk(h) && ToGo(h, Table(a), seen) == Panicked
    ensures p != [] && p[0] == a && PanicChain(h, p, seen)
    decreases Unseen(h, seen)
  {
    OnlyTablesPanic(h, Table(a), seen);
    var t, path := h.tables[a], seen + {a};
    UnseenShrinks(h, seen, a);
    var item, i := FirstObstacle(h, a, seen);
    hide HeapOk, Unseen;
    var next := Nil;
    if item {
      ItemDecides(h, a, seen, i);
      next := Get(t, Int(i + 1));
    } else {
      FieldDecides(h, a, seen, i);
      next := if ToGo(h, t.order[i], path).Done? then Get(t, t.order[i]) else t.order[i];
    }
    hide ToGo;
    if ToGo(h, next, path) == Panicked {
      OnlyTablesPanic(h, next, path);
      assert LeadsTo(h, t, path, next.a);
      var rest := PanicHasChain(h, next.a, path);
      p := [a] + rest;
      assert p[1..] == rest;
    } else {
      assert KeyedByTable(h, t, path);
      p := [a];
    }
  }

  /** Converting a table panics exactly if following first obstacles leads to a table whose first obstacle is
      a convertible table used as a key; in every other case of refusal an error is returned. */
  lemma {:induction false} PanicsIffTableKeyFirst(h: Heap, a: nat)
    requires HeapOk(h)
    ensures ToGo(h, Table(a), {}) == Panicked <==> exists p :: p != [] && p[0] == a && PanicChain(h, p, {})
  {
    hide ToGo, HeapOk, PanicChain;
    if ToGo(h, Table(a), {}) == Panicked {
      var p := PanicHasChain(h, a, {});
    }
    forall p | p != [] && p[0] == a && PanicChain(h, p, {}) ensures ToGo(h, Table(a), {}) == Panicked {
      ChainPanics(h, p, {});
    }
  }
}
