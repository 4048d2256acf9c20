/** Lua values over an explicit heap of tables, the Go values they are turned into, and both conversions
    as functions on the heap. */
module LuaHeap {
  import opened Base

  datatype Float = Finite(r: real) | PosInf | NegInf | NaN

  datatype Value =
    Nil | Bool(b: bool) | Str(s: string) | Int(i: int) | Flt(f: Float) | Table(a: nat) | Other(kind: string)

  /** `order` is the order in which `next` visits the keys, `border` what the raw length operator answers. */
  datatype LuaTable = LuaTable(entries: map<Value, Value>, order: seq<Value>, border: nat)

  datatype Heap = Heap(tables: map<nat, LuaTable>, next: nat)

  const MIN_INT64 := -0x8000_0000_0000_0000
  const MAX_INT64 := 0x7fff_ffff_ffff_ffff

  predicate Scalar(v: Value) {
    !v.Table? && !v.Other?
  }

  predicate Integral(f: Float) {
    match f
    case Finite(r) => r.Floor as real == r
    case NaN => false
    case _ => true
  }

  predicate Fits(f: Float) {
    f.Finite? && MIN_INT64 <= f.r.Floor <= MAX_INT64
  }

  /** Lua compares numbers by value, so an integral float is the integer it equals. */
  function Norm(v: Value): Value {
    if v.Flt? && Integral(v.f) && Fits(v.f) then Int(v.f.r.Floor) else v
  }

  // ---------------------------------------------------------------- tables

  const EMPTY := LuaTable(map[], [], 0)

  function Get(t: LuaTable, k: Value): Value {
    if k in t.entries then t.entries[k] else Nil
  }

  /** The keys 1 to n. */
  function Indices(n: nat): (r: set<Value>)
    ensures forall v :: v in r <==> v.Int? && 1 <= v.i <= n
  {
    set i | 1 <= i <= n :: Int(i)
  }

  /** n is a border: t[n] is not nil (or n is 0) and t[n + 1] is nil. */
  predicate IsBorder(entries: map<Value, Value>, n: nat) {
    (n == 0 || Int(n) in entries) && Int(n + 1) !in entries
  }

  /** What a Lua table always satisfies: no nil, no NaN key, float keys that have no integer form, a true border. */
  ghost predicate TableOk(t: LuaTable) {
    && NoDup(t.order) && Elements(t.order) == t.entries.Keys
    && (forall k :: k in t.entries ==> !k.Nil? && k != Flt(NaN) && Norm(k) == k && !t.entries[k].Nil?)
    && IsBorder(t.entries, t.border)
  }

  predicate ValueIn(h: Heap, v: Value) {
    v.Table? ==> v.a in h.tables
  }

  /** Well-formed tables, and no reference out of the heap. */
  ghost predicate HeapOk(h: Heap) {
    forall a :: a in h.tables ==>
      && a < h.next && TableOk(h.tables[a])
      && forall k :: k in h.tables[a].entries ==> ValueIn(h, k) && ValueIn(h, h.tables[a].entries[k])
  }

  /** The border found by counting up from `n`. */
  function BorderFrom(entries: map<Value, Value>, n: nat, fuel: nat): nat
    decreases fuel
  {
    if fuel == 0 || Int(n + 1) !in entries then n else BorderFrom(entries, n + 1, fuel - 1)
  }

  function Bordered(entries: map<Value, Value>, order: seq<Value>): LuaTable {
    LuaTable(entries, order, BorderFrom(entries, 0, |entries|))
  }

  /** RawSet: a nil value removes the key. */
  function RawSet(t: LuaTable, k: Value, v: Value): LuaTable {
    if v.Nil? then Bordered(t.entries - {k}, Without(t.order, k))
    else Bordered(t.entries[k := v], if k in t.entries then t.order else t.order + [k])
  }

  function Without(s: seq<Value>, k: Value): seq<Value> {
    if s == [] then [] else (if s[0] == k then [] else [s[0]]) + Without(s[1..], k)
  }

  function HeapSet(h: Heap, a: nat, k: Value, v: Value): Heap {
    if a in h.tables then h.(tables := h.tables[a := RawSet(h.tables[a], k, v)]) else h
  }

  function NewTable(h: Heap): Heap {
    h.(tables := h.tables[h.next := EMPTY], next := h.next + 1)
  }

  // ---------------------------------------------------------------- Lua to Go

  /** nil, bool, string, int64 and float64 are the same on both sides; `Dict` lists a Go map by its keys. */
  datatype GoValue = Plain(v: Value) | Slice(items: seq<GoValue>) | Dict(keys: seq<Value>, values: seq<GoValue>)

  /** `Panicked`: a Go map was given a slice or a map as a key. */
  datatype Conv<T> = Done(value: T) | Cyclic | Unsupported(kind: string) | Panicked

  /** tableHasOnlyArrayKeys, on the keys in traversal order. */
  predicate OnlyArrayKeys(order: seq<Value>, n: nat) {
    (forall k :: k in order ==> k.Int? && 1 <= k.i <= n) && |order| == n
  }

  /** t[i + 1], ..., t[n] */
  function ArrayPart(t: LuaTable, i: nat, n: nat): (r: seq<Value>)
    requires i <= n
    ensures |r| == n - i && forall j :: 0 <= j < n - i ==> r[j] == Get(t, Int(i + j + 1))
  {
    seq(n - i, j requires 0 <= j < n - i => Get(t, Int(i + j + 1)))
  }

  function Unseen(h: Heap, seen: set<nat>): nat {
    |h.tables.Keys - seen|
  }

  lemma UnseenShrinks(h: Heap, seen: set<nat>, a: nat)
    requires a in h.tables && a !in seen
    ensures Unseen(h, seen + {a}) < Unseen(h, seen)
  {
    assert h.tables.Keys - seen == (h.tables.Keys - (seen + {a})) + {a};
  }

  /** toGoValue. */
  function ToGo(h: Heap, v: Value, seen: set<nat>): Conv<GoValue>
    decreases Unseen(h, seen), 0
  {
    match v
    case Other(kind) => Unsupported(kind)
    case Table(a) =>
      if a in seen then Cyclic
      else if a !in h.tables then Unsupported("table")
      else
        UnseenShrinks(h, seen, a);
        TableToGo(h, h.tables[a], seen + {a})
    case _ => Done(Plain(v))
  }

  /** tableToGoValue: a list if the keys are exactly 1..n, otherwise the fields in traversal order. */
  function TableToGo(h: Heap, t: LuaTable, seen: set<nat>): Conv<GoValue>
    decreases Unseen(h, seen), |t.order| + t.border + 2
  {
    var listed := ToGoItems(h, ArrayPart(t, 0, t.border), seen);
    if !listed.Done? then Refused(listed)
    else if t.border > 0 && OnlyArrayKeys(t.order, t.border) then Done(Slice(listed.value))
    else
      var fields := ToGoFields(h, t, t.order, seen);
      if !fields.Done? then Refused(fields) else Done(Dict(t.order, fields.value))
  }

  function Refused<T, U>(c: Conv<T>): Conv<U>
    requires !c.Done?
  {
    match c
    case Cyclic => Cyclic
    case Unsupported(kind) => Unsupported(kind)
    case Panicked => Panicked
  }

  function ToGoItems(h: Heap, vs: seq<Value>, seen: set<nat>): (r: Conv<seq<GoValue>>)
    ensures r.Done? ==> |r.value| == |vs|
    decreases Unseen(h, seen), |vs| + 1
  {
    if vs == [] then Done([])
    else
      var first := ToGo(h, vs[0], seen);
      if !first.Done? then Refused(first)
      else
        var rest := ToGoItems(h, vs[1..], seen);
        if !rest.Done? then rest else Done([first.value] + rest.value)
  }

  /** The values of the keys `ks`; a key is converted before its value, and used only after both. */
  function ToGoFields(h: Heap, t: LuaTable, ks: seq<Value>, seen: set<nat>): (r: Conv<seq<GoValue>>)
    ensures r.Done? ==> |r.value| == |ks|
    decreases Unseen(h, seen), |ks| + 1
  {
    if ks == [] then Done([])
    else
      var key := ToGo(h, ks[0], seen);
      if !key.Done? then Refused(key)
      else
        var first := ToGo(h, Get(t, ks[0]), seen);
        if !first.Done? then Refused(first)
        else if !key.value.Plain? then Panicked
        else
          var rest := ToGoFields(h, t, ks[1..], seen);
          if !rest.Done? then rest else Done([first.value] + rest.value)
  }

  // ---------------------------------------------------------------- Go to Lua

  /** Go's conversion of an integral float to int64; outside the range this is the result on amd64. */
  function ToInt64(f: Float): int {
    if Fits(f) then f.r.Floor else MIN_INT64
  }

  function PushPlain(v: Value): Value {
    if v.Flt? && Integral(v.f) then Int(ToInt64(v.f)) else if Scalar(v) then v else Nil
  }

  /** pushGoValue: the heap afterwards and the value on top of the stack. */
  function Push(h: Heap, g: GoValue): (Heap, Value)
    decreases g
  {
    match g
    case Plain(v) => (h, PushPlain(v))
    case Slice(items) => (PushItems(NewTable(h), h.next, g, 0), Table(h.next))
    case Dict(keys, values) => (PushFields(NewTable(h), h.next, g, 0), Table(h.next))
  }

  /** Stores the items from `i` on in table `a`. */
  function PushItems(h: Heap, a: nat, g: GoValue, i: nat): Heap
    requires g.Slice? && i <= |g.items|
    decreases g, |g.items| - i + 1
  {
    if i == |g.items| then h
    else
      var (h1, w) := Push(h, g.items[i]);
      PushItems(HeapSet(h1, a, Int(i + 1), w), a, g, i + 1)
  }

  /** Stores the fields from `i` on in table `a`; a dictionary without a value for a key ends early. */
  function PushFields(h: Heap, a: nat, g: GoValue, i: nat): Heap
    requires g.Dict? && i <= |g.keys|
    decreases g, |g.keys| - i + 1
  {
    if i == |g.keys| || i >= |g.values| then h
    else
      var (h1, w) := Push(h, g.values[i]);
      PushFields(HeapSet(h1, a, PushPlain(g.keys[i]), w), a, g, i + 1)
  }

  /** CloneRef on the value behind the key; `order` lists every Go map in the order in which Go happens to
      iterate it. */
  function Clone(h: Heap, v: Value, order: GoValue -> GoValue): (Heap, Conv<Value>) {
    var g := ToGo(h, v, {});
    if g.Done? then var (h1, w) := Push(h, order(g.value)); (h1, Done(w)) else (h, Refused(g))
  }
}
