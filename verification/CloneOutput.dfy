/** What pushGoValue builds, and what a clone is: a copy made of new tables, equal to the original
    exactly when no integral float outside the int64 range is reached. */
module CloneOutput {
  import opened Base
  import opened LuaHeap
  import opened CloneInput

  // ---------------------------------------------------------------- borders

  lemma {:induction false} BorderFromIsBorder(entries: map<Value, Value>, n: nat, fuel: nat)
    requires Indices(n) <= entries.Keys && n + fuel == |entries|
    ensures IsBorder(entries, BorderFrom(entries, n, fuel))
    decreases fuel
  {
    if fuel == 0 {
      if Int(n + 1) in entries {
        assert Indices(n + 1) <= entries.Keys;
        IndicesSize(n + 1);
        SubsetSize(Indices(n + 1), entries.Keys);
        assert false;
      }
    } else if Int(n + 1) in entries {
      BorderFromIsBorder(entries, n + 1, fuel - 1);
    }
  }

  lemma BorderedOk(entries: map<Value, Value>, order: seq<Value>)
    requires NoDup(order) && Elements(order) == entries.Keys
    requires forall k :: k in entries ==> !k.Nil? && k != Flt(NaN) && Norm(k) == k && !entries[k].Nil?
    ensures TableOk(Bordered(entries, order))
  {
    BorderFromIsBorder(entries, 0, |entries|);
  }

  /** A key that a table accepts as it is. */
  predicate KeyOk(k: Value) {
    !k.Nil? && k != Flt(NaN) && Norm(k) == k
  }

  lemma RawSetOk(t: LuaTable, k: Value, v: Value)
    requires TableOk(t) && KeyOk(k) && !v.Nil?
    ensures TableOk(RawSet(t, k, v))
    ensures RawSet(t, k, v).entries == t.entries[k := v]
  {
    hide Norm, BorderFrom, IsBorder, NoDup, Elements;
    if k !in t.entries {
      NoDupAppend(t.order, k);
      BorderedOk(t.entries[k := v], t.order + [k]);
    } else {
      BorderedOk(t.entries[k := v], t.order);
    }
  }

  lemma {:induction false} WithoutIs(s: seq<Value>, k: Value)
    requires NoDup(s)
    ensures NoDup(Without(s, k)) && forall x :: x in Without(s, k) <==> x in s && x != k
    decreases |s|
  {
    if s != [] {
      assert NoDup(s[1..]) && s[0] !in s[1..];
      WithoutIs(s[1..], k);
      assert s == [s[0]] + s[1..];
    }
  }

  lemma RemoveOk(t: LuaTable, k: Value)
    requires TableOk(t)
    ensures TableOk(RawSet(t, k, Nil)) && RawSet(t, k, Nil).entries == t.entries - {k}
  {
    WithoutIs(t.order, k);
    hide Without, NoDup, BorderFrom, IsBorder;
    assert Elements(Without(t.order, k)) == (t.entries - {k}).Keys;
    BorderedOk(t.entries - {k}, Without(t.order, k));
  }

  lemma SetTableOk(t: LuaTable, k: Value, v: Value)
    requires TableOk(t) && KeyOk(k)
    ensures TableOk(RawSet(t, k, v))
    ensures RawSet(t, k, v).entries == if v.Nil? then t.entries - {k} else t.entries[k := v]
  {
    if v.Nil? {
      RemoveOk(t, k);
    } else {
      RawSetOk(t, k, v);
    }
    hide TableOk, RawSet, KeyOk;
  }

  /** The values of a table are in its heap, also when another table takes the place of `a`. */
  ghost predicate EntriesIn(h: Heap, t: LuaTable) {
    forall k :: k in t.entries ==> ValueIn(h, k) && ValueIn(h, t.entries[k])
  }

  lemma TableOf(h: Heap, a: nat)
    requires HeapOk(h) && a in h.tables
    ensures TableOk(h.tables[a]) && EntriesIn(h, h.tables[a])
  {
    hide TableOk, ValueIn;
  }

  lemma HeapWith(h: Heap, a: nat, t: LuaTable)
    requires HeapOk(h) && a in h.tables && TableOk(t) && EntriesIn(h, t)
    ensures HeapOk(h.(tables := h.tables[a := t]))
  {
    hide TableOk;
    var r := h.(tables := h.tables[a := t]);
    assert forall v :: ValueIn(h, v) <==> ValueIn(r, v);
    hide ValueIn;
  }

  /** A raw set, of nil too, keeps the heap well-formed and changes one entry of one table. */
  lemma SetKeepsHeap(h: Heap, a: nat, k: Value, v: Value)
    requires HeapOk(h) && a in h.tables && KeyOk(k) && Scalar(k) && ValueIn(h, v)
    ensures var r := HeapSet(h, a, k, v);
      && HeapOk(r) && r.next == h.next && r.tables.Keys == h.tables.Keys
      && (forall b :: b in h.tables && b != a ==> r.tables[b] == h.tables[b])
      && r.tables[a].entries == if v.Nil? then h.tables[a].entries - {k} else h.tables[a].entries[k := v]
  {
    assert ValueIn(h, k);
    assert HeapSet(h, a, k, v) == h.(tables := h.tables[a := RawSet(h.tables[a], k, v)]);
    hide *;
    TableOf(h, a);
    SetTableOk(h.tables[a], k, v);
    SetEntriesIn(h, h.tables[a], RawSet(h.tables[a], k, v), k, v);
    HeapWith(h, a, RawSet(h.tables[a], k, v));
  }

  lemma SetEntriesIn(h: Heap, t: LuaTable, r: LuaTable, k: Value, v: Value)
    requires EntriesIn(h, t) && ValueIn(h, k) && ValueIn(h, v)
    requires r.entries == if v.Nil? then t.entries - {k} else t.entries[k := v]
    ensures EntriesIn(h, r)
  {
    hide ValueIn;
  }

  // ---------------------------------------------------------------- only new tables change

  /** Every table of `h` but `a` is as before, and addresses are used in order. */
  ghost predicate GrowsBut(h: Heap, r: Heap, a: nat) {
    && h.next <= r.next
    && (forall b :: b in h.tables ==> b in r.tables && (b != a ==> r.tables[b] == h.tables[b]))
    && (forall b :: b in r.tables && b !in h.tables ==> h.next <= b)
  }

  ghost predicate Grows(h: Heap, r: Heap) {
    GrowsBut(h, r, h.next)
  }

  /** A Go value that converts without losing an entry: no nil inside, and keys that a Lua table accepts. */
  ghost predicate Storable(g: GoValue) {
    match g
    case Plain(v) => Scalar(v)
    case Slice(items) => forall i :: 0 <= i < |items| ==> items[i] != Plain(Nil) && Storable(items[i])
    case Dict(keys, values) =>
      && NoDup(keys) && |keys| == |values|
      && (forall k :: k in keys ==> KeyOk(k) && Scalar(k))
      && forall i :: 0 <= i < |values| ==> values[i] != Plain(Nil) && Storable(values[i])
  }

  lemma PushPlainKey(k: Value)
    requires KeyOk(k) && Scalar(k)
    ensures KeyOk(PushPlain(k)) && Scalar(PushPlain(k)) && (!Wild(k) ==> PushPlain(k) == k)
  {
  }

  lemma SetOk(h: Heap, a: nat, k: Value, v: Value)
    requires HeapOk(h) && a in h.tables && KeyOk(k) && Scalar(k) && !v.Nil? && ValueIn(h, v)
    ensures HeapOk(HeapSet(h, a, k, v))
    ensures HeapSet(h, a, k, v).tables[a].entries == h.tables[a].entries[k := v]
    ensures GrowsBut(h, HeapSet(h, a, k, v), a)
  {
    SetKeepsHeap(h, a, k, v);
    hide HeapOk, HeapSet, KeyOk;
  }

  lemma NewTableOk(h: Heap)
    requires HeapOk(h)
    ensures HeapOk(NewTable(h)) && Grows(h, NewTable(h)) && h.next in NewTable(h).tables && h.next !in h.tables
    ensures NewTable(h).tables[h.next] == EMPTY
  {
    EmptyOk();
    hide TableOk;
  }

  lemma EmptyOk()
    ensures TableOk(EMPTY)
  {
  }

  /** The value below a container is the container's own, or a table made after it. */
  ghost predicate NewValue(h: Heap, w: Value, lo: nat) {
    !w.Nil? && (w.Table? ==> lo <= w.a && w.a in h.tables)
  }

  /** Integral, but outside the int64 range: the only numbers the round trip through Go does not keep. */
  predicate Wild(v: Value) {
    v.Flt? && match v.f
      case Finite(r) => r.Floor as real == r && !(-9223372036854775808 <= r.Floor <= 9223372036854775807)
      case NaN => false
      case _ => true
  }

  /** What the keys of a Go map become. */
  function PushedKeys(keys: seq<Value>): (r: set<Value>)
    ensures forall v :: v in r <==> exists k :: k in keys && PushPlain(k) == v
  {
    set k | k in keys :: PushPlain(k)
  }

  ghost predicate TameKeys(keys: seq<Value>) {
    forall k :: k in keys ==> !Wild(k)
  }

  /** `w` holds the Go value `g` in tables from address `lo` on, entry by entry. */
  ghost predicate Copies(h: Heap, w: Value, g: GoValue, lo: nat)
    decreases g
  {
    match g
    case Plain(x) => w == PushPlain(x)
    case Slice(items) =>
      && w.Table? && lo <= w.a && w.a in h.tables && h.tables[w.a].entries.Keys == Indices(|items|)
      && forall i :: 0 <= i < |items| ==> Copies(h, Get(h.tables[w.a], Int(i + 1)), items[i], lo)
    case Dict(keys, values) =>
      && w.Table? && lo <= w.a && w.a in h.tables && |keys| == |values|
         && h.tables[w.a].entries.Keys == PushedKeys(keys)
      && (TameKeys(keys) ==> forall i :: 0 <= i < |keys| ==> Copies(h, Get(h.tables[w.a], keys[i]), values[i], lo))
  }

  lemma {:induction false} CopiesStay(h: Heap, r: Heap, w: Value, g: GoValue, lo: nat, down: nat)
    requires Copies(h, w, g, lo) && down <= lo
    requires forall b :: b in h.tables && lo <= b ==> b in r.tables && r.tables[b] == h.tables[b]
    ensures Copies(r, w, g, down)
    decreases g
  {
    match g
    case Plain(x) =>
    case Slice(items) =>
      forall i | 0 <= i < |items| ensures Copies(r, Get(r.tables[w.a], Int(i + 1)), items[i], down) {
        CopiesStay(h, r, Get(h.tables[w.a], Int(i + 1)), items[i], lo, down);
      }
    case Dict(keys, values) =>
      if TameKeys(keys) {
        forall i | 0 <= i < |keys| ensures Copies(r, Get(r.tables[w.a], keys[i]), values[i], down) {
          CopiesStay(h, r, Get(h.tables[w.a], keys[i]), values[i], lo, down);
        }
      }
  }

  /** Tables from `lo` on refer to nothing below `lo`. */
  ghost predicate Closed(h: Heap, lo: nat) {
    forall a :: a in h.tables && lo <= a ==>
      forall k :: k in h.tables[a].entries ==>
        Scalar(k) && (h.tables[a].entries[k].Table? ==> lo <= h.tables[a].entries[k].a)
  }

  lemma SetClosed(h: Heap, a: nat, k: Value, v: Value, lo: nat)
    requires HeapOk(h) && Closed(h, lo) && a in h.tables && KeyOk(k) && Scalar(k) && NewValue(h, v, lo)
    ensures Closed(HeapSet(h, a, k, v), lo)
  {
    RawSetOk(h.tables[a], k, v);
    hide TableOk, RawSet;
  }

  // ---------------------------------------------------------------- building the copy

  ghost predicate ItemsStored(h: Heap, a: nat, items: seq<GoValue>, n: nat) {
    && n <= |items| && a in h.tables && h.tables[a].entries.Keys == Indices(n)
    && forall j :: 0 <= j < n ==> Copies(h, Get(h.tables[a], Int(j + 1)), items[j], a + 1)
  }

  ghost predicate FieldsStored(h: Heap, a: nat, keys: seq<Value>, values: seq<GoValue>, n: nat) {
    && n <= |keys| == |values| && a in h.tables && h.tables[a].entries.Keys == PushedKeys(keys[..n])
    && (TameKeys(keys) ==> forall j :: 0 <= j < n ==> Copies(h, Get(h.tables[a], keys[j]), values[j], a + 1))
  }

  lemma GrowsJoin(h: Heap, h1: Heap, h2: Heap, a: nat)
    requires a in h.tables && HeapOk(h) && Grows(h, h1) && GrowsBut(h1, h2, a)
    ensures GrowsBut(h, h2, a)
  {
  }

  lemma GrowsButJoin(h: Heap, h1: Heap, h2: Heap, a: nat)
    requires GrowsBut(h, h1, a) && GrowsBut(h1, h2, a)
    ensures GrowsBut(h, h2, a)
  {
  }

  /** The copies of the earlier items stay where they are while the table `a` that lists them changes. */
  lemma EarlierStay(h: Heap, h2: Heap, a: nat, k: Value, v: Value, x: Value, g: GoValue)
    requires a in h.tables && Copies(h, Get(h.tables[a], k), g, a + 1) && GrowsBut(h, h2, a)
    requires h2.tables[a].entries == h.tables[a].entries[x := v] && k != x
    ensures Copies(h2, Get(h2.tables[a], k), g, a + 1)
  {
    CopiesStay(h, h2, Get(h.tables[a], k), g, a + 1, a + 1);
    hide Copies;
  }

  lemma LatestStays(h1: Heap, h2: Heap, a: nat, w: Value, x: Value, g: GoValue, lo: nat)
    requires a < lo && Copies(h1, w, g, lo) && GrowsBut(h1, h2, a)
    requires a in h2.tables && x in h2.tables[a].entries && h2.tables[a].entries[x] == w
    ensures Copies(h2, Get(h2.tables[a], x), g, a + 1)
  {
    CopiesStay(h1, h2, w, g, lo, a + 1);
    hide Copies;
  }

  /** What changes when the value `w`, built in new tables of `h1`, is stored under `x` in table `a`. */
  lemma Stored(h: Heap, h1: Heap, a: nat, x: Value, w: Value)
    requires HeapOk(h) && HeapOk(h1) && Grows(h, h1) && a in h.tables && KeyOk(x) && Scalar(x)
      && NewValue(h1, w, h.next)
    ensures var h2 := HeapSet(h1, a, x, w);
      GrowsBut(h, h2, a) && GrowsBut(h1, h2, a) && a < h.next && h2.tables[a].entries == h.tables[a].entries[x := w]
  {
    SetOk(h1, a, x, w);
    GrowsJoin(h, h1, HeapSet(h1, a, x, w), a);
    assert a < h.next;
    hide HeapOk, HeapSet, KeyOk;
  }

  /** Storing one more item in the table under construction leaves the earlier ones in place. */
  lemma {:induction false} ItemStored(h: Heap, h1: Heap, a: nat, items: seq<GoValue>, i: nat, w: Value)
    requires ItemsStored(h, a, items, i) && i < |items| && HeapOk(h) && HeapOk(h1) && Grows(h, h1)
    requires NewValue(h1, w, h.next) && Copies(h1, w, items[i], h.next)
    ensures ItemsStored(HeapSet(h1, a, Int(i + 1), w), a, items, i + 1)
  {
    hide HeapOk, HeapSet, Copies, Grows, GrowsBut, Get;
    Stored(h, h1, a, Int(i + 1), w);
    hide KeyOk, NewValue;
    var h2 := HeapSet(h1, a, Int(i + 1), w);
    assert Indices(i + 1) == Indices(i) + {Int(i + 1)};
    TableStays(h, h2, a);
    forall j | 0 <= j < i + 1 ensures Copies(h2, Get(h2.tables[a], Int(j + 1)), items[j], a + 1) {
      if j < i {
        EarlierStay(h, h2, a, Int(j + 1), w, Int(i + 1), items[j]);
      } else {
        LatestStays(h1, h2, a, w, Int(i + 1), items[i], h.next);
      }
    }
  }

  lemma TableStays(h: Heap, r: Heap, a: nat)
    requires GrowsBut(h, r, a)
    ensures h.tables.Keys <= r.tables.Keys
  {
  }

  lemma {:induction false} FieldStored(h: Heap, h1: Heap, a: nat, keys: seq<Value>, values: seq<GoValue>,
      i: nat, w: Value)
    requires FieldsStored(h, a, keys, values, i) && i < |keys| && HeapOk(h) && HeapOk(h1) && Grows(h, h1)
    requires NoDup(keys) && forall k :: k in keys ==> KeyOk(k) && Scalar(k)
    requires NewValue(h1, w, h.next) && Copies(h1, w, values[i], h.next)
    ensures FieldsStored(HeapSet(h1, a, PushPlain(keys[i]), w), a, keys, values, i + 1)
  {
    hide HeapOk, HeapSet, Copies, Grows, GrowsBut, Get, PushPlain, KeyOk, Wild, Scalar;
    var k := keys[i];
    PushPlainKey(k);
    Stored(h, h1, a, PushPlain(k), w);
    hide NewValue;
    var h2 := HeapSet(h1, a, PushPlain(k), w);
    TableStays(h, h2, a);
    PushedNext(keys, i);
    if TameKeys(keys) {
      forall j | 0 <= j < i + 1 ensures Copies(h2, Get(h2.tables[a], keys[j]), values[j], a + 1) {
        if j < i {
          EarlierStay(h, h2, a, keys[j], w, k, values[j]);
        } else {
          LatestStays(h1, h2, a, w, k, values[i], h.next);
        }
      }
    }
  }

  lemma PushedNext(keys: seq<Value>, i: nat)
    requires i < |keys|
    ensures PushedKeys(keys[..i + 1]) == PushedKeys(keys[..i]) + {PushPlain(keys[i])}
  {
    hide PushPlain;
    assert keys[..i + 1] == keys[..i] + [keys[i]];
  }

  lemma NewClosed(h: Heap, lo: nat)
    requires Closed(h, lo) && lo <= h.next
    ensures Closed(NewTable(h), lo)
  {
  }

  /** Pushing a Go value builds its copy in new tables and touches no old one. */
  lemma {:induction false} PushCopies(h: Heap, g: GoValue, lo: nat)
    requires HeapOk(h) && Storable(g) && Closed(h, lo) && lo <= h.next
    ensures var (r, w) := Push(h, g);
      HeapOk(r) && Grows(h, r) && Closed(r, lo) && Copies(r, w, g, h.next)
        && (g != Plain(Nil) ==> NewValue(r, w, h.next))
    decreases g
  {
    match g
    case Plain(v) =>
    case Slice(items) =>
      NewTableOk(h);
      NewClosed(h, lo);
      var h0, a := NewTable(h), h.next;
      assert Indices(0) == {};
      ItemsCopied(h0, a, g, 0, lo);
      hide HeapOk, Closed, Storable, Copies, NewTable;
      SliceCopied(h, h0, PushItems(h0, a, g, 0), items);
    case Dict(keys, values) =>
      NewTableOk(h);
      NewClosed(h, lo);
      var h0, a := NewTable(h), h.next;
      assert PushedKeys(keys[..0]) == {};
      FieldsCopied(h0, a, g, 0, lo);
      hide HeapOk, Closed, Storable, Copies, NewTable;
      DictCopied(h, h0, PushFields(h0, a, g, 0), keys, values);
  }

  lemma {:induction false} SliceCopied(h: Heap, h0: Heap, r: Heap, items: seq<GoValue>)
    requires Grows(h, h0) && h.next !in h.tables && GrowsBut(h0, r, h.next) && ItemsStored(r, h.next, items, |items|)
    ensures Grows(h, r) && Copies(r, Table(h.next), Slice(items), h.next)
  {
    var a := h.next;
    forall j | 0 <= j < |items| ensures Copies(r, Get(r.tables[a], Int(j + 1)), items[j], a) {
      CopiesStay(r, r, Get(r.tables[a], Int(j + 1)), items[j], a + 1, a);
    }
  }

  lemma {:induction false} DictCopied(h: Heap, h0: Heap, r: Heap, keys: seq<Value>, values: seq<GoValue>)
    requires Grows(h, h0) && h.next !in h.tables && GrowsBut(h0, r, h.next)
      && FieldsStored(r, h.next, keys, values, |keys|)
    ensures Grows(h, r) && Copies(r, Table(h.next), Dict(keys, values), h.next)
  {
    hide Copies;
    var a := h.next;
    assert keys[..|keys|] == keys;
    TableStays(h0, r, a);
    if TameKeys(keys) {
      forall j | 0 <= j < |keys| ensures Copies(r, Get(r.tables[a], keys[j]), values[j], a) {
        CopiesStay(r, r, Get(r.tables[a], keys[j]), values[j], a + 1, a);
      }
    }
    DictRoot(r, a, keys, values);
  }

  lemma {:induction false} DictRoot(r: Heap, a: nat, keys: seq<Value>, values: seq<GoValue>)
    requires a in r.tables && |keys| == |values| && r.tables[a].entries.Keys == PushedKeys(keys)
    requires TameKeys(keys) ==> forall i :: 0 <= i < |keys| ==> Copies(r, Get(r.tables[a], keys[i]), values[i], a)
    ensures Copies(r, Table(a), Dict(keys, values), a)
  {
  }

  lemma {:induction false} ItemFacts(h: Heap, a: nat, g: GoValue, i: nat)
    requires g.Slice? && i < |g.items| && Storable(g) && HeapOk(h) && ItemsStored(h, a, g.items, i)
    ensures a in h.tables && a < h.next && Storable(g.items[i]) && g.items[i] != Plain(Nil) && KeyOk(Int(i + 1))
  {
  }

  lemma {:induction false} FieldFacts(h: Heap, a: nat, g: GoValue, i: nat)
    requires g.Dict? && i < |g.keys| && Storable(g) && HeapOk(h) && FieldsStored(h, a, g.keys, g.values, i)
    ensures a in h.tables && a < h.next && |g.keys| == |g.values| && Storable(g.values[i]) && g.values[i] != Plain(Nil)
    ensures NoDup(g.keys) && forall k :: k in g.keys ==> KeyOk(k) && Scalar(k)
  {
  }

  lemma Belongs(h: Heap, h1: Heap, a: nat, w: Value)
    requires a in h.tables && a < h.next && Grows(h, h1) && NewValue(h1, w, h.next)
    ensures a in h1.tables && h1.tables[a] == h.tables[a] && !w.Nil? && ValueIn(h1, w)
    ensures forall lo: nat :: lo <= h.next ==> NewValue(h1, w, lo)
  {
  }

  /** One more item: everything the construction keeps still holds. */
  lemma {:induction false} ItemStep(h: Heap, h1: Heap, a: nat, items: seq<GoValue>, i: nat, w: Value, lo: nat)
    requires HeapOk(h) && lo <= a < h.next && ItemsStored(h, a, items, i) && i < |items|
    requires HeapOk(h1) && Grows(h, h1) && Closed(h1, lo) && Copies(h1, w, items[i], h.next) && NewValue(h1, w, h.next)
    ensures var h2 := HeapSet(h1, a, Int(i + 1), w);
      HeapOk(h2) && GrowsBut(h, h2, a) && Closed(h2, lo) && ItemsStored(h2, a, items, i + 1)
  {
    hide HeapOk, Closed, Copies, HeapSet, Grows, GrowsBut, NewValue;
    ItemStored(h, h1, a, items, i, w);
    Stored(h, h1, a, Int(i + 1), w);
    hide ItemsStored;
    Belongs(h, h1, a, w);
    SetOk(h1, a, Int(i + 1), w);
    SetClosed(h1, a, Int(i + 1), w, lo);
  }

  lemma {:induction false} FieldStep(h: Heap, h1: Heap, a: nat, keys: seq<Value>, values: seq<GoValue>, i: nat,
      w: Value, lo: nat)
    requires HeapOk(h) && lo <= a < h.next && FieldsStored(h, a, keys, values, i) && i < |keys|
    requires NoDup(keys) && forall k :: k in keys ==> KeyOk(k) && Scalar(k)
    requires HeapOk(h1) && Grows(h, h1) && Closed(h1, lo) && Copies(h1, w, values[i], h.next) && NewValue(h1, w, h.next)
    ensures var h2 := HeapSet(h1, a, PushPlain(keys[i]), w);
      HeapOk(h2) && GrowsBut(h, h2, a) && Closed(h2, lo) && FieldsStored(h2, a, keys, values, i + 1)
  {
    hide HeapOk, Closed, Copies, HeapSet, Grows, GrowsBut, NewValue, PushPlain, KeyOk, NoDup;
    var k := PushPlain(keys[i]);
    FieldStored(h, h1, a, keys, values, i, w);
    PushPlainKey(keys[i]);
    Stored(h, h1, a, k, w);
    hide FieldsStored;
    Belongs(h, h1, a, w);
    SetOk(h1, a, k, w);
    SetClosed(h1, a, k, w, lo);
  }

  lemma {:induction false} ItemsCopied(h: Heap, a: nat, g: GoValue, i: nat, lo: nat)
    requires g.Slice? && HeapOk(h) && Storable(g) && Closed(h, lo) && lo <= a && ItemsStored(h, a, g.items, i)
    ensures var r := PushItems(h, a, g, i);
      HeapOk(r) && GrowsBut(h, r, a) && Closed(r, lo) && ItemsStored(r, a, g.items, |g.items|)
    decreases g, |g.items| - i
  {
    if i < |g.items| {
      hide HeapOk, Closed, Storable, Copies, ItemsStored, Push, Grows, GrowsBut, NewValue, HeapSet;
      ItemFacts(h, a, g, i);
      PushCopies(h, g.items[i], lo);
      var (h1, w) := Push(h, g.items[i]);
      var h2 := HeapSet(h1, a, Int(i + 1), w);
      ItemStep(h, h1, a, g.items, i, w, lo);
      ItemsCopied(h2, a, g, i + 1, lo);
      GrowsButJoin(h, h2, PushItems(h2, a, g, i + 1), a);
    } else {
      SameGrows(h, a);
      hide GrowsBut;
    }
  }

  lemma SameGrows(h: Heap, a: nat)
    ensures GrowsBut(h, h, a)
  {
  }

  lemma {:induction false} FieldsCopied(h: Heap, a: nat, g: GoValue, i: nat, lo: nat)
    requires g.Dict? && HeapOk(h) && Storable(g) && Closed(h, lo) && lo <= a && FieldsStored(h, a, g.keys, g.values, i)
    ensures var r := PushFields(h, a, g, i);
      HeapOk(r) && GrowsBut(h, r, a) && Closed(r, lo) && FieldsStored(r, a, g.keys, g.values, |g.keys|)
    decreases g, |g.keys| - i
  {
    if i < |g.keys| {
      hide HeapOk, Closed, Storable, Copies, FieldsStored, Push, PushPlain, KeyOk, NoDup, Grows, GrowsBut,
        NewValue, HeapSet;
      FieldFacts(h, a, g, i);
      PushCopies(h, g.values[i], lo);
      var (h1, w) := Push(h, g.values[i]);
      var h2 := HeapSet(h1, a, PushPlain(g.keys[i]), w);
      FieldStep(h, h1, a, g.keys, g.values, i, w, lo);
      FieldsCopied(h2, a, g, i + 1, lo);
      GrowsButJoin(h, h2, PushFields(h2, a, g, i + 1), a);
    } else {
      SameGrows(h, a);
      hide GrowsBut;
    }
  }
}
