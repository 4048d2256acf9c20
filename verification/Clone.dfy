/** CloneRef as a whole: what the copy is equal to, what it is made of, and what writing to it cannot reach. */
module Clones {
  import opened Base
  import opened LuaHeap
  import opened CloneInput
  import opened CloneOutput

  // ---------------------------------------------------------------- structural equality

  /** Equal down to depth `d`: numbers by value, tables by their keys and the values under them. */
  ghost predicate Alike(h1: Heap, v1: Value, h2: Heap, v2: Value, d: nat)
    decreases d, 0
  {
    d == 0
    || (if v1.Table? && v2.Table?
        then v1.a in h1.tables && v2.a in h2.tables && SameEntries(h1, h1.tables[v1.a], h2, h2.tables[v2.a], d - 1)
        else !v1.Table? && !v2.Table? && Norm(v1) == Norm(v2))
  }

  ghost predicate SameEntries(h1: Heap, t1: LuaTable, h2: Heap, t2: LuaTable, d: nat)
    decreases d, 1
  {
    t1.entries.Keys == t2.entries.Keys && forall k :: k in t1.entries ==> Alike(h1, t1.entries[k], h2, t2.entries[k], d)
  }

  /** An integral float outside the int64 range somewhere in the Go value. */
  ghost predicate HasWild(g: GoValue) {
    match g
    case Plain(v) => Wild(v)
    case Slice(items) => exists i :: 0 <= i < |items| && HasWild(items[i])
    case Dict(keys, values) => !TameKeys(keys) || exists i :: 0 <= i < |values| && HasWild(values[i])
  }

  lemma TamePushed(keys: seq<Value>)
    requires TameKeys(keys) && forall k :: k in keys ==> KeyOk(k) && Scalar(k)
    ensures PushedKeys(keys) == Elements(keys)
  {
    forall k | k in keys ensures PushPlain(k) == k { PushPlainKey(k); }
  }

  /** No key of this table is such a float. */
  ghost predicate TameTop(g: GoValue) {
    g.Slice? || (g.Dict? && TameKeys(g.keys))
  }

  lemma {:induction false} SameKeys(h: Heap, v: Value, r: Heap, w: Value, g: GoValue, lo: nat)
    requires Mirrors(h, v, g) && Storable(g) && Copies(r, w, g, lo) && TameTop(g)
    ensures v.Table? && w.Table? && v.a in h.tables && w.a in r.tables
      && h.tables[v.a].entries.Keys == r.tables[w.a].entries.Keys
  {
    if g.Dict? {
      TamePushed(g.keys);
    }
    hide Indices;
  }

  /** The part of the Go value that original and copy hold under the same key. */
  lemma Part(h: Heap, v: Value, r: Heap, w: Value, g: GoValue, lo: nat, k: Value) returns (c: GoValue)
    requires Mirrors(h, v, g) && Storable(g) && Copies(r, w, g, lo) && TameTop(g) && k in h.tables[v.a].entries
    ensures c < g && Storable(c) && Mirrors(h, h.tables[v.a].entries[k], c) && (HasWild(c) ==> HasWild(g))
    ensures w.a in r.tables && k in r.tables[w.a].entries && Copies(r, r.tables[w.a].entries[k], c, lo)
  {
    SameKeys(h, v, r, w, g, lo);
    var t, u := h.tables[v.a], r.tables[w.a];
    if g.Slice? {
      assert k in Indices(|g.items|);
      var i: nat := k.i - 1;
      c := g.items[i];
      assert Mirrors(h, Get(t, Int(i + 1)), c) && Copies(r, Get(u, Int(i + 1)), c, lo);
    } else {
      assert k in Elements(g.keys);
      var i :| 0 <= i < |g.keys| && g.keys[i] == k;
      c := g.values[i];
      assert Mirrors(h, Get(t, g.keys[i]), c) && Copies(r, Get(u, g.keys[i]), c, lo);
    }
  }

  lemma {:induction false} AlikePlain(h: Heap, v: Value, r: Heap, w: Value, g: GoValue, lo: nat, d: nat)
    requires Mirrors(h, v, g) && Storable(g) && Copies(r, w, g, lo) && !HasWild(g) && g.Plain?
    ensures Alike(h, v, r, w, d)
  {
  }

  lemma {:induction false} TamedTop(g: GoValue)
    requires !HasWild(g) && !g.Plain?
    ensures TameTop(g)
  {
  }

  lemma {:induction false} AlikeTables(h: Heap, v: Value, r: Heap, w: Value, d: nat)
    requires v.Table? && w.Table? && v.a in h.tables && w.a in r.tables && d > 0
    ensures Alike(h, v, r, w, d) <==> SameEntries(h, h.tables[v.a], r, r.tables[w.a], d - 1)
  {
  }

  lemma {:induction false} AlikeEntries(h: Heap, v: Value, r: Heap, w: Value, d: nat)
    requires v.Table? && w.Table? && v.a in h.tables && w.a in r.tables && d > 0
    requires h.tables[v.a].entries.Keys == r.tables[w.a].entries.Keys
    requires forall k :: k in h.tables[v.a].entries ==>
      Alike(h, h.tables[v.a].entries[k], r, r.tables[w.a].entries[k], d - 1)
    ensures Alike(h, v, r, w, d)
  {
    assert SameEntries(h, h.tables[v.a], r, r.tables[w.a], d - 1);
    AlikeTables(h, v, r, w, d);
  }

  lemma {:induction false} AtDepthZero(h: Heap, v: Value, r: Heap, w: Value)
    ensures Alike(h, v, r, w, 0)
  {
  }

  /** Without such floats original and copy are equal at every depth. */
  lemma {:induction false} AlikeWithoutWild(h: Heap, v: Value, r: Heap, w: Value, g: GoValue, lo: nat, d: nat)
    requires Mirrors(h, v, g) && Storable(g) && Copies(r, w, g, lo) && !HasWild(g)
    ensures Alike(h, v, r, w, d)
    decreases d
  {
    hide *;
    if d == 0 {
      AtDepthZero(h, v, r, w);
    } else if g.Plain? {
      AlikePlain(h, v, r, w, g, lo, d);
    } else {
      TamedTop(g);
      SameKeys(h, v, r, w, g, lo);
      var t, u := h.tables[v.a], r.tables[w.a];
      forall k | k in t.entries ensures Alike(h, t.entries[k], r, u.entries[k], d - 1) {
        var c := Part(h, v, r, w, g, lo, k);
        AlikeWithoutWild(h, t.entries[k], r, u.entries[k], c, lo, d - 1);
      }
      AlikeEntries(h, v, r, w, d);
    }
  }

  /** The Go value holds `c` under the key `k`. */
  ghost predicate PartAt(g: GoValue, k: Value, c: GoValue) {
    match g
    case Slice(items) => k.Int? && 1 <= k.i <= |items| && c == items[k.i - 1]
    case Dict(keys, values) => |keys| == |values| && exists i :: 0 <= i < |keys| && keys[i] == k && values[i] == c
    case Plain(_) => false
  }

  /** A key under which the Go value holds such a float. */
  lemma WildPart(h: Heap, v: Value, g: GoValue) returns (k: Value, c: GoValue)
    requires Mirrors(h, v, g) && TameTop(g) && HasWild(g)
    ensures v.Table? && v.a in h.tables && k in h.tables[v.a].entries && c < g
      && Mirrors(h, h.tables[v.a].entries[k], c) && HasWild(c)
    ensures PartAt(g, k, c)
  {
    var t := h.tables[v.a];
    if g.Slice? {
      var i :| 0 <= i < |g.items| && HasWild(g.items[i]);
      k, c := Int(i + 1), g.items[i];
      assert k in Indices(|g.items|);
      assert Mirrors(h, Get(t, Int(i + 1)), c);
    } else {
      var i :| 0 <= i < |g.values| && HasWild(g.values[i]);
      k, c := g.keys[i], g.values[i];
      assert k in Elements(g.keys);
      assert Mirrors(h, Get(t, g.keys[i]), c);
    }
  }

  lemma {:induction false} CopyPart(r: Heap, w: Value, g: GoValue, lo: nat, k: Value, c: GoValue)
    requires Copies(r, w, g, lo) && TameTop(g) && w.Table? && w.a in r.tables && k in r.tables[w.a].entries
    requires PartAt(g, k, c)
    ensures Copies(r, r.tables[w.a].entries[k], c, lo)
  {
    if g.Slice? {
      var i: nat := k.i - 1;
      assert Copies(r, Get(r.tables[w.a], Int(i + 1)), g.items[i], lo);
    }
  }

  lemma {:induction false} PartStorable(g: GoValue, k: Value, c: GoValue)
    requires Storable(g)
    requires PartAt(g, k, c)
    ensures Storable(c)
  {
  }

  lemma {:induction false} WildTop(h: Heap, v: Value, r: Heap, w: Value, g: GoValue, lo: nat)
    requires Mirrors(h, v, g) && Copies(r, w, g, lo) && HasWild(g) && !TameTop(g)
    ensures !Alike(h, v, r, w, 1)
  {
    if g.Plain? {
      assert Norm(v) == v && w == Int(MIN_INT64) && Norm(w) == w;
      assert !Alike(h, v, r, w, 1);
    } else {
      assert g.Dict?;
      WildKeyLost(h, v, r, w, g, lo);
    }
  }

  lemma {:induction false} WildKeyLost(h: Heap, v: Value, r: Heap, w: Value, g: GoValue, lo: nat)
    requires g.Dict? && Mirrors(h, v, g) && Copies(r, w, g, lo) && !TameKeys(g.keys)
    ensures !Alike(h, v, r, w, 1)
  {
    var k :| k in g.keys && Wild(k);
    assert k in Elements(g.keys) && k !in PushedKeys(g.keys);
    assert !SameEntries(h, h.tables[v.a], r, r.tables[w.a], 0);
  }

  /** With one, some depth tells original and copy apart. */
  lemma {:induction false} WildShows(h: Heap, v: Value, r: Heap, w: Value, g: GoValue, lo: nat) returns (d: nat)
    requires Mirrors(h, v, g) && Storable(g) && Copies(r, w, g, lo) && HasWild(g)
    ensures !Alike(h, v, r, w, d)
    decreases g
  {
    hide Mirrors, Storable, Copies, HasWild, TameTop, Alike, PartAt;
    if !TameTop(g) {
      WildTop(h, v, r, w, g, lo);
      d := 1;
    } else {
      SameKeys(h, v, r, w, g, lo);
      var k, c := WildPart(h, v, g);
      CopyPart(r, w, g, lo, k, c);
      PartStorable(g, k, c);
      var t, u := h.tables[v.a], r.tables[w.a];
      var e := WildShows(h, t.entries[k], r, u.entries[k], c, lo);
      d := e + 1;
      AlikeTables(h, v, r, w, d);
    }
  }

  // ---------------------------------------------------------------- the condition on the original

  /** The table has such a float as a key or as a value. */
  ghost predicate WildIn(h: Heap, a: nat) {
    a in h.tables && exists k :: k in h.tables[a].entries && (Wild(k) || Wild(h.tables[a].entries[k]))
  }

  ghost predicate WildPath(h: Heap, a: nat, p: seq<nat>) {
    p != [] && p[0] == a && Path(h, p) && WildIn(h, Last(p))
  }

  /** The value is an integral float outside the int64 range, or a chain of tables leads to one. */
  ghost predicate ReachesWild(h: Heap, v: Value) {
    Wild(v) || (v.Table? && exists p :: WildPath(h, v.a, p))
  }

  lemma PrependWild(h: Heap, a: nat, b: nat, p: seq<nat>)
    requires Links(h, a, b) && WildPath(h, b, p)
    ensures WildPath(h, a, [a] + p)
  {
    var q := [a] + p;
    assert forall i :: 0 < i < |q| - 1 ==> q[i] == p[i - 1] && q[i + 1] == p[i];
    assert Last(q) == Last(p);
    hide Links, WildIn;
  }

  lemma ChildReaches(h: Heap, v: Value, k: Value)
    requires v.Table? && v.a in h.tables && k in h.tables[v.a].entries && ReachesWild(h, h.tables[v.a].entries[k])
    ensures ReachesWild(h, v)
  {
    var x := h.tables[v.a].entries[k];
    if Wild(x) {
      assert WildPath(h, v.a, [v.a]);
    } else {
      var p :| WildPath(h, x.a, p);
      PrependWild(h, v.a, x.a, p);
    }
  }

  lemma {:induction false} WildIsReached(h: Heap, v: Value, g: GoValue)
    requires Mirrors(h, v, g) && HasWild(g)
    ensures ReachesWild(h, v)
    decreases g
  {
    hide ReachesWild;
    match g
    case Plain(x) => WildItself(h, v);
    case Slice(items) =>
      var i :| 0 <= i < |items| && HasWild(items[i]);
      assert Int(i + 1) in Indices(|items|);
      WildIsReached(h, Get(h.tables[v.a], Int(i + 1)), items[i]);
      ChildReaches(h, v, Int(i + 1));
    case Dict(keys, values) =>
      if !TameKeys(keys) {
        var k :| k in keys && Wild(k);
        WildKey(h, v, k);
      } else {
        var i :| 0 <= i < |values| && HasWild(values[i]);
        assert keys[i] in Elements(keys);
        WildIsReached(h, Get(h.tables[v.a], keys[i]), values[i]);
        ChildReaches(h, v, keys[i]);
      }
  }

  lemma WildItself(h: Heap, v: Value)
    requires Wild(v)
    ensures ReachesWild(h, v)
  {
  }

  lemma WildKey(h: Heap, v: Value, k: Value)
    requires v.Table? && v.a in h.tables && k in h.tables[v.a].entries && Wild(k)
    ensures ReachesWild(h, v)
  {
    assert WildPath(h, v.a, [v.a]);
  }

  /** The part of the Go value that holds the entry `k`. */
  lemma EntryOf(h: Heap, a: nat, g: GoValue, k: Value) returns (c: GoValue)
    requires Mirrors(h, Table(a), g) && k in h.tables[a].entries
    ensures c < g && Mirrors(h, h.tables[a].entries[k], c) && (HasWild(c) || Wild(k) ==> HasWild(g))
  {
    match g
    case Slice(items) =>
      assert k in Indices(|items|);
      var i: nat := k.i - 1;
      assert Mirrors(h, Get(h.tables[a], Int(i + 1)), items[i]);
      c := items[i];
    case Dict(keys, values) =>
      assert k in Elements(keys);
      var i :| 0 <= i < |keys| && keys[i] == k;
      assert Mirrors(h, Get(h.tables[a], keys[i]), values[i]);
      c := values[i];
  }

  lemma {:induction false} PathShowsWild(h: Heap, a: nat, g: GoValue, p: seq<nat>)
    requires Mirrors(h, Table(a), g) && WildPath(h, a, p)
    ensures HasWild(g)
    decreases |p|
  {
    if |p| == 1 {
      var k :| k in h.tables[a].entries && (Wild(k) || Wild(h.tables[a].entries[k]));
      var c := EntryOf(h, a, g, k);
      hide HasWild;
      if Wild(h.tables[a].entries[k]) {
        PlainWild(h, h.tables[a].entries[k], c);
      }
    } else {
      assert Links(h, p[0], p[0 + 1]);
      var k :| k in h.tables[a].entries && h.tables[a].entries[k] == Table(p[1]);
      var c := EntryOf(h, a, g, k);
      hide Mirrors, HasWild;
      TailWild(h, p);
      PathShowsWild(h, p[1], c, p[1..]);
    }
  }

  lemma {:induction false} PlainWild(h: Heap, v: Value, c: GoValue)
    requires Mirrors(h, v, c) && Wild(v)
    ensures HasWild(c)
  {
  }

  lemma TailWild(h: Heap, p: seq<nat>)
    requires |p| > 1 && Path(h, p) && WildIn(h, Last(p))
    ensures WildPath(h, p[1], p[1..])
  {
    hide Links, WildIn;
    var rest := p[1..];
    forall i | 0 <= i < |rest| - 1 ensures Links(h, rest[i], rest[i + 1]) { assert Links(h, p[i + 1], p[i + 1 + 1]); }
  }

  lemma {:induction false} WildIffReached(h: Heap, v: Value, g: GoValue)
    requires Mirrors(h, v, g)
    ensures HasWild(g) <==> ReachesWild(h, v)
  {
    if HasWild(g) {
      WildIsReached(h, v, g);
    }
    if ReachesWild(h, v) {
      if Wild(v) {
        PlainWild(h, v, g);
      } else {
        var p :| WildPath(h, v.a, p);
        PathShowsWild(h, v.a, g, p);
      }
    }
    hide Mirrors, HasWild, ReachesWild;
  }

  // ---------------------------------------------------------------- the clone

  /** A value read from a well-formed heap can be stored again without losing an entry. */
  lemma {:induction false} MirrorsStorable(h: Heap, v: Value, g: GoValue)
    requires HeapOk(h) && Mirrors(h, v, g)
    ensures Storable(g) && (g == Plain(Nil) <==> v.Nil?)
    decreases g
  {
    match g
    case Plain(x) =>
    case Slice(items) =>
      forall i | 0 <= i < |items| ensures items[i] != Plain(Nil) && Storable(items[i]) {
        assert Int(i + 1) in Indices(|items|);
        MirrorsStorable(h, Get(h.tables[v.a], Int(i + 1)), items[i]);
      }
    case Dict(keys, values) =>
      forall k | k in keys ensures KeyOk(k) {
        assert k in Elements(keys) && TableOk(h.tables[v.a]);
      }
      forall i | 0 <= i < |values| ensures values[i] != Plain(Nil) && Storable(values[i]) {
        assert keys[i] in Elements(keys);
        MirrorsStorable(h, Get(h.tables[v.a], keys[i]), values[i]);
      }
  }

  /** The same value, its maps listed in another order. */
  ghost predicate Reordered(g: GoValue, r: GoValue)
    decreases g
  {
    match g
    case Plain(_) => r == g
    case Slice(items) => r.Slice? && |r.items| == |items| && forall i ::
      0 <= i < |items| ==> Reordered(items[i], r.items[i])
    case Dict(keys, values) =>
      && r.Dict? && |r.keys| == |r.values| && |keys| == |values| && NoDup(r.keys) && Elements(r.keys) == Elements(keys)
      && forall i, j :: 0 <= i < |keys| && 0 <= j < |r.keys| && keys[i] == r.keys[j] ==>
         Reordered(values[i], r.values[j])
  }

  /** Go iterates a map in whatever order it likes, but visits every key once. */
  ghost predicate Shuffles(order: GoValue -> GoValue) {
    forall g :: Storable(g) ==> Reordered(g, order(g))
  }

  lemma {:induction false} ReorderedMirrors(h: Heap, v: Value, g: GoValue, r: GoValue)
    requires Mirrors(h, v, g) && Reordered(g, r)
    ensures Mirrors(h, v, r)
    decreases g
  {
    match g
    case Plain(_) =>
    case Slice(items) =>
      forall i | 0 <= i < |items| ensures Mirrors(h, Get(h.tables[v.a], Int(i + 1)), r.items[i]) {
        ReorderedMirrors(h, Get(h.tables[v.a], Int(i + 1)), items[i], r.items[i]);
      }
    case Dict(keys, values) =>
      forall k | k in r.keys ensures Scalar(k) {
        assert k in Elements(r.keys);
      }
      forall j | 0 <= j < |r.keys| ensures Mirrors(h, Get(h.tables[v.a], r.keys[j]), r.values[j]) {
        assert r.keys[j] in Elements(keys);
        var i :| 0 <= i < |keys| && keys[i] == r.keys[j];
        ReorderedMirrors(h, Get(h.tables[v.a], keys[i]), values[i], r.values[j]);
      }
  }

  lemma NothingAbove(h: Heap)
    requires HeapOk(h)
    ensures Closed(h, h.next)
  {
  }

  /** What a successful clone is: the old heap untouched, and the copy held in new tables only. */
  lemma CloneBuilds(h: Heap, v: Value, order: GoValue -> GoValue) returns (g: GoValue)
    requires HeapOk(h) && Shuffles(order) && Clone(h, v, order).1.Done?
    ensures var (r, c) := Clone(h, v, order);
      && HeapOk(r) && Grows(h, r) && Closed(r, h.next)
         && (c.value.Table? ==> h.next <= c.value.a && c.value.a in r.tables)
      && Mirrors(h, v, g) && Storable(g) && Copies(r, c.value, g, h.next)
  {
    var listed := ToGo(h, v, {}).value;
    g := order(listed);
    ToGoMirrors(h, v, {});
    MirrorsStorable(h, v, listed);
    assert Reordered(listed, g);
    ReorderedMirrors(h, v, listed, g);
    MirrorsStorable(h, v, g);
    NothingAbove(h);
    PushCopies(h, g, h.next);
    hide HeapOk, Closed, Mirrors, Copies, Storable, ToGo, Push, Grows, Shuffles, Reordered;
  }

  /** The copy equals the original, at every depth, exactly when the original reaches no integral float
      outside the int64 range. */
  lemma {:induction false} CloneEqualIffTame(h: Heap, v: Value, order: GoValue -> GoValue)
    requires HeapOk(h) && Shuffles(order) && Clone(h, v, order).1.Done?
    ensures var (r, c) := Clone(h, v, order);
      (forall d: nat :: Alike(h, v, r, c.value, d)) <==> !ReachesWild(h, v)
  {
    var g := CloneBuilds(h, v, order);
    var (r, c) := Clone(h, v, order);
    hide HeapOk, Closed, Mirrors, Copies, Storable, Clone, Alike, Grows, ReachesWild, HasWild;
    WildIffReached(h, v, g);
    if HasWild(g) {
      var d := WildShows(h, v, r, c.value, g, h.next);
    } else {
      forall d: nat ensures Alike(h, v, r, c.value, d) {
        AlikeWithoutWild(h, v, r, c.value, g, h.next, d);
      }
    }
  }

  /** A concrete loss: 2^63 as a float becomes the smallest integer. */
  lemma CloneLosesBigFloat(order: GoValue -> GoValue)
    requires Shuffles(order)
    ensures Clone(Heap(map[], 0), Flt(Finite(9223372036854775808.0)), order)
      == (Heap(map[], 0), Done(Int(-9223372036854775808)))
  {
    var r := 9223372036854775808.0;
    assert r.Floor == 9223372036854775808;
    PlainIffScalar(Heap(map[], 0), Flt(Finite(r)), {});
  }

  // ---------------------------------------------------------------- isolation

  /** A store to the table at the end of a chain. */
  datatype Write = Write(path: seq<nat>, key: Value, value: Value)

  /** Each write goes to a table then reachable from `w` and stores a scalar or a table from `lo` on. */
  ghost predicate Through(h: Heap, w: Value, ws: seq<Write>, lo: nat)
    decreases |ws|
  {
    ws != [] ==>
      && w.Table? && Path(h, ws[0].path) && ws[0].path[0] == w.a
      && Scalar(ws[0].key) && (ws[0].value.Table? ==> lo <= ws[0].value.a)
      && Through(HeapSet(h, Last(ws[0].path), ws[0].key, ws[0].value), w, ws[1..], lo)
  }

  function Written(h: Heap, ws: seq<Write>): Heap
    requires forall i :: 0 <= i < |ws| ==> ws[i].path != []
    decreases |ws|
  {
    if ws == [] then h else Written(HeapSet(h, Last(ws[0].path), ws[0].key, ws[0].value), ws[1..])
  }

  lemma {:induction false} PathStaysNew(h: Heap, p: seq<nat>, lo: nat)
    requires Closed(h, lo) && Path(h, p) && lo <= p[0]
    ensures lo <= Last(p)
    decreases |p|
  {
    if |p| > 1 {
      hide Closed;
      var init := p[..|p| - 1];
      forall i | 0 <= i < |init| - 1 ensures Links(h, init[i], init[i + 1]) { assert Links(h, p[i], p[i + 1]); }
      PathStaysNew(h, init, lo);
      assert Links(h, p[|p| - 2], p[|p| - 2 + 1]);
      LinkStaysNew(h, p[|p| - 2], p[|p| - 1], lo);
    }
  }

  lemma LinkStaysNew(h: Heap, a: nat, b: nat, lo: nat)
    requires Closed(h, lo) && Links(h, a, b) && lo <= a
    ensures lo <= b
  {
  }

  lemma RawSetEntries(t: LuaTable, k: Value, v: Value)
    ensures RawSet(t, k, v).entries == if v.Nil? then t.entries - {k} else t.entries[k := v]
  {
  }

  lemma WriteStaysClosed(h: Heap, a: nat, k: Value, v: Value, lo: nat)
    requires Closed(h, lo) && Scalar(k) && (v.Table? ==> lo <= v.a)
    ensures Closed(HeapSet(h, a, k, v), lo)
  {
    if a in h.tables {
      RawSetEntries(h.tables[a], k, v);
      hide RawSet;
    }
  }

  lemma {:induction false} WritesStayNew(h: Heap, w: Value, ws: seq<Write>, lo: nat)
    requires Closed(h, lo) && (w.Table? ==> lo <= w.a) && Through(h, w, ws, lo)
    ensures forall i :: 0 <= i < |ws| ==> ws[i].path != []
    ensures forall b :: b in h.tables && b < lo ==>
      b in Written(h, ws).tables && Written(h, ws).tables[b] == h.tables[b]
    decreases |ws|
  {
    if ws != [] {
      PathStaysNew(h, ws[0].path, lo);
      var h2 := HeapSet(h, Last(ws[0].path), ws[0].key, ws[0].value);
      WriteStaysClosed(h, Last(ws[0].path), ws[0].key, ws[0].value, lo);
      hide Closed, RawSet, Path, Scalar;
      WritesStayNew(h2, w, ws[1..], lo);
      assert forall i :: 1 <= i < |ws| ==> ws[i] == ws[1..][i - 1];
    }
  }

  lemma ValuesIn(h: Heap, v: Value)
    requires HeapOk(h) && ValueIn(h, v) && v.Table?
    ensures v.a in h.tables && forall k :: k in h.tables[v.a].entries ==> ValueIn(h, h.tables[v.a].entries[k])
  {
  }

  lemma {:induction false} SameScalar(h: Heap, r: Heap, v: Value, d: nat)
    requires !v.Table?
    ensures Alike(h, v, r, v, d)
  {
  }

  /** A value of the old heap looks the same in any heap that keeps the old tables. */
  lemma {:induction false} OldValueKept(h: Heap, r: Heap, v: Value, d: nat)
    requires HeapOk(h) && ValueIn(h, v) && forall b :: b in h.tables ==> b in r.tables && r.tables[b] == h.tables[b]
    ensures Alike(h, v, r, v, d)
    decreases d
  {
    hide *;
    if d == 0 {
      AtDepthZero(h, v, r, v);
    } else if v.Table? {
      ValuesIn(h, v);
      var t := h.tables[v.a];
      forall k | k in t.entries ensures Alike(h, t.entries[k], r, t.entries[k], d - 1) {
        OldValueKept(h, r, t.entries[k], d - 1);
      }
      AlikeEntries(h, v, r, v, d);
    } else {
      SameScalar(h, r, v, d);
    }
  }

  lemma OldTablesKept(h: Heap, r: Heap, f: Heap)
    requires HeapOk(h) && Grows(h, r)
    requires forall b :: b in r.tables && b < h.next ==> b in f.tables && f.tables[b] == r.tables[b]
    ensures forall b :: b in h.tables ==> b in f.tables && f.tables[b] == h.tables[b]
  {
    assert forall b :: b in h.tables ==> b < h.next;
    hide HeapOk;
  }

  /** However the copy is written to, every value that existed before the clone stays as it was. */
  lemma {:induction false} WritesToCopyAreIsolated(h: Heap, v: Value, order: GoValue -> GoValue, ws: seq<Write>,
      item: Value, d: nat)
    requires HeapOk(h) && ValueIn(h, item) && Shuffles(order) && Clone(h, v, order).1.Done?
    requires Through(Clone(h, v, order).0, Clone(h, v, order).1.value, ws, h.next)
    ensures forall i :: 0 <= i < |ws| ==> ws[i].path != []
    ensures Alike(h, item, Written(Clone(h, v, order).0, ws), item, d)
  {
    hide Clone, Closed, Mirrors, Copies, Storable, Through, Alike, HeapOk, Written;
    var g := CloneBuilds(h, v, order);
    var (r, c) := Clone(h, v, order);
    WritesStayNew(r, c.value, ws, h.next);
    OldTablesKept(h, r, Written(r, ws));
    OldValueKept(h, Written(r, ws), item, d);
  }
}
