/** What toGoValue accepts: exactly the values from which no path through the heap repeats a table,
    meets an unsupported value or meets a table used as a key. */
module CloneInput {
  import opened Base
  import opened LuaHeap

  // ---------------------------------------------------------------- arrays, by pigeonhole

  lemma {:induction false} IndicesSize(n: nat)
    ensures |Indices(n)| == n
  {
    if n == 0 {
      assert Indices(0) == {};
    } else {
      IndicesSize(n - 1);
      assert Indices(n) == Indices(n - 1) + {Int(n)};
    }
  }

  /** Counting the keys and testing each for 1..n finds out whether the key set is exactly 1..n. */
  lemma ArrayByPigeonhole(order: seq<Value>, n: nat)
    requires NoDup(order)
    ensures OnlyArrayKeys(order, n) <==> Elements(order) == Indices(n)
  {
    NoDupSize(order);
    IndicesSize(n);
    if OnlyArrayKeys(order, n) {
      assert Elements(order) <= Indices(n);
      SubsetEqual(Elements(order), Indices(n));
    }
  }

  lemma SubsetEqual<T>(a: set<T>, b: set<T>)
    requires a <= b && |a| == |b|
    ensures a == b
  {
    assert b == a + (b - a);
  }

  /** Whichever border the raw length reports, the test accepts exactly the tables whose keys are 1..m for some m. */
  lemma PureArrayIffProper(t: LuaTable)
    requires TableOk(t)
    ensures OnlyArrayKeys(t.order, t.border) <==> exists m: nat :: t.entries.Keys == Indices(m)
    ensures forall m: nat :: t.entries.Keys == Indices(m) ==> m == t.border
  {
    ArrayByPigeonhole(t.order, t.border);
    forall m: nat | t.entries.Keys == Indices(m) ensures m == t.border {
      assert t.border > 0 ==> Int(t.border) in Indices(m);
      assert Int(t.border + 1) !in Indices(m);
    }
  }

  // ---------------------------------------------------------------- success, table by table

  lemma {:induction false} ItemsDone(h: Heap, vs: seq<Value>, seen: set<nat>)
    ensures var r := ToGoItems(h, vs, seen);
      && (r.Done? <==> forall i :: 0 <= i < |vs| ==> ToGo(h, vs[i], seen).Done?)
      && (r.Done? ==> forall i :: 0 <= i < |vs| ==> ToGo(h, vs[i], seen) == Done(r.value[i]))
    decreases |vs|
  {
    hide ToGo;
    if vs != [] {
      ItemsDone(h, vs[1..], seen);
      var r, rest := ToGoItems(h, vs, seen), ToGoItems(h, vs[1..], seen);
      assert forall i :: 0 < i < |vs| ==> vs[i] == vs[1..][i - 1];
      assert forall i :: 0 <= i < |vs[1..]| ==> vs[1..][i] == vs[i + 1];
    }
  }

  lemma {:induction false} PlainIffScalar(h: Heap, v: Value, seen: set<nat>)
    ensures ToGo(h, v, seen).Done? ==> (ToGo(h, v, seen).value.Plain? <==> Scalar(v))
    ensures Scalar(v) ==> ToGo(h, v, seen) == Done(Plain(v))
  {
  }

  lemma {:induction false} FieldsDone(h: Heap, t: LuaTable, ks: seq<Value>, seen: set<nat>)
    ensures var r := ToGoFields(h, t, ks, seen);
      && (r.Done? <==> forall i :: 0 <= i < |ks| ==> Scalar(ks[i]) && ToGo(h, Get(t, ks[i]), seen).Done?)
      && (r.Done? ==> forall i :: 0 <= i < |ks| ==> ToGo(h, Get(t, ks[i]), seen) == Done(r.value[i]))
    decreases |ks|
  {
    hide ToGo, Get;
    if ks != [] {
      PlainIffScalar(h, ks[0], seen);
      FieldsDone(h, t, ks[1..], seen);
      assert forall i :: 0 < i < |ks| ==> ks[i] == ks[1..][i - 1];
      assert forall i :: 0 <= i < |ks[1..]| ==> ks[1..][i] == ks[i + 1];
    }
  }

  /** Every entry of the table can be converted when `seen` is on the path to it. */
  ghost predicate EntriesDone(h: Heap, t: LuaTable, seen: set<nat>) {
    forall k :: k in t.entries ==> Scalar(k) && ToGo(h, t.entries[k], seen).Done?
  }

  /** One level of toGoValue on a table that is not on the path yet. */
  lemma {:induction false} Unfold(h: Heap, a: nat, seen: set<nat>)
    requires a in h.tables && a !in seen
    ensures var t := h.tables[a];
      var listed := ToGoItems(h, ArrayPart(t, 0, t.border), seen + {a});
      var fields := ToGoFields(h, t, t.order, seen + {a});
      var r := ToGo(h, Table(a), seen);
      if !listed.Done? then !r.Done?
      else if t.border > 0 && OnlyArrayKeys(t.order, t.border) then r == Done(Slice(listed.value))
      else if !fields.Done? then !r.Done? else r == Done(Dict(t.order, fields.value))
  {
    hide OnlyArrayKeys, ToGoItems, ToGoFields;
  }

  /** Converting every key and value is converting every entry, since `next` visits each key once. */
  lemma {:induction false} OrderDone(h: Heap, t: LuaTable, seen: set<nat>)
    requires TableOk(t)
    ensures ToGoFields(h, t, t.order, seen).Done? <==> EntriesDone(h, t, seen)
  {
    FieldsDone(h, t, t.order, seen);
    hide ToGo, ToGoFields, IsBorder, NoDup;
    forall k | k in t.entries ensures exists i :: 0 <= i < |t.order| && t.order[i] == k {
      assert k in Elements(t.order);
    }
    forall i | 0 <= i < |t.order| ensures t.order[i] in t.entries {
      assert t.order[i] in Elements(t.order);
    }
  }

  /** The array part is made of entries and nils. */
  lemma {:induction false} ArrayDone(h: Heap, t: LuaTable, seen: set<nat>)
    requires TableOk(t)
    ensures var listed := ToGoItems(h, ArrayPart(t, 0, t.border), seen);
      && (EntriesDone(h, t, seen) ==> listed.Done?)
      && (OnlyArrayKeys(t.order, t.border) && listed.Done? ==> EntriesDone(h, t, seen))
  {
    var vs := ArrayPart(t, 0, t.border);
    ItemsDone(h, vs, seen);
    PlainIffScalar(h, Nil, seen);
    ArrayByPigeonhole(t.order, t.border);
    hide ToGo, ToGoItems, OnlyArrayKeys, NoDup, IsBorder;
    if OnlyArrayKeys(t.order, t.border) && ToGoItems(h, vs, seen).Done? {
      forall k | k in t.entries ensures Scalar(k) && ToGo(h, t.entries[k], seen).Done? {
        assert k in Indices(t.border);
        assert vs[k.i - 1] == t.entries[k];
      }
    }
  }

  lemma {:induction false} TableDone(h: Heap, a: nat, seen: set<nat>)
    requires HeapOk(h)
    ensures ToGo(h, Table(a), seen).Done? <==> a !in seen && a in h.tables && EntriesDone(h, h.tables[a], seen + {a})
  {
    if a !in seen && a in h.tables {
      Unfold(h, a, seen);
      OrderDone(h, h.tables[a], seen + {a});
      ArrayDone(h, h.tables[a], seen + {a});
      hide ToGo, ToGoItems, ToGoFields, OnlyArrayKeys, EntriesDone, HeapOk, ArrayPart;
    }
  }

  // ---------------------------------------------------------------- success, by paths

  ghost predicate Links(h: Heap, a: nat, b: nat) {
    a in h.tables && exists k :: k in h.tables[a].entries && h.tables[a].entries[k] == Table(b)
  }

  /** A non-empty chain of tables, each holding the next one as a value. */
  ghost predicate Path(h: Heap, p: seq<nat>) {
    p != [] && forall i :: 0 <= i < |p| - 1 ==> Links(h, p[i], p[i + 1])
  }

  /** The table has a key that is no scalar, or an unsupported value. */
  ghost predicate Unfit(h: Heap, a: nat) {
    a !in h.tables || exists k :: k in h.tables[a].entries && (!Scalar(k) || h.tables[a].entries[k].Other?)
  }

  function Last(p: seq<nat>): nat
    requires p != []
  {
    p[|p| - 1]
  }

  /** The chain ends in an unfit table, or comes back to a table of the chain or of `seen`. */
  ghost predicate Spoils(h: Heap, p: seq<nat>, seen: set<nat>) {
    Path(h, p) && (Unfit(h, Last(p)) || Last(p) in seen || Last(p) in p[..|p| - 1])
  }

  lemma PrependSpoils(h: Heap, a: nat, p: seq<nat>, seen: set<nat>)
    requires Spoils(h, p, seen + {a}) && Links(h, a, p[0])
    ensures Spoils(h, [a] + p, seen)
  {
    var q := [a] + p;
    assert forall i :: 0 < i < |q| - 1 ==> q[i] == p[i - 1] && q[i + 1] == p[i];
    assert Last(q) == Last(p);
    assert q[..|q| - 1] == [a] + p[..|p| - 1];
    hide Links, Unfit;
  }

  /** A refused table has a chain that shows why. */
  lemma {:induction false} RefusalHasPath(h: Heap, a: nat, seen: set<nat>) returns (p: seq<nat>)
    requires HeapOk(h) && !ToGo(h, Table(a), seen).Done?
    ensures p != [] && p[0] == a && Spoils(h, p, seen)
    decreases Unseen(h, seen)
  {
    TableDone(h, a, seen);
    p := [a];
    if a in h.tables && a !in seen && !Unfit(h, a) {
      var t := h.tables[a];
      var k :| k in t.entries && !(Scalar(k) && ToGo(h, t.entries[k], seen + {a}).Done?);
      PlainIffScalar(h, t.entries[k], seen + {a});
      UnseenShrinks(h, seen, a);
      var rest := RefusalHasPath(h, t.entries[k].a, seen + {a});
      PrependSpoils(h, a, rest, seen);
      p := [a] + rest;
    }
  }

  lemma TailSpoils(h: Heap, p: seq<nat>, seen: set<nat>)
    requires |p| > 1 && Spoils(h, p, seen)
    ensures Links(h, p[0], p[1]) && Spoils(h, p[1..], seen + {p[0]})
  {
    hide Links, Unfit;
    assert Links(h, p[0], p[0 + 1]);
    var rest := p[1..];
    forall i | 0 <= i < |rest| - 1 ensures Links(h, rest[i], rest[i + 1]) { assert Links(h, p[i + 1], p[i + 1 + 1]); }
    assert p[..|p| - 1] == [p[0]] + rest[..|rest| - 1];
  }

  lemma FitEntries(h: Heap, t: LuaTable, a: nat, seen: set<nat>)
    requires a in h.tables && t == h.tables[a] && EntriesDone(h, t, seen)
    ensures !Unfit(h, a)
  {
  }

  /** No chain from an accepted table spoils it. */
  lemma {:induction false} ChainsKeepClean(h: Heap, p: seq<nat>, seen: set<nat>)
    requires HeapOk(h) && p != [] && ToGo(h, Table(p[0]), seen).Done?
    ensures !Spoils(h, p, seen)
    decreases |p|
  {
    hide ToGo, HeapOk;
    TableDone(h, p[0], seen);
    if |p| == 1 {
      assert p[..0] == [];
      FitEntries(h, h.tables[p[0]], p[0], seen + {p[0]});
      hide EntriesDone, Unfit;
    } else if Spoils(h, p, seen) {
      hide Spoils, EntriesDone;
      TailSpoils(h, p, seen);
      LinkDone(h, p[0], p[1], seen);
      ChainsKeepClean(h, p[1..], seen + {p[0]});
    }
  }

  lemma {:induction false} LinkDone(h: Heap, a: nat, b: nat, seen: set<nat>)
    requires Links(h, a, b) && EntriesDone(h, h.tables[a], seen + {a})
    ensures ToGo(h, Table(b), seen + {a}).Done?
  {
    hide ToGo;
  }

  /** A table is converted exactly when no chain from it repeats a table or reaches an unfit one.
      Shared tables that lie on no cycle are no obstacle. */
  lemma {:induction false} AcceptsIffNoBadPath(h: Heap, a: nat)
    requires HeapOk(h)
    ensures ToGo(h, Table(a), {}).Done? <==> !exists p :: p != [] && p[0] == a && Spoils(h, p, {})
  {
    hide ToGo, HeapOk, Spoils;
    if ToGo(h, Table(a), {}).Done? {
      forall p | p != [] && p[0] == a ensures !Spoils(h, p, {}) {
        ChainsKeepClean(h, p, {});
      }
    } else {
      var p := RefusalHasPath(h, a, {});
    }
  }

  // ---------------------------------------------------------------- what the Go value says

  /** `g` lists the value `v` and everything below it, key by key. */
  ghost predicate Mirrors(h: Heap, v: Value, g: GoValue)
    decreases g
  {
    match g
    case Plain(x) => v == x && Scalar(x)
    case Slice(items) =>
      && v.Table? && v.a in h.tables && h.tables[v.a].entries.Keys == Indices(|items|)
      && forall i :: 0 <= i < |items| ==> Mirrors(h, Get(h.tables[v.a], Int(i + 1)), items[i])
    case Dict(keys, values) =>
      && v.Table? && v.a in h.tables && |keys| == |values| && NoDup(keys)
         && h.tables[v.a].entries.Keys == Elements(keys)
      && (forall k :: k in keys ==> Scalar(k))
      && forall i :: 0 <= i < |keys| ==> Mirrors(h, Get(h.tables[v.a], keys[i]), values[i])
  }

  lemma {:induction false} SliceMirrors(h: Heap, a: nat, items: seq<GoValue>)
    requires a in h.tables && TableOk(h.tables[a]) && OnlyArrayKeys(h.tables[a].order, h.tables[a].border)
      && |items| == h.tables[a].border
    requires forall i :: 0 <= i < |items| ==> Mirrors(h, Get(h.tables[a], Int(i + 1)), items[i])
    ensures Mirrors(h, Table(a), Slice(items))
  {
    ArrayByPigeonhole(h.tables[a].order, h.tables[a].border);
  }

  lemma {:induction false} DictMirrors(h: Heap, a: nat, values: seq<GoValue>)
    requires a in h.tables && TableOk(h.tables[a]) && |values| == |h.tables[a].order|
    requires forall k :: k in h.tables[a].order ==> Scalar(k)
    requires forall i :: 0 <= i < |values| ==> Mirrors(h, Get(h.tables[a], h.tables[a].order[i]), values[i])
    ensures Mirrors(h, Table(a), Dict(h.tables[a].order, values))
  {
  }

  /** The Go value holds the whole structure, and nothing else. */
  lemma {:induction false} ToGoMirrors(h: Heap, v: Value, seen: set<nat>)
    requires HeapOk(h) && ToGo(h, v, seen).Done?
    ensures Mirrors(h, v, ToGo(h, v, seen).value)
    decreases Unseen(h, seen)
  {
    PlainIffScalar(h, v, seen);
    if v.Table? {
      TableDone(h, v.a, seen);
      UnseenShrinks(h, seen, v.a);
      var t, path := h.tables[v.a], seen + {v.a};
      var vs := ArrayPart(t, 0, t.border);
      Unfold(h, v.a, seen);
      ItemsDone(h, vs, path);
      FieldsDone(h, t, t.order, path);
      assert TableOk(t);
      hide ToGo, ToGoItems, ToGoFields, OnlyArrayKeys, HeapOk, Unseen, Get, TableOk, EntriesDone, Mirrors;
      var g := ToGo(h, v, seen).value;
      if g.Slice? {
        forall i | 0 <= i < |g.items| ensures Mirrors(h, Get(t, Int(i + 1)), g.items[i]) {
          ToGoMirrors(h, vs[i], path);
        }
        SliceMirrors(h, v.a, g.items);
      } else {
        forall i | 0 <= i < |t.order| ensures Mirrors(h, Get(t, t.order[i]), g.values[i]) {
          ToGoMirrors(h, Get(t, t.order[i]), path);
        }
        DictMirrors(h, v.a, g.values);
      }
    }
  }
}
