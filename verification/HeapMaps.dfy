/** `mergeMaps` and `getMergedValues` on mutable, shareable maps.

    A Go map is a reference: the result of a merge shares sub-maps with its
    arguments. The methods below run the loops of pkg/worker/helm.go on a heap of
    such maps, in any iteration order, and are proved against `Values.Merge` and
    `Values.Fold`. None of them has a modifies clause, so no map that existed
    before the call changes. */
module HeapMaps {
  import opened Values

  datatype Entry = Scalar(payload: string) | Ref(target: GoMap)

  class GoMap {
    var entries: map<string, Entry>

    constructor ()
      ensures entries == map[]
    {
      entries := map[];
    }
  }

  /** The map `m`, read through the heap, is the object `v`; every map reachable
      from it lies in `repr`. */
  ghost predicate Denotes(m: GoMap, v: Value, repr: set<GoMap>)
    reads repr
    decreases v, 0
  {
    && m in repr
    && v.Node?
    && m.entries.Keys == v.fields.Keys
    && forall k | k in v.fields :: Means(m.entries[k], v.fields[k], repr)
  }

  ghost predicate Means(e: Entry, v: Value, repr: set<GoMap>)
    reads repr
    decreases v, 1
  {
    match v
    case Leaf(payload) => e == Scalar(payload)
    case Node(_) => e.Ref? && Denotes(e.target, v, repr)
  }

  lemma {:induction false} DenotesMonotone(m: GoMap, v: Value, small: set<GoMap>, large: set<GoMap>)
    requires small <= large && Denotes(m, v, small)
    ensures Denotes(m, v, large)
    decreases v, 0
  {
    forall k | k in v.fields ensures Means(m.entries[k], v.fields[k], large) {
      MeansMonotone(m.entries[k], v.fields[k], small, large);
    }
  }

  lemma {:induction false} MeansMonotone(e: Entry, v: Value, small: set<GoMap>, large: set<GoMap>)
    requires small <= large && Means(e, v, small)
    ensures Means(e, v, large)
    decreases v, 1
  {
    if v.Node? { DenotesMonotone(e.target, v, small, large); }
  }

  /** What `out[k]` must mean while the keys in `todo` are still to be merged. */
  ghost function Progress(va: Value, vb: Value, todo: set<string>, k: string): Value
    requires va.Node? && vb.Node?
    requires k in va.fields.Keys + (vb.fields.Keys - todo)
  {
    if k in todo || k !in vb.fields then va.fields[k] else Merge(va, vb).fields[k]
  }

  ghost predicate PartlyMerged(entries: map<string, Entry>, va: Value, vb: Value, todo: set<string>, repr: set<GoMap>)
    requires va.Node? && vb.Node?
    reads repr
  {
    && entries.Keys == va.fields.Keys + (vb.fields.Keys - todo)
    && forall k | k in entries :: Means(entries[k], Progress(va, vb, todo, k), repr)
  }

  lemma PartlyMergedStep(entries: map<string, Entry>, va: Value, vb: Value, todo: set<string>, k: string, merged: Entry,
                         small: set<GoMap>, large: set<GoMap>)
    requires va.Node? && vb.Node? && small <= large
    requires PartlyMerged(entries, va, vb, todo, small)
    requires k in todo && k in vb.fields && Means(merged, Merge(va, vb).fields[k], large)
    ensures PartlyMerged(entries[k := merged], va, vb, todo - {k}, large)
  {
    forall j | j in entries && j != k
      ensures Means(entries[j], Progress(va, vb, todo - {k}, j), large)
    {
      MeansMonotone(entries[j], Progress(va, vb, todo, j), small, large);
    }
  }

  /** The first loop: a shallow copy. */
  method Copy(a: GoMap) returns (out: GoMap)
    ensures fresh(out) && out.entries == a.entries
  {
    out := new GoMap();
    var todo := a.entries.Keys;
    while todo != {}
      invariant todo <= a.entries.Keys
      invariant out.entries.Keys == a.entries.Keys - todo
      invariant forall k | k in out.entries :: out.entries[k] == a.entries[k]
      modifies out
      decreases todo
    {
      var k :| k in todo;
      out.entries := out.entries[k := a.entries[k]];
      todo := todo - {k};
    }
  }

  lemma PartlyMergedDone(out: GoMap, va: Value, vb: Value, repr: set<GoMap>)
    requires va.Node? && vb.Node?
    requires PartlyMerged(out.entries, va, vb, {}, repr)
    ensures Denotes(out, Merge(va, vb), repr + {out})
  {
    forall k | k in out.entries ensures Means(out.entries[k], Merge(va, vb).fields[k], repr + {out}) {
      MeansMonotone(out.entries[k], Progress(va, vb, {}, k), repr, repr + {out});
    }
  }

  /** One turn of the second loop: two maps are merged into a new one, anything
      else is replaced by the entry of `b`. */
  method MergeEntry(present: bool, o: Entry, e: Entry, ghost vo: Value, ghost ve: Value, ghost repr: set<GoMap>)
    returns (merged: Entry, ghost outRepr: set<GoMap>)
    requires Means(e, ve, repr) && (present ==> Means(o, vo, repr))
    ensures Means(merged, if present then Merge(vo, ve) else ve, outRepr)
    ensures repr <= outRepr && fresh(outRepr - repr)
    decreases ve, 2
  {
    merged, outRepr := e, repr;
    if e.Ref? && present && o.Ref? {
      var sub;
      sub, outRepr := MergeMaps(o.target, e.target, vo, ve, repr);
      merged := Ref(sub);
    }
  }

  /** The second loop: fold the keys of `b` into the copy `out`. */
  method MergeKeysInto(out: GoMap, b: GoMap, ghost va: Value, ghost vb: Value, ghost repr: set<GoMap>)
    returns (ghost kids: set<GoMap>)
    requires va.Node? && out !in repr && Denotes(b, vb, repr)
    requires PartlyMerged(out.entries, va, vb, vb.fields.Keys, repr)
    modifies out
    ensures repr <= kids && out !in kids && fresh(kids - repr)
    ensures PartlyMerged(out.entries, va, vb, {}, kids)
    decreases vb, 0
  {
    kids := repr;
    var todo := b.entries.Keys;
    while todo != {}
      invariant todo <= vb.fields.Keys
      invariant repr <= kids && out !in kids && fresh(kids - repr)
      invariant Denotes(b, vb, repr)
      invariant PartlyMerged(out.entries, va, vb, todo, kids)
      modifies out
      decreases todo
    {
      var k :| k in todo;
      var e := b.entries[k];
      ghost var was := kids;
      MeansMonotone(e, vb.fields[k], repr, kids);
      var present := k in out.entries;
      var o := if present then out.entries[k] else e;
      var merged;
      merged, kids := MergeEntry(present, o, e, if present then va.fields[k] else EMPTY, vb.fields[k], kids);
      PartlyMergedStep(out.entries, va, vb, todo, k, merged, was, kids);
      out.entries := out.entries[k := merged];
      todo := todo - {k};
    }
  }

  method MergeMaps(a: GoMap, b: GoMap, ghost va: Value, ghost vb: Value, ghost repr: set<GoMap>)
    returns (out: GoMap, ghost outRepr: set<GoMap>)
    requires Denotes(a, va, repr) && Denotes(b, vb, repr)
    ensures Denotes(out, Merge(va, vb), outRepr)
    ensures Denotes(a, va, repr) && Denotes(b, vb, repr)
    ensures fresh(out) && repr <= outRepr && fresh(outRepr - repr)
    decreases vb, 1
  {
    out := Copy(a);
    ghost var kids := MergeKeysInto(out, b, va, vb, repr);
    PartlyMergedDone(out, va, vb, kids);
    outRepr := kids + {out};
  }

  method GetMergedValues(docs: seq<GoMap>, ghost vs: seq<Value>, ghost repr: set<GoMap>)
    returns (base: GoMap, ghost outRepr: set<GoMap>)
    requires |docs| == |vs| && forall i | 0 <= i < |docs| :: Denotes(docs[i], vs[i], repr)
    ensures Denotes(base, MergedValues(vs), outRepr)
    ensures forall i | 0 <= i < |docs| :: Denotes(docs[i], vs[i], repr)
    ensures fresh(base) && repr <= outRepr && fresh(outRepr - repr)
  {
    base := new GoMap();
    outRepr := repr + {base};
    ghost var v := EMPTY;
    assert Denotes(base, v, outRepr);
    var i := 0;
    while i < |docs|
      invariant 0 <= i <= |docs|
      invariant fresh(base) && repr <= outRepr && fresh(outRepr - repr)
      invariant forall j | 0 <= j < |docs| :: Denotes(docs[j], vs[j], repr)
      invariant Denotes(base, v, outRepr)
      invariant MergedValues(vs) == Fold(v, vs[i..])
    {
      DenotesMonotone(docs[i], vs[i], repr, outRepr);
      base, outRepr := MergeMaps(docs[i], base, vs[i], v, outRepr);
      v := Merge(vs[i], v);
      i := i + 1;
    }
  }
}
