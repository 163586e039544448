/** Decoded Helm values and the deep merge of pkg/worker/helm.go.

    A decoded JSON document is a tree: an object is a `Node`; every other JSON
    value (string, number, bool, null, array) is a `Leaf`, because the merge
    never looks inside it. */
module Values {

  datatype Value = Leaf(payload: string) | Node(fields: map<string, Value>)

  const EMPTY := Node(map[])

  /** The meaning of `mergeMaps`: at a shared key two objects are merged and any
      other pair is decided by the second argument. */
  function Merge(a: Value, b: Value): Value
    decreases b
  {
    if a.Node? && b.Node? then
      Node(map k | k in a.fields.Keys + b.fields.Keys ::
        if k !in b.fields then a.fields[k]
        else if k !in a.fields then b.fields[k]
        else Merge(a.fields[k], b.fields[k]))
    else
      b
  }

  /** The loop of `getMergedValues`: each document is merged UNDER the base. */
  function Fold(base: Value, docs: seq<Value>): Value
    decreases |docs|
  {
    if docs == [] then base else Fold(Merge(docs[0], base), docs[1..])
  }

  // ---------------------------------------------------------------- algebra

  /** The empty object is a two-sided identity on objects. */
  lemma MergeIdentity(a: Value)
    requires a.Node?
    ensures Merge(a, EMPTY) == a && Merge(EMPTY, a) == a
  {
    assert Merge(a, EMPTY).fields == a.fields;
    assert Merge(EMPTY, a).fields == a.fields;
  }

  lemma {:induction false} MergeIdempotent(a: Value)
    ensures Merge(a, a) == a
  {
    if a.Node? {
      forall k | k in a.fields
        ensures Merge(a.fields[k], a.fields[k]) == a.fields[k]
      {
        MergeIdempotent(a.fields[k]);
      }
      assert Merge(a, a).fields == a.fields;
    }
  }

  /** Merging the same override a second time, on either side, changes nothing. */
  lemma {:induction false} MergeAbsorbs(a: Value, b: Value)
    ensures Merge(Merge(a, b), b) == Merge(a, b)
    ensures Merge(a, Merge(a, b)) == Merge(a, b)
    decreases b
  {
    MergeIdempotent(b);
    if a.Node? && b.Node? {
      var m := Merge(a, b);
      forall k | k in m.fields
        ensures Merge(m, b).fields[k] == m.fields[k]
        ensures Merge(a, m).fields[k] == m.fields[k]
      {
        if k in a.fields && k in b.fields {
          MergeAbsorbs(a.fields[k], b.fields[k]);
        } else if k in a.fields {
          MergeIdempotent(a.fields[k]);
        } else {
          MergeIdempotent(b.fields[k]);
        }
      }
      assert Merge(m, b).fields == m.fields;
      assert Merge(a, m).fields == m.fields;
    }
  }

  /** `c` overrides all of `a`: nothing of `a` survives below `c`. */
  predicate Covers(c: Value, a: Value)
    decreases c
  {
    a.Node? && c.Node? ==>
      forall k | k in a.fields :: k in c.fields && Covers(c.fields[k], a.fields[k])
  }

  lemma {:induction false} CoversIffMergeVanishes(c: Value, a: Value)
    ensures Covers(c, a) <==> Merge(a, c) == c
    decreases c
  {
    if a.Node? && c.Node? {
      var m := Merge(a, c);
      forall k | k in a.fields && k in c.fields
        ensures Covers(c.fields[k], a.fields[k]) <==> m.fields[k] == c.fields[k]
      {
        CoversIffMergeVanishes(c.fields[k], a.fields[k]);
      }
      if Covers(c, a) {
        assert m.fields == c.fields;
      } else {
        var k :| k in a.fields && !(k in c.fields && Covers(c.fields[k], a.fields[k]));
        assert k in m.fields;
      }
    }
  }

  /** The one pattern that breaks associativity: at some shared path the three
      values are object / non-object / object, and the last does not override
      everything in the first. */
  predicate Clash(a: Value, b: Value, c: Value)
    decreases c
  {
    && a.Node? && c.Node?
    && (if b.Leaf? then !Covers(c, a)
        else exists k | k in a.fields :: k in b.fields && k in c.fields && Clash(a.fields[k], b.fields[k], c.fields[k]))
  }

  lemma {:induction false} MergeAssociativeIff(a: Value, b: Value, c: Value)
    ensures Merge(Merge(a, b), c) == Merge(a, Merge(b, c)) <==> !Clash(a, b, c)
    decreases c
  {
    if a.Node? && c.Node? {
      if b.Leaf? {
        CoversIffMergeVanishes(c, a);
      } else {
        var l, r := Merge(Merge(a, b), c), Merge(a, Merge(b, c));
        assert l.fields.Keys == r.fields.Keys;
        forall k | k in l.fields
          ensures l.fields[k] == r.fields[k] <==>
                  !(k in a.fields && k in b.fields && k in c.fields && Clash(a.fields[k], b.fields[k], c.fields[k]))
        {
          if k in a.fields && k in b.fields && k in c.fields {
            MergeAssociativeIff(a.fields[k], b.fields[k], c.fields[k]);
          }
        }
        if !Clash(a, b, c) {
          assert l.fields == r.fields;
        } else {
          var k :| k in a.fields && k in b.fields && k in c.fields && Clash(a.fields[k], b.fields[k], c.fields[k]);
          assert k in l.fields;
        }
      }
    }
  }

  /** Both trees have the same kind, object or not, at every path they share. */
  predicate SameShape(a: Value, b: Value) {
    && a.Node? == b.Node?
    && (a.Node? ==> forall k | k in a.fields :: k in b.fields ==> SameShape(a.fields[k], b.fields[k]))
  }

  lemma {:induction false} SameShapeMergesAssociate(a: Value, b: Value, c: Value)
    requires SameShape(a, b)
    ensures !Clash(a, b, c)
    ensures Merge(Merge(a, b), c) == Merge(a, Merge(b, c))
    decreases c
  {
    MergeAssociativeIff(a, b, c);
    if Clash(a, b, c) {
      var k :| k in a.fields && k in b.fields && k in c.fields && Clash(a.fields[k], b.fields[k], c.fields[k]);
      SameShapeMergesAssociate(a.fields[k], b.fields[k], c.fields[k]);
      assert false;
    }
  }

  /** A concrete clash, so associativity does fail on real documents. */
  lemma MergeNotAssociative()
    ensures var a, b := Node(map["x" := Node(map["y" := Leaf("1")])]), Node(map["x" := Leaf("2")]);
            var c := Node(map["x" := EMPTY]);
            Merge(Merge(a, b), c) != Merge(a, Merge(b, c))
  {
    var x, y := Node(map["y" := Leaf("1")]), Leaf("2");
    var a, b, c := Node(map["x" := x]), Node(map["x" := y]), Node(map["x" := EMPTY]);
    assert "y" in x.fields && "y" !in EMPTY.fields;
    assert !Covers(EMPTY, x);
    assert Clash(x, y, EMPTY);
    assert "x" in a.fields;
    assert Clash(a, b, c);
    MergeAssociativeIff(a, b, c);
  }

  // ------------------------------------------------- one-pass specification

  type Fields = map<string, Value>

  /** The objects among the values, in order; everything else is skipped. */
  function Objects(vs: seq<Value>): (os: seq<Fields>)
    ensures FieldsHeight(os) < Height(vs) || os == []
  {
    if vs == [] then []
    else if vs[0].Node? then
      HeightOfNode(vs[0]);
      [vs[0].fields] + Objects(vs[1..])
    else Objects(vs[1..])
  }

  /** The values found under key `k`, in document order. */
  function Column(os: seq<Fields>, k: string): (vs: seq<Value>)
    ensures Height(vs) <= FieldsHeight(os)
    ensures vs != [] <==> k in KeysOf(os)
  {
    if os == [] then []
    else if k in os[0] then
      HeightOfField(os[0], k);
      [os[0][k]] + Column(os[1..], k)
    else Column(os[1..], k)
  }

  function KeysOf(os: seq<Fields>): set<string> {
    if os == [] then {} else os[0].Keys + KeysOf(os[1..])
  }

  /** What layered values mean, without any loop: at each path the FIRST document
      decides; when it holds an object, the objects of all documents at that path
      are layered and the non-objects are skipped. */
  function Layer(vs: seq<Value>): Value
    requires vs != []
    decreases Height(vs), 1
  {
    if vs[0].Leaf? then vs[0]
    else
      assert Objects(vs) != [];
      Node(LayerFields(Objects(vs)))
  }

  function LayerFields(os: seq<Fields>): Fields
    decreases FieldsHeight(os), 2
  {
    map k | k in KeysOf(os) :: Layer(Column(os, k))
  }

  // Heights exist only to show that layering terminates.
  ghost function Max(s: set<nat>): (m: nat)
    ensures forall x | x in s :: x <= m
  {
    if s == {} then 0
    else
      var x :| x in s;
      var rest := Max(s - {x});
      assert forall y | y in s :: y == x || y in s - {x};
      if x > rest then x else rest
  }

  ghost function HeightOf(v: Value): nat {
    if v.Leaf? then 0 else 1 + Max(set k | k in v.fields :: HeightOf(v.fields[k]))
  }

  ghost function HeightOfFields(f: Fields): nat {
    Max(set k | k in f :: HeightOf(f[k]))
  }

  ghost function Height(vs: seq<Value>): nat {
    if vs == [] then 0
    else if HeightOf(vs[0]) > Height(vs[1..]) then HeightOf(vs[0])
    else Height(vs[1..])
  }

  ghost function FieldsHeight(os: seq<Fields>): nat {
    if os == [] then 0
    else if HeightOfFields(os[0]) > FieldsHeight(os[1..]) then HeightOfFields(os[0])
    else FieldsHeight(os[1..])
  }

  lemma HeightOfNode(v: Value)
    requires v.Node?
    ensures HeightOf(v) == 1 + HeightOfFields(v.fields)
  {
  }

  lemma HeightOfField(f: Fields, k: string)
    requires k in f
    ensures HeightOf(f[k]) <= HeightOfFields(f)
  {
    var heights := set j | j in f :: HeightOf(f[j]);
    assert HeightOf(f[k]) in heights;
    assert HeightOfFields(f) == Max(heights);
  }

  // ------------------------------------- the fold refines the specification

  lemma {:induction false} FoldOverLeaf(base: Value, docs: seq<Value>)
    requires base.Leaf?
    ensures Fold(base, docs) == base
    decreases |docs|
  {
    if docs != [] { FoldOverLeaf(base, docs[1..]); }
  }

  /** One key of a fold over documents is the fold over that key's column. */
  lemma {:induction false} FoldAtKey(base: Value, docs: seq<Value>, k: string)
    requires base.Node?
    ensures var r, col := Fold(base, docs), Column(Objects(docs), k);
            && r.Node?
            && (k in r.fields <==> k in base.fields || col != [])
            && (k in base.fields ==> r.fields[k] == Fold(base.fields[k], col))
            && (k !in base.fields && col != [] ==> r.fields[k] == Fold(col[0], col[1..]))
    decreases |docs|
  {
    if docs != [] { FoldAtKey(Merge(docs[0], base), docs[1..], k); }
  }

  lemma {:induction false} FoldRefinesLayerFields(base: Value, docs: seq<Value>)
    requires base.Node?
    ensures Fold(base, docs) == Node(LayerFields(Objects([base] + docs)))
    decreases Height([base] + docs), 0
  {
    var os := Objects([base] + docs);
    var r, f := Fold(base, docs), LayerFields(os);
    FoldAtKey(base, docs, "");
    forall k
      ensures k in r.fields <==> k in f
      ensures k in f ==> r.fields[k] == f[k]
    {
      FoldAtKey(base, docs, k);
      var col := Column(os, k);
      if k in base.fields { assert col == [base.fields[k]] + Column(Objects(docs), k); }
      if col != [] { FoldRefinesLayer(col); }
    }
    assert r.fields == f;
  }

  /** N-way refinement: merging the documents one after another computes exactly
      the one-pass specification. */
  lemma {:induction false} FoldRefinesLayer(vs: seq<Value>)
    requires vs != []
    ensures Fold(vs[0], vs[1..]) == Layer(vs)
    decreases Height(vs), 1
  {
    assert vs == [vs[0]] + vs[1..];
    if vs[0].Leaf? {
      FoldOverLeaf(vs[0], vs[1..]);
    } else {
      FoldRefinesLayerFields(vs[0], vs[1..]);
    }
  }

  /** `getMergedValues` starts from the empty object. */
  function MergedValues(docs: seq<Value>): Value {
    Fold(EMPTY, docs)
  }

  lemma {:induction false} MergedValuesIsLayer(docs: seq<Value>)
    requires docs != [] && docs[0].Node?
    ensures MergedValues(docs) == Layer(docs)
  {
    MergeIdentity(docs[0]);
    FoldRefinesLayer(docs);
  }

  // ----------------------------------------- repeated and prepended documents

  lemma {:induction false} ObjectsConcat(xs: seq<Value>, ys: seq<Value>)
    ensures Objects(xs + ys) == Objects(xs) + Objects(ys)
  {
    if xs == [] {
      assert xs + ys == ys;
    } else {
      assert (xs + ys)[1..] == xs[1..] + ys;
      ObjectsConcat(xs[1..], ys);
    }
  }

  lemma {:induction false} ColumnConcat(xs: seq<Fields>, ys: seq<Fields>, k: string)
    ensures Column(xs + ys, k) == Column(xs, k) + Column(ys, k)
  {
    if xs == [] {
      assert xs + ys == ys;
    } else {
      assert (xs + ys)[1..] == xs[1..] + ys;
      ColumnConcat(xs[1..], ys, k);
    }
  }

  lemma {:induction false} ColumnMembers(os: seq<Fields>, k: string)
    ensures forall v | v in Column(os, k) :: exists f | f in os :: k in f && f[k] == v
    ensures forall f | f in os :: k in f ==> f[k] in Column(os, k)
  {
    if os != [] { ColumnMembers(os[1..], k); }
  }

  lemma {:induction false} ObjectsMembers(vs: seq<Value>)
    ensures forall f | f in Objects(vs) :: Node(f) in vs
    ensures forall v | v in vs :: v.Node? ==> v.fields in Objects(vs)
  {
    if vs != [] { ObjectsMembers(vs[1..]); }
  }

  lemma {:induction false} LayerFieldsIgnoresRepeat(pre: seq<Fields>, f: Fields, post: seq<Fields>)
    requires f in pre
    ensures LayerFields(pre + [f] + post) == LayerFields(pre + post)
    decreases FieldsHeight(pre + [f] + post), 2
  {
    var l, r := LayerFields(pre + [f] + post), LayerFields(pre + post);
    forall k
      ensures k in l <==> k in r
      ensures k in l ==> l[k] == r[k]
    {
      ColumnConcat(pre + [f], post, k);
      ColumnConcat(pre, [f], k);
      ColumnConcat(pre, post, k);
      if k in f {
        ColumnMembers(pre, k);
        assert Column([f], k) == [f[k]];
        LayerIgnoresRepeat(Column(pre, k), f[k], Column(post, k));
      } else {
        assert Column([f], k) == [];
        assert Column(pre, k) + [] == Column(pre, k);
      }
    }
  }

  /** A value that already occurred earlier adds nothing, whatever the shapes. */
  lemma {:induction false} LayerIgnoresRepeat(pre: seq<Value>, v: Value, post: seq<Value>)
    requires v in pre
    ensures Layer(pre + [v] + post) == Layer(pre + post)
    decreases Height(pre + [v] + post), 1
  {
    if pre[0].Node? {
      ObjectsConcat(pre + [v], post);
      ObjectsConcat(pre, [v]);
      ObjectsConcat(pre, post);
      if v.Node? {
        ObjectsMembers(pre);
        assert Objects([v]) == [v.fields];
        LayerFieldsIgnoresRepeat(Objects(pre), v.fields, Objects(post));
      } else {
        assert Objects(pre) + [] == Objects(pre);
      }
    }
  }

  /** Duplicate absorption: repeating a document later changes nothing, so the
      first occurrence alone decides. */
  lemma MergedValuesIgnoresRepeat(pre: seq<Value>, v: Value, post: seq<Value>)
    requires v in pre && pre[0].Node?
    ensures MergedValues(pre + [v] + post) == MergedValues(pre + post)
  {
    LayerIgnoresRepeat(pre, v, post);
    MergedValuesIsLayer(pre + [v] + post);
    MergedValuesIsLayer(pre + post);
  }

  /** The path leads through objects to a non-object with this payload. */
  predicate HasLeaf(v: Value, path: seq<string>, payload: string) {
    if path == [] then v == Leaf(payload)
    else v.Node? && path[0] in v.fields && HasLeaf(v.fields[path[0]], path[1..], payload)
  }

  lemma {:induction false} MergeKeepsLeafOfSecond(a: Value, b: Value, path: seq<string>, payload: string)
    requires HasLeaf(b, path, payload)
    ensures HasLeaf(Merge(a, b), path, payload)
    decreases |path|
  {
    if path != [] && a.Node? && path[0] in a.fields {
      MergeKeepsLeafOfSecond(a.fields[path[0]], b.fields[path[0]], path[1..], payload);
    }
  }

  /** Every leaf of the base survives a whole fold: earlier documents win. */
  lemma {:induction false} FoldKeepsLeafOfBase(base: Value, docs: seq<Value>, path: seq<string>, payload: string)
    requires HasLeaf(base, path, payload)
    ensures HasLeaf(Fold(base, docs), path, payload)
    decreases |docs|
  {
    if docs != [] {
      MergeKeepsLeafOfSecond(docs[0], base, path, payload);
      FoldKeepsLeafOfBase(Merge(docs[0], base), docs[1..], path, payload);
    }
  }

  /** `c` overrides every one of the values. */
  predicate CoversAll(c: Value, vs: seq<Value>) {
    forall v | v in vs :: Covers(c, v)
  }

  lemma {:induction false} LayerVanishesIffCovered(c: Value, vs: seq<Value>)
    ensures Layer([c] + vs) == c <==> CoversAll(c, vs)
    decreases c
  {
    if c.Node? {
      ObjectsConcat([c], vs);
      var os := Objects(vs);
      var l := LayerFields([c.fields] + os);
      assert Objects([c]) == [c.fields];
      ObjectsMembers(vs);
      if CoversAll(c, vs) {
        forall k
          ensures k in l <==> k in c.fields
          ensures k in l ==> l[k] == c.fields[k]
        {
          LayerVanishesAtKey(c, vs, k);
        }
        assert l == c.fields;
      } else {
        var v :| v in vs && !Covers(c, v);
        var k :| k in v.fields && !(k in c.fields && Covers(c.fields[k], v.fields[k]));
        LayerVanishesAtKey(c, vs, k);
      }
    }
  }

  lemma {:induction false} LayerVanishesAtKey(c: Value, vs: seq<Value>, k: string)
    requires c.Node?
    ensures var l := LayerFields([c.fields] + Objects(vs));
            && (k in l <==> k in c.fields || exists v | v in vs :: v.Node? && k in v.fields)
            && (k in c.fields ==>
                  (l[k] == c.fields[k] <==>
                   forall v | v in vs :: v.Node? && k in v.fields ==> Covers(c.fields[k], v.fields[k])))
    decreases c, 0
  {
    var os := Objects(vs);
    var col := Column(os, k);
    ColumnConcat([c.fields], os, k);
    ColumnMembers(os, k);
    ObjectsMembers(vs);
    if col != [] { assert col[0] in col; }
    if k in c.fields {
      assert Column([c.fields], k) == [c.fields[k]];
      LayerVanishesIffCovered(c.fields[k], col);
    }
  }

  /** Layering `c` in front of `vs` keeps no object that merging `c` over the
      finished layers of `vs` would have lost. */
  predicate Fits(c: Value, vs: seq<Value>)
    requires vs != []
    decreases c, 2
  {
    c.Node? ==> if vs[0].Leaf? then CoversAll(c, vs) else FitsFields(c, Objects(vs))
  }

  predicate FitsFields(c: Value, os: seq<Fields>)
    requires c.Node?
    decreases c, 0
  {
    forall k | k in c.fields :: Column(os, k) != [] ==> Fits(c.fields[k], Column(os, k))
  }

  /** Prepending a document equals merging it over the finished result, exactly
      when it fits. */
  lemma {:induction false} PrependIsMergeIff(c: Value, vs: seq<Value>)
    requires vs != []
    ensures Layer([c] + vs) == Merge(Layer(vs), c) <==> Fits(c, vs)
    decreases c, 2
  {
    if c.Node? {
      if vs[0].Leaf? {
        LayerVanishesIffCovered(c, vs);
      } else {
        ObjectsConcat([c], vs);
        assert Objects([c]) == [c.fields];
        PrependFieldsIsMergeIff(c, Objects(vs));
      }
    }
  }

  lemma {:induction false} PrependFieldsIsMergeIff(c: Value, os: seq<Fields>)
    requires c.Node?
    ensures Node(LayerFields([c.fields] + os)) == Merge(Node(LayerFields(os)), c) <==> FitsFields(c, os)
    decreases c, 1
  {
    var l, r := LayerFields([c.fields] + os), Merge(Node(LayerFields(os)), c).fields;
    forall k
      ensures k in l <==> k in r
      ensures k in l ==> (l[k] == r[k] <==> (k in c.fields && Column(os, k) != [] ==> Fits(c.fields[k], Column(os, k))))
    {
      PrependAtKey(c, os, k);
    }
    if FitsFields(c, os) {
      assert l == r;
    } else {
      var k :| k in c.fields && Column(os, k) != [] && !Fits(c.fields[k], Column(os, k));
      assert k in r;
    }
  }

  lemma {:induction false} PrependAtKey(c: Value, os: seq<Fields>, k: string)
    requires c.Node?
    ensures var l, r, col := LayerFields([c.fields] + os), Merge(Node(LayerFields(os)), c).fields, Column(os, k);
            && (k in l <==> k in r)
            && (k in l ==> (l[k] == r[k] <==> (k in c.fields && col != [] ==> Fits(c.fields[k], col))))
    decreases c, 0
  {
    var col := Column(os, k);
    ColumnConcat([c.fields], os, k);
    if k in c.fields {
      assert Column([c.fields] + os, k) == [c.fields[k]] + col;
      if col != [] {
        PrependIsMergeIff(c.fields[k], col);
      } else {
        FoldRefinesLayer([c.fields[k]]);
      }
    } else {
      assert Column([c.fields] + os, k) == col;
    }
  }

  /** Trees of one shape always fit. */
  lemma {:induction false} SameShapeFits(c: Value, vs: seq<Value>)
    requires vs != [] && forall v | v in vs :: SameShape(c, v)
    ensures Fits(c, vs)
    decreases c
  {
    if c.Node? {
      assert vs[0] in vs;
      forall k | k in c.fields && Column(Objects(vs), k) != []
        ensures Fits(c.fields[k], Column(Objects(vs), k))
      {
        ColumnMembers(Objects(vs), k);
        ObjectsMembers(vs);
        forall v | v in Column(Objects(vs), k) ensures SameShape(c.fields[k], v) {
          var f :| f in Objects(vs) && k in f && f[k] == v;
          assert Node(f) in vs;
          assert SameShape(c, Node(f));
        }
        SameShapeFits(c.fields[k], Column(Objects(vs), k));
      }
    }
  }
}
