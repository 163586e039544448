/** `DeterminePlacement`: from a placement to the clusters it selects. */
module Placements {
  import opened Api

  datatype Coordinates = Coordinates(cluster: string, namespace: string)

  /** One entry of the cluster list the worker reads. */
  datatype Cluster = Cluster(name: string, labels: map<string, string>)

  predicate Matches(selector: map<string, string>, labels: map<string, string>) {
    forall k | k in selector :: k in labels && labels[k] == selector[k]
  }

  function Selected(clusters: seq<Cluster>, selector: map<string, string>, namespace: string): seq<Coordinates> {
    if clusters == [] then []
    else
      var last := |clusters| - 1;
      Selected(clusters[..last], selector, namespace)
      + if Matches(selector, clusters[last].labels) then [Coordinates(clusters[last].name, namespace)] else []
  }

  /** A dynamic placement always lies in the Application's own namespace. */
  function CoordinatesOf(parentNamespace: string, placement: Placement, clusters: seq<Cluster>): seq<Coordinates> {
    match placement
    case StaticPlacement(cluster, namespace) => [Coordinates(cluster, namespace)]
    case DynamicPlacement(selector) => Selected(clusters, selector, parentNamespace)
  }

  /** `clusters` is `None` when the cluster list cannot be read. The selector is
      iterated in no particular order, as a Go map is. */
  method DeterminePlacement(parentNamespace: string, placement: Placement, clusters: Option<seq<Cluster>>)
    returns (coordinates: Option<seq<Coordinates>>)
    ensures coordinates.None? <==> placement.DynamicPlacement? && clusters.None?
    ensures coordinates.Some? && clusters.Some? ==>
      coordinates.value == CoordinatesOf(parentNamespace, placement, clusters.value)
    ensures coordinates.Some? && placement.DynamicPlacement? ==>
      forall at :: at in coordinates.value <==>
        at.namespace == parentNamespace &&
        exists x | x in clusters.value :: x.name == at.cluster && placement.selector.Items <= x.labels.Items
    ensures placement.StaticPlacement? ==> coordinates == Some([Coordinates(placement.cluster, placement.namespace)])
  {
    if placement.StaticPlacement? {
      return Some([Coordinates(placement.cluster, placement.namespace)]);
    }
    if clusters.None? {
      return None;
    }
    var selector := placement.selector;
    var requirements: seq<(string, string)> := [];
    var todo := selector.Keys;
    while todo != {}
      invariant todo <= selector.Keys
      invariant forall r | r in requirements :: r.0 in selector && selector[r.0] == r.1
      invariant forall k | k in selector && k !in todo :: (k, selector[k]) in requirements
      decreases todo
    {
      var k :| k in todo;
      requirements := requirements + [(k, selector[k])];
      todo := todo - {k};
    }
    var data := clusters.value;
    var selected: seq<Coordinates> := [];
    var i := 0;
    while i < |data|
      invariant 0 <= i <= |data|
      invariant selected == Selected(data[..i], selector, parentNamespace)
    {
      assert data[..i + 1][..i] == data[..i];
      var matches := true;
      for j := 0 to |requirements|
        invariant matches <==> forall r | r in requirements[..j] :: r.0 in data[i].labels && data[i].labels[r.0] == r.1
      {
        assert requirements[..j + 1] == requirements[..j] + [requirements[j]];
        var (name, wanted) := requirements[j];
        matches := matches && name in data[i].labels && data[i].labels[name] == wanted;
      }
      assert requirements[..|requirements|] == requirements;
      assert matches <==> Matches(selector, data[i].labels);
      if matches {
        selected := selected + [Coordinates(data[i].name, parentNamespace)];
      }
      i := i + 1;
    }
    assert data[..i] == data;
    SelectedMembers(data, selector, parentNamespace);
    return Some(selected);
  }

  /** A cluster must carry every entry of the selector. */
  lemma MatchesEveryEntry(selector: map<string, string>, labels: map<string, string>)
    ensures Matches(selector, labels) <==> selector.Items <= labels.Items
  {
    if Matches(selector, labels) {
      forall e | e in selector.Items ensures e in labels.Items {
        assert e.0 in selector && selector[e.0] == e.1;
      }
    }
    if selector.Items <= labels.Items {
      forall k | k in selector ensures k in labels && labels[k] == selector[k] {
        assert (k, selector[k]) in selector.Items;
      }
    }
  }

  /** The positions of the matching clusters. */
  function Positions(clusters: seq<Cluster>, selector: map<string, string>): seq<nat> {
    if clusters == [] then []
    else
      var last := |clusters| - 1;
      Positions(clusters[..last], selector) + if Matches(selector, clusters[last].labels) then [last] else []
  }

  predicate Increasing(idx: seq<nat>, n: nat) {
    && (forall i | 0 <= i < |idx| :: idx[i] < n)
    && forall i, j | 0 <= i < j < |idx| :: idx[i] < idx[j]
  }

  lemma IncreasingSnoc(idx: seq<nat>, n: nat)
    requires Increasing(idx, n)
    ensures Increasing(idx, n + 1) && Increasing(idx + [n], n + 1)
  {
  }

  lemma {:induction false} PositionsIncrease(clusters: seq<Cluster>, selector: map<string, string>)
    ensures Increasing(Positions(clusters, selector), |clusters|)
  {
    if clusters != [] {
      var last := |clusters| - 1;
      PositionsIncrease(clusters[..last], selector);
      IncreasingSnoc(Positions(clusters[..last], selector), last);
      assert Positions(clusters[..last], selector) + [] == Positions(clusters[..last], selector);
    }
  }

  lemma {:induction false} PositionsMatch(clusters: seq<Cluster>, selector: map<string, string>, c: nat)
    requires c < |clusters|
    ensures c in Positions(clusters, selector) <==> Matches(selector, clusters[c].labels)
  {
    var last := |clusters| - 1;
    PositionsIncrease(clusters[..last], selector);
    if c < last { PositionsMatch(clusters[..last], selector, c); }
  }

  lemma {:induction false} PositionsSelect(clusters: seq<Cluster>, selector: map<string, string>, namespace: string,
                                           i: nat)
    requires i < |Positions(clusters, selector)|
    ensures |Selected(clusters, selector, namespace)| == |Positions(clusters, selector)|
    ensures Positions(clusters, selector)[i] < |clusters|
    ensures Selected(clusters, selector, namespace)[i] ==
            Coordinates(clusters[Positions(clusters, selector)[i]].name, namespace)
  {
    var last := |clusters| - 1;
    PositionsCount(clusters[..last], selector, namespace);
    if i < |Positions(clusters[..last], selector)| { PositionsSelect(clusters[..last], selector, namespace, i); }
  }

  lemma {:induction false} PositionsCount(clusters: seq<Cluster>, selector: map<string, string>, namespace: string)
    ensures |Selected(clusters, selector, namespace)| == |Positions(clusters, selector)|
  {
    if clusters != [] { PositionsCount(clusters[..|clusters| - 1], selector, namespace); }
  }

  /** The selected coordinates are the clusters that carry every entry of the selector, in
      list order: `idx` is strictly increasing and lists exactly these clusters. */
  lemma SelectedIsSubsequence(clusters: seq<Cluster>, selector: map<string, string>, namespace: string)
    returns (idx: seq<nat>)
    ensures |idx| == |Selected(clusters, selector, namespace)|
    ensures forall i | 0 <= i < |idx| :: idx[i] < |clusters|
    ensures forall i | 0 <= i < |idx| ::
              Selected(clusters, selector, namespace)[i] == Coordinates(clusters[idx[i]].name, namespace)
    ensures forall i, j | 0 <= i < j < |idx| :: idx[i] < idx[j]
    ensures forall c | 0 <= c < |clusters| :: selector.Items <= clusters[c].labels.Items <==> c in idx
  {
    idx := Positions(clusters, selector);
    PositionsIncrease(clusters, selector);
    PositionsCount(clusters, selector, namespace);
    forall i: nat | i < |idx|
      ensures idx[i] < |clusters|
      ensures Selected(clusters, selector, namespace)[i] == Coordinates(clusters[idx[i]].name, namespace)
    {
      PositionsSelect(clusters, selector, namespace, i);
    }
    forall c: nat | 0 <= c < |clusters| ensures selector.Items <= clusters[c].labels.Items <==> c in idx {
      PositionsMatch(clusters, selector, c);
      MatchesEveryEntry(selector, clusters[c].labels);
    }
  }

  lemma SelectedMembers(clusters: seq<Cluster>, selector: map<string, string>, namespace: string)
    ensures forall at :: at in Selected(clusters, selector, namespace) <==>
              at.namespace == namespace &&
              exists x | x in clusters :: x.name == at.cluster && selector.Items <= x.labels.Items
  {
    var idx := SelectedIsSubsequence(clusters, selector, namespace);
    var selected := Selected(clusters, selector, namespace);
    forall at: Coordinates | at.namespace == namespace &&
        exists x | x in clusters :: x.name == at.cluster && selector.Items <= x.labels.Items
      ensures at in selected
    {
      var x :| x in clusters && x.name == at.cluster && selector.Items <= x.labels.Items;
      var c: nat :| c < |clusters| && clusters[c] == x;
      var i :| 0 <= i < |idx| && idx[i] == c;
      assert selected[i] == at;
    }
    forall at | at in selected
      ensures at.namespace == namespace
      ensures exists x | x in clusters :: x.name == at.cluster && selector.Items <= x.labels.Items
    {
      var i :| 0 <= i < |selected| && selected[i] == at;
      assert idx[i] in idx && clusters[idx[i]] in clusters;
    }
  }

  predicate Distinct(coordinates: seq<Coordinates>) {
    forall i, j | 0 <= i < j < |coordinates| :: coordinates[i] != coordinates[j]
  }

  lemma CoordinatesAreDistinct(parentNamespace: string, placement: Placement, clusters: seq<Cluster>)
    requires forall i, j | 0 <= i < j < |clusters| :: clusters[i].name != clusters[j].name
    ensures Distinct(CoordinatesOf(parentNamespace, placement, clusters))
  {
    if placement.DynamicPlacement? {
      var idx := SelectedIsSubsequence(clusters, placement.selector, parentNamespace);
    }
  }

  lemma DynamicCoordinatesAreLocal(parentNamespace: string, placement: Placement, clusters: seq<Cluster>)
    requires placement.DynamicPlacement?
    ensures forall c | c in CoordinatesOf(parentNamespace, placement, clusters) :: c.namespace == parentNamespace
  {
    var idx := SelectedIsSubsequence(clusters, placement.selector, parentNamespace);
  }
}
