/** Choosing artifacts: the loops of pkg/worker/worker.go over artifact lists. */
module Artifacts {
  import opened Values
  import opened Api

  // ------------------------------------------------------------- by name

  /** The name map the worker builds: a later artifact replaces an earlier one. */
  function ByName(artifacts: seq<Artifact>): map<string, Artifact> {
    if artifacts == [] then map[]
    else
      var last := |artifacts| - 1;
      ByName(artifacts[..last])[artifacts[last].name := artifacts[last]]
  }

  /** The required names that exist, in the order they are required. */
  function Filter(required: seq<string>, byName: map<string, Artifact>): seq<Artifact> {
    if required == [] then []
    else
      var last := |required| - 1;
      Filter(required[..last], byName) + if required[last] in byName then [byName[required[last]]] else []
  }

  function TargetArtifacts(spec: Spec, env: Environment): seq<Artifact> {
    Filter(env.requiredArtifacts, ByName(spec.artifacts))
  }

  method IndexByName(artifacts: seq<Artifact>) returns (artifactsByName: map<string, Artifact>)
    ensures artifactsByName == ByName(artifacts)
  {
    artifactsByName := map[];
    var i := 0;
    while i < |artifacts|
      invariant 0 <= i <= |artifacts|
      invariant artifactsByName == ByName(artifacts[..i])
    {
      assert artifacts[..i + 1][..i] == artifacts[..i];
      artifactsByName := artifactsByName[artifacts[i].name := artifacts[i]];
      i := i + 1;
    }
    assert artifacts[..i] == artifacts;
  }

  method FilterArtifacts(spec: Spec, env: Environment) returns (filtered: seq<Artifact>)
    ensures filtered == TargetArtifacts(spec, env)
    ensures forall a :: a in filtered <==>
              exists n | n in env.requiredArtifacts :: n in ByName(spec.artifacts) && ByName(spec.artifacts)[n] == a
  {
    var artifactsByName := IndexByName(spec.artifacts);
    filtered := [];
    var i := 0;
    while i < |env.requiredArtifacts|
      invariant 0 <= i <= |env.requiredArtifacts|
      invariant filtered == Filter(env.requiredArtifacts[..i], artifactsByName)
    {
      assert env.requiredArtifacts[..i + 1][..i] == env.requiredArtifacts[..i];
      if env.requiredArtifacts[i] in artifactsByName {
        filtered := filtered + [artifactsByName[env.requiredArtifacts[i]]];
      }
      i := i + 1;
    }
    assert env.requiredArtifacts[..i] == env.requiredArtifacts;
    FilterMembers(env.requiredArtifacts, artifactsByName);
  }

  lemma {:induction false} ByNameIsListed(artifacts: seq<Artifact>)
    ensures forall n | n in ByName(artifacts) :: ByName(artifacts)[n] in artifacts && ByName(artifacts)[n].name == n
    ensures forall a | a in artifacts :: a.name in ByName(artifacts)
  {
    if artifacts != [] {
      var last := |artifacts| - 1;
      ByNameIsListed(artifacts[..last]);
      assert artifacts == artifacts[..last] + [artifacts[last]];
    }
  }

  /** An artifact is selected under its name unless a later one has that name. */
  lemma {:induction false} ByNameLastWins(artifacts: seq<Artifact>, i: nat)
    requires i < |artifacts|
    ensures artifacts[i].name in ByName(artifacts)
    ensures (forall j | i < j < |artifacts| :: artifacts[j].name != artifacts[i].name) ==>
              ByName(artifacts)[artifacts[i].name] == artifacts[i]
  {
    if i < |artifacts| - 1 { ByNameLastWins(artifacts[..|artifacts| - 1], i); }
  }

  /** Membership in the filtered list. */
  lemma {:induction false} FilterMembers(required: seq<string>, byName: map<string, Artifact>)
    ensures forall a | a in Filter(required, byName) :: exists n | n in required :: n in byName && byName[n] == a
    ensures forall n | n in required :: n in byName ==> byName[n] in Filter(required, byName)
  {
    if required != [] {
      var last := |required| - 1;
      FilterMembers(required[..last], byName);
      assert required == required[..last] + [required[last]];
    }
  }

  /** Selecting goes through the required names one by one: order and repetitions stay. */
  lemma {:induction false} FilterIsPointwise(xs: seq<string>, ys: seq<string>, byName: map<string, Artifact>)
    ensures Filter(xs + ys, byName) == Filter(xs, byName) + Filter(ys, byName)
    ensures |xs| == 1 ==> Filter(xs, byName) == if xs[0] in byName then [byName[xs[0]]] else []
  {
    if |xs| == 1 { assert xs[..0] == []; }
    if ys == [] {
      assert xs + ys == xs;
    } else {
      assert (xs + ys)[..|xs + ys| - 1] == xs + ys[..|ys| - 1];
      FilterIsPointwise(xs, ys[..|ys| - 1], byName);
    }
  }

  /** Distinct names: no two listed artifacts share one. */
  predicate DistinctNames(artifacts: seq<Artifact>) {
    forall i, j | 0 <= i < j < |artifacts| :: artifacts[i].name != artifacts[j].name
  }

  /** With distinct names, the order in which the spec lists its artifacts does
      not matter to any environment. */
  lemma SelectionIgnoresOrder(artifacts: seq<Artifact>, shuffled: seq<Artifact>, env: Environment,
                              envs: seq<Environment>)
    requires DistinctNames(artifacts)
    requires forall a :: a in artifacts <==> a in shuffled
    ensures TargetArtifacts(Spec(artifacts, envs), env) == TargetArtifacts(Spec(shuffled, envs), env)
  {
    ByNameIsListed(artifacts);
    ByNameIsListed(shuffled);
    var p, q := ByName(artifacts), ByName(shuffled);
    forall n
      ensures n in p <==> n in q
      ensures n in p && n in q ==> p[n] == q[n]
    {
      if n in q { assert q[n] in artifacts; }
      if n in p { assert p[n] in shuffled; }
    }
    assert p == q;
  }

  // ------------------------------------------------------------- by kind

  function AllOfKind(artifacts: seq<Artifact>, kind: string): seq<Artifact> {
    if artifacts == [] then []
    else
      var last := |artifacts| - 1;
      AllOfKind(artifacts[..last], kind) + if artifacts[last].kind == kind then [artifacts[last]] else []
  }

  function FirstOfKind(artifacts: seq<Artifact>, kind: string): Option<Artifact> {
    if artifacts == [] then None
    else if artifacts[0].kind == kind then Some(artifacts[0])
    else FirstOfKind(artifacts[1..], kind)
  }

  method FindFirstArtifact(artifacts: seq<Artifact>, kind: string) returns (found: Option<Artifact>)
    ensures found == FirstOfKind(artifacts, kind)
    ensures found.None? <==> forall a | a in artifacts :: a.kind != kind
    ensures found.Some? ==> exists i | 0 <= i < |artifacts| ::
              && artifacts[i] == found.value && found.value.kind == kind
              && forall j | 0 <= j < i :: artifacts[j].kind != kind
  {
    var i := 0;
    while i < |artifacts|
      invariant 0 <= i <= |artifacts|
      invariant forall j | 0 <= j < i :: artifacts[j].kind != kind
      invariant FirstOfKind(artifacts, kind) == FirstOfKind(artifacts[i..], kind)
    {
      if artifacts[i].kind == kind {
        return Some(artifacts[i]);
      }
      i := i + 1;
    }
    return None;
  }

  /** An empty result is the error of `findAllArtifacts`. */
  method FindAllArtifacts(artifacts: seq<Artifact>, kind: string) returns (found: Option<seq<Artifact>>)
    ensures found.None? <==> forall a | a in artifacts :: a.kind != kind
    ensures found.Some? ==> found.value == AllOfKind(artifacts, kind)
    ensures found.None? <==> AllOfKind(artifacts, kind) == []
  {
    var all: seq<Artifact> := [];
    var i := 0;
    while i < |artifacts|
      invariant 0 <= i <= |artifacts|
      invariant all == AllOfKind(artifacts[..i], kind)
      invariant all == [] <==> forall j | 0 <= j < i :: artifacts[j].kind != kind
    {
      assert artifacts[..i + 1][..i] == artifacts[..i];
      if artifacts[i].kind == kind {
        all := all + [artifacts[i]];
      }
      i := i + 1;
    }
    assert artifacts[..i] == artifacts;
    found := if all == [] then None else Some(all);
  }

  lemma {:induction false} AllOfKindConcat(xs: seq<Artifact>, ys: seq<Artifact>, kind: string)
    ensures AllOfKind(xs + ys, kind) == AllOfKind(xs, kind) + AllOfKind(ys, kind)
  {
    if ys == [] {
      assert xs + ys == xs;
    } else {
      assert (xs + ys)[..|xs + ys| - 1] == xs + ys[..|ys| - 1];
      AllOfKindConcat(xs, ys[..|ys| - 1], kind);
    }
  }

  lemma {:induction false} AllOfKindMembers(artifacts: seq<Artifact>, kind: string)
    ensures forall a :: a in AllOfKind(artifacts, kind) <==> a in artifacts && a.kind == kind
    ensures |artifacts| == 1 && artifacts[0].kind == kind ==> AllOfKind(artifacts, kind) == artifacts
  {
    if artifacts != [] {
      AllOfKindMembers(artifacts[..|artifacts| - 1], kind);
      assert artifacts == artifacts[..|artifacts| - 1] + [artifacts[|artifacts| - 1]];
    }
  }

  lemma {:induction false} AllOfKindKeeps(artifacts: seq<Artifact>, a: Artifact, kind: string)
    requires a in artifacts && a.kind == kind
    ensures a in AllOfKind(artifacts, kind)
  {
    var last := |artifacts| - 1;
    if artifacts[last] != a {
      assert a in artifacts[..last];
      AllOfKindKeeps(artifacts[..last], a, kind);
    }
  }

  lemma {:induction false} FirstOfKindConcat(xs: seq<Artifact>, ys: seq<Artifact>, kind: string)
    ensures FirstOfKind(xs + ys, kind) ==
            if FirstOfKind(xs, kind).Some? then FirstOfKind(xs, kind) else FirstOfKind(ys, kind)
  {
    if xs == [] {
      assert xs + ys == ys;
    } else {
      assert (xs + ys)[1..] == xs[1..] + ys;
      FirstOfKindConcat(xs[1..], ys, kind);
    }
  }

  lemma {:induction false} FirstOfKindIsListed(artifacts: seq<Artifact>, kind: string)
    ensures FirstOfKind(artifacts, kind).Some? ==>
              FirstOfKind(artifacts, kind).value in artifacts && FirstOfKind(artifacts, kind).value.kind == kind
    ensures FirstOfKind(artifacts, kind).None? ==> forall a | a in artifacts :: a.kind != kind
  {
    if artifacts != [] { FirstOfKindIsListed(artifacts[1..], kind); }
  }

  // ------------------------------------------------------ effective values

  function Documents(artifacts: seq<Artifact>): seq<Value> {
    seq(|artifacts|, i requires 0 <= i < |artifacts| => Node(artifacts[i].values))
  }

  /** The values Helm is given: all value documents, earliest winning. */
  function EffectiveValues(artifacts: seq<Artifact>): Value {
    MergedValues(Documents(AllOfKind(artifacts, HELM_VALUES)))
  }

  lemma DocumentsWithRepeat(p: seq<Artifact>, a: Artifact, q: seq<Artifact>)
    requires a in p
    ensures Documents(p + [a] + q) == Documents(p) + [Node(a.values)] + Documents(q)
    ensures Documents(p + q) == Documents(p) + Documents(q)
    ensures Node(a.values) in Documents(p) && Documents(p)[0].Node?
  {
    var i :| 0 <= i < |p| && p[i] == a;
    assert Documents(p)[i] == Node(a.values);
  }

  lemma RepeatedValuesAreIgnored(pre: seq<Artifact>, a: Artifact, post: seq<Artifact>)
    requires a in pre
    ensures EffectiveValues(pre + [a] + post) == EffectiveValues(pre + post)
  {
    var p, q := AllOfKind(pre, HELM_VALUES), AllOfKind(post, HELM_VALUES);
    AllOfKindConcat(pre + [a], post, HELM_VALUES);
    AllOfKindConcat(pre, [a], HELM_VALUES);
    AllOfKindConcat(pre, post, HELM_VALUES);
    if a.kind == HELM_VALUES {
      AllOfKindKeeps(pre, a, HELM_VALUES);
      assert AllOfKind([a], HELM_VALUES) == [a];
      DocumentsWithRepeat(p, a, q);
      MergedValuesIgnoresRepeat(Documents(p), Node(a.values), Documents(q));
    } else {
      assert AllOfKind([a], HELM_VALUES) == [];
      assert p + [] == p;
    }
  }

  /** Requiring an artifact again later never changes what is installed. */
  lemma RepeatedArtifactIsIgnored(pre: seq<Artifact>, a: Artifact, post: seq<Artifact>)
    requires a in pre
    ensures EffectiveValues(pre + [a] + post) == EffectiveValues(pre + post)
    ensures FirstOfKind(pre + [a] + post, HELM_CHART) == FirstOfKind(pre + post, HELM_CHART)
  {
    RepeatedValuesAreIgnored(pre, a, post);
    FirstOfKindConcat(pre + [a], post, HELM_CHART);
    FirstOfKindConcat(pre, [a], HELM_CHART);
    FirstOfKindConcat(pre, post, HELM_CHART);
    FirstOfKindIsListed(pre, HELM_CHART);
  }
}
