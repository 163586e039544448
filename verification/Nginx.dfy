/** The configuration of examples/nginx-with-production-canary.yaml satisfies every
    hypothesis the theorems ask for. */
module Nginx {
  import opened Values
  import opened Api
  import opened Artifacts
  import opened Placements
  import opened Helm
  import opened Protocol
  import opened Invariants
  import opened Promotion
  import opened Convergence

  const CHART := Artifact("chart", "HelmChart", "https://charts.bitnami.com/bitnami/nginx", "13.2.13", map[])
  const COMMON := Artifact("common", "HelmValues", "", "", map["image.tag" := Leaf("1.22.1")])
  const STAGING_VALUES := Artifact("valuesStaging", "HelmValues", "", "", map["replicaCount" := Leaf("1")])
  const PROD_VALUES := Artifact("valuesProd", "HelmValues", "", "", map["replicaCount" := Leaf("4")])

  const STAGING := Environment("staging", ["chart", "common", "valuesStaging"], [],
    StaticPlacement("staging1", "nginx-staging"))
  const PRODUCTION := Environment("production", ["chart", "common", "valuesProd"],
    [DependsOn("staging", ["chart", "common"]), HelmCanary(Some(60), map["replicaCount" := Leaf("1")])],
    DynamicPlacement(map["env" := "prod"]))

  const ARTIFACTS := [CHART, COMMON, STAGING_VALUES, PROD_VALUES]
  const SPEC := Spec(ARTIFACTS, [STAGING, PRODUCTION])

  lemma Lookup()
    ensures var m := ByName(ARTIFACTS);
            && "chart" in m && m["chart"] == CHART && "common" in m && m["common"] == COMMON
            && "valuesStaging" in m && m["valuesStaging"] == STAGING_VALUES
            && "valuesProd" in m && m["valuesProd"] == PROD_VALUES
  {
    assert |"chart"| != |"common"| && |"common"| != |"valuesStaging"| && |"valuesStaging"| != |"valuesProd"|;
    forall i: nat | i < 4
      ensures ARTIFACTS[i].name in ByName(ARTIFACTS) && ByName(ARTIFACTS)[ARTIFACTS[i].name] == ARTIFACTS[i]
    {
      ByNameLastWins(ARTIFACTS, i);
    }
    assert ARTIFACTS[0].name == "chart" && ARTIFACTS[1].name == "common";
    assert ARTIFACTS[2].name == "valuesStaging" && ARTIFACTS[3].name == "valuesProd";
  }

  lemma FilterThree(a: string, b: string, d: string)
    requires var m := ByName(ARTIFACTS); a in m && b in m && d in m
    ensures var m := ByName(ARTIFACTS); Filter([a, b, d], m) == [m[a], m[b], m[d]]
  {
    var m := ByName(ARTIFACTS);
    assert [a, b, d][..2] == [a, b] && [a, b][..1] == [a] && [a][..0] == [];
    assert Filter([a], m) == [m[a]];
    assert Filter([a, b], m) == [m[a], m[b]];
  }

  lemma TwoOfThree(x: Artifact, y: Artifact, z: Artifact)
    requires x.kind == "HelmChart" && y.kind == "HelmValues" && z.kind == "HelmValues"
    ensures Documents(AllOfKind([x, y, z], "HelmValues")) == [Node(y.values), Node(z.values)]
  {
    assert [x, y, z][..2] == [x, y] && [x, y][..1] == [x] && [x][..0] == [];
    assert AllOfKind([x], HELM_VALUES) == [];
    assert AllOfKind([x, y], HELM_VALUES) == [y];
    assert AllOfKind([x, y, z], HELM_VALUES) == [y, z];
  }

  /** A chart and two values artifacts ask for the second document merged under the first. */
  lemma ThreeAskForARelease(x: Artifact, y: Artifact, z: Artifact)
    requires x.kind == "HelmChart" && y.kind == "HelmValues" && z.kind == "HelmValues"
    ensures Target([x, y, z]) == Some(Release(x.version, Merge(Node(z.values), Node(y.values))))
  {
    TwoOfThree(x, y, z);
    assert |Documents(AllOfKind([x, y, z], HELM_VALUES))| == 2;
    TwoDocuments(Node(y.values), Node(z.values));
  }

  lemma TwoDocuments(first: Value, second: Value)
    requires first.Node?
    ensures MergedValues([first, second]) == Merge(second, first)
  {
    MergeIdentity(first);
    assert [first, second][1..] == [second] && [second][1..] == [];
    assert Fold(first, [second]) == Fold(Merge(second, first), []);
  }

  lemma Constraints()
    ensures Dependencies(STAGING.constraints) == [] && Canaries(STAGING.constraints) == []
    ensures Dependencies(PRODUCTION.constraints) == [PRODUCTION.constraints[0]]
    ensures Canaries(PRODUCTION.constraints) == [PRODUCTION.constraints[1]]
  {
    var d, h := PRODUCTION.constraints[0], PRODUCTION.constraints[1];
    assert PRODUCTION.constraints[1..] == [h] && [h][1..] == [];
    var none: seq<Constraint> := [];
    assert Dependencies(none) == [] && Canaries(none) == [];
    assert Dependencies([h]) == [];
    assert Canaries([h]) == [h] + Canaries(none);
  }

  lemma EnvironmentsAskForReleases()
    ensures Target(ArtifactsAt(SPEC, 0)).Some? && Target(ArtifactsAt(SPEC, 1)).Some?
  {
    Lookup();
    FilterThree("chart", "common", "valuesStaging");
    FilterThree("chart", "common", "valuesProd");
    ThreeAskForARelease(CHART, COMMON, STAGING_VALUES);
    ThreeAskForARelease(CHART, COMMON, PROD_VALUES);
  }

  lemma GateIsSatisfiable()
    ensures Satisfiable(SPEC, PRODUCTION.constraints[0])
  {
    Lookup();
    assert STAGING.requiredArtifacts[0] == "chart" && STAGING.requiredArtifacts[1] == "common";
    var d := PRODUCTION.constraints[0];
    assert SPEC.environments[0].name == d.environment;
    assert forall n | n in d.artifacts :: n in SPEC.environments[0].requiredArtifacts && n in ByName(SPEC.artifacts);
  }

  lemma PlacesAreApart(c: Setup)
    requires c.key.namespace != "nginx-staging"
    ensures Disjoint(c, SPEC)
  {
    DynamicCoordinatesAreLocal(c.key.namespace, PRODUCTION.placement, c.clusters);
    assert forall at | at in PlacesOf(c, SPEC, 0) :: at.namespace == "nginx-staging";
    assert forall at | at in PlacesOf(c, SPEC, 1) :: at.namespace == c.key.namespace;
  }

  lemma EverythingIsAskedFor()
    ensures Complete(SPEC)
  {
    Constraints();
    EnvironmentsAskForReleases();
    GateIsSatisfiable();
    assert SPEC.environments[0] == STAGING && SPEC.environments[1] == PRODUCTION;
  }

  lemma NginxIsWellFormed()
    ensures WellFormed(SPEC, {"staging"})
  {
    Constraints();
    assert "staging" != "production" by { assert |"staging"| != |"production"|; }
  }

  lemma NginxIsPlaced(c: Setup)
    ensures Placed(c, SPEC, {"staging"})
  {
    assert "staging" != "production" by { assert |"staging"| != |"production"|; }
    assert SPEC.environments == [STAGING, PRODUCTION];
  }

  lemma NginxIsCovered(namespace: string, clusters: seq<Cluster>)
    requires namespace != "nginx-staging"
    ensures var c := Setup(ObjectKey(namespace, "nginx"), clusters);
            WellFormed(SPEC, {"staging"}) && Placed(c, SPEC, {"staging"}) && Convergeable(c, SPEC)
  {
    NginxIsWellFormed();
    NginxIsPlaced(Setup(ObjectKey(namespace, "nginx"), clusters));
    assert "staging" != "production" by { assert |"staging"| != |"production"|; }
    EverythingIsAskedFor();
    PlacesAreApart(Setup(ObjectKey(namespace, "nginx"), clusters));
  }

  function Running(replicas: string): Value {
    Node(map["image.tag" := Leaf("1.22.1"), "replicaCount" := Leaf(replicas)])
  }

  lemma MergesTo(x: Artifact, replicas: string)
    requires x.values == map["replicaCount" := Leaf(replicas)]
    ensures Merge(Node(x.values), Node(COMMON.values)) == Running(replicas)
  {
    assert |"image.tag"| != |"replicaCount"|;
    assert Merge(Node(x.values), Node(COMMON.values)).fields == Running(replicas).fields;
  }

  /** What the example asks for: staging runs one replica and production four, of the same
      chart and image, and production's canary runs one. */
  lemma NginxReleases()
    ensures Target(ArtifactsAt(SPEC, 0)) == Some(Release("13.2.13", Running("1")))
    ensures Target(ArtifactsAt(SPEC, 1)) == Some(Release("13.2.13", Running("4")))
    ensures var canary := PRODUCTION.constraints[1].values;
            Target(CanaryArtifacts(canary, ArtifactsAt(SPEC, 1))) == Some(Release("13.2.13", Running("1")))
  {
    Lookup();
    FilterThree("chart", "common", "valuesStaging");
    FilterThree("chart", "common", "valuesProd");
    ThreeAskForARelease(CHART, COMMON, STAGING_VALUES);
    ThreeAskForARelease(CHART, COMMON, PROD_VALUES);
    MergesTo(STAGING_VALUES, "1");
    MergesTo(PROD_VALUES, "4");
    CanaryReplaces(ArtifactsAt(SPEC, 1));
  }

  lemma CanaryReplaces(artifacts: seq<Artifact>)
    requires artifacts == [CHART, COMMON, PROD_VALUES]
    ensures Target(CanaryArtifacts(PRODUCTION.constraints[1].values, artifacts)) ==
            Some(Release("13.2.13", Running("1")))
  {
    var values := PRODUCTION.constraints[1].values;
    var canary, common, prod := Node(values), Node(COMMON.values), Node(PROD_VALUES.values);
    CanaryDocuments(values, artifacts);
    TwoOfThree(CHART, COMMON, PROD_VALUES);
    assert |Documents(AllOfKind(CanaryArtifacts(values, artifacts), HELM_VALUES))| > 0;
    ThreeDocuments(canary, common, prod);
    assert [canary] + [common, prod] == [canary, common, prod];
    assert |"image.tag"| != |"replicaCount"|;
    assert Merge(common, canary).fields == Running("1").fields;
    assert Merge(prod, Running("1")).fields == Running("1").fields;
  }

  lemma ThreeDocuments(a: Value, b: Value, d: Value)
    requires a.Node?
    ensures MergedValues([a, b, d]) == Merge(d, Merge(b, a))
  {
    MergeIdentity(a);
    assert [a, b, d][1..] == [b, d] && [b, d][1..] == [d] && [d][1..] == [];
    assert Fold(a, [b, d]) == Fold(Merge(b, a), [d]);
    assert Fold(Merge(b, a), [d]) == Fold(Merge(d, Merge(b, a)), []);
  }
}
