/** Diff and Push of pkg/worker/helm.go over an abstract release store. */
module Helm {
  import opened Values
  import opened Api
  import opened Artifacts
  import opened Placements

  datatype ReleaseKey = ReleaseKey(cluster: string, namespace: string, name: string)

  /** The deployed revision of a release: chart version and user values. */
  datatype Release = Release(version: string, values: Value)

  type Releases = map<ReleaseKey, Release>

  function KeyAt(at: Coordinates, name: string): ReleaseKey {
    ReleaseKey(at.cluster, at.namespace, name)
  }

  function CanaryName(name: string): string {
    name + "-canary"
  }

  /** What a list of artifacts asks for; `None` when it lacks a chart or values. */
  function Target(artifacts: seq<Artifact>): Option<Release> {
    var chart := FirstOfKind(artifacts, HELM_CHART);
    if chart.None? || AllOfKind(artifacts, HELM_VALUES) == [] then None
    else Some(Release(chart.value.version, EffectiveValues(artifacts)))
  }

  datatype DiffResult = Same | Differs | DiffError

  function DiffOf(releases: Releases, key: ReleaseKey, artifacts: seq<Artifact>): DiffResult {
    var chart := FirstOfKind(artifacts, HELM_CHART);
    if key !in releases then Differs
    else if chart.None? then DiffError
    else if releases[key].version != chart.value.version then Differs
    else if AllOfKind(artifacts, HELM_VALUES) == [] then DiffError
    else if releases[key].values != EffectiveValues(artifacts) then Differs
    else Same
  }

  /** The stored release is exactly what the artifacts ask for. */
  predicate Holds(releases: Releases, key: ReleaseKey, artifacts: seq<Artifact>) {
    key in releases && Target(artifacts) == Some(releases[key])
  }

  /** Every answer, in the order of the code: no release is a difference whatever the
      artifacts lack; then a missing chart is an error, another version a difference, and
      only then missing values are an error. */
  lemma DiffCases(releases: Releases, key: ReleaseKey, artifacts: seq<Artifact>)
    ensures var chart := FirstOfKind(artifacts, "HelmChart");
            DiffOf(releases, key, artifacts) == DiffError <==>
            && key in releases
            && (chart.None? || (&& releases[key].version == chart.value.version
                                && forall a | a in artifacts :: a.kind != "HelmValues"))
    ensures key !in releases ==> DiffOf(releases, key, artifacts) == Differs
    ensures DiffOf(releases, key, artifacts) == Same <==>
            && key in releases
            && FirstOfKind(artifacts, "HelmChart").Some?
            && releases[key].version == FirstOfKind(artifacts, "HelmChart").value.version
            && (exists a | a in artifacts :: a.kind == "HelmValues")
            && releases[key].values == EffectiveValues(artifacts)
  {
    FirstOfKindIsListed(artifacts, HELM_CHART);
    AllOfKindMembers(artifacts, HELM_VALUES);
    if a :| a in artifacts && a.kind == HELM_VALUES { assert a in AllOfKind(artifacts, HELM_VALUES); }
    if AllOfKind(artifacts, HELM_VALUES) != [] {
      assert AllOfKind(artifacts, HELM_VALUES)[0] in AllOfKind(artifacts, HELM_VALUES);
    }
  }

  lemma DiffSameIff(releases: Releases, key: ReleaseKey, artifacts: seq<Artifact>)
    ensures DiffOf(releases, key, artifacts) == Same <==> Holds(releases, key, artifacts)
  {
  }

  /** The store after a push that reached it; `cleaned` says whether the canary
      release of `name` was deleted as well. */
  function AfterPush(releases: Releases, at: Coordinates, name: string, artifacts: seq<Artifact>, cleaned: bool)
    : Releases
    requires Target(artifacts).Some?
  {
    var pushed := releases[KeyAt(at, name) := Target(artifacts).value];
    if cleaned then pushed - {KeyAt(at, CanaryName(name))} else pushed
  }

  /** After a push the same artifacts show no difference. */
  lemma PushThenDiff(releases: Releases, at: Coordinates, name: string, artifacts: seq<Artifact>, cleaned: bool)
    requires Target(artifacts).Some?
    ensures DiffOf(AfterPush(releases, at, name, artifacts, cleaned), KeyAt(at, name), artifacts) == Same
  {
    assert |CanaryName(name)| > |name|;
  }

  predicate SameAt(before: Releases, after: Releases, key: ReleaseKey) {
    && (key in after <==> key in before)
    && (key in before ==> after[key] == before[key])
  }

  /** The canary of a release is gone after a push that cleaned up, and untouched by one
      that did not. */
  lemma CanaryAfterPush(releases: Releases, at: Coordinates, name: string, artifacts: seq<Artifact>, cleaned: bool)
    requires Target(artifacts).Some?
    ensures var after := AfterPush(releases, at, name, artifacts, cleaned);
            var canary := ReleaseKey(at.cluster, at.namespace, name + "-canary");
            if cleaned then canary !in after else SameAt(releases, after, canary)
  {
    assert |name + "-canary"| > |name|;
  }

  /** All releases but these two are as before. */
  ghost predicate OthersStand(before: Releases, after: Releases, one: ReleaseKey, two: ReleaseKey) {
    forall key | key != one && key != two :: SameAt(before, after, key)
  }

  /** Artifacts ask for a release exactly when a chart and values are among them. */
  lemma TargetIff(artifacts: seq<Artifact>)
    ensures var chart := FirstOfKind(artifacts, "HelmChart");
            Target(artifacts).Some? <==> chart.Some? && exists a | a in artifacts :: a.kind == "HelmValues"
  {
    AllOfKindMembers(artifacts, HELM_VALUES);
    if AllOfKind(artifacts, HELM_VALUES) != [] {
      assert AllOfKind(artifacts, HELM_VALUES)[0] in AllOfKind(artifacts, HELM_VALUES);
    }
  }

  /** The whole store after a push that landed. */
  lemma PushEffect(releases: Releases, at: Coordinates, name: string, artifacts: seq<Artifact>, cleaned: bool)
    requires Target(artifacts).Some?
    ensures FirstOfKind(artifacts, "HelmChart").Some?
    ensures var after := AfterPush(releases, at, name, artifacts, cleaned);
            var chart := FirstOfKind(artifacts, "HelmChart").value;
            var main := ReleaseKey(at.cluster, at.namespace, name);
            var canary := ReleaseKey(at.cluster, at.namespace, name + "-canary");
            && main in after && after[main] == Release(chart.version, EffectiveValues(artifacts))
            && (if cleaned then canary !in after else SameAt(releases, after, canary))
            && OthersStand(releases, after, main, canary)
  {
    CanaryAfterPush(releases, at, name, artifacts, cleaned);
    assert |name + "-canary"| > |name|;
  }

  /** A push touches its own release and that release's canary, nothing else. */
  lemma PushFrame(releases: Releases, at: Coordinates, name: string, artifacts: seq<Artifact>, cleaned: bool,
                  other: ReleaseKey)
    requires Target(artifacts).Some?
    requires other != KeyAt(at, name) && other != KeyAt(at, CanaryName(name))
    ensures var after := AfterPush(releases, at, name, artifacts, cleaned);
            (other in after <==> other in releases) && (other in releases ==> after[other] == releases[other])
  {
  }

  /** Pushing the canary of `name` can neither create nor remove a difference for
      `name`, at any place. */
  lemma CanaryPushKeepsDiff(releases: Releases, at: Coordinates, name: string, canary: seq<Artifact>, cleaned: bool,
                            where: Coordinates, artifacts: seq<Artifact>)
    requires Target(canary).Some?
    ensures DiffOf(AfterPush(releases, at, CanaryName(name), canary, cleaned), KeyAt(where, name), artifacts) ==
            DiffOf(releases, KeyAt(where, name), artifacts)
  {
    assert |CanaryName(name)| > |name| && |CanaryName(CanaryName(name))| > |name|;
    PushFrame(releases, at, CanaryName(name), canary, cleaned, KeyAt(where, name));
  }

  // -------------------------------------------------------------- canary

  /** The artifact list of a canary: its values in front of the target's. */
  function CanaryArtifacts(values: Fields, artifacts: seq<Artifact>): seq<Artifact> {
    [Artifact("", HELM_VALUES, "", "", values)] + artifacts
  }

  lemma CanaryDocuments(values: Fields, artifacts: seq<Artifact>)
    ensures FirstOfKind(CanaryArtifacts(values, artifacts), HELM_CHART) == FirstOfKind(artifacts, HELM_CHART)
    ensures Documents(AllOfKind(CanaryArtifacts(values, artifacts), HELM_VALUES)) ==
            [Node(values)] + Documents(AllOfKind(artifacts, HELM_VALUES))
  {
    var canary := Artifact("", HELM_VALUES, "", "", values);
    assert AllOfKind([canary], HELM_VALUES) == [canary];
    AllOfKindConcat([canary], artifacts, HELM_VALUES);
    FirstOfKindConcat([canary], artifacts, HELM_CHART);
  }

  /** A canary can be pushed whenever its target can. */
  lemma CanaryAsksForSomething(values: Fields, artifacts: seq<Artifact>)
    requires Target(artifacts).Some?
    ensures Target(CanaryArtifacts(values, artifacts)).Some?
  {
    CanaryDocuments(values, artifacts);
    assert |Documents(AllOfKind(CanaryArtifacts(values, artifacts), HELM_VALUES))| > 0;
  }

  /** Every leaf of the canary values is what the canary release runs, and the
      chart is the target's. */
  lemma CanaryOverrides(values: Fields, artifacts: seq<Artifact>, path: seq<string>, payload: string)
    ensures FirstOfKind(CanaryArtifacts(values, artifacts), HELM_CHART) == FirstOfKind(artifacts, HELM_CHART)
    ensures HasLeaf(Node(values), path, payload) ==>
            HasLeaf(EffectiveValues(CanaryArtifacts(values, artifacts)), path, payload)
  {
    CanaryDocuments(values, artifacts);
    var docs := Documents(AllOfKind(artifacts, HELM_VALUES));
    MergeIdentity(Node(values));
    assert ([Node(values)] + docs)[1..] == docs;
    if HasLeaf(Node(values), path, payload) {
      FoldKeepsLeafOfBase(Node(values), docs, path, payload);
    }
  }

  /** The canary runs the target's values with the canary values merged on top,
      exactly when the target has no values or the canary document fits them. */
  lemma {:induction false} CanaryIsOverlayIff(values: Fields, artifacts: seq<Artifact>)
    ensures var docs := Documents(AllOfKind(artifacts, HELM_VALUES));
            EffectiveValues(CanaryArtifacts(values, artifacts)) == Merge(EffectiveValues(artifacts), Node(values))
            <==> docs == [] || Fits(Node(values), docs)
  {
    CanaryDocuments(values, artifacts);
    var docs := Documents(AllOfKind(artifacts, HELM_VALUES));
    if docs == [] {
      MergeIdentity(Node(values));
      assert [Node(values)][1..] == [];
      assert Fold(EMPTY, [Node(values)]) == Fold(Node(values), []);
      return;
    }
    MergedValuesIsLayer([Node(values)] + docs);
    MergedValuesIsLayer(docs);
    PrependIsMergeIff(Node(values), docs);
  }

  /** The canary release of `name` at `at` has the target's chart version and every leaf of
      the canary values; its values are the target's with the canary's merged on top,
      exactly when the target has none or they fit. */
  ghost predicate RunsCanary(releases: Releases, at: Coordinates, name: string, values: Fields,
                             artifacts: seq<Artifact>)
  {
    var canary := ReleaseKey(at.cluster, at.namespace, name + "-canary");
    var chart, docs := FirstOfKind(artifacts, "HelmChart"), Documents(AllOfKind(artifacts, "HelmValues"));
    && canary in releases
    && chart.Some? && releases[canary].version == chart.value.version
    && (forall path, payload | HasLeaf(Node(values), path, payload) :: HasLeaf(releases[canary].values, path, payload))
    && (releases[canary].values == Merge(EffectiveValues(artifacts), Node(values)) <==>
        docs == [] || Fits(Node(values), docs))
  }

  /** A canary is pushed if and only if there is a chart, and it runs its own values. */
  lemma CanaryPushRuns(releases: Releases, at: Coordinates, name: string, values: Fields, artifacts: seq<Artifact>,
                       cleaned: bool)
    ensures Target(CanaryArtifacts(values, artifacts)).Some? <==> FirstOfKind(artifacts, "HelmChart").Some?
    ensures FirstOfKind(artifacts, "HelmChart").Some? ==>
              RunsCanary(AfterPush(releases, at, CanaryName(name), CanaryArtifacts(values, artifacts), cleaned),
                         at, name, values, artifacts)
  {
    CanaryDocuments(values, artifacts);
    assert |Documents(AllOfKind(CanaryArtifacts(values, artifacts), HELM_VALUES))| > 0;
    assert |CanaryName(CanaryName(name))| > |CanaryName(name)|;
    CanaryIsOverlayIff(values, artifacts);
    forall path, payload | HasLeaf(Node(values), path, payload)
      ensures HasLeaf(EffectiveValues(CanaryArtifacts(values, artifacts)), path, payload)
    {
      CanaryOverrides(values, artifacts, path, payload);
    }
  }

  // ------------------------------------------------------- the reconciler

  class Store {
    var releases: Releases

    constructor (releases: Releases)
      ensures this.releases == releases
    {
      this.releases := releases;
    }
  }

  /** Which calls of one push fail. A rollout may report an error although it
      reached the store (`landed`), as a timed-out activity does. */
  datatype Faults = Faults(lookup: bool, download: bool, rollout: bool, landed: bool, history: bool, uninstall: bool)

  datatype PushError = NoChart | NoValues | DownloadFailed | RolloutFailed

  class HelmReconciler {
    const releaseName: string
    const at: Coordinates
    const targetArtifacts: seq<Artifact>
    const store: Store

    constructor (store: Store, name: string, at: Coordinates, targetArtifacts: seq<Artifact>)
      ensures this.store == store && releaseName == name && this.at == at && this.targetArtifacts == targetArtifacts
    {
      this.store := store;
      this.releaseName := name;
      this.at := at;
      this.targetArtifacts := targetArtifacts;
    }

    /** `None` is an error return. */
    method Diff(lookupFails: bool) returns (differs: Option<bool>)
      ensures lookupFails ==> differs.None?
      ensures !lookupFails ==>
        match DiffOf(store.releases, KeyAt(at, releaseName), targetArtifacts)
        case Same => differs == Some(false)
        case Differs => differs == Some(true)
        case DiffError => differs.None?
    {
      if lookupFails {
        return None;
      }
      if KeyAt(at, releaseName) !in store.releases {
        return Some(true);
      }
      var lastDeployed := store.releases[KeyAt(at, releaseName)];
      var chart := FindFirstArtifact(targetArtifacts, HELM_CHART);
      if chart.None? {
        return None;
      }
      if lastDeployed.version != chart.value.version {
        return Some(true);
      }
      var valuesArtifacts := FindAllArtifacts(targetArtifacts, HELM_VALUES);
      if valuesArtifacts.None? {
        return None;
      }
      var mergedValues := MergedValues(Documents(valuesArtifacts.value));
      return Some(mergedValues != lastDeployed.values);
    }

    /** The store ends as the pushed store or untouched, and an error is reported
        exactly when the artifacts are incomplete or a call before cleanup fails. */
    method Push(faults: Faults) returns (error: Option<PushError>)
      modifies store
      ensures error == Some(NoChart) <==> forall a | a in targetArtifacts :: a.kind != "HelmChart"
      ensures error == Some(DownloadFailed) <==> error != Some(NoChart) && faults.download
      ensures error == Some(NoValues) <==>
        && error != Some(NoChart) && !faults.download
        && forall a | a in targetArtifacts :: a.kind != "HelmValues"
      ensures Target(targetArtifacts).None? ==> error.Some? && store.releases == old(store.releases)
      ensures Target(targetArtifacts).Some? ==>
        var wrong := faults.lookup && KeyAt(at, releaseName) !in old(store.releases);
        && (error.None? <==> !faults.download && !faults.rollout && !wrong)
        && (faults.download || wrong || (faults.rollout && !faults.landed) ==> store.releases == old(store.releases))
        && (!faults.download && !wrong && faults.rollout && faults.landed ==>
              store.releases == AfterPush(old(store.releases), at, releaseName, targetArtifacts, false))
        && (error.None? ==>
              var cleaned := !faults.history && !faults.uninstall;
              store.releases == AfterPush(old(store.releases), at, releaseName, targetArtifacts, cleaned))
      ensures var canary := ReleaseKey(at.cluster, at.namespace, releaseName + "-canary");
              if error.None? && !faults.history && !faults.uninstall then canary !in store.releases
              else SameAt(old(store.releases), store.releases, canary)
    {
      var isUpgrade := true;
      if !faults.lookup && KeyAt(at, releaseName) !in store.releases {
        isUpgrade := false;
      }
      var chart := FindFirstArtifact(targetArtifacts, HELM_CHART);
      if chart.None? {
        return Some(NoChart);
      }
      if faults.download {
        return Some(DownloadFailed);
      }
      var valuesArtifacts := FindAllArtifacts(targetArtifacts, HELM_VALUES);
      if valuesArtifacts.None? {
        return Some(NoValues);
      }
      var mergedValues := MergedValues(Documents(valuesArtifacts.value));
      var release := Release(chart.value.version, mergedValues);
      var ok;
      if isUpgrade {
        ok := DoUpgrade(release, faults.rollout, faults.landed);
      } else {
        ok := DoInstall(release, faults.rollout, faults.landed);
      }
      if !ok {
        return Some(RolloutFailed);
      }
      assert |releaseName + "-canary"| > |releaseName|;
      CleanupCanaries(faults.history, faults.uninstall);
      return None;
    }

    /** An install needs a name that is not in use. */
    method DoInstall(release: Release, fails: bool, landed: bool) returns (ok: bool)
      modifies store
      ensures ok == (!fails && KeyAt(at, releaseName) !in old(store.releases))
      ensures store.releases ==
        if KeyAt(at, releaseName) !in old(store.releases) && (ok || landed)
        then old(store.releases)[KeyAt(at, releaseName) := release]
        else old(store.releases)
    {
      ok := false;
      if KeyAt(at, releaseName) !in store.releases {
        if !fails || landed {
          store.releases := store.releases[KeyAt(at, releaseName) := release];
        }
        ok := !fails;
      }
    }

    /** An upgrade needs a deployed release. */
    method DoUpgrade(release: Release, fails: bool, landed: bool) returns (ok: bool)
      modifies store
      ensures ok == (!fails && KeyAt(at, releaseName) in old(store.releases))
      ensures store.releases ==
        if KeyAt(at, releaseName) in old(store.releases) && (ok || landed)
        then old(store.releases)[KeyAt(at, releaseName) := release]
        else old(store.releases)
    {
      ok := false;
      if KeyAt(at, releaseName) in store.releases {
        if !fails || landed {
          store.releases := store.releases[KeyAt(at, releaseName) := release];
        }
        ok := !fails;
      }
    }

    /** A failed cleanup is only logged. */
    method CleanupCanaries(historyFails: bool, uninstallFails: bool)
      modifies store
      ensures store.releases ==
        if historyFails || uninstallFails then old(store.releases)
        else old(store.releases) - {KeyAt(at, CanaryName(releaseName))}
    {
      var canary := KeyAt(at, CanaryName(releaseName));
      if historyFails || canary !in store.releases {
        return;
      }
      if !uninstallFails {
        store.releases := store.releases - {canary};
      }
    }
  }
}
