/** Recording deployed versions and checking them: `UpdateDeployedVersions` and
    `DependsOnConstraint`. */
module Recording {
  import opened Api
  import opened Artifacts

  // ------------------------------------------------------------ specification

  /** Artifacts entered one by one under their names. */
  function Enter(entries: map<string, Artifact>, artifacts: seq<Artifact>): map<string, Artifact> {
    if artifacts == [] then entries
    else
      var last := |artifacts| - 1;
      Enter(entries, artifacts[..last])[artifacts[last].name := artifacts[last]]
  }

  function EntriesOf(deployed: Deployed, environment: string): map<string, Artifact> {
    if environment in deployed then deployed[environment] else map[]
  }

  /** The status after an environment records its artifacts. */
  function Record(deployed: Deployed, environment: string, artifacts: seq<Artifact>): Deployed {
    deployed[environment := Enter(EntriesOf(deployed, environment), artifacts)]
  }

  /** The environment has recorded every name at the version the spec now asks for. */
  predicate Promoted(app: Application, environment: string, names: seq<string>) {
    && environment in app.status.deployed
    && forall n | n in names ::
         && n in app.status.deployed[environment]
         && n in ByName(app.spec.artifacts)
         && app.status.deployed[environment][n].version == ByName(app.spec.artifacts)[n].version
  }

  lemma {:induction false} EnterLookup(entries: map<string, Artifact>, artifacts: seq<Artifact>)
    ensures forall a | a in artifacts :: a.name in Enter(entries, artifacts)
    ensures forall n | n in entries :: n in Enter(entries, artifacts)
    ensures forall n | n in Enter(entries, artifacts) ::
              var e := Enter(entries, artifacts)[n];
              || (e in artifacts && e.name == n)
              || (n in entries && e == entries[n] && forall a | a in artifacts :: a.name != n)
  {
    if artifacts != [] {
      var last := |artifacts| - 1;
      EnterLookup(entries, artifacts[..last]);
      assert artifacts == artifacts[..last] + [artifacts[last]];
    }
  }

  /** Among artifacts of one name the last one is entered. */
  lemma {:induction false} EnterLastWins(entries: map<string, Artifact>, artifacts: seq<Artifact>, i: nat)
    requires i < |artifacts| && forall j | i < j < |artifacts| :: artifacts[j].name != artifacts[i].name
    ensures artifacts[i].name in Enter(entries, artifacts)
    ensures Enter(entries, artifacts)[artifacts[i].name] == artifacts[i]
  {
    var last := |artifacts| - 1;
    if i < last { EnterLastWins(entries, artifacts[..last], i); }
  }

  /** Every entry is filed under its own name. */
  predicate FiledByName(deployed: Deployed) {
    forall e | e in deployed :: forall n | n in deployed[e] :: deployed[e][n].name == n
  }

  lemma RecordKeepsFiling(deployed: Deployed, environment: string, artifacts: seq<Artifact>)
    requires FiledByName(deployed)
    ensures FiledByName(Record(deployed, environment, artifacts))
  {
    EnterLookup(EntriesOf(deployed, environment), artifacts);
  }

  /** Recording never loses an entry and leaves other environments alone. */
  lemma RecordLosesNothing(deployed: Deployed, environment: string, artifacts: seq<Artifact>)
    ensures var after := Record(deployed, environment, artifacts);
            forall e | e in deployed ::
              && e in after
              && deployed[e].Keys <= after[e].Keys
              && (e != environment ==> after[e] == deployed[e])
  {
    EnterLookup(EntriesOf(deployed, environment), artifacts);
  }

  /** What an environment just recorded is found at the spec's version. */
  lemma RecordThenPromoted(app: Application, env: Environment, names: seq<string>)
    requires forall n | n in names :: n in env.requiredArtifacts && n in ByName(app.spec.artifacts)
    ensures var recorded := Record(app.status.deployed, env.name, TargetArtifacts(app.spec, env));
            Promoted(app.(status := app.status.(deployed := recorded)), env.name, names)
  {
    var byName := ByName(app.spec.artifacts);
    var targets := TargetArtifacts(app.spec, env);
    EnterLookup(EntriesOf(app.status.deployed, env.name), targets);
    FilterMembers(env.requiredArtifacts, byName);
    ByNameIsListed(app.spec.artifacts);
    forall n | n in names
      ensures var entries := Enter(EntriesOf(app.status.deployed, env.name), targets);
              n in entries && entries[n] == byName[n]
    {
      assert byName[n] in targets && byName[n].name == n;
    }
  }

  /** Recording the same artifacts again changes nothing. */
  lemma RecordTwice(deployed: Deployed, environment: string, artifacts: seq<Artifact>)
    requires environment in deployed
    requires forall a | a in artifacts :: a.name in deployed[environment] && deployed[environment][a.name] == a
    ensures Record(deployed, environment, artifacts) == deployed
  {
    EnterSame(deployed[environment], artifacts);
  }

  lemma {:induction false} EnterSame(entries: map<string, Artifact>, artifacts: seq<Artifact>)
    requires forall a | a in artifacts :: a.name in entries && entries[a.name] == a
    ensures Enter(entries, artifacts) == entries
  {
    if artifacts != [] { EnterSame(entries, artifacts[..|artifacts| - 1]); }
  }

  // --------------------------------------------------------------- API server

  /** The objects of the API server. Every write takes a new resource version. */
  class ApiServer {
    var apps: map<ObjectKey, Application>
    var clock: nat

    constructor ()
      ensures apps == map[] && clock == 0
    {
      apps, clock := map[], 0;
    }

    method Get(key: ObjectKey, fails: bool) returns (app: Option<Application>)
      ensures app == if fails || key !in apps then None else Some(apps[key])
    {
      app := if fails || key !in apps then None else Some(apps[key]);
    }

    /** A status update goes through only if the object has not been changed since
        `read`, and replaces only the status. An update that changes nothing succeeds
        and keeps the resource version. */
    method UpdateStatus(key: ObjectKey, read: Application, status: Status, fails: bool) returns (ok: bool)
      modifies this
      ensures ok == (!fails && key in old(apps) && old(apps)[key].meta.resourceVersion == read.meta.resourceVersion)
      ensures ok && status != old(apps)[key].status ==>
        && clock == old(clock) + 1
        && apps == old(apps)[key := old(apps)[key].(
             status := status, meta := old(apps)[key].meta.(resourceVersion := old(clock)))]
      ensures !ok || status == old(apps)[key].status ==> apps == old(apps) && clock == old(clock)
    {
      ok := !fails && key in apps && apps[key].meta.resourceVersion == read.meta.resourceVersion;
      if ok && status != apps[key].status {
        var current := apps[key];
        apps := apps[key := current.(status := status, meta := current.meta.(resourceVersion := clock))];
        clock := clock + 1;
      }
    }
  }

  /** The activity as one uninterrupted call; `Protocol` interleaves its two API
      calls with everything else. */
  method UpdateDeployedVersions(api: ApiServer, key: ObjectKey, environment: string, artifacts: seq<Artifact>,
                                getFails: bool, updateFails: bool)
    returns (ok: bool)
    modifies api
    ensures ok == (!getFails && !updateFails && key in old(api.apps))
    ensures ok ==> api.apps.Keys == old(api.apps).Keys
    ensures ok ==> forall k | k in api.apps && k != key :: api.apps[k] == old(api.apps)[k]
    ensures ok ==>
      var was, now := old(api.apps)[key], api.apps[key];
      && now.status == was.status.(deployed := Record(was.status.deployed, environment, artifacts))
      && now == was.(status := now.status, meta := now.meta)
      && now.meta ==
         (if now.status == was.status then was.meta else was.meta.(resourceVersion := old(api.clock)))
    ensures !ok ==> api.apps == old(api.apps)
  {
    var read := api.Get(key, getFails);
    if read.None? {
      return false;
    }
    var app := read.value;
    var deployed := app.status.deployed;
    if environment !in deployed {
      deployed := deployed[environment := map[]];
    }
    var i := 0;
    while i < |artifacts|
      invariant 0 <= i <= |artifacts|
      invariant environment in deployed
      invariant deployed == Record(app.status.deployed, environment, artifacts[..i])
    {
      assert artifacts[..i + 1][..i] == artifacts[..i];
      deployed := deployed[environment := deployed[environment][artifacts[i].name := artifacts[i]]];
      i := i + 1;
    }
    assert artifacts[..i] == artifacts;
    ok := api.UpdateStatus(key, app, app.status.(deployed := deployed), updateFails);
  }

  /** `None` is an error return. */
  method DependsOnConstraint(api: ApiServer, key: ObjectKey, environment: string, names: seq<string>, getFails: bool)
    returns (granted: Option<bool>)
    ensures granted.None? <==> getFails || key !in api.apps
    ensures granted.Some? ==> (granted.value <==> Promoted(api.apps[key], environment, names))
    ensures granted.Some? ==>
      var app, asked := api.apps[key], ByName(api.apps[key].spec.artifacts);
      granted.value <==>
        && environment in app.status.deployed
        && forall n | n in names ::
             && n in app.status.deployed[environment] && n in asked
             && app.status.deployed[environment][n].version == asked[n].version
  {
    var read := api.Get(key, getFails);
    if read.None? {
      return None;
    }
    var app := read.value;
    if environment !in app.status.deployed {
      return Some(false);
    }
    var envArtifacts := app.status.deployed[environment];
    var artifactsByName := IndexByName(app.spec.artifacts);
    var i := 0;
    while i < |names|
      invariant 0 <= i <= |names|
      invariant forall j | 0 <= j < i ::
        && names[j] in envArtifacts && names[j] in artifactsByName
        && envArtifacts[names[j]].version == artifactsByName[names[j]].version
    {
      var a := names[i];
      if a !in envArtifacts {
        return Some(false);
      }
      if a !in artifactsByName {
        return Some(false);
      }
      if envArtifacts[a].version != artifactsByName[a].version {
        return Some(false);
      }
      i := i + 1;
    }
    return Some(true);
  }
}
