/** The Application resource (api/v1alpha1/application_types.go) and its keys. */
module Api {
  import opened Values

  datatype Option<+T> = None | Some(value: T)

  const HELM_CHART := "HelmChart"
  const HELM_VALUES := "HelmValues"

  /** `values` is the decoded document; an absent or null document is empty. */
  datatype Artifact = Artifact(name: string, kind: string, repository: string, version: string, values: Fields)

  /** A constraint with the body its kind calls for. The switch in `DoCheck`
      ignores any other kind. `ttl` is the parsed duration, `None` if malformed. */
  datatype Constraint =
    | DependsOn(environment: string, artifacts: seq<string>)
    | HelmCanary(ttl: Option<nat>, values: Fields)
    | OtherKind(kind: string)

  datatype Placement =
    | StaticPlacement(cluster: string, namespace: string)
    | DynamicPlacement(selector: map<string, string>)

  datatype Environment = Environment(
    name: string,
    requiredArtifacts: seq<string>,
    constraints: seq<Constraint>,
    placement: Placement)

  datatype Spec = Spec(artifacts: seq<Artifact>, environments: seq<Environment>)

  /** Environment name to artifact name to the artifact recorded for it. A nil
      map and an empty one are the same to every reader. */
  type Deployed = map<string, map<string, Artifact>>

  datatype Status = Status(workflowId: string, runId: string, deployed: Deployed)

  datatype Metadata = Metadata(uid: nat, resourceVersion: nat, finalizers: set<string>, deleting: bool)

  datatype Application = Application(meta: Metadata, spec: Spec, status: Status)

  datatype ObjectKey = ObjectKey(namespace: string, name: string)

  /** `types.NamespacedName.String`. */
  function KeyString(key: ObjectKey): string {
    key.namespace + "/" + key.name
  }

  /** `strings.Split(s, "/")`. */
  function Split(s: string): (parts: seq<string>)
    ensures parts != []
  {
    if s == "" then [""]
    else
      var rest := Split(s[1..]);
      if s[0] == '/' then [""] + rest else [[s[0]] + rest[0]] + rest[1..]
  }

  lemma {:induction false} SplitAtSlash(prefix: string, rest: string)
    requires '/' !in prefix
    ensures Split(prefix + "/" + rest) == [prefix] + Split(rest)
  {
    if prefix == "" {
      assert prefix + "/" + rest == "/" + rest;
      assert ("/" + rest)[1..] == rest;
    } else {
      var s := prefix + "/" + rest;
      assert s[1..] == prefix[1..] + "/" + rest;
      SplitAtSlash(prefix[1..], rest);
      assert [prefix[0]] + prefix[1..] == prefix;
    }
  }

  lemma {:induction false} SplitWithoutSlash(s: string)
    ensures '/' !in s ==> Split(s) == [s]
    ensures '/' !in Split(s)[0]
    ensures Split(s)[0] == s ==> '/' !in s
  {
    if s != "" {
      SplitWithoutSlash(s[1..]);
      assert s == [s[0]] + s[1..];
    }
  }

  /** `GetApplicationConfig` recovers the key it was given exactly when neither
      part contains a slash. */
  lemma KeyRoundTripIff(key: ObjectKey)
    ensures var parts := Split(KeyString(key));
            |parts| >= 2 && (ObjectKey(parts[0], parts[1]) == key <==> '/' !in key.namespace && '/' !in key.name)
  {
    var s := KeyString(key);
    if '/' !in key.namespace {
      SplitAtSlash(key.namespace, key.name);
      SplitWithoutSlash(key.name);
    } else {
      SplitWithoutSlash(s);
      SplitHasTwoParts(s);
      assert '/' !in Split(s)[0];
    }
  }

  lemma {:induction false} SplitHasTwoParts(s: string)
    requires '/' in s
    ensures |Split(s)| >= 2
  {
    if s[0] != '/' { SplitHasTwoParts(s[1..]); }
  }
}
