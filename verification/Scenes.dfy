/** Two environments, a chart and a values artifact: the setting of the concrete runs in
    `Witness`, `SameVersion` and `Stall`, and how such runs are built step by step. */
module Scenes {
  import opened Values
  import opened Api
  import opened Artifacts
  import opened Placements
  import opened Helm
  import opened Recording
  import opened Protocol
  import opened Invariants

  const CHART := Artifact("chart", HELM_CHART, "", "2", map[])
  const BOTH := ["chart", "values"]

  const ON_STAGING := DynamicPlacement(map["env" := "staging"])
  const ON_PRODUCTION := DynamicPlacement(map["env" := "prod"])
  const NOWHERE := DynamicPlacement(map["env" := "qa"])
  const CLUSTERS := [Cluster("s1", map["env" := "staging"]), Cluster("p1", map["env" := "prod"])]

  const SETUP := Setup(ObjectKey("nginx", "nginx"), CLUSTERS)
  const AT_STAGING := Coordinates("s1", "nginx")
  const AT_PRODUCTION := Coordinates("p1", "nginx")

  const GATE := DependsOn("staging", BOTH)
  const PRODUCTION := Environment("production", BOTH, [GATE], ON_PRODUCTION)

  function ValuesArtifact(fields: Fields): Artifact {
    Artifact("values", HELM_VALUES, "", "", fields)
  }

  function Wants(fields: Fields): seq<Artifact> {
    [CHART, ValuesArtifact(fields)]
  }

  function TwoEnvironments(fields: Fields, staging: Environment): Spec {
    Spec(Wants(fields), [staging, PRODUCTION])
  }

  function Job1(fields: Fields): Job {
    Job(PRODUCTION, Wants(fields), [AT_PRODUCTION])
  }

  function Entries(fields: Fields): map<string, Artifact> {
    map["chart" := CHART, "values" := ValuesArtifact(fields)]
  }

  function App(spec: Spec, version: nat, deployed: Deployed): Application {
    Application(Metadata(0, version, {}, false), spec, Status("wf", "run", deployed))
  }

  // --------------------------------------------------------------- facts

  lemma SpecLooksUp(fields: Fields)
    ensures ByName(Wants(fields)) == map["chart" := CHART, "values" := ValuesArtifact(fields)]
  {
    assert Wants(fields)[..1] == [CHART] && [CHART][..0] == [];
    assert ByName([CHART]) == map["chart" := CHART];
  }

  lemma SelectedArtifacts(fields: Fields, staging: Environment, env: Environment)
    requires env.requiredArtifacts == BOTH
    ensures TargetArtifacts(TwoEnvironments(fields, staging), env) == Wants(fields)
  {
    SpecLooksUp(fields);
    assert BOTH[..1] == ["chart"] && ["chart"][..0] == [];
    assert Filter(["chart"], ByName(Wants(fields))) == [CHART];
  }

  lemma LabelsDiffer()
    ensures "staging" != "prod" && "staging" != "qa" && "prod" != "qa" && "staging" != "production"
    ensures AT_STAGING != AT_PRODUCTION
  {
    assert |"staging"| != |"prod"| && |"staging"| != |"qa"| && |"prod"| != |"qa"| && |"staging"| != |"production"|;
    assert "s1"[0] != "p1"[0];
  }

  lemma SelectsOne(placement: Placement, value: string)
    requires placement == DynamicPlacement(map["env" := value])
    ensures CoordinatesOf("nginx", placement, CLUSTERS) ==
            (if value == "staging" then [AT_STAGING] else []) + (if value == "prod" then [AT_PRODUCTION] else [])
  {
    LabelsDiffer();
    var selector := placement.selector;
    assert CLUSTERS[..1] == [CLUSTERS[0]] && CLUSTERS[..1][..0] == [];
    assert "env" in selector && selector["env"] == value;
    assert CLUSTERS[0].labels["env"] == "staging" && CLUSTERS[1].labels["env"] == "prod";
    assert Matches(selector, CLUSTERS[0].labels) <==> value == "staging";
    assert Matches(selector, CLUSTERS[1].labels) <==> value == "prod";
    assert Selected(CLUSTERS[..1], selector, "nginx") == if value == "staging" then [AT_STAGING] else [];
  }

  lemma SelectedPlaces()
    ensures CoordinatesOf("nginx", ON_STAGING, CLUSTERS) == [AT_STAGING]
    ensures CoordinatesOf("nginx", ON_PRODUCTION, CLUSTERS) == [AT_PRODUCTION]
    ensures CoordinatesOf("nginx", NOWHERE, CLUSTERS) == []
  {
    LabelsDiffer();
    SelectsOne(ON_STAGING, "staging");
    SelectsOne(ON_PRODUCTION, "prod");
    SelectsOne(NOWHERE, "qa");
  }

  lemma BothAskForARelease(fields: Fields)
    ensures Target(Wants(fields)) == Some(Release("2", Node(fields)))
  {
    var values := ValuesArtifact(fields);
    assert Wants(fields)[..1] == [CHART] && [CHART][..0] == [];
    assert AllOfKind([CHART], HELM_VALUES) == [];
    assert AllOfKind(Wants(fields), HELM_VALUES) == [values];
    assert Documents([values]) == [Node(fields)];
    MergeIdentity(Node(fields));
    assert [Node(fields)][1..] == [];
    assert MergedValues([Node(fields)]) == Node(fields) by {
      assert Fold(EMPTY, [Node(fields)]) == Fold(Node(fields), []);
    }
    assert FirstOfKind(Wants(fields), HELM_CHART) == Some(CHART);
  }

  lemma OneDependency(d: Constraint)
    requires d.DependsOn?
    ensures Dependencies([d]) == [d] && Canaries([d]) == []
  {
    assert [d][1..] == [];
    var none: seq<Constraint> := [];
    assert Dependencies(none) == [] && Canaries(none) == [];
  }

  lemma Names(fields: Fields, staging: Environment)
    requires staging.name == "staging"
    ensures var spec := TwoEnvironments(fields, staging);
            && FindEnvironment(spec.environments, "staging") == Some(staging)
            && FindEnvironment(spec.environments, "production") == Some(PRODUCTION)
            && FreshEnvs(spec) == [Fetching, Fetching]
  {
    LabelsDiffer();
    assert [staging, PRODUCTION][1..] == [PRODUCTION];
  }

  lemma RecordsWants(deployed: Deployed, name: string, fields: Fields)
    requires name !in deployed || deployed[name] == Entries(fields)
    ensures Record(deployed, name, Wants(fields)) == deployed[name := Entries(fields)]
  {
    assert Wants(fields)[..1] == [CHART] && [CHART][..0] == [];
    assert Enter(EntriesOf(deployed, name), [CHART]) == EntriesOf(deployed, name)["chart" := CHART];
    assert Enter(EntriesOf(deployed, name), Wants(fields)) == Entries(fields);
  }

  /** The gate compares versions only. */
  lemma StagingIsPromoted(fields: Fields, recorded: Fields, spec: Spec, version: nat)
    requires spec.artifacts == Wants(fields)
    ensures Promoted(App(spec, version, map["staging" := Entries(recorded)]), "staging", BOTH)
  {
    SpecLooksUp(fields);
  }

  // ------------------------------------------------------- building a run

  function In(spec: Spec, releases: Releases, app: Application, clock: nat, x: EnvRun, y: EnvRun): State {
    State(map[SETUP.key := app], clock, releases, Round(spec, [x, y]))
  }

  function Between(releases: Releases, app: Application, clock: nat): State {
    State(map[SETUP.key := app], clock, releases, Sleeping)
  }

  ghost predicate Throughout(r: Run, p: State -> bool, q: Action -> bool) {
    && (forall i | 0 <= i < |r.states| :: p(r.states[i]))
    && (forall i | 0 <= i < |r.actions| :: q(r.actions[i]))
  }

  /** A run that is now in `s`, with `p` true of all its states and `q` of all actions. */
  ghost predicate Reaches(r: Run, p: State -> bool, q: Action -> bool, s: State) {
    IsRun(SETUP, r) && Throughout(r, p, q) && r.states[|r.actions|] == s
  }

  lemma Append(r: Run, a: Action, s': State) returns (longer: Run)
    requires IsRun(SETUP, r)
    requires Enabled(SETUP, r.states[|r.actions|], a) && Step(SETUP, r.states[|r.actions|], a) == s'
    ensures IsRun(SETUP, longer) && longer == Run(r.states + [s'], r.actions + [a])
  {
    longer := Run(r.states + [s'], r.actions + [a]);
  }

  lemma Grow(r: Run, p: State -> bool, q: Action -> bool, s: State, a: Action, s': State) returns (longer: Run)
    requires Reaches(r, p, q, s)
    requires Enabled(SETUP, s, a) && Step(SETUP, s, a) == s' && p(s') && q(a)
    ensures Reaches(longer, p, q, s')
    ensures longer == Run(r.states + [s'], r.actions + [a])
  {
    longer := Append(r, a, s');
  }

  /** A step of one environment that writes neither the API server nor the releases. */
  lemma Moves(spec: Spec, releases: Releases, app: Application, clock: nat, x: EnvRun, y: EnvRun, k: nat,
              act: EnvAction)
    requires |spec.environments| == 2 && k < 2
    requires var run := if k == 0 then x else y;
             EnvEnabled(run, act) && !Commits(SETUP, In(spec, releases, app, clock, x, y), run, act)
    requires act.Child? ==> act.act.Diff? || act.act.Gate?
    ensures var s := In(spec, releases, app, clock, x, y);
            && Enabled(SETUP, s, Env(k, act))
            && var next := EnvNext(SETUP, s, spec.environments[k].name, if k == 0 then x else y, act);
               Step(SETUP, s, Env(k, act)) ==
               if k == 0 then In(spec, releases, app, clock + 1, next, y)
               else In(spec, releases, app, clock + 1, x, next)
  {
    var s := In(spec, releases, app, clock, x, y);
    var next := EnvNext(SETUP, s, spec.environments[k].name, [x, y][k], act);
    assert [x, y][k := next] == if k == 0 then [next, y] else [x, next];
  }

  /** The first environment moves. */
  lemma Move0(r: Run, p: State -> bool, q: Action -> bool, spec: Spec, releases: Releases, app: Application,
              clock: nat, x: EnvRun, y: EnvRun, act: EnvAction, next: EnvRun)
    returns (longer: Run)
    requires Reaches(r, p, q, In(spec, releases, app, clock, x, y)) && |spec.environments| == 2
    requires EnvEnabled(x, act) && !Commits(SETUP, In(spec, releases, app, clock, x, y), x, act)
    requires act.Child? ==> act.act.Diff? || act.act.Gate?
    requires EnvNext(SETUP, In(spec, releases, app, clock, x, y), spec.environments[0].name, x, act) == next
    requires p(In(spec, releases, app, clock + 1, next, y)) && q(Env(0, act))
    ensures Reaches(longer, p, q, In(spec, releases, app, clock + 1, next, y))
    ensures longer.actions == r.actions + [Env(0, act)]
  {
    Moves(spec, releases, app, clock, x, y, 0, act);
    longer := Grow(r, p, q, In(spec, releases, app, clock, x, y), Env(0, act),
                   In(spec, releases, app, clock + 1, next, y));
  }

  /** The second environment moves. */
  lemma Move1(r: Run, p: State -> bool, q: Action -> bool, spec: Spec, releases: Releases, app: Application,
              clock: nat, x: EnvRun, y: EnvRun, act: EnvAction, next: EnvRun)
    returns (longer: Run)
    requires Reaches(r, p, q, In(spec, releases, app, clock, x, y)) && |spec.environments| == 2
    requires EnvEnabled(y, act) && !Commits(SETUP, In(spec, releases, app, clock, x, y), y, act)
    requires act.Child? ==> act.act.Diff? || act.act.Gate?
    requires EnvNext(SETUP, In(spec, releases, app, clock, x, y), spec.environments[1].name, y, act) == next
    requires p(In(spec, releases, app, clock + 1, x, next)) && q(Env(1, act))
    ensures Reaches(longer, p, q, In(spec, releases, app, clock + 1, x, next))
    ensures longer.actions == r.actions + [Env(1, act)]
  {
    Moves(spec, releases, app, clock, x, y, 1, act);
    longer := Grow(r, p, q, In(spec, releases, app, clock, x, y), Env(1, act),
                   In(spec, releases, app, clock + 1, x, next));
  }
}
