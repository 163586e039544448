/** Concrete runs that show the hypotheses of promotion safety are needed. Production is
    pushed behind its granted gate although staging, which the gate names, never ran what
    it recorded: because staging was itself refused, or because it has no place to run. */
module Witness {
  import opened Values
  import opened Api
  import opened Artifacts
  import opened Placements
  import opened Helm
  import opened Recording
  import opened Protocol
  import opened Invariants
  import opened Promotion
  import opened Convergence
  import opened Scenes

  /** Waits for an environment that never records anything. */
  const GATED := Environment("staging", BOTH, [DependsOn("qa", ["chart"])], ON_STAGING)
  /** Selects no cluster. */
  const PLACELESS := Environment("staging", BOTH, [], NOWHERE)

  const PROMOTE := Push(true, true, true)

  function Unreleased(spec: Spec): State -> bool {
    s => Fixed(SETUP, spec, s) && s.releases == map[]
  }

  function Anything(): Action -> bool {
    a => true
  }

  // ------------------------------------------------------ common passages

  /** A round begins and staging fetches the spec. */
  lemma Opening(staging: Environment) returns (r: Run)
    requires staging.name == "staging" && staging.requiredArtifacts == BOTH
    ensures var spec := TwoEnvironments(map[], staging);
            Reaches(r, Unreleased(spec), Anything(),
                    In(spec, map[], App(spec, 0, map[]), 3, Placing(staging, Wants(map[])), Fetching))
  {
    var spec := TwoEnvironments(map[], staging);
    var app, p, q := App(spec, 0, map[]), Unreleased(spec), Anything();
    var start := Between(map[], app, 1);
    r := Run([start], []);
    assert Throughout(r, p, q) && Reaches(r, p, q, start);
    Names(map[], staging);
    r := Grow(r, p, q, start, Begin(true), In(spec, map[], app, 2, Fetching, Fetching));
    SelectedArtifacts(map[], staging, staging);
    r := Move0(r, p, q, spec, map[], app, 2, Fetching, Fetching, Fetch(true), Placing(staging, Wants(map[])));
  }

  /** Then it starts its placements. */
  lemma StagingWorks(staging: Environment, at: seq<Coordinates>) returns (r: Run)
    requires staging.name == "staging" && staging.requiredArtifacts == BOTH
    requires CoordinatesOf("nginx", staging.placement, CLUSTERS) == at
    ensures var spec := TwoEnvironments(map[], staging);
            Reaches(r, Unreleased(spec), Anything(),
                    In(spec, map[], App(spec, 0, map[]), 4,
                       Working(Job(staging, Wants(map[]), at), FreshRuns(|at|)), Fetching))
  {
    var spec := TwoEnvironments(map[], staging);
    r := Opening(staging);
    r := Move0(r, Unreleased(spec), Anything(), spec, map[], App(spec, 0, map[]), 3, Placing(staging, Wants(map[])),
               Fetching, Place(true), Working(Job(staging, Wants(map[]), at), FreshRuns(|at|)));
  }

  /** Staging records its artifacts. */
  lemma Records(r: Run, staging: Environment, clock: nat, job: Job, runs: seq<PlacementRun>) returns (longer: Run)
    requires job.env.name == "staging" && job.artifacts == Wants(map[])
    requires var spec := TwoEnvironments(map[], staging);
             Reaches(r, Unreleased(spec), Anything(),
                     In(spec, map[], App(spec, 0, map[]), clock, Writing(job, runs, App(spec, 0, map[])), Fetching))
    ensures var spec := TwoEnvironments(map[], staging);
            Reaches(longer, Unreleased(spec), Anything(),
                    In(spec, map[], App(spec, clock, map["staging" := Entries(map[])]), clock + 1,
                       Done(true), Fetching))
  {
    var spec := TwoEnvironments(map[], staging);
    var app, run := App(spec, 0, map[]), Writing(job, runs, App(spec, 0, map[]));
    var s := In(spec, map[], app, clock, run, Fetching);
    RecordsWants(map[], "staging", map[]);
    assert app.status.deployed["staging" := Entries(map[])] == map["staging" := Entries(map[])];
    assert [run, Fetching][0 := Done(true)] == [Done(true), Fetching];
    assert Commits(SETUP, s, run, Write(true));
    var recorded := App(spec, clock, map["staging" := Entries(map[])]);
    assert Written(SETUP, s, run) == recorded;
    assert s.apps[SETUP.key := recorded] == map[SETUP.key := recorded];
    longer := Grow(r, Unreleased(spec), Anything(), s, Env(0, Write(true)),
                   In(spec, map[], recorded, clock + 1, Done(true), Fetching));
  }

  /** Production starts to work. */
  lemma ProductionWorks(r: Run, staging: Environment, app: Application, clock: nat) returns (longer: Run)
    requires staging.name == "staging" && app.spec == TwoEnvironments(map[], staging)
    requires Reaches(r, Unreleased(app.spec), Anything(), In(app.spec, map[], app, clock, Done(true), Fetching))
    ensures Reaches(longer, Unreleased(app.spec), Anything(),
                    In(app.spec, map[], app, clock + 2, Done(true), Working(Job1(map[]), [Diffing])))
  {
    var p, q := Unreleased(app.spec), Anything();
    Names(map[], staging);
    SelectedArtifacts(map[], staging, PRODUCTION);
    SelectedPlaces();
    assert FreshRuns(1) == [Diffing];
    longer := Move1(r, p, q, app.spec, map[], app, clock, Done(true), Fetching, Fetch(true),
                    Placing(PRODUCTION, Wants(map[])));
    longer := Move1(longer, p, q, app.spec, map[], app, clock + 1, Done(true), Placing(PRODUCTION, Wants(map[])),
                    Place(true), Working(Job1(map[]), [Diffing]));
  }

  /** Production is about to be pushed: it found a difference and its gate was granted. */
  lemma Closing(r: Run, staging: Environment, clock: nat) returns (longer: Run)
    requires staging.name == "staging"
    requires var spec := TwoEnvironments(map[], staging);
             Reaches(r, Unreleased(spec), Anything(),
                     In(spec, map[], App(spec, clock, map["staging" := Entries(map[])]), clock + 1,
                        Done(true), Fetching))
    ensures var spec := TwoEnvironments(map[], staging);
            Reaches(longer, Unreleased(spec), Anything(),
                    In(spec, map[], App(spec, clock, map["staging" := Entries(map[])]), clock + 5, Done(true),
                       Working(Job1(map[]), [Pushing])))
  {
    var spec := TwoEnvironments(map[], staging);
    var app, p, q := App(spec, clock, map["staging" := Entries(map[])]), Unreleased(spec), Anything();
    var job := Job1(map[]);
    longer := ProductionWorks(r, staging, app, clock + 1);
    OneDependency(GATE);
    StagingIsPromoted(map[], map[], spec, clock);
    assert [Diffing][0 := Gating] == [Gating] && [Gating][0 := Pushing] == [Pushing];
    longer := Move1(longer, p, q, spec, map[], app, clock + 3, Done(true), Working(job, [Diffing]),
                    Child(0, Diff(true)), Working(job, [Gating]));
    longer := Move1(longer, p, q, spec, map[], app, clock + 4, Done(true), Working(job, [Gating]),
                    Child(0, Gate(0, true)), Working(job, [Pushing]));
  }

  lemma PushIsNext(spec: Spec, app: Application, clock: nat) returns (s': State)
    requires |spec.environments| == 2 && app.spec == spec
    ensures var s := In(spec, map[], app, clock, Done(true), Working(Job1(map[]), [Pushing]));
            Enabled(SETUP, s, Env(1, Child(0, PROMOTE))) && s' == Step(SETUP, s, Env(1, Child(0, PROMOTE)))
    ensures Fixed(SETUP, spec, s')
  {
    s' := Step(SETUP, In(spec, map[], app, clock, Done(true), Working(Job1(map[]), [Pushing])),
               Env(1, Child(0, PROMOTE)));
  }

  lemma FixedThroughout(r: Run, spec: Spec)
    requires Throughout(r, Unreleased(spec), Anything())
    ensures forall j | 0 <= j < |r.states| :: Fixed(SETUP, spec, r.states[j]) && r.states[j].releases == map[]
  {
    forall j | 0 <= j < |r.states| ensures Fixed(SETUP, spec, r.states[j]) && r.states[j].releases == map[] {
      assert Unreleased(spec)(r.states[j]);
    }
  }

  /** The push itself; before it nothing was released anywhere. */
  lemma Promote(r: Run, staging: Environment, clock: nat) returns (longer: Run, i: nat)
    requires var spec := TwoEnvironments(map[], staging);
             Reaches(r, Unreleased(spec), Anything(),
                     In(spec, map[], App(spec, clock, map["staging" := Entries(map[])]), clock + 5, Done(true),
                        Working(Job1(map[]), [Pushing])))
    ensures IsRun(SETUP, longer) && Takes(longer, i, 1, 0, PROMOTE)
    ensures Envs(longer.states[i])[1] == Working(Job1(map[]), [Pushing])
    ensures GATE in Dependencies(PRODUCTION.constraints)
    ensures forall j | 0 <= j <= i :: longer.states[j].releases == map[]
    ensures forall j | 0 <= j < |longer.states| :: Fixed(SETUP, TwoEnvironments(map[], staging), longer.states[j])
  {
    var spec := TwoEnvironments(map[], staging);
    OneDependency(GATE);
    var s' := PushIsNext(spec, App(spec, clock, map["staging" := Entries(map[])]), clock + 5);
    i := |r.actions|;
    FixedThroughout(r, spec);
    longer := Append(r, Env(1, Child(0, PROMOTE)), s');
  }

  // -------------------------------------------------- a gated dependency

  function GatedJob(): Job {
    Job(GATED, Wants(map[]), [AT_STAGING])
  }

  lemma GatedWorks() returns (r: Run)
    ensures var spec := TwoEnvironments(map[], GATED);
            Reaches(r, Unreleased(spec), Anything(),
                    In(spec, map[], App(spec, 0, map[]), 5, Working(GatedJob(), [Gating]), Fetching))
  {
    var spec := TwoEnvironments(map[], GATED);
    var app, p, q := App(spec, 0, map[]), Unreleased(spec), Anything();
    SelectedPlaces();
    OneDependency(GATED.constraints[0]);
    assert FreshRuns(1) == [Diffing] && [Diffing][0 := Gating] == [Gating];
    r := StagingWorks(GATED, [AT_STAGING]);
    r := Move0(r, p, q, spec, map[], app, 4, Working(GatedJob(), [Diffing]), Fetching, Child(0, Diff(true)),
               Working(GatedJob(), [Gating]));
  }

  lemma GatedIsRefused() returns (r: Run)
    ensures var spec := TwoEnvironments(map[], GATED);
            Reaches(r, Unreleased(spec), Anything(),
                    In(spec, map[], App(spec, 0, map[]), 7, Reading(GatedJob(), [Finished(Denied)]), Fetching))
  {
    var spec := TwoEnvironments(map[], GATED);
    var app, p, q := App(spec, 0, map[]), Unreleased(spec), Anything();
    OneDependency(GATED.constraints[0]);
    assert [Gating][0 := Finished(Denied)] == [Finished(Denied)];
    r := GatedWorks();
    r := Move0(r, p, q, spec, map[], app, 5, Working(GatedJob(), [Gating]), Fetching, Child(0, Gate(0, true)),
               Working(GatedJob(), [Finished(Denied)]));
    r := Move0(r, p, q, spec, map[], app, 6, Working(GatedJob(), [Finished(Denied)]), Fetching, Collect,
               Reading(GatedJob(), [Finished(Denied)]));
  }

  /** Without the condition that depended-on environments are unconstrained, promotion
      safety fails: production is pushed behind its granted gate although no release of
      anything exists in any state before. Staging was refused by its own gate, and its
      refusal was recorded as a deployment. */
  lemma UnsafePromotion() returns (r: Run, i: nat)
    ensures IsRun(SETUP, r) && Takes(r, i, 1, 0, PROMOTE)
    ensures Envs(r.states[i])[1].job == Job1(map[]) && GATE in Dependencies(PRODUCTION.constraints)
    ensures forall j | 0 <= j <= i :: r.states[j].releases == map[]
    ensures AlwaysPlaced(SETUP, r, {"staging"}) && VersionsIdentify(SETUP, r)
  {
    var spec := TwoEnvironments(map[], GATED);
    var app := App(spec, 0, map[]);
    r := GatedIsRefused();
    r := Move0(r, Unreleased(spec), Anything(), spec, map[], app, 7, Reading(GatedJob(), [Finished(Denied)]), Fetching,
               Read(true), Writing(GatedJob(), [Finished(Denied)], app));
    r := Records(r, GATED, 8, GatedJob(), [Finished(Denied)]);
    r := Closing(r, GATED, 8);
    r, i := Promote(r, GATED, 8);
    GatedHasAPlace();
    OneSpecIdentifies(map[], r, GATED);
  }

  lemma GatedHasAPlace()
    ensures Placed(SETUP, TwoEnvironments(map[], GATED), {"staging"})
  {
    LabelsDiffer();
    SelectedPlaces();
  }

  // ----------------------------------------------- a dependency nowhere

  /** The condition on constraints is not enough either: with a dependency that selects
      no cluster the configuration is well formed, and still production is pushed
      although nothing was ever released. An environment without places records. */
  lemma EmptyPromotion() returns (r: Run, i: nat)
    ensures IsRun(SETUP, r) && Takes(r, i, 1, 0, PROMOTE)
    ensures Envs(r.states[i])[1].job == Job1(map[]) && GATE in Dependencies(PRODUCTION.constraints)
    ensures forall j | 0 <= j <= i :: r.states[j].releases == map[]
    ensures AlwaysWellFormed(SETUP, r, {"staging"}) && VersionsIdentify(SETUP, r)
  {
    var spec := TwoEnvironments(map[], PLACELESS);
    var app, p, q := App(spec, 0, map[]), Unreleased(spec), Anything();
    var job := Job(PLACELESS, Wants(map[]), []);
    SelectedPlaces();
    r := StagingWorks(PLACELESS, []);
    r := Move0(r, p, q, spec, map[], app, 4, Working(job, []), Fetching, Collect, Reading(job, []));
    r := Move0(r, p, q, spec, map[], app, 5, Reading(job, []), Fetching, Read(true), Writing(job, [], app));
    r := Records(r, PLACELESS, 6, job, []);
    r := Closing(r, PLACELESS, 6);
    r, i := Promote(r, PLACELESS, 6);
    TwoWellFormed(map[], PLACELESS);
    OneSpecIdentifies(map[], r, PLACELESS);
  }

  lemma TwoWellFormed(fields: Fields, staging: Environment)
    requires staging.name == "staging" && staging.constraints == []
    ensures WellFormed(TwoEnvironments(fields, staging), {"staging"})
  {
    LabelsDiffer();
    OneDependency(GATE);
  }

  lemma OneSpecIdentifies(fields: Fields, r: Run, staging: Environment)
    requires forall j | 0 <= j < |r.states| :: Fixed(SETUP, TwoEnvironments(fields, staging), r.states[j])
    ensures VersionsIdentify(SETUP, r)
  {
    assert |"chart"| != |"values"|;
  }
}
