/** A concrete run in which two recordings overlap in each of two rounds. No call fails and
    nobody interferes, yet production differs after both rounds: in the first its record of
    its own refusal overtakes staging's, so in the second its gate is still shut. Two rounds
    do not always suffice, and the bound of `EveryRound.RoundsConverge` cannot be lowered. */
module Stall {
  import opened Values
  import opened Api
  import opened Artifacts
  import opened Placements
  import opened Helm
  import opened Recording
  import opened Protocol
  import opened Invariants
  import opened Promotion
  import opened Serial
  import opened Convergence
  import opened EveryRound
  import opened Scenes

  const STAGING := Environment("staging", BOTH, [], ON_STAGING)
  const SPEC := TwoEnvironments(map[], STAGING)
  const JOB := Job(STAGING, Wants(map[]), [AT_STAGING])
  const GATED := Job1(map[])
  const IN_SYNC := [Finished(InSync)]
  const REFUSED := [Finished(Denied)]

  /** Staging runs its target, production runs nothing. */
  function Releases0(): Releases {
    map[KeyAt(AT_STAGING, "nginx") := Release("2", Node(map[]))]
  }

  predicate IsStuck(s: State) {
    Fixed(SETUP, SPEC, s) && s.releases == Releases0()
  }

  function Stuck(): State -> bool {
    s => IsStuck(s)
  }

  function Cleanly(): Action -> bool {
    a => Clean(a)
  }

  const NONE: Deployed := map[]
  const REFUSAL: Deployed := map["production" := Entries(map[])]
  const ALL: Deployed := map["production" := Entries(map[]), "staging" := Entries(map[])]

  /** Staging is not recorded. */
  predicate Unrecorded(app: Application, clock: nat) {
    && app.spec == SPEC && app.meta.resourceVersion < clock
    && (app.status.deployed == NONE || app.status.deployed == REFUSAL)
  }

  /** After `n` complete rounds of a calm run without a release in production. */
  ghost predicate Stands(r: Run, n: nat, s: State) {
    Reaches(r, Stuck(), Cleanly(), s) && Rounds(r, |r.actions|) == n
  }

  // ---------------------------------------------------- facts about a round

  lemma Differences()
    ensures DiffOf(Releases0(), KeyAt(AT_STAGING, "nginx"), Wants(map[])) == Same
    ensures DiffOf(Releases0(), KeyAt(AT_PRODUCTION, "nginx"), Wants(map[])) == Differs
  {
    LabelsDiffer();
    BothAskForARelease(map[]);
    DiffSameIff(Releases0(), KeyAt(AT_STAGING, "nginx"), Wants(map[]));
  }

  lemma GateIsShut(app: Application, clock: nat)
    requires Unrecorded(app, clock)
    ensures !Promoted(app, "staging", BOTH)
  {
    LabelsDiffer();
  }

  lemma {:induction false} RoundsOfPrefix(r: Run, longer: Run, i: nat)
    requires i <= |r.actions| <= |longer.actions| && longer.actions[..|r.actions|] == r.actions
    ensures Rounds(longer, i) == Rounds(r, i)
  {
    if i > 0 {
      RoundsOfPrefix(r, longer, i - 1);
      assert longer.actions[i - 1] == longer.actions[..|r.actions|][i - 1];
    }
  }

  // ---------------------------------------------------- steps of such a run

  lemma Goes(r: Run, n: nat, s: State, a: Action, s': State) returns (longer: Run)
    requires Stands(r, n, s) && Enabled(SETUP, s, a) && Step(SETUP, s, a) == s' && IsStuck(s') && Clean(a)
    ensures Stands(longer, if a.End? then n + 1 else n, s') && longer.states[0] == r.states[0]
  {
    longer := Grow(r, Stuck(), Cleanly(), s, a, s');
    RoundsOfPrefix(r, longer, |r.actions|);
  }

  lemma First(r: Run, n: nat, app: Application, clock: nat, x: EnvRun, y: EnvRun, act: EnvAction, next: EnvRun)
    returns (longer: Run)
    requires Stands(r, n, In(SPEC, Releases0(), app, clock, x, y)) && app.spec == SPEC
    requires EnvEnabled(x, act) && !Commits(SETUP, In(SPEC, Releases0(), app, clock, x, y), x, act)
    requires (act.Child? ==> act.act.Diff? || act.act.Gate?) && Clean(Env(0, act))
    requires EnvNext(SETUP, In(SPEC, Releases0(), app, clock, x, y), "staging", x, act) == next
    ensures Stands(longer, n, In(SPEC, Releases0(), app, clock + 1, next, y))
    ensures longer.states[0] == r.states[0]
  {
    Moves(SPEC, Releases0(), app, clock, x, y, 0, act);
    longer := Goes(r, n, In(SPEC, Releases0(), app, clock, x, y), Env(0, act),
                   In(SPEC, Releases0(), app, clock + 1, next, y));
  }

  lemma Second(r: Run, n: nat, app: Application, clock: nat, x: EnvRun, y: EnvRun, act: EnvAction, next: EnvRun)
    returns (longer: Run)
    requires Stands(r, n, In(SPEC, Releases0(), app, clock, x, y)) && app.spec == SPEC
    requires EnvEnabled(y, act) && !Commits(SETUP, In(SPEC, Releases0(), app, clock, x, y), y, act)
    requires (act.Child? ==> act.act.Diff? || act.act.Gate?) && Clean(Env(1, act))
    requires EnvNext(SETUP, In(SPEC, Releases0(), app, clock, x, y), "production", y, act) == next
    ensures Stands(longer, n, In(SPEC, Releases0(), app, clock + 1, x, next))
    ensures longer.states[0] == r.states[0]
  {
    Moves(SPEC, Releases0(), app, clock, x, y, 1, act);
    longer := Goes(r, n, In(SPEC, Releases0(), app, clock, x, y), Env(1, act),
                   In(SPEC, Releases0(), app, clock + 1, x, next));
  }

  // ------------------------------------------------------------ one round

  lemma RoundOpens(r: Run, n: nat, app: Application, clock: nat) returns (longer: Run)
    requires Unrecorded(app, clock) && Stands(r, n, Between(Releases0(), app, clock))
    ensures Stands(longer, n, In(SPEC, Releases0(), app, clock + 1, Fetching, Fetching))
    ensures longer.states[0] == r.states[0]
  {
    Names(map[], STAGING);
    longer := Goes(r, n, Between(Releases0(), app, clock), Begin(true),
                   In(SPEC, Releases0(), app, clock + 1, Fetching, Fetching));
  }

  lemma StagingWorks(r: Run, n: nat, app: Application, clock: nat) returns (longer: Run)
    requires Unrecorded(app, clock) && Stands(r, n, In(SPEC, Releases0(), app, clock, Fetching, Fetching))
    ensures Stands(longer, n, In(SPEC, Releases0(), app, clock + 2, Working(JOB, [Diffing]), Fetching))
    ensures longer.states[0] == r.states[0]
  {
    Names(map[], STAGING);
    SelectedArtifacts(map[], STAGING, STAGING);
    SelectedPlaces();
    assert FreshRuns(1) == [Diffing];
    var placing := Placing(STAGING, Wants(map[]));
    longer := First(r, n, app, clock, Fetching, Fetching, Fetch(true), placing);
    longer := First(longer, n, app, clock + 1, placing, Fetching, Place(true), Working(JOB, [Diffing]));
  }

  lemma StagingIsInSync(r: Run, n: nat, app: Application, clock: nat) returns (longer: Run)
    requires Unrecorded(app, clock)
    requires Stands(r, n, In(SPEC, Releases0(), app, clock, Working(JOB, [Diffing]), Fetching))
    ensures Stands(longer, n, In(SPEC, Releases0(), app, clock + 2, Reading(JOB, IN_SYNC), Fetching))
    ensures longer.states[0] == r.states[0]
  {
    Differences();
    assert [Diffing][0 := Finished(InSync)] == IN_SYNC;
    longer := First(r, n, app, clock, Working(JOB, [Diffing]), Fetching, Child(0, Diff(true)), Working(JOB, IN_SYNC));
    longer := First(longer, n, app, clock + 1, Working(JOB, IN_SYNC), Fetching, Collect, Reading(JOB, IN_SYNC));
  }

  lemma ProductionWorks(r: Run, n: nat, app: Application, clock: nat, x: EnvRun) returns (longer: Run)
    requires Unrecorded(app, clock) && Stands(r, n, In(SPEC, Releases0(), app, clock, x, Fetching))
    ensures Stands(longer, n, In(SPEC, Releases0(), app, clock + 2, x, Working(GATED, [Diffing])))
    ensures longer.states[0] == r.states[0]
  {
    Names(map[], STAGING);
    SelectedArtifacts(map[], STAGING, PRODUCTION);
    SelectedPlaces();
    assert FreshRuns(1) == [Diffing];
    var placing := Placing(PRODUCTION, Wants(map[]));
    longer := Second(r, n, app, clock, x, Fetching, Fetch(true), placing);
    longer := Second(longer, n, app, clock + 1, x, placing, Place(true), Working(GATED, [Diffing]));
  }

  lemma ProductionIsRefused(r: Run, n: nat, app: Application, clock: nat, x: EnvRun) returns (longer: Run)
    requires Unrecorded(app, clock) && Stands(r, n, In(SPEC, Releases0(), app, clock, x, Working(GATED, [Diffing])))
    ensures Stands(longer, n, In(SPEC, Releases0(), app, clock + 2, x, Working(GATED, REFUSED)))
    ensures longer.states[0] == r.states[0]
  {
    OneDependency(GATE);
    Differences();
    GateIsShut(app, clock);
    assert [Diffing][0 := Gating] == [Gating] && [Gating][0 := Finished(Denied)] == REFUSED;
    longer := Second(r, n, app, clock, x, Working(GATED, [Diffing]), Child(0, Diff(true)), Working(GATED, [Gating]));
    longer := Second(longer, n, app, clock + 1, x, Working(GATED, [Gating]), Child(0, Gate(0, true)),
                     Working(GATED, REFUSED));
  }

  lemma BothRead(r: Run, n: nat, app: Application, clock: nat) returns (longer: Run)
    requires Unrecorded(app, clock)
    requires Stands(r, n, In(SPEC, Releases0(), app, clock, Reading(JOB, IN_SYNC), Working(GATED, REFUSED)))
    ensures Stands(longer, n, In(SPEC, Releases0(), app, clock + 3,
                                 Writing(JOB, IN_SYNC, app), Writing(GATED, REFUSED, app)))
    ensures longer.states[0] == r.states[0]
  {
    var x, y := Reading(JOB, IN_SYNC), Reading(GATED, REFUSED);
    longer := Second(r, n, app, clock, x, Working(GATED, REFUSED), Collect, y);
    longer := First(longer, n, app, clock + 1, x, y, Read(true), Writing(JOB, IN_SYNC, app));
    longer := Second(longer, n, app, clock + 2, Writing(JOB, IN_SYNC, app), y, Read(true),
                     Writing(GATED, REFUSED, app));
  }

  /** Both read the object while nothing is recorded; production's record goes through. */
  lemma ProductionOvertakes(r: Run, n: nat, clock: nat) returns (longer: Run)
    requires clock > 0
    requires var app := App(SPEC, 0, NONE);
             Stands(r, n, In(SPEC, Releases0(), app, clock, Writing(JOB, IN_SYNC, app), Writing(GATED, REFUSED, app)))
    ensures Stands(longer, n, In(SPEC, Releases0(), App(SPEC, clock, REFUSAL), clock + 1,
                                 Writing(JOB, IN_SYNC, App(SPEC, 0, NONE)), Done(true)))
    ensures longer.states[0] == r.states[0]
  {
    var app, recorded := App(SPEC, 0, NONE), App(SPEC, clock, REFUSAL);
    var x, y := Writing(JOB, IN_SYNC, app), Writing(GATED, REFUSED, app);
    var s := In(SPEC, Releases0(), app, clock, x, y);
    RecordsWants(NONE, "production", map[]);
    assert NONE["production" := Entries(map[])] == REFUSAL;
    ObjectIsWritten(s, y, recorded);
    assert [x, y][1 := Done(true)] == [x, Done(true)];
    longer := Goes(r, n, s, Env(1, Write(true)), In(SPEC, Releases0(), recorded, clock + 1, x, Done(true)));
  }

  lemma ObjectIsWritten(s: State, run: EnvRun, recorded: Application)
    requires run.Writing? && SETUP.key in s.apps && s.apps[SETUP.key] == run.read
    requires s.apps == map[SETUP.key := run.read]
    requires recorded == run.read.(status := recorded.status, meta := run.read.meta.(resourceVersion := s.clock))
    requires recorded.status == run.read.status.(
      deployed := Record(run.read.status.deployed, run.job.env.name, run.job.artifacts))
    requires recorded.status.deployed != run.read.status.deployed
    ensures Commits(SETUP, s, run, Write(true))
    ensures s.apps[SETUP.key := Written(SETUP, s, run)] == map[SETUP.key := recorded]
  {
  }

  /** Staging's write is refused, and the first round ends. */
  lemma StagingIsLate(r: Run, n: nat, clock: nat) returns (longer: Run)
    requires clock > 0
    requires Stands(r, n, In(SPEC, Releases0(), App(SPEC, clock, REFUSAL), clock + 1,
                             Writing(JOB, IN_SYNC, App(SPEC, 0, NONE)), Done(true)))
    ensures Stands(longer, n + 1, Between(Releases0(), App(SPEC, clock, REFUSAL), clock + 3))
    ensures longer.states[0] == r.states[0]
  {
    var recorded := App(SPEC, clock, REFUSAL);
    longer := First(r, n, recorded, clock + 1, Writing(JOB, IN_SYNC, App(SPEC, 0, NONE)), Done(true), Write(true),
                    Done(true));
    longer := Goes(longer, n, In(SPEC, Releases0(), recorded, clock + 2, Done(true), Done(true)), End,
                   Between(Releases0(), recorded, clock + 3));
  }

  /** In the second round production's record changes nothing and spoils nothing. */
  lemma ProductionRepeats(r: Run, n: nat, version: nat, clock: nat) returns (longer: Run)
    requires version < clock
    requires var app := App(SPEC, version, REFUSAL);
             Stands(r, n, In(SPEC, Releases0(), app, clock, Writing(JOB, IN_SYNC, app), Writing(GATED, REFUSED, app)))
    ensures var app := App(SPEC, version, REFUSAL);
            Stands(longer, n, In(SPEC, Releases0(), app, clock + 1, Writing(JOB, IN_SYNC, app), Done(true)))
    ensures longer.states[0] == r.states[0]
  {
    var app := App(SPEC, version, REFUSAL);
    var x, y := Writing(JOB, IN_SYNC, app), Writing(GATED, REFUSED, app);
    var s := In(SPEC, Releases0(), app, clock, x, y);
    RecordsWants(REFUSAL, "production", map[]);
    assert REFUSAL["production" := Entries(map[])] == REFUSAL;
    assert Written(SETUP, s, y) == app;
    assert s.apps[SETUP.key := app] == s.apps;
    assert [x, y][1 := Done(true)] == [x, Done(true)];
    longer := Goes(r, n, s, Env(1, Write(true)), In(SPEC, Releases0(), app, clock + 1, x, Done(true)));
  }

  /** So staging is recorded now, after production was refused, and the second round ends. */
  lemma StagingRecords(r: Run, n: nat, version: nat, clock: nat) returns (longer: Run)
    requires version < clock
    requires var app := App(SPEC, version, REFUSAL);
             Stands(r, n, In(SPEC, Releases0(), app, clock, Writing(JOB, IN_SYNC, app), Done(true)))
    ensures Stands(longer, n + 1, Between(Releases0(), App(SPEC, clock, ALL), clock + 2))
    ensures longer.states[0] == r.states[0]
  {
    var app, recorded := App(SPEC, version, REFUSAL), App(SPEC, clock, ALL);
    var x := Writing(JOB, IN_SYNC, app);
    var s := In(SPEC, Releases0(), app, clock, x, Done(true));
    LabelsDiffer();
    RecordsWants(REFUSAL, "staging", map[]);
    assert REFUSAL["staging" := Entries(map[])] == ALL;
    assert "staging" in ALL && "staging" !in REFUSAL;
    ObjectIsWritten(s, x, recorded);
    assert [x, Done(true)][0 := Done(true)] == [Done(true), Done(true)];
    longer := Goes(r, n, s, Env(0, Write(true)), In(SPEC, Releases0(), recorded, clock + 1, Done(true), Done(true)));
    longer := Goes(longer, n, In(SPEC, Releases0(), recorded, clock + 1, Done(true), Done(true)), End,
                   Between(Releases0(), recorded, clock + 2));
  }

  /** From the beginning of a round to the point where both have read the object. */
  lemma BothFinish(r: Run, n: nat, app: Application, clock: nat) returns (longer: Run)
    requires Unrecorded(app, clock) && Stands(r, n, Between(Releases0(), app, clock))
    ensures Stands(longer, n, In(SPEC, Releases0(), app, clock + 9, Reading(JOB, IN_SYNC), Working(GATED, REFUSED)))
    ensures longer.states[0] == r.states[0]
  {
    longer := RoundOpens(r, n, app, clock);
    longer := StagingWorks(longer, n, app, clock + 1);
    longer := StagingIsInSync(longer, n, app, clock + 3);
    longer := ProductionWorks(longer, n, app, clock + 5, Reading(JOB, IN_SYNC));
    longer := ProductionIsRefused(longer, n, app, clock + 7, Reading(JOB, IN_SYNC));
  }

  lemma FirstRound() returns (r: Run)
    ensures Stands(r, 1, Between(Releases0(), App(SPEC, 13, REFUSAL), 16))
    ensures r.states[0] == Between(Releases0(), App(SPEC, 0, NONE), 1)
  {
    var app := App(SPEC, 0, NONE);
    r := Run([Between(Releases0(), app, 1)], []);
    assert Stands(r, 0, Between(Releases0(), app, 1));
    r := BothFinish(r, 0, app, 1);
    r := BothRead(r, 0, app, 10);
    r := ProductionOvertakes(r, 0, 13);
    r := StagingIsLate(r, 0, 13);
  }

  lemma SecondRound() returns (r: Run)
    ensures Stands(r, 2, Between(Releases0(), App(SPEC, 29, ALL), 31))
    ensures r.states[0] == Between(Releases0(), App(SPEC, 0, NONE), 1)
  {
    var app := App(SPEC, 13, REFUSAL);
    r := FirstRound();
    r := BothFinish(r, 1, app, 16);
    r := BothRead(r, 1, app, 25);
    r := ProductionRepeats(r, 1, 13, 28);
    r := StagingRecords(r, 1, 13, 29);
  }

  // ------------------------------------------------------------- theorem

  lemma StandsIsCalm(r: Run, n: nat, s: State)
    requires Stands(r, n, s)
    ensures Calm(SETUP, SPEC, r) && forall i | 0 <= i < |r.states| :: r.states[i].releases == Releases0()
  {
    forall i | 0 <= i < |r.states| ensures IsStuck(r.states[i]) { assert Stuck()(r.states[i]); }
    forall i | 0 <= i < |r.actions| ensures Clean(r.actions[i]) { assert Cleanly()(r.actions[i]); }
  }

  lemma Places()
    ensures PlacesOf(SETUP, SPEC, 0) == [AT_STAGING] && PlacesOf(SETUP, SPEC, 1) == [AT_PRODUCTION]
    ensures ArtifactsAt(SPEC, 0) == Wants(map[]) && ArtifactsAt(SPEC, 1) == Wants(map[])
  {
    SelectedPlaces();
    SelectedArtifacts(map[], STAGING, STAGING);
    SelectedArtifacts(map[], STAGING, PRODUCTION);
  }

  lemma {:induction false} SpecIsComplete()
    ensures Complete(SPEC)
  {
    Places();
    GatesAreSatisfiable();
    BothAskForARelease(map[]);
  }

  lemma {:induction false} SpecIsConvergeable()
    ensures Convergeable(SETUP, SPEC)
  {
    LabelsDiffer();
    Places();
    SpecIsComplete();
  }

  lemma GatesAreSatisfiable()
    ensures Satisfiable(SPEC, GATE)
    ensures Dependencies(STAGING.constraints) == [] && Canaries(STAGING.constraints) == []
    ensures Dependencies(PRODUCTION.constraints) == [GATE] && Canaries(PRODUCTION.constraints) == []
  {
    OneDependency(GATE);
    SpecLooksUp(map[]);
    assert SPEC.environments[0].name == "staging";
    assert forall x | x in BOTH :: x in SPEC.environments[0].requiredArtifacts && x in ByName(SPEC.artifacts);
  }

  lemma NothingIsRecorded(s: State)
    requires s == Between(Releases0(), App(SPEC, 0, NONE), 1)
    ensures Missing(SETUP, SPEC, s) == {0, 1} && |Missing(SETUP, SPEC, s)| == 2
  {
    assert |SPEC.environments| == 2;
    assert Missing(SETUP, SPEC, s) == {0, 1};
  }

  /** Two rounds do not suffice. On a configuration that meets every condition, with both
      environments unrecorded at the start, there is a run of two complete rounds, without
      any failing call or outside interference, in every state of which production differs. */
  lemma {:induction false} TwoRoundsDoNotSuffice() returns (r: Run)
    ensures Convergeable(SETUP, SPEC) && Calm(SETUP, SPEC, r)
    ensures Rounds(r, |r.actions|) == 2 == |SPEC.environments| == |Missing(SETUP, SPEC, r.states[0])|
    ensures PlacesOf(SETUP, SPEC, 1) == [AT_PRODUCTION]
    ensures forall i | 0 <= i < |r.states| ::
              DiffOf(r.states[i].releases, KeyAt(AT_PRODUCTION, SETUP.key.name), ArtifactsAt(SPEC, 1)) == Differs
  {
    r := SecondRound();
    StandsIsCalm(r, 2, Between(Releases0(), App(SPEC, 29, ALL), 31));
    NothingIsRecorded(r.states[0]);
    SpecIsConvergeable();
    Places();
    Differences();
  }
}
