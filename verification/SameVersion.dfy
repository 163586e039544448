/** Concrete runs that show why artifacts must not change without their version: staging
    runs and records the values artifact, its content is edited under the same version,
    and production is pushed with content that staging never ran. */
module SameVersion {
  import opened Values
  import opened Api
  import opened Artifacts
  import opened Placements
  import opened Helm
  import opened Recording
  import opened Protocol
  import opened Invariants
  import opened Promotion
  import opened Scenes

  const STAGING := Environment("staging", BOTH, [], ON_STAGING)
  const PROMOTE := Push(true, true, true)

  function SpecOf(content: Fields): Spec {
    TwoEnvironments(content, STAGING)
  }

  function Ours(content: Fields): Job {
    Job(STAGING, Wants(content), [AT_STAGING])
  }

  function Released(content: Fields): Releases {
    map[KeyAt(AT_STAGING, "nginx") := Release("2", Node(content))]
  }

  /** The spec asks for `now`, and staging has recorded `was`. */
  function Edited(was: Fields, now: Fields): Application {
    App(SpecOf(now), 10, map["staging" := Entries(was)])
  }

  /** Up to `i` environment `name` ran, at one of its places, a release that was exactly
      what artifacts it had selected ask for, `a` among them. */
  ghost predicate RanSomewhere(c: Setup, r: Run, i: nat, name: string, a: Artifact)
    requires |r.states| == |r.actions| + 1
  {
    exists j, at, f, k, env, artifacts | 0 <= j <= i && j < |r.states| && 0 <= f <= i ::
      && Fetched(c, r, f, k, env, artifacts) && env.name == name && a in artifacts
      && at in CoordinatesOf(c.key.namespace, env.placement, c.clusters)
      && Holds(r.states[j].releases, KeyAt(at, c.key.name), artifacts)
  }

  predicate IsOlder(was: Fields, now: Fields, s: State) {
    && SETUP.key in s.apps && Stable(SETUP, s)
    && (s.apps[SETUP.key].spec == SpecOf(was) || s.apps[SETUP.key].spec == SpecOf(now))
    && forall key | key in s.releases :: s.releases[key] == Release("2", Node(was))
  }

  /** Only the earlier content has been released so far. */
  function Older(was: Fields, now: Fields): State -> bool {
    s => IsOlder(was, now, s)
  }

  function Anything(): Action -> bool {
    a => true
  }

  // -------------------------------------------------------- staging runs it

  lemma StagingStarts(was: Fields, now: Fields) returns (r: Run)
    ensures Reaches(r, Older(was, now), Anything(),
                    In(SpecOf(was), map[], App(SpecOf(was), 0, map[]), 2, Fetching, Fetching))
  {
    var app, p, q := App(SpecOf(was), 0, map[]), Older(was, now), Anything();
    var start := Between(map[], app, 1);
    r := Run([start], []);
    assert Throughout(r, p, q) && Reaches(r, p, q, start);
    Names(was, STAGING);
    r := Grow(r, p, q, start, Begin(true), In(SpecOf(was), map[], app, 2, Fetching, Fetching));
  }

  lemma StagingWorks(was: Fields, now: Fields) returns (r: Run)
    ensures Reaches(r, Older(was, now), Anything(),
                    In(SpecOf(was), map[], App(SpecOf(was), 0, map[]), 4, Working(Ours(was), [Diffing]), Fetching))
  {
    var spec, app, p, q := SpecOf(was), App(SpecOf(was), 0, map[]), Older(was, now), Anything();
    r := StagingStarts(was, now);
    Names(was, STAGING);
    SelectedArtifacts(was, STAGING, STAGING);
    SelectedPlaces();
    r := Move0(r, p, q, spec, map[], app, 2, Fetching, Fetching, Fetch(true), Placing(STAGING, Wants(was)));
    assert FreshRuns(1) == [Diffing];
    r := Move0(r, p, q, spec, map[], app, 3, Placing(STAGING, Wants(was)), Fetching, Place(true),
               Working(Ours(was), [Diffing]));
  }

  lemma StagingMayPush(was: Fields, now: Fields) returns (r: Run)
    ensures Reaches(r, Older(was, now), Anything(),
                    In(SpecOf(was), map[], App(SpecOf(was), 0, map[]), 5, Working(Ours(was), [Pushing]), Fetching))
  {
    r := StagingWorks(was, now);
    assert [Diffing][0 := Pushing] == [Pushing];
    assert Dependencies(STAGING.constraints) == [] && Canaries(STAGING.constraints) == [];
    r := Move0(r, Older(was, now), Anything(), SpecOf(was), map[], App(SpecOf(was), 0, map[]), 4,
               Working(Ours(was), [Diffing]), Fetching, Child(0, Diff(true)), Working(Ours(was), [Pushing]));
  }

  lemma PushLands(was: Fields)
    ensures var app := App(SpecOf(was), 0, map[]);
            var s := In(SpecOf(was), map[], app, 5, Working(Ours(was), [Pushing]), Fetching);
            Enabled(SETUP, s, Env(0, Child(0, PROMOTE))) &&
            Step(SETUP, s, Env(0, Child(0, PROMOTE))) ==
            In(SpecOf(was), Released(was), app, 6, Working(Ours(was), [Finished(Pushed)]), Fetching)
  {
    BothAskForARelease(was);
    assert AfterPush(map[], AT_STAGING, "nginx", Wants(was), true) == Released(was) by {
      assert |CanaryName("nginx")| > |"nginx"|;
    }
    var run, next := Working(Ours(was), [Pushing]), Working(Ours(was), [Finished(Pushed)]);
    assert [Pushing][0 := Finished(Pushed)] == [Finished(Pushed)];
    assert [run, Fetching][0 := next] == [next, Fetching];
  }

  lemma StagingWrites(was: Fields, now: Fields) returns (r: Run)
    ensures Reaches(r, Older(was, now), Anything(),
                    In(SpecOf(was), Released(was), App(SpecOf(was), 0, map[]), 8,
                       Writing(Ours(was), [Finished(Pushed)], App(SpecOf(was), 0, map[])), Fetching))
  {
    var spec, app, p, q := SpecOf(was), App(SpecOf(was), 0, map[]), Older(was, now), Anything();
    var job, runs := Ours(was), [Finished(Pushed)];
    r := StagingMayPush(was, now);
    PushLands(was);
    r := Grow(r, p, q, In(spec, map[], app, 5, Working(job, [Pushing]), Fetching), Env(0, Child(0, PROMOTE)),
              In(spec, Released(was), app, 6, Working(job, runs), Fetching));
    r := Move0(r, p, q, spec, Released(was), app, 6, Working(job, runs), Fetching, Collect, Reading(job, runs));
    r := Move0(r, p, q, spec, Released(was), app, 7, Reading(job, runs), Fetching, Read(true), Writing(job, runs, app));
  }

  lemma StagingRecords(was: Fields, now: Fields) returns (r: Run)
    ensures Reaches(r, Older(was, now), Anything(),
                    In(SpecOf(was), Released(was), App(SpecOf(was), 8, map["staging" := Entries(was)]), 9,
                       Done(true), Fetching))
  {
    var spec, app, run := SpecOf(was), App(SpecOf(was), 0, map[]),
      Writing(Ours(was), [Finished(Pushed)], App(SpecOf(was), 0, map[]));
    var s, recorded := In(spec, Released(was), app, 8, run, Fetching), App(spec, 8, map["staging" := Entries(was)]);
    r := StagingWrites(was, now);
    RecordsWants(map[], "staging", was);
    assert app.status.deployed["staging" := Entries(was)] == map["staging" := Entries(was)];
    assert [run, Fetching][0 := Done(true)] == [Done(true), Fetching];
    assert Commits(SETUP, s, run, Write(true)) && Written(SETUP, s, run) == recorded;
    assert s.apps[SETUP.key := recorded] == map[SETUP.key := recorded];
    r := Grow(r, Older(was, now), Anything(), s, Env(0, Write(true)),
              In(spec, Released(was), recorded, 9, Done(true), Fetching));
  }

  // ------------------------------------------------------------- the edit

  /** Between two runs of the workflow somebody edits the content of the artifact. */
  lemma SomebodyEdits(was: Fields, now: Fields) returns (r: Run)
    ensures Reaches(r, Older(was, now), Anything(), Between(Released(was), Edited(was, now), 12))
  {
    var p, q, releases := Older(was, now), Anything(), Released(was);
    var app, edited := App(SpecOf(was), 8, map["staging" := Entries(was)]), Edited(was, now);
    r := StagingRecords(was, now);
    var s := State(map[SETUP.key := app], 10, releases, Closed);
    r := Grow(r, p, q, In(SpecOf(was), releases, app, 9, Done(true), Fetching), Terminate, s);
    assert map[SETUP.key := app][SETUP.key := edited] == map[SETUP.key := edited];
    r := Grow(r, p, q, s, External(SETUP.key, Some(edited)), State(map[SETUP.key := edited], 11, releases, Closed));
    r := Grow(r, p, q, State(map[SETUP.key := edited], 11, releases, Closed), Start, Between(releases, edited, 12));
  }

  // --------------------------------------------------- production is pushed

  lemma ProductionFetches(was: Fields, now: Fields) returns (r: Run)
    ensures Reaches(r, Older(was, now), Anything(),
                    In(SpecOf(now), Released(was), Edited(was, now), 14, Fetching, Placing(PRODUCTION, Wants(now))))
  {
    var p, q, spec, app := Older(was, now), Anything(), SpecOf(now), Edited(was, now);
    r := SomebodyEdits(was, now);
    Names(now, STAGING);
    r := Grow(r, p, q, Between(Released(was), app, 12), Begin(true),
              In(spec, Released(was), app, 13, Fetching, Fetching));
    SelectedArtifacts(now, STAGING, PRODUCTION);
    r := Move1(r, p, q, spec, Released(was), app, 13, Fetching, Fetching, Fetch(true), Placing(PRODUCTION, Wants(now)));
  }

  lemma ProductionWorks(was: Fields, now: Fields) returns (r: Run)
    ensures Reaches(r, Older(was, now), Anything(),
                    In(SpecOf(now), Released(was), Edited(was, now), 15, Fetching, Working(Job1(now), [Diffing])))
  {
    r := ProductionFetches(was, now);
    SelectedPlaces();
    assert FreshRuns(1) == [Diffing];
    r := Move1(r, Older(was, now), Anything(), SpecOf(now), Released(was), Edited(was, now), 14, Fetching,
               Placing(PRODUCTION, Wants(now)), Place(true), Working(Job1(now), [Diffing]));
  }

  lemma ProductionDiffers(was: Fields, now: Fields) returns (r: Run)
    ensures Reaches(r, Older(was, now), Anything(),
                    In(SpecOf(now), Released(was), Edited(was, now), 16, Fetching, Working(Job1(now), [Gating])))
  {
    r := ProductionWorks(was, now);
    OneDependency(GATE);
    NoReleaseInProduction(was);
    assert [Diffing][0 := Gating] == [Gating];
    r := Move1(r, Older(was, now), Anything(), SpecOf(now), Released(was), Edited(was, now), 15, Fetching,
               Working(Job1(now), [Diffing]), Child(0, Diff(true)), Working(Job1(now), [Gating]));
  }

  lemma NoReleaseInProduction(was: Fields)
    ensures KeyAt(AT_PRODUCTION, "nginx") !in Released(was)
  {
    LabelsDiffer();
  }

  lemma ProductionIsGranted(was: Fields, now: Fields) returns (r: Run)
    ensures Reaches(r, Older(was, now), Anything(),
                    In(SpecOf(now), Released(was), Edited(was, now), 17, Fetching, Working(Job1(now), [Pushing])))
  {
    r := ProductionDiffers(was, now);
    OneDependency(GATE);
    StagingIsPromoted(now, was, SpecOf(now), 10);
    assert [Gating][0 := Pushing] == [Pushing];
    r := Move1(r, Older(was, now), Anything(), SpecOf(now), Released(was), Edited(was, now), 16, Fetching,
               Working(Job1(now), [Gating]), Child(0, Gate(0, true)), Working(Job1(now), [Pushing]));
  }

  lemma LastPush(was: Fields, now: Fields) returns (s': State)
    ensures var s := In(SpecOf(now), Released(was), Edited(was, now), 17, Fetching, Working(Job1(now), [Pushing]));
            Enabled(SETUP, s, Env(1, Child(0, PROMOTE))) && s' == Step(SETUP, s, Env(1, Child(0, PROMOTE)))
    ensures SETUP.key in s'.apps && s'.apps[SETUP.key].spec == SpecOf(now) && Stable(SETUP, s')
  {
    s' := Step(SETUP, In(SpecOf(now), Released(was), Edited(was, now), 17, Fetching, Working(Job1(now), [Pushing])),
               Env(1, Child(0, PROMOTE)));
  }

  lemma OlderThroughout(was: Fields, now: Fields, r: Run)
    requires Throughout(r, Older(was, now), Anything())
    ensures forall j | 0 <= j < |r.states| :: IsOlder(was, now, r.states[j])
  {
    forall j | 0 <= j < |r.states| ensures IsOlder(was, now, r.states[j]) {
      assert Older(was, now)(r.states[j]);
    }
  }

  /** Whoever selects the new content asks for a release that does not exist. */
  lemma NewContentIsNotReleased(was: Fields, now: Fields, spec: Spec, env: Environment)
    requires was != now && (spec == SpecOf(was) || spec == SpecOf(now)) && env in spec.environments
    requires ValuesArtifact(now) in TargetArtifacts(spec, env)
    ensures Target(TargetArtifacts(spec, env)) == Some(Release("2", Node(now)))
  {
    assert env == STAGING || env == PRODUCTION;
    SelectedArtifacts(was, STAGING, env);
    SelectedArtifacts(now, STAGING, env);
    assert ValuesArtifact(now) !in Wants(was);
    BothAskForARelease(now);
  }

  lemma NewContentNeverRan(was: Fields, now: Fields, r: Run, i: nat)
    requires was != now && |r.states| == |r.actions| + 1 && i < |r.states|
    requires forall j | 0 <= j <= i :: IsOlder(was, now, r.states[j])
    ensures !RanSomewhere(SETUP, r, i, "staging", ValuesArtifact(now))
  {
    forall j, at, f, k, env, artifacts | 0 <= j <= i && 0 <= f <= i
      && Fetched(SETUP, r, f, k, env, artifacts) && ValuesArtifact(now) in artifacts
      ensures !Holds(r.states[j].releases, KeyAt(at, SETUP.key.name), artifacts)
    {
      assert IsOlder(was, now, r.states[f]) && IsOlder(was, now, r.states[j]);
      NewContentIsNotReleased(was, now, r.states[f].apps[SETUP.key].spec, env);
    }
  }

  lemma WriterRanSomewhere(c: Setup, r: Run, q: nat, k: nat, name: string, a: Artifact)
    requires |r.states| == |r.actions| + 1
    requires WroteTruth(c, r, q, k, name, a) && Envs(r.states[q])[k].job.at != []
    ensures RanSomewhere(c, r, q, name, a)
  {
    var job := Envs(r.states[q])[k].job;
    var f := WriterListed(c, r, q, k, name, a);
    assert Ran(c, r, q, job.at[0], job.artifacts);
    var j :| RoundStart(r, q) <= j <= q && Holds(r.states[j].releases, KeyAt(job.at[0], c.key.name), job.artifacts);
    assert job.at[0] in CoordinatesOf(c.key.namespace, job.env.placement, c.clusters);
  }

  lemma ReallyRanSomewhere(c: Setup, r: Run, i: nat, name: string, a: Artifact)
    requires |r.states| == |r.actions| + 1 && ReallyRan(c, r, i, name, a)
    ensures RanSomewhere(c, r, i, name, a)
  {
    var q: nat, k: nat :| q < i && WroteTruth(c, r, q, k, name, a) && Envs(r.states[q])[k].job.at != [];
    WriterRanSomewhere(c, r, q, k, name, a);
  }

  /** Neither is there a truthful record of it. */
  lemma NewContentIsNotTruthful(now: Fields, r: Run, i: nat)
    requires |r.states| == |r.actions| + 1 && i < |r.states| && AlwaysPlaced(SETUP, r, {"staging"})
    requires !RanSomewhere(SETUP, r, i, "staging", ValuesArtifact(now))
    ensures !Truthful(SETUP, r, i, "staging", ValuesArtifact(now))
  {
    if Truthful(SETUP, r, i, "staging", ValuesArtifact(now)) {
      TruthfulRan(SETUP, r, {"staging"}, i, "staging", ValuesArtifact(now));
      ReallyRanSomewhere(SETUP, r, i, "staging", ValuesArtifact(now));
      assert false;
    }
  }

  lemma IsSound(content: Fields)
    ensures WellFormed(SpecOf(content), {"staging"}) && Placed(SETUP, SpecOf(content), {"staging"})
  {
    IsWellFormed(content);
    IsPlaced(content);
  }

  lemma IsPlaced(content: Fields)
    ensures Placed(SETUP, SpecOf(content), {"staging"})
  {
    LabelsDiffer();
    SelectedPlaces();
    assert SpecOf(content).environments == [STAGING, PRODUCTION];
    assert CoordinatesOf(SETUP.key.namespace, STAGING.placement, SETUP.clusters) == [AT_STAGING];
    assert PRODUCTION.name !in {"staging"};
  }

  lemma IsWellFormed(content: Fields)
    ensures WellFormed(SpecOf(content), {"staging"})
  {
    LabelsDiffer();
    OneDependency(GATE);
  }

  lemma AlwaysSound(was: Fields, now: Fields, r: Run)
    requires forall j | 0 <= j < |r.states| ::
      SETUP.key in r.states[j].apps &&
      (r.states[j].apps[SETUP.key].spec == SpecOf(was) || r.states[j].apps[SETUP.key].spec == SpecOf(now))
    ensures AlwaysWellFormed(SETUP, r, {"staging"}) && AlwaysPlaced(SETUP, r, {"staging"})
  {
    IsSound(was);
    IsSound(now);
  }

  /** The gate sees versions, not content. Whatever the two contents are, the configuration
      is well formed and placed, the spec is stable in every round, and still production is
      pushed, behind a gate that names the values artifact, with content that staging never
      ran. */
  lemma UnseenContent(was: Fields, now: Fields) returns (r: Run, i: nat)
    requires was != now
    ensures IsRun(SETUP, r) && Takes(r, i, 1, 0, PROMOTE)
    ensures Envs(r.states[i])[1].job == Job1(now) && GATE in Dependencies(PRODUCTION.constraints)
    ensures ValuesArtifact(now) in Job1(now).artifacts && ValuesArtifact(now).name in GATE.artifacts
    ensures forall j | 0 <= j < |r.states| :: Stable(SETUP, r.states[j])
    ensures AlwaysWellFormed(SETUP, r, {"staging"}) && AlwaysPlaced(SETUP, r, {"staging"})
    ensures !RanSomewhere(SETUP, r, i, "staging", ValuesArtifact(now))
    ensures !Truthful(SETUP, r, i, "staging", ValuesArtifact(now))
  {
    var before := ProductionIsGranted(was, now);
    i := |before.actions|;
    OneDependency(GATE);
    var s' := LastPush(was, now);
    OlderThroughout(was, now, before);
    r := Append(before, Env(1, Child(0, PROMOTE)), s');
    NewContentNeverRan(was, now, r, i);
    AlwaysSound(was, now, r);
    NewContentIsNotTruthful(now, r, i);
    assert Job1(now).artifacts[1] == ValuesArtifact(now) && GATE.artifacts[1] == "values";
  }
}
