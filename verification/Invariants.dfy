/** What every reachable state of the protocol keeps. */
module Invariants {
  import opened Api
  import opened Artifacts
  import opened Placements
  import opened Helm
  import opened Recording
  import opened Protocol

  // -------------------------------------------------------------- shapes

  predicate Unconstrained(env: Environment) {
    Dependencies(env.constraints) == [] && Canaries(env.constraints) == []
  }

  predicate HasJob(run: EnvRun) {
    run.Working? || run.Reading? || run.Writing?
  }

  function RunsOf(run: EnvRun): seq<PlacementRun> {
    if HasJob(run) then run.runs else []
  }

  /** A placement of an unconstrained environment is never at a gate. */
  predicate Ungated(run: PlacementRun) {
    run.Diffing? || run.Pushing? || (run.Finished? && run.outcome != Denied)
  }

  /** A placement waits only for gates and canaries that exist. */
  predicate Shaped(env: Environment, run: PlacementRun) {
    && (run.Gating? ==> Dependencies(env.constraints) != [])
    && (run.Canarying? ==>
          Canaries(env.constraints) != [] && forall w | w in run.waiting :: w < |Canaries(env.constraints)|)
  }

  predicate RunsShaped(env: Environment, runs: seq<PlacementRun>) {
    && (forall p | 0 <= p < |runs| :: Shaped(env, runs[p]))
    && (Unconstrained(env) ==> forall p | 0 <= p < |runs| :: Ungated(runs[p]))
  }

  /** What holds of an environment workflow even if the spec changes under it. */
  predicate EnvShape(c: Setup, name: string, run: EnvRun) {
    && (run.Placing? ==> run.env.name == name)
    && (HasJob(run) ==>
          && run.job.env.name == name
          && run.job.at == CoordinatesOf(c.key.namespace, run.job.env.placement, c.clusters)
          && |run.runs| == |run.job.at|
          && RunsShaped(run.job.env, run.runs))
    && (run.Reading? || run.Writing? ==> AllFinished(run.runs) && NoneFailed(run.runs))
  }

  predicate EnvsShaped(c: Setup, s: State) {
    s.flow.Round? ==>
      && |s.flow.envs| == |s.flow.config.environments|
      && forall k | 0 <= k < |s.flow.envs| :: EnvShape(c, s.flow.config.environments[k].name, s.flow.envs[k])
  }

  /** The first environment of the name is found, or none has it. */
  lemma {:induction false} FindEnvironmentFinds(envs: seq<Environment>, name: string)
    ensures var found := FindEnvironment(envs, name);
            found.Some? ==> found.value in envs && found.value.name == name
    ensures FindEnvironment(envs, name).None? <==> forall e | e in envs :: e.name != name
    ensures forall i | 0 <= i < |envs| && envs[i].name == name && (forall j | 0 <= j < i :: envs[j].name != name) ::
              FindEnvironment(envs, name) == Some(envs[i])
  {
    if envs != [] {
      FindEnvironmentFinds(envs[1..], name);
      forall i | 0 < i < |envs| && envs[i].name == name && (forall j | 0 <= j < i :: envs[j].name != name)
        ensures FindEnvironment(envs, name) == Some(envs[i])
      {
        assert envs[1..][i - 1] == envs[i] && envs[0].name != name;
        assert forall j | 0 <= j < i - 1 :: envs[1..][j] == envs[j + 1];
      }
    }
  }

  lemma EnvShapeNext(c: Setup, s: State, name: string, run: EnvRun, act: EnvAction)
    requires EnvEnabled(run, act) && EnvShape(c, name, run)
    ensures EnvShape(c, name, EnvNext(c, s, name, run, act))
  {
    if act.Fetch? && c.key in s.apps { FindEnvironmentFinds(s.apps[c.key].spec.environments, name); }
  }

  lemma EnvsShapedStep(c: Setup, s: State, a: Action)
    requires Enabled(c, s, a) && EnvsShaped(c, s)
    ensures EnvsShaped(c, Step(c, s, a))
  {
    var s' := Step(c, s, a);
    if s'.flow.Round? && !a.Begin? {
      forall k | 0 <= k < |s'.flow.envs|
        ensures EnvShape(c, s'.flow.config.environments[k].name, s'.flow.envs[k])
      {
        EnvFrame(c, s, a, k);
        if a.Env? && a.k == k {
          EnvShapeNext(c, s, s.flow.config.environments[k].name, s.flow.envs[k], a.act);
        }
      }
    }
  }

  lemma {:induction false} AlwaysShaped(c: Setup, r: Run, i: nat)
    requires FromRest(c, r) && i < |r.states|
    ensures EnvsShaped(c, r.states[i])
  {
    if i > 0 {
      AlwaysShaped(c, r, i - 1);
      EnvsShapedStep(c, r.states[i - 1], r.actions[i - 1]);
    }
  }

  // -------------------------------------------- one workflow for each name

  predicate IsRepeat(spec: Spec, k: nat)
    requires k < |spec.environments|
  {
    exists j | 0 <= j < k :: spec.environments[j].name == spec.environments[k].name
  }

  /** Of the environments with one name only the first has a workflow in a round. */
  predicate OnePerName(s: State) {
    s.flow.Round? ==>
      forall k | 0 <= k < |s.flow.envs| && k < |s.flow.config.environments| && IsRepeat(s.flow.config, k) ::
        s.flow.envs[k] == Done(false)
  }

  lemma OnePerNameStep(c: Setup, s: State, a: Action)
    requires Enabled(c, s, a) && OnePerName(s)
    ensures OnePerName(Step(c, s, a))
    ensures a.Begin? && Step(c, s, a).flow.Round? ==>
              forall k | 0 <= k < |Step(c, s, a).flow.envs| && !IsRepeat(Step(c, s, a).flow.config, k) ::
                Step(c, s, a).flow.envs[k] == Fetching
  {
  }

  /** In every reachable state at most one workflow of an environment name is at work, and
      each round starts one for every name. */
  lemma {:induction false} AlwaysOnePerName(c: Setup, r: Run, i: nat)
    requires FromRest(c, r) && i < |r.states|
    ensures OnePerName(r.states[i])
    ensures i > 0 && r.actions[i - 1].Begin? && r.states[i].flow.Round? ==>
              |r.states[i].flow.envs| == |r.states[i].flow.config.environments| &&
              forall k | 0 <= k < |r.states[i].flow.envs| && !IsRepeat(r.states[i].flow.config, k) ::
                r.states[i].flow.envs[k] == Fetching
  {
    AlwaysShaped(c, r, i);
    if i > 0 {
      AlwaysOnePerName(c, r, i - 1);
      OnePerNameStep(c, r.states[i - 1], r.actions[i - 1]);
    }
  }

  // ---------------------------------------------------- resource versions

  /** Resource versions identify what was read. */
  predicate VersionsOk(c: Setup, s: State) {
    && (forall key | key in s.apps :: s.apps[key].meta.resourceVersion < s.clock)
    && forall k | 0 <= k < |Envs(s)| :: Envs(s)[k].Writing? ==> ReadOk(c, s, Envs(s)[k].read)
  }

  predicate ReadOk(c: Setup, s: State, read: Application) {
    && read.meta.resourceVersion < s.clock
    && (c.key in s.apps && s.apps[c.key].meta.resourceVersion == read.meta.resourceVersion ==> s.apps[c.key] == read)
  }

  lemma VersionsOkStep(c: Setup, s: State, a: Action)
    requires Enabled(c, s, a) && VersionsOk(c, s)
    ensures VersionsOk(c, Step(c, s, a))
  {
    var s' := Step(c, s, a);
    forall k | 0 <= k < |Envs(s')| && Envs(s')[k].Writing?
      ensures ReadOk(c, s', Envs(s')[k].read)
    {
      EnvFrame(c, s, a, k);
    }
  }

  lemma {:induction false} VersionsAlwaysOk(c: Setup, r: Run, i: nat)
    requires FromRest(c, r) && i < |r.states|
    ensures VersionsOk(c, r.states[i])
  {
    if i > 0 {
      VersionsAlwaysOk(c, r, i - 1);
      VersionsOkStep(c, r.states[i - 1], r.actions[i - 1]);
    }
  }

  // -------------------------------------------- where a job comes from

  predicate Knows(run: EnvRun) {
    run.Placing? || HasJob(run)
  }

  function EnvOf(run: EnvRun): Environment
    requires Knows(run)
  {
    if run.Placing? then run.env else run.job.env
  }

  function ArtifactsOf(run: EnvRun): seq<Artifact>
    requires Knows(run)
  {
    if run.Placing? then run.artifacts else run.job.artifacts
  }

  /** At step `f` environment workflow `k` read the spec that gave it `env` and `artifacts`. */
  predicate Fetched(c: Setup, r: Run, f: nat, k: nat, env: Environment, artifacts: seq<Artifact>)
    requires |r.states| == |r.actions| + 1
  {
    && f < |r.actions| && r.actions[f] == Env(k, Fetch(true)) && c.key in r.states[f].apps
    && var spec := r.states[f].apps[c.key].spec;
       env in spec.environments && artifacts == TargetArtifacts(spec, env)
  }

  ghost predicate FetchedIn(c: Setup, r: Run, lo: nat, hi: nat, k: nat, env: Environment, artifacts: seq<Artifact>)
    requires |r.states| == |r.actions| + 1
  {
    exists f | lo <= f < hi :: Fetched(c, r, f, k, env, artifacts)
  }

  ghost predicate OriginsKnown(c: Setup, r: Run, i: nat)
    requires i < |r.states| == |r.actions| + 1
  {
    forall k | 0 <= k < |Envs(r.states[i])| && Knows(Envs(r.states[i])[k]) ::
      FetchedIn(c, r, RoundStart(r, i), i, k, EnvOf(Envs(r.states[i])[k]), ArtifactsOf(Envs(r.states[i])[k]))
  }

  lemma OriginsKnownStep(c: Setup, r: Run, i: nat, k: nat)
    requires Follows(c, r) && i < |r.actions| && OriginsKnown(c, r, i)
    requires k < |Envs(r.states[i + 1])| && Knows(Envs(r.states[i + 1])[k])
    ensures var now := Envs(r.states[i + 1])[k];
            FetchedIn(c, r, RoundStart(r, i + 1), i + 1, k, EnvOf(now), ArtifactsOf(now))
  {
    var s, a := r.states[i], r.actions[i];
    EnvFrame(c, s, a, k);
    var was, now := Envs(s)[k], Envs(r.states[i + 1])[k];
    assert RoundStart(r, i + 1) == RoundStart(r, i);
    if a.Env? && a.k == k && a.act.Fetch? {
      FindEnvironmentFinds(s.apps[c.key].spec.environments, s.flow.config.environments[k].name);
      assert Fetched(c, r, i, k, EnvOf(now), ArtifactsOf(now));
    } else {
      assert Knows(was) && EnvOf(was) == EnvOf(now) && ArtifactsOf(was) == ArtifactsOf(now);
      var f :| RoundStart(r, i) <= f < i && Fetched(c, r, f, k, EnvOf(was), ArtifactsOf(was));
    }
  }

  /** Every environment workflow works on what the spec said at a step of its round. */
  lemma {:induction false} OriginsAlwaysKnown(c: Setup, r: Run, i: nat)
    requires FromRest(c, r) && i < |r.states|
    ensures OriginsKnown(c, r, i)
  {
    if i > 0 {
      OriginsAlwaysKnown(c, r, i - 1);
      forall k | 0 <= k < |Envs(r.states[i])| && Knows(Envs(r.states[i])[k])
        ensures var now := Envs(r.states[i])[k];
                FetchedIn(c, r, RoundStart(r, i), i, k, EnvOf(now), ArtifactsOf(now))
      {
        OriginsKnownStep(c, r, i - 1, k);
      }
    }
  }

  lemma JobOrigin(c: Setup, r: Run, i: nat, k: nat) returns (f: nat)
    requires FromRest(c, r) && i < |r.states| && k < |Envs(r.states[i])| && HasJob(Envs(r.states[i])[k])
    ensures RoundStart(r, i) <= f < i
    ensures Fetched(c, r, f, k, Envs(r.states[i])[k].job.env, Envs(r.states[i])[k].job.artifacts)
  {
    OriginsAlwaysKnown(c, r, i);
    var run := Envs(r.states[i])[k];
    assert FetchedIn(c, r, RoundStart(r, i), i, k, EnvOf(run), ArtifactsOf(run));
    f :| RoundStart(r, i) <= f < i && Fetched(c, r, f, k, EnvOf(run), ArtifactsOf(run));
  }

  // ------------------------------------------------ while the spec is stable

  /** While a round is running the spec is the one the round began with. */
  predicate Stable(c: Setup, s: State) {
    s.flow.Round? && c.key in s.apps ==> s.apps[c.key].spec == s.flow.config
  }

  /** The spec did not change since the round that is running at `i` began. */
  predicate StableRound(c: Setup, r: Run, i: nat)
    requires i < |r.states| == |r.actions| + 1
  {
    forall j | RoundStart(r, i) <= j <= i :: Stable(c, r.states[j])
  }

  predicate JobOk(c: Setup, config: Spec, name: string, job: Job) {
    && job.env in config.environments
    && job.env.name == name
    && job.artifacts == TargetArtifacts(config, job.env)
    && job.at == CoordinatesOf(c.key.namespace, job.env.placement, c.clusters)
  }

  /** An environment workflow works on what the round's spec says. */
  predicate EnvOk(c: Setup, config: Spec, name: string, run: EnvRun) {
    && EnvShape(c, name, run)
    && (Knows(run) ==> EnvOf(run) in config.environments && ArtifactsOf(run) == TargetArtifacts(config, EnvOf(run)))
  }

  predicate EnvsOk(c: Setup, s: State) {
    s.flow.Round? ==>
      && |s.flow.envs| == |s.flow.config.environments|
      && forall k | 0 <= k < |s.flow.envs| ::
           EnvOk(c, s.flow.config, s.flow.config.environments[k].name, s.flow.envs[k])
  }

  lemma {:induction false} SameRound(c: Setup, r: Run, g: nat, i: nat)
    requires Follows(c, r) && i < |r.states| && RoundStart(r, i) <= g <= i
    requires r.states[i].flow.Round?
    ensures r.states[g].flow.Round? && r.states[g].flow.config == r.states[i].flow.config
  {
    if g < i {
      assert RoundStart(r, i) != i;
      SameRound(c, r, g, i - 1);
    }
  }

  /** In a round with a stable spec everybody works on that spec. */
  lemma StatesOk(c: Setup, r: Run, i: nat)
    requires FromRest(c, r) && i < |r.states| && StableRound(c, r, i)
    ensures EnvsOk(c, r.states[i]) && VersionsOk(c, r.states[i])
  {
    VersionsAlwaysOk(c, r, i);
    AlwaysShaped(c, r, i);
    OriginsAlwaysKnown(c, r, i);
    var s := r.states[i];
    if s.flow.Round? {
      forall k | 0 <= k < |s.flow.envs| && Knows(s.flow.envs[k])
        ensures EnvOk(c, s.flow.config, s.flow.config.environments[k].name, s.flow.envs[k])
      {
        var run := Envs(r.states[i])[k];
        assert FetchedIn(c, r, RoundStart(r, i), i, k, EnvOf(run), ArtifactsOf(run));
        var f :| RoundStart(r, i) <= f < i && Fetched(c, r, f, k, EnvOf(run), ArtifactsOf(run));
        SameRound(c, r, f, i);
        assert Stable(c, r.states[f]);
      }
    }
  }
}
