/** Promotion safety: what a push behind a DependsOn gate guarantees, over every
    interleaving and any number of rounds, even if the spec is edited meanwhile. */
module Promotion {
  import opened Api
  import opened Artifacts
  import opened Placements
  import opened Helm
  import opened Recording
  import opened Protocol
  import opened Invariants

  // ------------------------------------------------------------- hypotheses

  /** The shape of examples/nginx-with-production-canary.yaml: at most one gate per
      environment, gated environments are placed dynamically, and gates name only
      `bases`, environments that have no constraints themselves. */
  predicate WellFormed(spec: Spec, bases: set<string>) {
    forall env | env in spec.environments ::
      && |Dependencies(env.constraints)| <= 1
      && (Dependencies(env.constraints) != [] ==> env.placement.DynamicPlacement?)
      && (forall d | d in Dependencies(env.constraints) :: d.environment in bases)
      && (env.name in bases ==> Unconstrained(env))
  }

  predicate AlwaysWellFormed(c: Setup, r: Run, bases: set<string>) {
    forall i | 0 <= i < |r.states| :: c.key in r.states[i].apps ==> WellFormed(r.states[i].apps[c.key].spec, bases)
  }

  /** Every base environment has a place to run in. */
  predicate Placed(c: Setup, spec: Spec, bases: set<string>) {
    forall env | env in spec.environments && env.name in bases ::
      CoordinatesOf(c.key.namespace, env.placement, c.clusters) != []
  }

  predicate AlwaysPlaced(c: Setup, r: Run, bases: set<string>) {
    forall i | 0 <= i < |r.states| :: c.key in r.states[i].apps ==> Placed(c, r.states[i].apps[c.key].spec, bases)
  }

  predicate Lists(c: Setup, s: State, a: Artifact) {
    c.key in s.apps && a in s.apps[c.key].spec.artifacts
  }

  /** An artifact is never changed without changing its version. */
  ghost predicate VersionsIdentify(c: Setup, r: Run) {
    forall i, j, a, b | 0 <= i < |r.states| && 0 <= j < |r.states| ::
      Lists(c, r.states[i], a) && Lists(c, r.states[j], b) && a.name == b.name && a.version == b.version ==> a == b
  }

  // ------------------------------------------------ what happened earlier

  /** At some step of the round that is running at `i`, the release at `at` was
      exactly what `artifacts` ask for. */
  ghost predicate Ran(c: Setup, r: Run, i: nat, at: Coordinates, artifacts: seq<Artifact>)
    requires i < |r.states| == |r.actions| + 1
  {
    exists j | RoundStart(r, i) <= j <= i :: Holds(r.states[j].releases, KeyAt(at, c.key.name), artifacts)
  }

  predicate Reached(run: PlacementRun) {
    run == Finished(InSync) || run == Finished(Pushed)
  }

  /** Every placement that finished well really ran its target in this round. */
  ghost predicate ReachedRan(c: Setup, r: Run, i: nat)
    requires i < |r.states| == |r.actions| + 1
  {
    forall k, p | 0 <= k < |Envs(r.states[i])| && 0 <= p < |RunsOf(Envs(r.states[i])[k])| ::
      Reached(RunsOf(Envs(r.states[i])[k])[p]) ==>
        var job := Envs(r.states[i])[k].job; p < |job.at| && Ran(c, r, i, job.at[p], job.artifacts)
  }

  lemma RanLater(c: Setup, r: Run, i: nat, at: Coordinates, artifacts: seq<Artifact>)
    requires i < |r.actions| && |r.states| == |r.actions| + 1
    requires !r.actions[i].Begin? && Ran(c, r, i, at, artifacts)
    ensures Ran(c, r, i + 1, at, artifacts)
  {
    var j :| RoundStart(r, i) <= j <= i && Holds(r.states[j].releases, KeyAt(at, c.key.name), artifacts);
    assert RoundStart(r, i + 1) == RoundStart(r, i);
  }

  lemma ReachedRanStep(c: Setup, r: Run, i: nat, k: nat, p: nat)
    requires Follows(c, r) && i < |r.actions| && ReachedRan(c, r, i)
    requires k < |Envs(r.states[i + 1])| && p < |RunsOf(Envs(r.states[i + 1])[k])|
    requires Reached(RunsOf(Envs(r.states[i + 1])[k])[p])
    ensures var job := Envs(r.states[i + 1])[k].job; p < |job.at| && Ran(c, r, i + 1, job.at[p], job.artifacts)
  {
    var s, a := r.states[i], r.actions[i];
    EnvFrame(c, s, a, k);
    var was, now := Envs(s)[k], Envs(r.states[i + 1])[k];
    var job := now.job;
    assert RoundStart(r, i + 1) == RoundStart(r, i);
    if a.Env? && a.k == k && a.act.Child? && a.act.p == p {
      var act := a.act.act;
      DiffSameIff(s.releases, KeyAt(job.at[p], c.key.name), job.artifacts);
      if act.Diff? {
        assert Holds(r.states[i].releases, KeyAt(job.at[p], c.key.name), job.artifacts);
      } else {
        assert act.Push?;
        PushThenDiff(s.releases, job.at[p], c.key.name, job.artifacts, act.cleaned);
        DiffSameIff(r.states[i + 1].releases, KeyAt(job.at[p], c.key.name), job.artifacts);
        assert Holds(r.states[i + 1].releases, KeyAt(job.at[p], c.key.name), job.artifacts);
      }
    } else {
      assert RunsOf(was)[p] == RunsOf(now)[p] && was.job == job;
      RanLater(c, r, i, job.at[p], job.artifacts);
    }
  }

  lemma {:induction false} ReachedRanAlways(c: Setup, r: Run, i: nat)
    requires FromRest(c, r) && i < |r.states|
    ensures ReachedRan(c, r, i)
  {
    if i > 0 {
      ReachedRanAlways(c, r, i - 1);
      forall k, p | 0 <= k < |Envs(r.states[i])| && 0 <= p < |RunsOf(Envs(r.states[i])[k])|
        && Reached(RunsOf(Envs(r.states[i])[k])[p])
        ensures var job := Envs(r.states[i])[k].job; p < |job.at| && Ran(c, r, i, job.at[p], job.artifacts)
      {
        ReachedRanStep(c, r, i - 1, k, p);
      }
    }
  }

  // ---------------------------------------------------- recorded versions

  /** Step `q` recorded `a` for environment `name`, as the spec then asked, and by
      then every place of the environment had run in that round the release that was
      being recorded. */
  ghost predicate WroteTruth(c: Setup, r: Run, q: nat, k: nat, name: string, a: Artifact)
    requires |r.states| == |r.actions| + 1
  {
    && q < |r.actions| && k < |Envs(r.states[q])|
    && r.actions[q] == Env(k, Write(true))
    && Commits(c, r.states[q], Envs(r.states[q])[k], Write(true))
    && var job := Envs(r.states[q])[k].job;
       && job.env.name == name
       && a in job.artifacts
       && FetchedIn(c, r, RoundStart(r, q), q, k, job.env, job.artifacts)
       && job.at == CoordinatesOf(c.key.namespace, job.env.placement, c.clusters)
       && forall p | 0 <= p < |job.at| :: Ran(c, r, q, job.at[p], job.artifacts)
  }

  ghost predicate Truthful(c: Setup, r: Run, i: nat, name: string, a: Artifact)
    requires |r.states| == |r.actions| + 1
  {
    exists q, k | 0 <= q < i :: WroteTruth(c, r, q, k, name, a)
  }

  /** Every version recorded for a base environment was really run. */
  ghost predicate RecordsTruthful(c: Setup, r: Run, i: nat, bases: set<string>)
    requires i < |r.states| == |r.actions| + 1
  {
    c.key in r.states[i].apps ==>
      var deployed := r.states[i].apps[c.key].status.deployed;
      forall name | name in bases && name in deployed :: forall n | n in deployed[name] ::
        deployed[name][n].name == n && Truthful(c, r, i, name, deployed[name][n])
  }

  lemma TruthfulLater(c: Setup, r: Run, i: nat, j: nat, name: string, a: Artifact)
    requires |r.states| == |r.actions| + 1 && i <= j && Truthful(c, r, i, name, a)
    ensures Truthful(c, r, j, name, a)
  {
    var q, k :| 0 <= q < i && WroteTruth(c, r, q, k, name, a);
  }

  /** An unconstrained environment records only what all its placements ran in that round. */
  lemma WriteIsTruthful(c: Setup, r: Run, i: nat, k: nat, a: Artifact)
    requires FromRest(c, r) && i < |r.actions|
    requires r.actions[i] == Env(k, Write(true))
    requires k < |Envs(r.states[i])| && Commits(c, r.states[i], Envs(r.states[i])[k], Write(true))
    requires Unconstrained(Envs(r.states[i])[k].job.env) && a in Envs(r.states[i])[k].job.artifacts
    ensures WroteTruth(c, r, i, k, Envs(r.states[i])[k].job.env.name, a)
  {
    AlwaysShaped(c, r, i);
    var f := JobOrigin(c, r, i, k);
    ReachedRanAlways(c, r, i);
    var run := Envs(r.states[i])[k];
    assert EnvShape(c, r.states[i].flow.config.environments[k].name, run);
    forall p | 0 <= p < |run.job.at| ensures Ran(c, r, i, run.job.at[p], run.job.artifacts) {
      assert Ungated(run.runs[p]) && run.runs[p].Finished?;
      assert RunsOf(run)[p] == run.runs[p];
      assert Reached(RunsOf(run)[p]);
    }
  }

  /** A job of a base environment has no constraints. */
  lemma BaseJobIsUnconstrained(c: Setup, r: Run, bases: set<string>, i: nat, k: nat)
    requires FromRest(c, r) && AlwaysWellFormed(c, r, bases) && i < |r.states|
    requires k < |Envs(r.states[i])| && HasJob(Envs(r.states[i])[k]) && Envs(r.states[i])[k].job.env.name in bases
    ensures Unconstrained(Envs(r.states[i])[k].job.env)
  {
    var f := JobOrigin(c, r, i, k);
    assert WellFormed(r.states[f].apps[c.key].spec, bases);
  }

  lemma CommitIsTruthful(c: Setup, r: Run, bases: set<string>, i: nat, k: nat, name: string, n: string)
    requires FromRest(c, r) && AlwaysWellFormed(c, r, bases) && i < |r.actions|
    requires RecordsTruthful(c, r, i, bases)
    requires r.actions[i] == Env(k, Write(true))
    requires k < |Envs(r.states[i])| && Commits(c, r.states[i], Envs(r.states[i])[k], Write(true))
    requires name in bases
    requires var deployed := r.states[i + 1].apps[c.key].status.deployed; name in deployed && n in deployed[name]
    ensures var a := r.states[i + 1].apps[c.key].status.deployed[name][n];
            a.name == n && Truthful(c, r, i + 1, name, a)
  {
    VersionsAlwaysOk(c, r, i);
    var run := Envs(r.states[i])[k];
    var was := r.states[i].apps[c.key].status.deployed;
    assert run.read == r.states[i].apps[c.key];
    var a := r.states[i + 1].apps[c.key].status.deployed[name][n];
    EnterLookup(EntriesOf(was, run.job.env.name), run.job.artifacts);
    if name == run.job.env.name && a in run.job.artifacts {
      BaseJobIsUnconstrained(c, r, bases, i, k);
      WriteIsTruthful(c, r, i, k, a);
    } else {
      TruthfulLater(c, r, i, i + 1, name, a);
    }
  }

  lemma {:induction false} RecordsTruthfulStep(c: Setup, r: Run, bases: set<string>, i: nat, name: string, n: string)
    requires FromRest(c, r) && AlwaysWellFormed(c, r, bases) && i < |r.actions|
    requires RecordsTruthful(c, r, i, bases) && c.key in r.states[i + 1].apps && name in bases
    requires var deployed := r.states[i + 1].apps[c.key].status.deployed; name in deployed && n in deployed[name]
    ensures var a := r.states[i + 1].apps[c.key].status.deployed[name][n];
            a.name == n && Truthful(c, r, i + 1, name, a)
  {
    var s, a := r.states[i], r.actions[i];
    if a.Env? && Commits(c, s, Envs(s)[a.k], a.act) {
      CommitIsTruthful(c, r, bases, i, a.k, name, n);
    } else {
      TruthfulLater(c, r, i, i + 1, name, r.states[i + 1].apps[c.key].status.deployed[name][n]);
    }
  }

  lemma {:induction false} RecordsTruthfulAlways(c: Setup, r: Run, bases: set<string>, i: nat)
    requires IsRun(c, r) && AlwaysWellFormed(c, r, bases) && i < |r.states|
    ensures RecordsTruthful(c, r, i, bases)
  {
    if i > 0 && c.key in r.states[i].apps {
      RecordsTruthfulAlways(c, r, bases, i - 1);
      var deployed: Deployed := r.states[i].apps[c.key].status.deployed;
      forall name, n | name in bases && name in deployed && n in deployed[name]
        ensures deployed[name][n].name == n && Truthful(c, r, i, name, deployed[name][n])
      {
        RecordsTruthfulStep(c, r, bases, i - 1, name, n);
      }
    }
  }

  // ---------------------------------------------------------------- gates

  /** At step `g` the gate of placement `p` of environment `k` was granted. */
  ghost predicate Granted(c: Setup, r: Run, g: nat, k: nat, p: nat, job: Job)
    requires |r.states| == |r.actions| + 1
  {
    && g < |r.actions| && p < |job.at|
    && exists which | 0 <= which < |Dependencies(job.env.constraints)| ::
         && r.actions[g] == Env(k, Child(p, Gate(which, true)))
         && GateHolds(c, r.states[g], job.at[p], Dependencies(job.env.constraints)[which])
  }

  /** The job was fetched and then its gate granted, both between `lo` and `hi`. */
  ghost predicate GrantedIn(c: Setup, r: Run, lo: nat, hi: nat, k: nat, p: nat, job: Job)
    requires |r.states| == |r.actions| + 1
  {
    exists f, g | lo <= f < g < hi :: Fetched(c, r, f, k, job.env, job.artifacts) && Granted(c, r, g, k, p, job)
  }

  lemma GrantedLater(c: Setup, r: Run, lo: nat, hi: nat, k: nat, p: nat, job: Job)
    requires |r.states| == |r.actions| + 1 && GrantedIn(c, r, lo, hi, k, p, job)
    ensures GrantedIn(c, r, lo, hi + 1, k, p, job)
  {
    var f, g :| lo <= f < g < hi && Fetched(c, r, f, k, job.env, job.artifacts) && Granted(c, r, g, k, p, job);
  }

  predicate PastGate(run: PlacementRun) {
    run.Canarying? || run.Pushing? || run == Finished(Pushed)
  }

  /** Whoever is past its gates in this round was granted one in this round. */
  ghost predicate GatesGranted(c: Setup, r: Run, i: nat)
    requires i < |r.states| == |r.actions| + 1
  {
    forall k, p | 0 <= k < |Envs(r.states[i])| && 0 <= p < |RunsOf(Envs(r.states[i])[k])| ::
      var job := Envs(r.states[i])[k].job;
      PastGate(RunsOf(Envs(r.states[i])[k])[p]) && Dependencies(job.env.constraints) != [] ==>
        GrantedIn(c, r, RoundStart(r, i), i, k, p, job)
  }

  lemma GatesGrantedStep(c: Setup, r: Run, i: nat, k: nat, p: nat)
    requires FromRest(c, r) && i < |r.actions| && GatesGranted(c, r, i)
    requires k < |Envs(r.states[i + 1])| && p < |RunsOf(Envs(r.states[i + 1])[k])|
    requires PastGate(RunsOf(Envs(r.states[i + 1])[k])[p])
    requires Dependencies(Envs(r.states[i + 1])[k].job.env.constraints) != []
    ensures GrantedIn(c, r, RoundStart(r, i + 1), i + 1, k, p, Envs(r.states[i + 1])[k].job)
  {
    var s, a := r.states[i], r.actions[i];
    EnvFrame(c, s, a, k);
    var was, now := Envs(s)[k], Envs(r.states[i + 1])[k];
    assert RoundStart(r, i + 1) == RoundStart(r, i);
    if a.Env? && a.k == k && a.act.Child? && a.act.p == p && a.act.act.Gate? {
      assert a == Env(k, Child(p, Gate(a.act.act.which, true)));
      var f := JobOrigin(c, r, i, k);
      assert Granted(c, r, i, k, p, now.job);
    } else {
      assert PastGate(RunsOf(was)[p]) && was.job == now.job;
      GrantedLater(c, r, RoundStart(r, i), i, k, p, was.job);
    }
  }

  lemma {:induction false} GatesGrantedAlways(c: Setup, r: Run, i: nat)
    requires FromRest(c, r) && i < |r.states|
    ensures GatesGranted(c, r, i)
  {
    if i > 0 {
      GatesGrantedAlways(c, r, i - 1);
      forall k, p | 0 <= k < |Envs(r.states[i])| && 0 <= p < |RunsOf(Envs(r.states[i])[k])|
        && PastGate(RunsOf(Envs(r.states[i])[k])[p]) && Dependencies(Envs(r.states[i])[k].job.env.constraints) != []
        ensures GrantedIn(c, r, RoundStart(r, i), i, k, p, Envs(r.states[i])[k].job)
      {
        GatesGrantedStep(c, r, i - 1, k, p);
      }
    }
  }

  // -------------------------------------------------------------- theorem

  /** Promotion safety. Step `i` pushes the main release to placement `p` of an
      environment gated on `dependency`. Then earlier in the same round the pushed
      artifacts were fetched from the spec (`f`), and after that (`g`) the dependency
      had recorded every named artifact at the version in the spec, which is the
      spec being pushed unless it was edited between `f` and `g`. For each of these
      records there is an earlier step that wrote it, by which every place of the
      dependency had run the release it was recording. */
  lemma PromotionSafety(c: Setup, r: Run, bases: set<string>, i: nat, k: nat, p: nat, act: PlacementAction,
                        dependency: Constraint)
    returns (f: nat, g: nat)
    requires IsRun(c, r) && AlwaysWellFormed(c, r, bases) && Takes(r, i, k, p, act) && act.Push?
    requires dependency in Dependencies(Envs(r.states[i])[k].job.env.constraints)
    ensures RoundStart(r, i) <= f < g < i
    ensures Fetched(c, r, f, k, Envs(r.states[i])[k].job.env, Envs(r.states[i])[k].job.artifacts)
    ensures c.key in r.states[g].apps
    ensures var job, app := Envs(r.states[i])[k].job, r.states[g].apps[c.key];
            && (app.spec == r.states[f].apps[c.key].spec ==> job.artifacts == TargetArtifacts(app.spec, job.env))
            && Promoted(app, dependency.environment, dependency.artifacts)
            && forall n | n in dependency.artifacts ::
                 var recorded := app.status.deployed[dependency.environment][n];
                 recorded.name == n && Truthful(c, r, g, dependency.environment, recorded)
  {
    var job := Envs(r.states[i])[k].job;
    AlwaysShaped(c, r, i);
    GatesGrantedAlways(c, r, i);
    assert EnvShape(c, r.states[i].flow.config.environments[k].name, Envs(r.states[i])[k]);
    assert PastGate(RunsOf(Envs(r.states[i])[k])[p]);
    f, g :| RoundStart(r, i) <= f < g < i
      && Fetched(c, r, f, k, job.env, job.artifacts) && Granted(c, r, g, k, p, job);
    assert WellFormed(r.states[f].apps[c.key].spec, bases);
    GrantMeansPromoted(c, r, g, k, p, job, dependency);
    RecordsTruthfulAlways(c, r, bases, g);
    var deployed: Deployed := r.states[g].apps[c.key].status.deployed;
    assert dependency.environment in bases && dependency.environment in deployed;
  }

  /** A granted gate read the Application itself and found the dependency promoted. */
  lemma GrantMeansPromoted(c: Setup, r: Run, g: nat, k: nat, p: nat, job: Job, dependency: Constraint)
    requires |r.states| == |r.actions| + 1 && Granted(c, r, g, k, p, job)
    requires job.env.placement.DynamicPlacement?
    requires job.at == CoordinatesOf(c.key.namespace, job.env.placement, c.clusters)
    requires |Dependencies(job.env.constraints)| <= 1 && dependency in Dependencies(job.env.constraints)
    ensures c.key in r.states[g].apps
    ensures Promoted(r.states[g].apps[c.key], dependency.environment, dependency.artifacts)
  {
    DynamicCoordinatesAreLocal(c.key.namespace, job.env.placement, c.clusters);
    assert job.at[p].namespace == c.key.namespace;
    assert ObjectKey(job.at[p].namespace, c.key.name) == c.key;
    assert Dependencies(job.env.constraints)[0] == dependency;
  }

  // -------------------------------------------------------- what really ran

  /** A truthful record of `a` was written before `i` by an environment that had a place,
      so `a` was part of a release at every one of its places. */
  ghost predicate ReallyRan(c: Setup, r: Run, i: nat, name: string, a: Artifact)
    requires |r.states| == |r.actions| + 1
  {
    exists q: nat, k: nat | q < i :: WroteTruth(c, r, q, k, name, a) && Envs(r.states[q])[k].job.at != []
  }

  /** What was selected from a spec is listed in it. */
  lemma FetchedIsListed(c: Setup, r: Run, f: nat, k: nat, env: Environment, artifacts: seq<Artifact>, a: Artifact)
    requires |r.states| == |r.actions| + 1 && Fetched(c, r, f, k, env, artifacts) && a in artifacts
    ensures Lists(c, r.states[f], a)
  {
    FilterMembers(env.requiredArtifacts, ByName(r.states[f].apps[c.key].spec.artifacts));
    ByNameIsListed(r.states[f].apps[c.key].spec.artifacts);
  }

  lemma WriterListed(c: Setup, r: Run, q: nat, k: nat, name: string, a: Artifact) returns (f: nat)
    requires |r.states| == |r.actions| + 1 && WroteTruth(c, r, q, k, name, a)
    ensures RoundStart(r, q) <= f < q && Lists(c, r.states[f], a)
    ensures Fetched(c, r, f, k, Envs(r.states[q])[k].job.env, Envs(r.states[q])[k].job.artifacts)
  {
    var job := Envs(r.states[q])[k].job;
    f :| RoundStart(r, q) <= f < q && Fetched(c, r, f, k, job.env, job.artifacts);
    FetchedIsListed(c, r, f, k, job.env, job.artifacts, a);
  }

  /** A record written by an environment that has a place stands for releases. */
  lemma TruthfulRan(c: Setup, r: Run, bases: set<string>, i: nat, name: string, a: Artifact)
    requires |r.states| == |r.actions| + 1 && AlwaysPlaced(c, r, bases) && name in bases && i < |r.states|
    requires Truthful(c, r, i, name, a)
    ensures ReallyRan(c, r, i, name, a)
  {
    var q: nat, k: nat :| 0 <= q < i && WroteTruth(c, r, q, k, name, a);
    var f := WriterListed(c, r, q, k, name, a);
    assert Placed(c, r.states[f].apps[c.key].spec, bases);
  }

  /** When versions identify artifacts, the recorded artifact is the one in the spec. */
  lemma PromotedIsTheArtifact(c: Setup, r: Run, g: nat, name: string, names: seq<string>, n: string)
    requires |r.states| == |r.actions| + 1 && VersionsIdentify(c, r) && g < |r.states|
    requires c.key in r.states[g].apps && Promoted(r.states[g].apps[c.key], name, names) && n in names
    requires Truthful(c, r, g, name, r.states[g].apps[c.key].status.deployed[name][n])
    requires r.states[g].apps[c.key].status.deployed[name][n].name == n
    ensures r.states[g].apps[c.key].status.deployed[name][n] == ByName(r.states[g].apps[c.key].spec.artifacts)[n]
  {
    var app := r.states[g].apps[c.key];
    var a, b := app.status.deployed[name][n], ByName(app.spec.artifacts)[n];
    var q: nat, k: nat :| 0 <= q < g && WroteTruth(c, r, q, k, name, a);
    var f := WriterListed(c, r, q, k, name, a);
    ByNameIsListed(app.spec.artifacts);
    assert Lists(c, r.states[g], b);
  }

  /** If artifacts change only with their versions, then behind each artifact named by the
      gate stands a truthful record of the very artifact the spec has when the gate is
      granted: content, not only version, at every place of the dependency. If the
      environments that gates name have places, the recorded artifact really ran. */
  lemma {:induction false} PromotedArtifactsRan(c: Setup, r: Run, bases: set<string>, i: nat, k: nat, p: nat,
                                                act: PlacementAction, dependency: Constraint)
    returns (f: nat, g: nat)
    requires IsRun(c, r) && AlwaysWellFormed(c, r, bases) && Takes(r, i, k, p, act) && act.Push?
    requires dependency in Dependencies(Envs(r.states[i])[k].job.env.constraints)
    ensures RoundStart(r, i) <= f < g < i && c.key in r.states[g].apps
    ensures Fetched(c, r, f, k, Envs(r.states[i])[k].job.env, Envs(r.states[i])[k].job.artifacts)
    ensures Promoted(r.states[g].apps[c.key], dependency.environment, dependency.artifacts)
    ensures VersionsIdentify(c, r) ==>
              forall n | n in dependency.artifacts ::
                var asked := ByName(r.states[g].apps[c.key].spec.artifacts)[n];
                && r.states[g].apps[c.key].status.deployed[dependency.environment][n] == asked
                && Truthful(c, r, g, dependency.environment, asked)
    ensures AlwaysPlaced(c, r, bases) ==>
              forall n | n in dependency.artifacts ::
                ReallyRan(c, r, g, dependency.environment,
                          r.states[g].apps[c.key].status.deployed[dependency.environment][n])
  {
    f, g := PromotionSafety(c, r, bases, i, k, p, act, dependency);
    assert WellFormed(r.states[f].apps[c.key].spec, bases);
    var name, names := dependency.environment, dependency.artifacts;
    forall n | n in names
      ensures VersionsIdentify(c, r) ==>
                r.states[g].apps[c.key].status.deployed[name][n] == ByName(r.states[g].apps[c.key].spec.artifacts)[n]
      ensures AlwaysPlaced(c, r, bases) ==>
                ReallyRan(c, r, g, name, r.states[g].apps[c.key].status.deployed[name][n])
    {
      if VersionsIdentify(c, r) { PromotedIsTheArtifact(c, r, g, name, names, n); }
      if AlwaysPlaced(c, r, bases) {
        TruthfulRan(c, r, bases, g, name, r.states[g].apps[c.key].status.deployed[name][n]);
      }
    }
  }

  /** An environment has a place exactly when it is placed statically or some cluster
      carries every label it selects. */
  lemma PlacedIff(parentNamespace: string, placement: Placement, clusters: seq<Cluster>)
    ensures CoordinatesOf(parentNamespace, placement, clusters) != [] <==>
            placement.StaticPlacement? || exists x | x in clusters :: placement.selector.Items <= x.labels.Items
  {
    if placement.DynamicPlacement? {
      var idx := SelectedIsSubsequence(clusters, placement.selector, parentNamespace);
      if idx != [] { assert placement.selector.Items <= clusters[idx[0]].labels.Items; }
    }
  }

  /** When a record is of the dependency's chart, the release each placement ran
      had the recorded chart version. */
  lemma RecordedChartVersionRan(c: Setup, r: Run, q: nat, k: nat, name: string, chart: Artifact, p: nat)
    returns (j: nat)
    requires FromRest(c, r) && WroteTruth(c, r, q, k, name, chart)
    requires FirstOfKind(Envs(r.states[q])[k].job.artifacts, HELM_CHART) == Some(chart)
    requires p < |Envs(r.states[q])[k].job.at|
    ensures RoundStart(r, q) <= j <= q
    ensures var key := KeyAt(Envs(r.states[q])[k].job.at[p], c.key.name);
            key in r.states[j].releases && r.states[j].releases[key].version == chart.version
  {
    var job := Envs(r.states[q])[k].job;
    assert Ran(c, r, q, job.at[p], job.artifacts);
    j :| RoundStart(r, q) <= j <= q && Holds(r.states[j].releases, KeyAt(job.at[p], c.key.name), job.artifacts);
  }

  // ------------------------------------------------- records stay until use

  /** A commit of a workflow that works on the current spec cannot undo a promotion. */
  lemma CommitKeepsPromoted(c: Setup, s: State, a: Action, name: string, names: seq<string>)
    requires Enabled(c, s, a) && EnvsOk(c, s) && VersionsOk(c, s) && Stable(c, s)
    requires c.key in s.apps && Promoted(s.apps[c.key], name, names)
    requires a.External? ==> a.key != c.key
    ensures c.key in Step(c, s, a).apps && Promoted(Step(c, s, a).apps[c.key], name, names)
  {
    if a.Env? && Commits(c, s, Envs(s)[a.k], a.act) {
      var run, app := Envs(s)[a.k], s.apps[c.key];
      assert run.read == app;
      var byName := ByName(app.spec.artifacts);
      EnterLookup(EntriesOf(app.status.deployed, run.job.env.name), run.job.artifacts);
      FilterMembers(run.job.env.requiredArtifacts, byName);
      ByNameIsListed(app.spec.artifacts);
    }
  }

  lemma StepKeepsPromoted(c: Setup, r: Run, i: nat, name: string, names: seq<string>)
    requires FromRest(c, r) && i < |r.actions| && StableRound(c, r, i)
    requires c.key in r.states[i].apps && Promoted(r.states[i].apps[c.key], name, names)
    requires r.actions[i].External? ==> r.actions[i].key != c.key
    ensures c.key in r.states[i + 1].apps && Promoted(r.states[i + 1].apps[c.key], name, names)
  {
    StatesOk(c, r, i);
    CommitKeepsPromoted(c, r.states[i], r.actions[i], name, names);
  }

  lemma {:induction false} Carried(holds: seq<bool>, g: nat, i: nat)
    requires g <= i < |holds| && holds[g]
    requires forall j | g <= j < i :: holds[j] ==> holds[j + 1]
    ensures holds[i]
  {
    if g < i { Carried(holds, g, i - 1); }
  }

  predicate PromotedIn(c: Setup, s: State, name: string, names: seq<string>) {
    c.key in s.apps && Promoted(s.apps[c.key], name, names)
  }

  lemma {:induction false} PromotedFrom(c: Setup, r: Run, g: nat, i: nat, name: string, names: seq<string>)
    requires FromRest(c, r) && i < |r.states| && RoundStart(r, i) <= g <= i && StableRound(c, r, i)
    requires PromotedIn(c, r.states[g], name, names)
    requires forall j | g <= j < i :: r.actions[j].External? ==> r.actions[j].key != c.key
    ensures PromotedIn(c, r.states[i], name, names)
  {
    var holds := seq(|r.states|, j requires 0 <= j < |r.states| => PromotedIn(c, r.states[j], name, names));
    forall j | g <= j < i && holds[j] ensures holds[j + 1] {
      StableEarlier(c, r, j, i);
      StepKeepsPromoted(c, r, j, name, names);
    }
    Carried(holds, g, i);
  }

  lemma {:induction false} StableEarlier(c: Setup, r: Run, j: nat, i: nat)
    requires |r.states| == |r.actions| + 1 && i < |r.states| && RoundStart(r, i) <= j <= i && StableRound(c, r, i)
    ensures StableRound(c, r, j)
  {
    RoundStartEarlier(r, j, i);
  }

  lemma {:induction false} RoundStartEarlier(r: Run, j: nat, i: nat)
    requires i <= |r.actions| && RoundStart(r, i) <= j <= i
    ensures RoundStart(r, j) == RoundStart(r, i)
  {
    if j < i { RoundStartEarlier(r, j, i - 1); }
  }

  /** If nobody touches the Application object from outside during the round, the
      dependency is still recorded at the pushed versions when the push happens. */
  lemma RecordedAtPush(c: Setup, r: Run, bases: set<string>, i: nat, k: nat, p: nat, act: PlacementAction,
                       dependency: Constraint)
    requires IsRun(c, r) && AlwaysWellFormed(c, r, bases) && Takes(r, i, k, p, act) && act.Push?
    requires dependency in Dependencies(Envs(r.states[i])[k].job.env.constraints)
    requires StableRound(c, r, i)
    requires forall j | RoundStart(r, i) <= j < i :: r.actions[j].External? ==> r.actions[j].key != c.key
    ensures c.key in r.states[i].apps
    ensures Promoted(r.states[i].apps[c.key], dependency.environment, dependency.artifacts)
    ensures var job := Envs(r.states[i])[k].job; job.artifacts == TargetArtifacts(r.states[i].apps[c.key].spec, job.env)
  {
    var f, g := PromotionSafety(c, r, bases, i, k, p, act, dependency);
    PromotedFrom(c, r, g, i, dependency.environment, dependency.artifacts);
    StatesOk(c, r, i);
    assert EnvOk(c, r.states[i].flow.config, r.states[i].flow.config.environments[k].name, Envs(r.states[i])[k]);
    assert Stable(c, r.states[i]);
  }
}
