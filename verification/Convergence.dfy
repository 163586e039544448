/** What rounds achieve when no call fails and nobody interferes, under any schedule:
    recordings of environments may overlap and then spoil one another. */
module Convergence {
  import opened Values
  import opened Api
  import opened Artifacts
  import opened Placements
  import opened Helm
  import opened Recording
  import opened Protocol
  import opened Invariants
  import opened Promotion
  import opened Serial

  // ---------------------------------------------------------------- frames

  /** A placement step leaves the main release of any OTHER place alone, and every
      main release unless it is a main push. */
  lemma PlacementFrame(c: Setup, releases: Releases, job: Job, at: Coordinates, run: PlacementRun,
                       act: PlacementAction, where: Coordinates)
    requires PlacementEnabled(job, run, act)
    requires at != where || !act.Push?
    ensures SameAt(releases, PlacementReleases(c, releases, job, at, run, act), KeyAt(where, c.key.name))
  {
    var name := c.key.name;
    assert |CanaryName(CanaryName(name))| > |CanaryName(name)| > |name|;
  }

  // ------------------------------------------------------------ hypotheses

  function PlacesOf(c: Setup, spec: Spec, k: nat): seq<Coordinates>
    requires k < |spec.environments|
  {
    CoordinatesOf(c.key.namespace, spec.environments[k].placement, c.clusters)
  }

  function ArtifactsAt(spec: Spec, k: nat): seq<Artifact>
    requires k < |spec.environments|
  {
    TargetArtifacts(spec, spec.environments[k])
  }

  predicate DistinctEnvironments(spec: Spec) {
    forall j, k | 0 <= j < k < |spec.environments| :: spec.environments[j].name != spec.environments[k].name
  }

  /** No two environments share a place. */
  predicate Disjoint(c: Setup, spec: Spec) {
    forall j, k | 0 <= j < |spec.environments| && 0 <= k < |spec.environments| && j != k ::
      forall at | at in PlacesOf(c, spec, j) :: at !in PlacesOf(c, spec, k)
  }

  /** A gate that an existing environment can satisfy by recording what it requires. */
  predicate Satisfiable(spec: Spec, d: Constraint)
    requires d.DependsOn?
  {
    exists j | 0 <= j < |spec.environments| ::
      && spec.environments[j].name == d.environment
      && forall n | n in d.artifacts :: n in spec.environments[j].requiredArtifacts && n in ByName(spec.artifacts)
  }

  /** Every environment asks for a chart and values, its gates can be satisfied and
      are looked up where the Application lives, and its canary times parse. */
  predicate Complete(spec: Spec) {
    forall k | 0 <= k < |spec.environments| ::
      var env := spec.environments[k];
      && Target(ArtifactsAt(spec, k)).Some?
      && (forall d | d in Dependencies(env.constraints) :: env.placement.DynamicPlacement? && Satisfiable(spec, d))
      && (forall h | h in Canaries(env.constraints) :: h.ttl.Some?)
  }

  predicate Convergeable(c: Setup, spec: Spec) {
    DistinctEnvironments(spec) && Disjoint(c, spec) && Complete(spec)
  }

  /** A step of the operator itself in which no call fails. A status write may still
      be refused because another environment's write overtook it. */
  predicate Clean(a: Action) {
    match a
    case Begin(ok) => ok
    case End => true
    case Env(k, act) => (
      match act
      case Fetch(ok) => ok
      case Place(ok) => ok
      case Collect => true
      case Read(ok) => ok
      case Write(ok) => ok
      case Child(_, x) => (
        match x
        case Diff(ok) => ok
        case Gate(_, ok) => ok
        case CheckFails => false
        case PushCanary(_, ok, _, _) => ok
        case EndCanary(_) => true
        case Push(ok, _, _) => ok))
    case _ => false
  }

  predicate Fixed(c: Setup, spec: Spec, s: State) {
    && c.key in s.apps && s.apps[c.key].spec == spec
    && (s.flow.Round? ==> s.flow.config == spec)
    && !s.flow.Closed?
  }

  // ----------------------------------------------------------------- goals

  /** Placement `p` of environment `k` runs exactly what the spec asks for. */
  predicate Synced(c: Setup, spec: Spec, s: State, k: nat, p: nat)
    requires k < |spec.environments| && p < |PlacesOf(c, spec, k)|
  {
    Holds(s.releases, KeyAt(PlacesOf(c, spec, k)[p], c.key.name), ArtifactsAt(spec, k))
  }

  predicate AllSynced(c: Setup, spec: Spec, s: State, k: nat)
    requires k < |spec.environments|
  {
    forall p | 0 <= p < |PlacesOf(c, spec, k)| :: Synced(c, spec, s, k, p)
  }

  /** Environment `k` has recorded what the spec asks of it. */
  predicate Recorded(c: Setup, spec: Spec, s: State, k: nat)
    requires k < |spec.environments| && c.key in s.apps
  {
    var deployed := s.apps[c.key].status.deployed;
    var name := spec.environments[k].name;
    && name in deployed
    && forall a | a in ArtifactsAt(spec, k) :: a.name in deployed[name] && deployed[name][a.name] == a
  }

  // ------------------------------------------------------------ preservation

  lemma {:induction false} FindAmongDistinct(envs: seq<Environment>, k: nat)
    requires k < |envs|
    requires forall i, j | 0 <= i < j < |envs| :: envs[i].name != envs[j].name
    ensures FindEnvironment(envs, envs[k].name) == Some(envs[k])
  {
    if k > 0 { FindAmongDistinct(envs[1..], k - 1); }
  }

  lemma JobIsTheSpecs(c: Setup, spec: Spec, k: nat, job: Job)
    requires DistinctEnvironments(spec) && k < |spec.environments|
    requires JobOk(c, spec, spec.environments[k].name, job)
    ensures job == Job(spec.environments[k], ArtifactsAt(spec, k), PlacesOf(c, spec, k))
  {
    var j :| 0 <= j < |spec.environments| && spec.environments[j] == job.env;
    assert j == k;
  }

  /** A placement in step stays in step, whoever moves and whatever fails. */
  lemma SyncedStep(c: Setup, spec: Spec, s: State, a: Action, k: nat, p: nat)
    requires Enabled(c, s, a) && EnvsOk(c, s) && (s.flow.Round? ==> s.flow.config == spec)
    requires !a.Drift? && DistinctEnvironments(spec) && Disjoint(c, spec)
    requires k < |spec.environments| && p < |PlacesOf(c, spec, k)|
    requires Synced(c, spec, s, k, p)
    ensures Synced(c, spec, Step(c, s, a), k, p)
  {
    if a.Env? && a.act.Child? {
      var run, x := s.flow.envs[a.k], a.act.act;
      var job, q := run.job, a.act.p;
      var where := PlacesOf(c, spec, k)[p];
      JobIsTheSpecs(c, spec, a.k, job);
      if job.at[q] != where || !x.Push? {
        PlacementFrame(c, s.releases, job, job.at[q], run.runs[q], x, where);
      } else {
        assert where in PlacesOf(c, spec, k) && where in PlacesOf(c, spec, a.k);
        assert a.k == k;
        if x.landed {
          PushThenDiff(s.releases, where, c.key.name, job.artifacts, x.cleaned);
          DiffSameIff(Step(c, s, a).releases, KeyAt(where, c.key.name), job.artifacts);
        }
      }
    }
  }

  lemma SyncedKept(c: Setup, spec: Spec, s: State, a: Action, k: nat)
    requires Enabled(c, s, a) && EnvsOk(c, s) && (s.flow.Round? ==> s.flow.config == spec)
    requires !a.Drift? && DistinctEnvironments(spec) && Disjoint(c, spec)
    requires k < |spec.environments|
    ensures forall p | 0 <= p < |PlacesOf(c, spec, k)| ::
              Synced(c, spec, s, k, p) ==> Synced(c, spec, Step(c, s, a), k, p)
    ensures AllSynced(c, spec, s, k) ==> AllSynced(c, spec, Step(c, s, a), k)
  {
    forall p | 0 <= p < |PlacesOf(c, spec, k)| && Synced(c, spec, s, k, p)
      ensures Synced(c, spec, Step(c, s, a), k, p)
    {
      SyncedStep(c, spec, s, a, k, p);
    }
  }

  // ------------------------------------------------------ drift downwards

  /** The placements that are not in step. */
  function OutOfStep(c: Setup, spec: Spec, s: State): set<(nat, nat)> {
    set k: nat, p: nat | k < |spec.environments| && p < |PlacesOf(c, spec, k)| && !Synced(c, spec, s, k, p) :: (k, p)
  }

  /** The rounds running between `b` and `i` work on `spec`, and nobody else changes
      releases. Calls may fail, the object may be edited or deleted between rounds,
      and the workflow may be terminated and restarted. */
  predicate OnlyOperatorReleases(c: Setup, spec: Spec, r: Run, b: nat, i: nat)
    requires b <= i < |r.states| == |r.actions| + 1
  {
    forall j | b <= j < i ::
      && !r.actions[j].Drift?
      && (r.states[j].flow.Round? ==> r.states[j].flow.config == spec && StableRound(c, r, j))
  }

  lemma OutOfStepStep(c: Setup, spec: Spec, s: State, a: Action)
    requires Enabled(c, s, a) && EnvsOk(c, s) && (s.flow.Round? ==> s.flow.config == spec)
    requires !a.Drift? && DistinctEnvironments(spec) && Disjoint(c, spec)
    ensures OutOfStep(c, spec, Step(c, s, a)) <= OutOfStep(c, spec, s)
  {
    forall kp | kp in OutOfStep(c, spec, Step(c, s, a)) ensures kp in OutOfStep(c, spec, s) {
      if Synced(c, spec, s, kp.0, kp.1) {
        SyncedStep(c, spec, s, a, kp.0, kp.1);
      }
    }
  }

  /** Whatever fails, no step of the operator takes a placement out of step, so the
      number of placements out of step never rises. */
  lemma {:induction false} OutOfStepNeverGrows(c: Setup, spec: Spec, r: Run, b: nat, i: nat)
    requires FromRest(c, r) && b <= i < |r.states| && OnlyOperatorReleases(c, spec, r, b, i)
    requires DistinctEnvironments(spec) && Disjoint(c, spec)
    ensures OutOfStep(c, spec, r.states[i]) <= OutOfStep(c, spec, r.states[b])
    ensures |OutOfStep(c, spec, r.states[i])| <= |OutOfStep(c, spec, r.states[b])|
  {
    if b < i {
      OutOfStepNeverGrows(c, spec, r, b, i - 1);
      if r.states[i - 1].flow.Round? { StatesOk(c, r, i - 1); }
      OutOfStepStep(c, spec, r.states[i - 1], r.actions[i - 1]);
    }
    SubsetIsSmaller(OutOfStep(c, spec, r.states[i]), OutOfStep(c, spec, r.states[b]));
  }

  lemma {:induction false} SubsetIsSmaller<T>(a: set<T>, b: set<T>)
    requires a <= b
    ensures |a| <= |b| && (a != b ==> |a| < |b|)
    decreases a
  {
    if x :| x in a {
      SubsetIsSmaller(a - {x}, b - {x});
    } else if a != b {
      var y :| y in b;
      assert |b - {y}| == |b| - 1;
    }
  }

  // --------------------------------------------------------- calm runs

  /** A run of the operator alone, from between rounds, on a fixed spec. */
  predicate Calm(c: Setup, spec: Spec, r: Run) {
    && FromRest(c, r)
    && Fixed(c, spec, r.states[0])
    && forall i | 0 <= i < |r.actions| :: Clean(r.actions[i])
  }

  predicate Base(c: Setup, spec: Spec, s: State) {
    Fixed(c, spec, s) && EnvsOk(c, s) && VersionsOk(c, s)
  }

  lemma EnvOkNext(c: Setup, s: State, name: string, run: EnvRun, act: EnvAction)
    requires s.flow.Round? && Stable(c, s) && EnvEnabled(run, act)
    requires EnvOk(c, s.flow.config, name, run)
    ensures EnvOk(c, s.flow.config, name, EnvNext(c, s, name, run, act))
  {
    EnvShapeNext(c, s, name, run, act);
    FindEnvironmentFinds(s.flow.config.environments, name);
  }

  lemma EnvsOkStep(c: Setup, s: State, a: Action)
    requires Enabled(c, s, a) && Stable(c, s) && EnvsOk(c, s)
    ensures EnvsOk(c, Step(c, s, a))
  {
    var s' := Step(c, s, a);
    if s'.flow.Round? && !a.Begin? {
      forall k | 0 <= k < |s'.flow.envs|
        ensures EnvOk(c, s'.flow.config, s'.flow.config.environments[k].name, s'.flow.envs[k])
      {
        EnvFrame(c, s, a, k);
        if a.Env? && a.k == k {
          EnvOkNext(c, s, s.flow.config.environments[k].name, s.flow.envs[k], a.act);
        }
      }
    }
  }

  lemma BaseStep(c: Setup, spec: Spec, s: State, a: Action)
    requires Enabled(c, s, a) && Base(c, spec, s) && Clean(a)
    ensures Base(c, spec, Step(c, s, a))
  {
    EnvsOkStep(c, s, a);
    VersionsOkStep(c, s, a);
  }

  lemma {:induction false} BaseAlways(c: Setup, spec: Spec, r: Run, i: nat)
    requires Calm(c, spec, r) && i < |r.states|
    ensures Base(c, spec, r.states[i])
  {
    if i > 0 {
      BaseAlways(c, spec, r, i - 1);
      BaseStep(c, spec, r.states[i - 1], r.actions[i - 1]);
    }
  }

  /** Completed rounds before state `i`. */
  function Rounds(r: Run, i: nat): nat
    requires i <= |r.actions|
  {
    if i == 0 then 0 else Rounds(r, i - 1) + if r.actions[i - 1].End? then 1 else 0
  }

  // ---------------------------------------------------------- open gates

  /** Every artifact named by a gate of environment `k` is recorded at the spec's
      version: something to be read off the status. */
  predicate Open(c: Setup, spec: Spec, s: State, k: nat)
    requires k < |spec.environments|
  {
    && c.key in s.apps
    && forall d | d in Dependencies(spec.environments[k].constraints) ::
         Promoted(s.apps[c.key], d.environment, d.artifacts)
  }

  lemma OpenStep(c: Setup, spec: Spec, s: State, a: Action, k: nat)
    requires Enabled(c, s, a) && Base(c, spec, s) && Clean(a)
    requires k < |spec.environments| && Open(c, spec, s, k)
    ensures Open(c, spec, Step(c, s, a), k)
  {
    forall d | d in Dependencies(spec.environments[k].constraints)
      ensures c.key in Step(c, s, a).apps && Promoted(Step(c, s, a).apps[c.key], d.environment, d.artifacts)
    {
      CommitKeepsPromoted(c, s, a, d.environment, d.artifacts);
    }
    BaseStep(c, spec, s, a);
  }

  /** An open gate is granted: it is looked up where the Application lives. */
  lemma OpenIsGranted(c: Setup, spec: Spec, s: State, k: nat, at: Coordinates, d: Constraint)
    requires Base(c, spec, s) && Complete(spec)
    requires k < |spec.environments| && d in Dependencies(spec.environments[k].constraints)
    requires at in PlacesOf(c, spec, k)
    ensures GateHolds(c, s, at, d) <==> Promoted(s.apps[c.key], d.environment, d.artifacts)
  {
    DynamicCoordinatesAreLocal(c.key.namespace, spec.environments[k].placement, c.clusters);
    assert ObjectKey(at.namespace, c.key.name) == c.key;
  }

  // ------------------------------------------- one environment in a round

  /** One placement workflow, when its gates were open before the round began (`open`)
      and its places in step (`quiet`). */
  predicate PlacementGood(c: Setup, spec: Spec, open: bool, quiet: bool, s: State, k: nat, p: nat, run: PlacementRun)
    requires k < |spec.environments| && p < |PlacesOf(c, spec, k)|
  {
    && (Reached(run) ==> Synced(c, spec, s, k, p))
    && run != Finished(Failed)
    && (open ==> run != Finished(Denied))
    && (quiet ==> run == Diffing || run == Finished(InSync))
  }

  predicate EnvGood(c: Setup, spec: Spec, open: bool, quiet: bool, s: State, k: nat, run: EnvRun)
    requires k < |spec.environments|
  {
    && (run.Done? ==> run.ok && (open ==> AllSynced(c, spec, s, k)))
    && (HasJob(run) ==>
          |run.runs| == |PlacesOf(c, spec, k)| &&
          forall p | 0 <= p < |run.runs| :: PlacementGood(c, spec, open, quiet, s, k, p, run.runs[p]))
  }

  predicate Good(c: Setup, spec: Spec, open: bool, quiet: bool, s: State, k: nat)
    requires k < |spec.environments|
  {
    && Base(c, spec, s)
    && (open ==> Open(c, spec, s, k))
    && (quiet ==> AllSynced(c, spec, s, k))
    && (s.flow.Round? ==> EnvGood(c, spec, open, quiet, s, k, s.flow.envs[k]))
  }

  /** The step of a placement itself. */
  lemma PlacementGoodNext(c: Setup, spec: Spec, open: bool, quiet: bool, s: State, k: nat, p: nat, x: PlacementAction)
    requires k < |spec.environments| && Good(c, spec, open, quiet, s, k) && Convergeable(c, spec) && s.flow.Round?
    requires Enabled(c, s, Env(k, Child(p, x))) && Clean(Env(k, Child(p, x)))
    ensures p < |PlacesOf(c, spec, k)|
    ensures var s', run := Step(c, s, Env(k, Child(p, x))), s.flow.envs[k];
            PlacementGood(c, spec, open, quiet, s', k, p, PlacementNext(c, s, run.job, run.job.at[p], run.runs[p], x))
  {
    var run := s.flow.envs[k];
    var job := run.job;
    var a := Env(k, Child(p, x));
    JobIsTheSpecs(c, spec, k, job);
    assert PlacementGood(c, spec, open, quiet, s, k, p, run.runs[p]);
    DiffSameIff(s.releases, KeyAt(job.at[p], c.key.name), job.artifacts);
    if quiet { assert Synced(c, spec, s, k, p); }
    match x
    case Diff(_) =>
    case Gate(which, _) =>
      OpenIsGranted(c, spec, s, k, job.at[p], Dependencies(job.env.constraints)[which]);
    case PushCanary(which, _, _, _) =>
      CanaryAsksForSomething(Canaries(job.env.constraints)[which].values, job.artifacts);
    case EndCanary(_) =>
    case Push(_, _, cleaned) =>
      PushThenDiff(s.releases, job.at[p], c.key.name, job.artifacts, cleaned);
      DiffSameIff(Step(c, s, a).releases, KeyAt(job.at[p], c.key.name), job.artifacts);
    case CheckFails => assert false;
  }

  lemma {:induction false} EnvGoodChild(c: Setup, spec: Spec, open: bool, quiet: bool, s: State, k: nat, p: nat,
                                        x: PlacementAction)
    requires k < |spec.environments| && Good(c, spec, open, quiet, s, k) && Convergeable(c, spec) && s.flow.Round?
    requires Enabled(c, s, Env(k, Child(p, x))) && Clean(Env(k, Child(p, x)))
    ensures EnvGood(c, spec, open, quiet, Step(c, s, Env(k, Child(p, x))), k,
                    EnvNext(c, s, spec.environments[k].name, s.flow.envs[k], Child(p, x)))
  {
    var a := Env(k, Child(p, x));
    var was := s.flow.envs[k];
    PlacementGoodNext(c, spec, open, quiet, s, k, p, x);
    SyncedKept(c, spec, s, a, k);
    forall q | 0 <= q < |was.runs| && q != p
      ensures PlacementGood(c, spec, open, quiet, Step(c, s, a), k, q, was.runs[q])
    {
      assert PlacementGood(c, spec, open, quiet, s, k, q, was.runs[q]);
    }
  }

  /** Environment `k` is about to end: everything went well, and with open gates all
      its places are in step. */
  lemma FinishedIsSynced(c: Setup, spec: Spec, open: bool, quiet: bool, s: State, k: nat)
    requires k < |spec.environments| && Good(c, spec, open, quiet, s, k) && s.flow.Round?
    requires var run := s.flow.envs[k]; HasJob(run) && AllFinished(run.runs)
    ensures NoneFailed(s.flow.envs[k].runs)
    ensures open ==> AllSynced(c, spec, s, k)
  {
    var run := s.flow.envs[k];
    forall p | 0 <= p < |PlacesOf(c, spec, k)|
      ensures run.runs[p] != Finished(Failed) && (open ==> Synced(c, spec, s, k, p))
    {
      assert PlacementGood(c, spec, open, quiet, s, k, p, run.runs[p]) && run.runs[p].Finished?;
      var outcome := run.runs[p].outcome;
      assert run.runs[p] == Finished(outcome);
      assert outcome.InSync? || outcome.Pushed? || outcome.Denied? || outcome.Failed?;
    }
  }

  lemma EnvGoodFetches(c: Setup, spec: Spec, open: bool, quiet: bool, s: State, k: nat)
    requires k < |spec.environments| && c.key in s.apps && s.apps[c.key].spec == spec && DistinctEnvironments(spec)
    ensures EnvGood(c, spec, open, quiet, s, k, EnvNext(c, s, spec.environments[k].name, Fetching, Fetch(true)))
  {
    FindAmongDistinct(spec.environments, k);
  }

  lemma EnvGoodPlaces(c: Setup, spec: Spec, open: bool, quiet: bool, s: State, k: nat)
    requires k < |spec.environments| && Good(c, spec, open, quiet, s, k) && s.flow.Round?
    requires Enabled(c, s, Env(k, Place(true))) && DistinctEnvironments(spec)
    ensures EnvGood(c, spec, open, quiet, s, k, EnvNext(c, s, spec.environments[k].name, s.flow.envs[k], Place(true)))
  {
    var run := s.flow.envs[k];
    assert EnvOk(c, spec, spec.environments[k].name, run);
    var j :| 0 <= j < |spec.environments| && spec.environments[j] == run.env;
    assert j == k;
  }

  lemma EnvGoodEnds(c: Setup, spec: Spec, open: bool, quiet: bool, s: State, k: nat, act: EnvAction)
    requires k < |spec.environments| && Good(c, spec, open, quiet, s, k) && Convergeable(c, spec) && s.flow.Round?
    requires Enabled(c, s, Env(k, act)) && Clean(Env(k, act)) && (act.Collect? || act.Read? || act.Write?)
    ensures EnvGood(c, spec, open, quiet, s, k, EnvNext(c, s, spec.environments[k].name, s.flow.envs[k], act))
  {
    FinishedIsSynced(c, spec, open, quiet, s, k);
  }

  /** How well an environment is doing depends on the releases only. */
  lemma EnvGoodElsewhere(c: Setup, spec: Spec, open: bool, quiet: bool, s: State, s': State, k: nat, run: EnvRun)
    requires k < |spec.environments| && EnvGood(c, spec, open, quiet, s, k, run)
    requires s'.releases == s.releases
    ensures EnvGood(c, spec, open, quiet, s', k, run)
  {
    forall p | 0 <= p < |PlacesOf(c, spec, k)| ensures Synced(c, spec, s', k, p) <==> Synced(c, spec, s, k, p) {}
    if HasJob(run) {
      forall p | 0 <= p < |run.runs| ensures PlacementGood(c, spec, open, quiet, s', k, p, run.runs[p]) {
        assert PlacementGood(c, spec, open, quiet, s, k, p, run.runs[p]);
      }
    }
  }

  lemma {:induction false} EnvGoodNext(c: Setup, spec: Spec, open: bool, quiet: bool, s: State, k: nat, act: EnvAction)
    requires k < |spec.environments| && Good(c, spec, open, quiet, s, k) && Convergeable(c, spec) && s.flow.Round?
    requires Enabled(c, s, Env(k, act)) && Clean(Env(k, act))
    ensures EnvGood(c, spec, open, quiet, Step(c, s, Env(k, act)), k,
                    EnvNext(c, s, spec.environments[k].name, s.flow.envs[k], act))
  {
    if act.Child? {
      EnvGoodChild(c, spec, open, quiet, s, k, act.p, act.act);
    } else {
      var next, s' := EnvNext(c, s, spec.environments[k].name, s.flow.envs[k], act), Step(c, s, Env(k, act));
      if act.Fetch? {
        EnvGoodFetches(c, spec, open, quiet, s, k);
      } else if act.Place? {
        EnvGoodPlaces(c, spec, open, quiet, s, k);
      } else {
        EnvGoodEnds(c, spec, open, quiet, s, k, act);
      }
      EnvGoodElsewhere(c, spec, open, quiet, s, s', k, next);
    }
  }

  /** The workflow of environment `k` after anybody else's clean step. */
  lemma {:induction false} EnvGoodLater(c: Setup, spec: Spec, open: bool, quiet: bool, s: State, a: Action, k: nat)
    requires k < |spec.environments| && Good(c, spec, open, quiet, s, k) && Convergeable(c, spec) && s.flow.Round?
    requires Enabled(c, s, a) && Clean(a)
    ensures EnvGood(c, spec, open, quiet, Step(c, s, a), k, s.flow.envs[k])
  {
    SyncedKept(c, spec, s, a, k);
  }

  lemma GoodStep(c: Setup, spec: Spec, open: bool, quiet: bool, s: State, a: Action, k: nat)
    requires k < |spec.environments| && Good(c, spec, open, quiet, s, k) && Convergeable(c, spec)
    requires Enabled(c, s, a) && Clean(a)
    ensures Good(c, spec, open, quiet || (open && a.End?), Step(c, s, a), k)
  {
    var s' := Step(c, s, a);
    BaseStep(c, spec, s, a);
    SyncedKept(c, spec, s, a, k);
    if open { OpenStep(c, spec, s, a, k); }
    if a.Env? {
      EnvFrame(c, s, a, k);
      if a.k != k {
        EnvGoodLater(c, spec, open, quiet, s, a, k);
      } else {
        EnvGoodNext(c, spec, open, quiet, s, k, a.act);
      }
    } else if a.End? {
      assert s.flow.envs[k].Done?;
    }
  }

  lemma {:induction false} GoodFrom(c: Setup, spec: Spec, open: bool, quiet: bool, r: Run, b: nat, i: nat, k: nat)
    requires Convergeable(c, spec) && Calm(c, spec, r) && b <= i < |r.states| && k < |spec.environments|
    requires !r.states[b].flow.Round?
    requires open ==> Open(c, spec, r.states[b], k)
    requires quiet ==> AllSynced(c, spec, r.states[b], k)
    ensures Good(c, spec, open, quiet || (open && Rounds(r, i) > Rounds(r, b)), r.states[i], k)
  {
    if b == i {
      BaseAlways(c, spec, r, b);
    } else {
      GoodFrom(c, spec, open, quiet, r, b, i - 1, k);
      var was := quiet || (open && Rounds(r, i - 1) > Rounds(r, b));
      GoodStep(c, spec, open, was, r.states[i - 1], r.actions[i - 1], k);
      RoundsGrow(r, b, i - 1);
    }
  }

  lemma {:induction false} RoundsGrow(r: Run, b: nat, i: nat)
    requires b <= i <= |r.actions|
    ensures Rounds(r, b) <= Rounds(r, i)
  {
    if b < i { RoundsGrow(r, b, i - 1); }
  }

  lemma {:induction false} OpenGateSyncs(c: Setup, spec: Spec, r: Run, b: nat, i: nat, k: nat, p: nat)
    requires Convergeable(c, spec) && Calm(c, spec, r) && b <= i < |r.states| && Rounds(r, i) > Rounds(r, b)
    requires k < |spec.environments| && p < |PlacesOf(c, spec, k)|
    requires !r.states[b].flow.Round? && Open(c, spec, r.states[b], k)
    ensures Synced(c, spec, r.states[i], k, p)
  {
    GoodFrom(c, spec, true, false, r, b, i, k);
    assert AllSynced(c, spec, r.states[i], k);
  }

  // ------------------------------------------------------------ theorems

  /** Open gates converge. If the gates of an environment are open between two rounds
      (`b`), the next complete round leaves every place of it without a difference,
      under every schedule, and so it stays. */
  lemma {:induction false} OpenGatesConverge(c: Setup, spec: Spec, r: Run, b: nat, i: nat, k: nat, p: nat)
    requires Convergeable(c, spec) && Calm(c, spec, r) && b <= i < |r.states| && Rounds(r, i) > Rounds(r, b)
    requires k < |spec.environments| && p < |PlacesOf(c, spec, k)|
    requires !r.states[b].flow.Round? && Open(c, spec, r.states[b], k)
    ensures DiffOf(r.states[i].releases, KeyAt(PlacesOf(c, spec, k)[p], c.key.name), ArtifactsAt(spec, k)) == Same
  {
    OpenGateSyncs(c, spec, r, b, i, k, p);
    DiffSameIff(r.states[i].releases, KeyAt(PlacesOf(c, spec, k)[p], c.key.name), ArtifactsAt(spec, k));
  }
}
