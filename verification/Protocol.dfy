/** The promotion protocol of pkg/worker/worker.go as a machine of atomic steps.

    One step is one workflow decision or one activity: a read or a write of the
    API server, one pass over the release store, one timer. Any enabled step may
    come next, so a run interleaves the rounds of `Reconcile`, its environment
    workflows and their placement workflows in every possible way. Activities may
    fail, with or without having taken effect; users may edit or delete objects
    and releases at any time. */
module Protocol {
  import opened Api
  import opened Artifacts
  import opened Placements
  import opened Helm
  import opened Recording

  /** The Application a `Reconcile` workflow works for, and the cluster list. */
  datatype Setup = Setup(key: ObjectKey, clusters: seq<Cluster>)

  // ----------------------------------------------------------------- states

  datatype Outcome = InSync | Pushed | Denied | Failed

  /** A `ReconcilePlacement` workflow. `waiting` are the canaries not yet pushed. */
  datatype PlacementRun =
    | Diffing
    | Gating
    | Canarying(waiting: set<nat>)
    | Pushing
    | Finished(outcome: Outcome)

  /** What an environment workflow has worked out before it starts placements. */
  datatype Job = Job(env: Environment, artifacts: seq<Artifact>, at: seq<Coordinates>)

  /** An `EnvironmentReconciler` workflow; `runs[p]` works on `job.at[p]`. */
  datatype EnvRun =
    | Fetching
    | Placing(env: Environment, artifacts: seq<Artifact>)
    | Working(job: Job, runs: seq<PlacementRun>)
    | Reading(job: Job, runs: seq<PlacementRun>)
    | Writing(job: Job, runs: seq<PlacementRun>, read: Application)
    | Done(ok: bool)

  /** The `Reconcile` workflow; `envs[k]` is the child for `config.environments[k]`. */
  datatype Flow =
    | Closed
    | Sleeping
    | Round(config: Spec, envs: seq<EnvRun>)

  datatype State = State(apps: map<ObjectKey, Application>, clock: nat, releases: Releases, flow: Flow)

  // ---------------------------------------------------------------- actions

  /** `ok` is whether the call succeeds, `landed` whether a push reached the store,
      `cleaned` whether the following canary cleanup deleted the canary. */
  datatype PlacementAction =
    | Diff(ok: bool)
    | Gate(which: nat, ok: bool)
    | CheckFails
    | PushCanary(which: nat, ok: bool, landed: bool, cleaned: bool)
    | EndCanary(which: nat)
    | Push(ok: bool, landed: bool, cleaned: bool)

  datatype EnvAction =
    | Fetch(ok: bool)
    | Place(ok: bool)
    | Child(p: nat, act: PlacementAction)
    | Collect
    | Read(ok: bool)
    | Write(ok: bool)

  datatype Action =
    | Begin(ok: bool)
    | Env(k: nat, act: EnvAction)
    | End
    | External(key: ObjectKey, app: Option<Application>)
    | Drift(releases: Releases)
    | Terminate
    | Start

  // ------------------------------------------------------ placement workflow

  function Dependencies(constraints: seq<Constraint>): (ds: seq<Constraint>)
    ensures forall d | d in ds :: d.DependsOn? && d in constraints
    ensures forall d | d in constraints && d.DependsOn? :: d in ds
  {
    if constraints == [] then []
    else if constraints[0].DependsOn? then [constraints[0]] + Dependencies(constraints[1..])
    else Dependencies(constraints[1..])
  }

  function Canaries(constraints: seq<Constraint>): (cs: seq<Constraint>)
    ensures forall d | d in cs :: d.HelmCanary?
  {
    if constraints == [] then []
    else if constraints[0].HelmCanary? then [constraints[0]] + Canaries(constraints[1..])
    else Canaries(constraints[1..])
  }

  /** The HelmCanary constraints, all of them, in the order of the spec. */
  lemma {:induction false} CanariesMembers(xs: seq<Constraint>, ys: seq<Constraint>)
    ensures forall d :: d in Canaries(xs) <==> d in xs && d.HelmCanary?
    ensures Canaries(xs + ys) == Canaries(xs) + Canaries(ys)
  {
    if xs == [] {
      assert xs + ys == ys;
    } else {
      assert (xs + ys)[1..] == xs[1..] + ys;
      CanariesMembers(xs[1..], ys);
      assert xs == [xs[0]] + xs[1..];
    }
  }

  function Indices(n: nat): (s: set<nat>)
    ensures |s| == n && forall i: nat :: i in s <==> i < n
  {
    if n == 0 then {} else Indices(n - 1) + {n - 1}
  }

  /** All stateless gates start together, then all canaries, then the push. */
  function AfterDiff(constraints: seq<Constraint>): PlacementRun {
    if Dependencies(constraints) != [] then Gating else AfterGates(constraints)
  }

  function AfterGates(constraints: seq<Constraint>): PlacementRun {
    if Canaries(constraints) != [] then Canarying(Indices(|Canaries(constraints)|)) else Pushing
  }

  /** The gate looks the Application up in the namespace of the placement. */
  predicate GateHolds(c: Setup, s: State, at: Coordinates, dependency: Constraint)
    requires dependency.DependsOn?
  {
    var key := ObjectKey(at.namespace, c.key.name);
    key in s.apps && Promoted(s.apps[key], dependency.environment, dependency.artifacts)
  }

  predicate PlacementEnabled(job: Job, run: PlacementRun, act: PlacementAction) {
    match act
    case Diff(_) => run.Diffing?
    case Gate(which, _) => run.Gating? && which < |Dependencies(job.env.constraints)|
    case CheckFails => run.Gating? || run.Canarying?
    case PushCanary(which, ok, landed, _) =>
      run.Canarying? && which in run.waiting && which < |Canaries(job.env.constraints)| && (ok ==> landed)
    case EndCanary(which) =>
      run.Canarying? && which !in run.waiting && which < |Canaries(job.env.constraints)|
    case Push(ok, landed, _) => run.Pushing? && (ok ==> landed)
  }

  /** The first gate to complete decides; a failed gate refuses. */
  function PlacementNext(c: Setup, s: State, job: Job, at: Coordinates, run: PlacementRun, act: PlacementAction)
    : PlacementRun
    requires PlacementEnabled(job, run, act)
  {
    match act
    case Diff(ok) =>
      if !ok then Finished(Failed)
      else (
        match DiffOf(s.releases, KeyAt(at, c.key.name), job.artifacts)
        case Same => Finished(InSync)
        case Differs => AfterDiff(job.env.constraints)
        case DiffError => Finished(Failed))
    case Gate(which, ok) =>
      if ok && GateHolds(c, s, at, Dependencies(job.env.constraints)[which]) then AfterGates(job.env.constraints)
      else Finished(Denied)
    case CheckFails => Finished(Failed)
    case PushCanary(which, ok, _, _) =>
      var canary := Canaries(job.env.constraints)[which];
      if ok && canary.ttl.Some? && Target(CanaryArtifacts(canary.values, job.artifacts)).Some?
      then Canarying(run.waiting - {which})
      else Finished(Denied)
    case EndCanary(_) => Pushing
    case Push(ok, _, _) => if ok && Target(job.artifacts).Some? then Finished(Pushed) else Finished(Failed)
  }

  function PlacementReleases(c: Setup, releases: Releases, job: Job, at: Coordinates, run: PlacementRun,
                             act: PlacementAction): Releases
    requires PlacementEnabled(job, run, act)
  {
    match act
    case PushCanary(which, _, landed, cleaned) =>
      var canary := Canaries(job.env.constraints)[which];
      var artifacts := CanaryArtifacts(canary.values, job.artifacts);
      if landed && canary.ttl.Some? && Target(artifacts).Some?
      then AfterPush(releases, at, CanaryName(c.key.name), artifacts, cleaned)
      else releases
    case Push(_, landed, cleaned) =>
      if landed && Target(job.artifacts).Some?
      then AfterPush(releases, at, c.key.name, job.artifacts, cleaned)
      else releases
    case _ => releases
  }

  // ---------------------------------------------------- environment workflow

  function FindEnvironment(envs: seq<Environment>, name: string): Option<Environment> {
    if envs == [] then None
    else if envs[0].name == name then Some(envs[0])
    else FindEnvironment(envs[1..], name)
  }

  predicate AllFinished(runs: seq<PlacementRun>) {
    forall p | 0 <= p < |runs| :: runs[p].Finished?
  }

  predicate NoneFailed(runs: seq<PlacementRun>) {
    forall p | 0 <= p < |runs| :: runs[p] != Finished(Failed)
  }

  function FreshRuns(n: nat): (runs: seq<PlacementRun>)
    ensures |runs| == n && forall p | 0 <= p < n :: runs[p] == Diffing
  {
    seq(n, _ => Diffing)
  }

  predicate EnvEnabled(run: EnvRun, act: EnvAction) {
    match act
    case Fetch(_) => run.Fetching?
    case Place(_) => run.Placing?
    case Child(p, a) =>
      run.Working? && p < |run.runs| && p < |run.job.at| && PlacementEnabled(run.job, run.runs[p], a)
    case Collect => run.Working? && AllFinished(run.runs)
    case Read(_) => run.Reading?
    case Write(_) => run.Writing?
  }

  function EnvNext(c: Setup, s: State, name: string, run: EnvRun, act: EnvAction): EnvRun
    requires EnvEnabled(run, act)
  {
    match act
    case Fetch(ok) =>
      if !ok || c.key !in s.apps then Done(false)
      else (
        var spec := s.apps[c.key].spec;
        match FindEnvironment(spec.environments, name)
        case None => Done(false)
        case Some(env) => Placing(env, TargetArtifacts(spec, env)))
    case Place(ok) =>
      if !ok then Done(false)
      else
        var at := CoordinatesOf(c.key.namespace, run.env.placement, c.clusters);
        Working(Job(run.env, run.artifacts, at), FreshRuns(|at|))
    case Child(p, a) => Working(run.job, run.runs[p := PlacementNext(c, s, run.job, run.job.at[p], run.runs[p], a)])
    case Collect => if NoneFailed(run.runs) then Reading(run.job, run.runs) else Done(false)
    case Read(ok) => if ok && c.key in s.apps then Writing(run.job, run.runs, s.apps[c.key]) else Done(true)
    case Write(_) => Done(true)
  }

  /** A status write goes through if it is not stale. */
  predicate Commits(c: Setup, s: State, run: EnvRun, act: EnvAction) {
    && act == Write(true) && run.Writing?
    && c.key in s.apps
    && s.apps[c.key].meta.resourceVersion == run.read.meta.resourceVersion
  }

  /** The object after a status write. The API server gives it a new resource version
      only if the write changes something. */
  function Written(c: Setup, s: State, run: EnvRun): Application
    requires run.Writing? && c.key in s.apps
  {
    var current := s.apps[c.key];
    var deployed := Record(run.read.status.deployed, run.job.env.name, run.job.artifacts);
    var status := run.read.status.(deployed := deployed);
    if status == current.status then current
    else current.(status := status, meta := current.meta.(resourceVersion := s.clock))
  }

  // --------------------------------------------------------- whole machine

  function Envs(s: State): seq<EnvRun> {
    if s.flow.Round? then s.flow.envs else []
  }

  /** A child workflow whose ID is already taken by an earlier environment of the
      same name does not start. */
  function FreshEnvs(spec: Spec): (envs: seq<EnvRun>)
    ensures |envs| == |spec.environments|
    ensures forall k | 0 <= k < |envs| :: envs[k] == Fetching || envs[k] == Done(false)
  {
    seq(|spec.environments|, k requires 0 <= k < |spec.environments| =>
      if exists j | 0 <= j < k :: spec.environments[j].name == spec.environments[k].name
      then Done(false)
      else Fetching)
  }

  predicate Enabled(c: Setup, s: State, a: Action) {
    match a
    case Begin(_) => s.flow.Sleeping?
    case Env(k, act) => k < |Envs(s)| && k < |s.flow.config.environments| && EnvEnabled(Envs(s)[k], act)
    case End => s.flow.Round? && forall k | 0 <= k < |s.flow.envs| :: s.flow.envs[k].Done?
    case External(key, app) =>
      // nobody but the operator writes the recorded artifacts; deleting and
      // recreating the object, or the controller's status write, empties them
      key == c.key && app.Some? ==>
        || app.value.status.deployed == map[]
        || (key in s.apps && app.value.status.deployed == s.apps[key].status.deployed)
    case Drift(_) => true
    case Terminate => true
    case Start => s.flow.Closed?
  }

  function FlowNext(c: Setup, s: State, a: Action): Flow
    requires Enabled(c, s, a)
  {
    match a
    case Begin(ok) =>
      if ok && c.key in s.apps then Round(s.apps[c.key].spec, FreshEnvs(s.apps[c.key].spec)) else Closed
    case Env(k, act) =>
      s.flow.(envs := s.flow.envs[k := EnvNext(c, s, s.flow.config.environments[k].name, s.flow.envs[k], act)])
    case End => Sleeping
    case Terminate => Closed
    case Start => Sleeping
    case _ => s.flow
  }

  function ReleasesNext(c: Setup, s: State, a: Action): Releases
    requires Enabled(c, s, a)
  {
    match a
    case Env(k, Child(p, act)) =>
      var run := s.flow.envs[k];
      PlacementReleases(c, s.releases, run.job, run.job.at[p], run.runs[p], act)
    case Drift(releases) => releases
    case _ => s.releases
  }

  function AppsNext(c: Setup, s: State, a: Action): map<ObjectKey, Application>
    requires Enabled(c, s, a)
  {
    match a
    case Env(k, act) =>
      if Commits(c, s, s.flow.envs[k], act) then s.apps[c.key := Written(c, s, s.flow.envs[k])] else s.apps
    case External(key, None) => s.apps - {key}
    case External(key, Some(app)) => s.apps[key := app.(meta := app.meta.(resourceVersion := s.clock))]
    case _ => s.apps
  }

  function Step(c: Setup, s: State, a: Action): State
    requires Enabled(c, s, a)
  {
    State(AppsNext(c, s, a), s.clock + 1, ReleasesNext(c, s, a), FlowNext(c, s, a))
  }

  /** A workflow may be open, but not in a round. */
  predicate AtRest(s: State) {
    !s.flow.Round? && forall key | key in s.apps :: s.apps[key].meta.resourceVersion < s.clock
  }

  /** Nothing is recorded yet. */
  predicate Init(c: Setup, s: State) {
    AtRest(s) && (c.key in s.apps ==> s.apps[c.key].status.deployed == map[])
  }

  /** A run: `states[i]` becomes `states[i+1]` by `actions[i]`. */
  datatype Run = Run(states: seq<State>, actions: seq<Action>)

  predicate Follows(c: Setup, r: Run) {
    && |r.states| == |r.actions| + 1
    && forall i | 0 <= i < |r.actions| ::
         Enabled(c, r.states[i], r.actions[i]) && r.states[i + 1] == Step(c, r.states[i], r.actions[i])
  }

  predicate IsRun(c: Setup, r: Run) {
    Follows(c, r) && Init(c, r.states[0])
  }

  /** A run that starts at any time between rounds, whatever is recorded by then. */
  predicate FromRest(c: Setup, r: Run) {
    Follows(c, r) && AtRest(r.states[0])
  }

  /** Placement `p` of environment `k` takes the step `act` at `i`. */
  predicate Takes(r: Run, i: nat, k: nat, p: nat, act: PlacementAction) {
    i < |r.actions| && r.actions[i] == Env(k, Child(p, act))
  }

  // ------------------------------------------------------------------ frames

  /** An environment workflow changes only by its own steps or with a new round. */
  lemma EnvFrame(c: Setup, s: State, a: Action, k: nat)
    requires Enabled(c, s, a) && k < |Envs(Step(c, s, a))|
    ensures var s' := Step(c, s, a);
            || (a.Begin? && (Envs(s')[k] == Fetching || Envs(s')[k] == Done(false)))
            || (&& k < |Envs(s)| && !a.Begin? && s.flow.Round? && s'.flow.Round? && s'.flow.config == s.flow.config
                && (if a.Env? && a.k == k
                    then Envs(s')[k] == EnvNext(c, s, s.flow.config.environments[k].name, Envs(s)[k], a.act)
                    else Envs(s')[k] == Envs(s)[k]))
  {
  }

  /** The state in which the current round began. */
  function RoundStart(r: Run, i: nat): (b: nat)
    requires i <= |r.actions|
    ensures b <= i
  {
    if i == 0 then 0 else if r.actions[i - 1].Begin? then i else RoundStart(r, i - 1)
  }
}
