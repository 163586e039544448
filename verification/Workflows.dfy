/** `ReconcilePlacement` and `DoCheck` as the sequential code they are, run without
    interruption against the API server and the release store. Every call is proved
    to be a path of the placement machine in `Protocol`. */
module Workflows {
  import opened Api
  import opened Artifacts
  import opened Placements
  import opened Helm
  import opened Recording
  import opened Protocol
  import Futures

  ghost function View(api: ApiServer, store: Store): State
    reads api, store
  {
    State(api.apps, api.clock, store.releases, Closed)
  }

  /** The machine can take the steps `acts` from `run` in `s`, ending in `run'` with
      the releases of `s'`. */
  ghost predicate Path(c: Setup, job: Job, at: Coordinates, s: State, run: PlacementRun, acts: seq<PlacementAction>,
                       s': State, run': PlacementRun)
    decreases |acts|
  {
    if acts == [] then s == s' && run == run'
    else
      && PlacementEnabled(job, run, acts[0])
      && Path(c, job, at, s.(releases := PlacementReleases(c, s.releases, job, at, run, acts[0])),
              PlacementNext(c, s, job, at, run, acts[0]), acts[1..], s', run')
  }

  lemma {:induction false} PathConcat(c: Setup, job: Job, at: Coordinates,
                                      s: State, run: PlacementRun, xs: seq<PlacementAction>,
                                      s': State, run': PlacementRun, ys: seq<PlacementAction>,
                                      s'': State, run'': PlacementRun)
    requires Path(c, job, at, s, run, xs, s', run') && Path(c, job, at, s', run', ys, s'', run'')
    ensures Path(c, job, at, s, run, xs + ys, s'', run'')
    decreases |xs|
  {
    if xs == [] {
      assert xs + ys == ys;
    } else {
      assert (xs + ys)[1..] == xs[1..] + ys;
      PathConcat(c, job, at, s.(releases := PlacementReleases(c, s.releases, job, at, run, xs[0])),
                 PlacementNext(c, s, job, at, run, xs[0]), xs[1..], s', run', ys, s'', run'');
    }
  }

  lemma OneStep(c: Setup, job: Job, at: Coordinates, s: State, run: PlacementRun, act: PlacementAction)
    requires PlacementEnabled(job, run, act)
    ensures Path(c, job, at, s, run, [act], s.(releases := PlacementReleases(c, s.releases, job, at, run, act)),
                 PlacementNext(c, s, job, at, run, act))
  {
    assert [act][1..] == [];
  }

  // ------------------------------------------------------------- activities

  /** Some attempt meets no fault before the canary cleanup. */
  predicate MustSucceed(attempts: seq<Faults>) {
    exists f | f in attempts :: !f.download && !f.rollout && !f.lookup
  }

  /** Some attempt downloads the chart and rolls it out. */
  predicate MaySucceed(attempts: seq<Faults>) {
    exists f | f in attempts :: !f.download && !f.rollout
  }

  /** `DoPush`, tried up to `|attempts|` times until it succeeds. */
  method DoPush(store: Store, name: string, at: Coordinates, artifacts: seq<Artifact>, attempts: seq<Faults>)
    returns (ok: bool, ghost landed: bool, ghost cleaned: bool)
    modifies store
    ensures ok ==> landed && Target(artifacts).Some? && MaySucceed(attempts)
    ensures store.releases ==
      if landed && Target(artifacts).Some?
      then AfterPush(old(store.releases), at, name, artifacts, cleaned)
      else old(store.releases)
    ensures Target(artifacts).Some? && MustSucceed(attempts) ==> ok
    ensures ok ==> exists f | f in attempts :: cleaned == (!f.history && !f.uninstall)
    ensures ok && (forall f | f in attempts :: !f.history && !f.uninstall) ==>
      ReleaseKey(at.cluster, at.namespace, name + "-canary") !in store.releases
  {
    ok, landed, cleaned := false, false, false;
    var i := 0;
    while i < |attempts| && !ok
      invariant 0 <= i <= |attempts|
      invariant ok ==> landed && Target(artifacts).Some? && MaySucceed(attempts)
      invariant !ok ==> !cleaned
      invariant ok ==> exists f | f in attempts :: cleaned == (!f.history && !f.uninstall)
      invariant !ok && Target(artifacts).Some? ==>
        forall j | 0 <= j < i :: attempts[j].download || attempts[j].rollout || attempts[j].lookup
      invariant store.releases ==
        if landed && Target(artifacts).Some?
        then AfterPush(old(store.releases), at, name, artifacts, cleaned)
        else old(store.releases)
    {
      var f := attempts[i];
      var hr := new HelmReconciler(store, name, at, artifacts);
      ghost var wrong := f.lookup && KeyAt(at, name) !in store.releases;
      ghost var reached := !f.download && !wrong && (!f.rollout || f.landed);
      var error := hr.Push(f);
      ok := error.None?;
      landed := landed || (reached && Target(artifacts).Some?);
      cleaned := ok && !f.history && !f.uninstall;
      i := i + 1;
    }
    if ok { CanaryAfterPush(old(store.releases), at, name, artifacts, cleaned); }
  }

  // ------------------------------------------------------------------ gates

  /** What the first completed gate says; a failed one refuses. No gates, no refusal. */
  predicate Passes(c: Setup, apps: map<ObjectKey, Application>, dependencies: seq<Constraint>, at: Coordinates,
                   fails: seq<bool>, order: seq<nat>)
    requires forall d | d in dependencies :: d.DependsOn?
    requires |fails| == |dependencies|
  {
    dependencies == [] ||
    (&& order != [] && order[0] < |dependencies| && !fails[order[0]]
     && var key, d := ObjectKey(at.namespace, c.key.name), dependencies[order[0]];
        key in apps && Promoted(apps[key], d.environment, d.artifacts))
  }

  /** Evaluates every DependsOn gate and collects them as `executeConstraints` does. */
  method CheckDependencies(c: Setup, api: ApiServer, dependencies: seq<Constraint>, at: Coordinates, fails: seq<bool>,
                           order: seq<nat>)
    returns (canContinue: bool)
    requires forall d | d in dependencies :: d.DependsOn?
    requires |fails| == |dependencies| && Futures.IsOrder(order, |dependencies|)
    ensures dependencies != [] ==> order != [] && order[0] < |dependencies|
    ensures canContinue == Passes(c, api.apps, dependencies, at, fails, order)
  {
    var futures: seq<Futures.Future> := [];
    var i := 0;
    var key := ObjectKey(at.namespace, c.key.name);
    while i < |dependencies|
      invariant 0 <= i <= |dependencies| && |futures| == i
      invariant forall j | 0 <= j < i ::
        futures[j] == Futures.Succeeded(true) <==>
        (!fails[j] && key in api.apps &&
         Promoted(api.apps[key], dependencies[j].environment, dependencies[j].artifacts))
    {
      var d := dependencies[i];
      var granted := DependsOnConstraint(api, key, d.environment, d.artifacts, fails[i]);
      var future := Futures.Failed("failed to get application config");
      if granted.Some? {
        future := Futures.Succeeded(granted.value);
      }
      futures := futures + [future];
      i := i + 1;
    }
    Futures.OrderReaches(order, |dependencies|);
    canContinue := Futures.ExecuteConstraints(futures, order);
  }

  // --------------------------------------------------------------- canaries

  /** How the canaries of one placement go: the order in which they are pushed before
      the first of them (`ends`) has waited out its time, and what each push meets. */
  datatype CanaryPlan = CanaryPlan(pushes: seq<nat>, ends: nat, attempts: seq<seq<Faults>>)

  predicate PlanFits(plan: CanaryPlan, n: nat) {
    && |plan.attempts| == |plan.pushes| && plan.ends < |plan.pushes|
    && (forall i | 0 <= i < |plan.attempts| :: |plan.attempts[i]| == 2)
    && (forall i | 0 <= i < |plan.pushes| :: plan.pushes[i] < n)
    && (forall i, j | 0 <= i < j < |plan.pushes| :: plan.pushes[i] != plan.pushes[j])
  }

  /** Every canary that is pushed has a time that parses and meets no fault. */
  predicate PlanMustHold(canaries: seq<Constraint>, plan: CanaryPlan)
    requires PlanFits(plan, |canaries|) && forall h | h in canaries :: h.HelmCanary?
  {
    forall i | 0 <= i < |plan.pushes| :: canaries[plan.pushes[i]].ttl.Some? && MustSucceed(plan.attempts[i])
  }

  predicate PlanMayHold(canaries: seq<Constraint>, plan: CanaryPlan)
    requires PlanFits(plan, |canaries|) && forall h | h in canaries :: h.HelmCanary?
  {
    forall i | 0 <= i < |plan.pushes| :: canaries[plan.pushes[i]].ttl.Some? && MaySucceed(plan.attempts[i])
  }

  /** The same for the first `n` pushes. */
  predicate MayHoldUpTo(canaries: seq<Constraint>, plan: CanaryPlan, n: nat)
    requires PlanFits(plan, |canaries|) && (forall h | h in canaries :: h.HelmCanary?) && n <= |plan.pushes|
  {
    n == 0 ||
    (&& MayHoldUpTo(canaries, plan, n - 1)
     && canaries[plan.pushes[n - 1]].ttl.Some? && MaySucceed(plan.attempts[n - 1]))
  }

  lemma {:induction false} MayHoldAt(canaries: seq<Constraint>, plan: CanaryPlan, n: nat)
    requires PlanFits(plan, |canaries|) && (forall h | h in canaries :: h.HelmCanary?) && n <= |plan.pushes|
    requires MayHoldUpTo(canaries, plan, n)
    ensures forall i | 0 <= i < n :: canaries[plan.pushes[i]].ttl.Some? && MaySucceed(plan.attempts[i])
  {
    if n > 0 { MayHoldAt(canaries, plan, n - 1); }
  }

  /** The last step of a path. */
  lemma {:induction false} PathLast(c: Setup, job: Job, at: Coordinates, s: State, run: PlacementRun,
                                    acts: seq<PlacementAction>, act: PlacementAction, s': State, run': PlacementRun)
    returns (m: State, mid: PlacementRun)
    requires Path(c, job, at, s, run, acts + [act], s', run')
    ensures PlacementEnabled(job, mid, act) && run' == PlacementNext(c, m, job, at, mid, act)
    ensures s' == m.(releases := PlacementReleases(c, m.releases, job, at, mid, act))
    decreases |acts|
  {
    if acts == [] {
      m, mid := s, run;
      assert ([] + [act])[1..] == [];
    } else {
      assert (acts + [act])[1..] == acts[1..] + [act];
      m, mid := PathLast(c, job, at, s.(releases := PlacementReleases(c, s.releases, job, at, run, acts[0])),
                         PlacementNext(c, s, job, at, run, acts[0]), acts[1..], act, s', run');
    }
  }

  /** After a path that ends with a successful canary push the canary runs. */
  lemma PathRunsCanary(c: Setup, job: Job, at: Coordinates, s: State, run: PlacementRun, acts: seq<PlacementAction>,
                       s': State, run': PlacementRun)
    requires Path(c, job, at, s, run, acts, s', run') && run'.Canarying? && acts != []
    requires var act := acts[|acts| - 1]; act.PushCanary? && act.ok
    ensures acts[|acts| - 1].which < |Canaries(job.env.constraints)|
    ensures RunsCanary(s'.releases, at, c.key.name, Canaries(job.env.constraints)[acts[|acts| - 1].which].values,
                       job.artifacts)
  {
    var act := acts[|acts| - 1];
    assert acts == acts[..|acts| - 1] + [act];
    var m, mid := PathLast(c, job, at, s, run, acts[..|acts| - 1], act, s', run');
    var canary := Canaries(job.env.constraints)[act.which];
    CanaryPushRuns(m.releases, at, c.key.name, canary.values, job.artifacts, act.cleaned);
  }

  /** Canary `which`, up to the start of its wait, after the steps `acts` from `start`. */
  method PushOneCanary(c: Setup, api: ApiServer, store: Store, job: Job, at: Coordinates, which: nat,
                       attempts: seq<Faults>, ghost waiting: set<nat>,
                       ghost start: State, ghost from: PlacementRun, ghost acts: seq<PlacementAction>)
    returns (ok: bool, ghost act: PlacementAction)
    requires which < |Canaries(job.env.constraints)| && which in waiting
    requires Path(c, job, at, start, from, acts, View(api, store), Canarying(waiting))
    modifies store
    ensures ok ==> Path(c, job, at, start, from, acts + [act], View(api, store), Canarying(waiting - {which}))
    ensures !ok ==> Path(c, job, at, start, from, acts + [act], View(api, store), Finished(Denied))
    ensures act.PushCanary? && act.which == which && act.ok == ok
    ensures ok ==> Canaries(job.env.constraints)[which].ttl.Some? && MaySucceed(attempts)
    ensures Canaries(job.env.constraints)[which].ttl.Some? && Target(job.artifacts).Some? && MustSucceed(attempts) ==>
      ok
  {
    var canary := Canaries(job.env.constraints)[which];
    ok := false;
    ghost var landed, cleaned, before := false, false, View(api, store);
    if canary.ttl.Some? {
      var artifacts := CanaryArtifacts(canary.values, job.artifacts);
      ok, landed, cleaned := DoPush(store, CanaryName(c.key.name), at, artifacts, attempts);
      if Target(job.artifacts).Some? { CanaryAsksForSomething(canary.values, job.artifacts); }
    }
    act := PushCanary(which, ok, landed, cleaned);
    OneStep(c, job, at, before, Canarying(waiting), act);
    PathConcat(c, job, at, start, from, acts, before, Canarying(waiting),
               [act], View(api, store), if ok then Canarying(waiting - {which}) else Finished(Denied));
  }

  /** The canaries of a placement share one release, so the last one pushed is running. */
  ghost predicate RunsLastCanary(c: Setup, releases: Releases, job: Job, at: Coordinates, plan: CanaryPlan)
    requires PlanFits(plan, |Canaries(job.env.constraints)|)
  {
    var last := Canaries(job.env.constraints)[plan.pushes[|plan.pushes| - 1]];
    RunsCanary(releases, at, c.key.name, last.values, job.artifacts)
  }

  /** The last step is a push of canary `which` that succeeds. */
  predicate EndsWithPush(acts: seq<PlacementAction>, which: nat) {
    acts != [] && var act := acts[|acts| - 1]; act.PushCanary? && act.ok && act.which == which
  }

  /** As long as canaries are being pushed nothing else happens. */
  lemma {:induction false} PathOnlyPushes(c: Setup, job: Job, at: Coordinates, s: State, run: PlacementRun,
                                          acts: seq<PlacementAction>, s': State, run': PlacementRun)
    requires Path(c, job, at, s, run, acts, s', run') && (run.Canarying? || run == Finished(Denied))
    requires run'.Canarying? || run' == Finished(Denied)
    ensures forall act | act in acts :: act.PushCanary?
    decreases |acts|
  {
    if acts != [] {
      var s1 := s.(releases := PlacementReleases(c, s.releases, job, at, run, acts[0]));
      var next := PlacementNext(c, s, job, at, run, acts[0]);
      if next.Pushing? || next == Finished(Failed) {
        PathNeverBack(c, job, at, s1, next, acts[1..], s', run');
      } else {
        PathOnlyPushes(c, job, at, s1, next, acts[1..], s', run');
      }
    }
  }

  lemma {:induction false} PathNeverBack(c: Setup, job: Job, at: Coordinates, s: State, run: PlacementRun,
                                         acts: seq<PlacementAction>, s': State, run': PlacementRun)
    requires Path(c, job, at, s, run, acts, s', run')
    requires run.Pushing? || run == Finished(Failed) || run == Finished(Pushed)
    ensures run'.Pushing? || run' == Finished(Failed) || run' == Finished(Pushed)
    decreases |acts|
  {
    if acts != [] {
      PathNeverBack(c, job, at, s.(releases := PlacementReleases(c, s.releases, job, at, run, acts[0])),
                    PlacementNext(c, s, job, at, run, acts[0]), acts[1..], s', run');
    }
  }

  /** The pushes, up to the first that does not succeed. */
  method PushCanaries(c: Setup, api: ApiServer, store: Store, job: Job, at: Coordinates, plan: CanaryPlan)
    returns (ok: bool, ghost acts: seq<PlacementAction>)
    requires PlanFits(plan, |Canaries(job.env.constraints)|)
    modifies store
    ensures var n := |Canaries(job.env.constraints)|;
            ok ==> Path(c, job, at, old(View(api, store)), Canarying(Indices(n)), acts, View(api, store),
                        Canarying(Waiting(plan.pushes, |plan.pushes|, n)))
    ensures !ok ==> Path(c, job, at, old(View(api, store)), Canarying(Indices(|Canaries(job.env.constraints)|)), acts,
                         View(api, store), Finished(Denied))
    ensures ok ==> MayHoldUpTo(Canaries(job.env.constraints), plan, |plan.pushes|)
    ensures ok ==> EndsWithPush(acts, plan.pushes[|plan.pushes| - 1])
    ensures Target(job.artifacts).Some? && PlanMustHold(Canaries(job.env.constraints), plan) ==> ok
  {
    var canaries := Canaries(job.env.constraints);
    ghost var start, from := View(api, store), Canarying(Indices(|canaries|));
    acts := [];
    var i := 0;
    while i < |plan.pushes|
      invariant 0 <= i <= |plan.pushes|
      invariant MayHoldUpTo(canaries, plan, i)
      invariant i > 0 ==> EndsWithPush(acts, plan.pushes[i - 1])
      invariant Path(c, job, at, start, from, acts, View(api, store), Canarying(Waiting(plan.pushes, i, |canaries|)))
    {
      var which := plan.pushes[i];
      WaitingHas(plan.pushes, i, |canaries|, i);
      ghost var act;
      ok, act := PushOneCanary(c, api, store, job, at, which, plan.attempts[i],
                               Waiting(plan.pushes, i, |canaries|), start, from, acts);
      acts := acts + [act];
      if !ok {
        return;
      }
      i := i + 1;
    }
    ok := true;
  }

  method RunCanaries(c: Setup, api: ApiServer, store: Store, job: Job, at: Coordinates, plan: CanaryPlan)
    returns (granted: bool, ghost acts: seq<PlacementAction>)
    requires PlanFits(plan, |Canaries(job.env.constraints)|)
    modifies store
    ensures Path(c, job, at, old(View(api, store)), Canarying(Indices(|Canaries(job.env.constraints)|)), acts,
                 View(api, store), if granted then Pushing else Finished(Denied))
    ensures forall act | act in acts :: act.PushCanary? || act.EndCanary?
    ensures granted ==> PlanMayHold(Canaries(job.env.constraints), plan)
    ensures Target(job.artifacts).Some? && PlanMustHold(Canaries(job.env.constraints), plan) ==> granted
    ensures granted ==> RunsLastCanary(c, store.releases, job, at, plan)
  {
    ghost var n, start := |Canaries(job.env.constraints)|, View(api, store);
    granted, acts := PushCanaries(c, api, store, job, at, plan);
    PathOnlyPushes(c, job, at, start, Canarying(Indices(n)), acts, View(api, store),
                   if granted then Canarying(Waiting(plan.pushes, |plan.pushes|, n)) else Finished(Denied));
    if granted {
      MayHoldAt(Canaries(job.env.constraints), plan, |plan.pushes|);
      PathRunsCanary(c, job, at, start, Canarying(Indices(n)), acts, View(api, store),
                     Canarying(Waiting(plan.pushes, |plan.pushes|, n)));
      ghost var end := EndCanary(plan.pushes[plan.ends]);
      WaitingLacks(plan.pushes, |plan.pushes|, n, plan.ends);
      CanaryEnds(c, job, at, start, Canarying(Indices(n)), acts, View(api, store),
                 Waiting(plan.pushes, |plan.pushes|, n), end);
      acts := acts + [end];
    }
  }

  /** The canaries not yet pushed after `i` pushes. */
  function Waiting(pushes: seq<nat>, i: nat, n: nat): set<nat>
    requires i <= |pushes|
  {
    if i == 0 then Indices(n) else Waiting(pushes, i - 1, n) - {pushes[i - 1]}
  }

  lemma {:induction false} WaitingHas(pushes: seq<nat>, i: nat, n: nat, j: nat)
    requires i <= j < |pushes| && pushes[j] < n
    requires forall x, y | 0 <= x < y < |pushes| :: pushes[x] != pushes[y]
    ensures pushes[j] in Waiting(pushes, i, n)
  {
    if i > 0 { WaitingHas(pushes, i - 1, n, j); }
  }

  lemma {:induction false} WaitingLacks(pushes: seq<nat>, i: nat, n: nat, j: nat)
    requires j < i <= |pushes|
    ensures pushes[j] !in Waiting(pushes, i, n)
  {
    if j < i - 1 { WaitingLacks(pushes, i - 1, n, j); }
  }

  /** When one canary has waited out its time, the push may follow. */
  lemma CanaryEnds(c: Setup, job: Job, at: Coordinates, s: State, run: PlacementRun, acts: seq<PlacementAction>,
                   s': State, waiting: set<nat>, end: PlacementAction)
    requires Path(c, job, at, s, run, acts, s', Canarying(waiting))
    requires end.EndCanary? && PlacementEnabled(job, Canarying(waiting), end)
    ensures Path(c, job, at, s, run, acts + [end], s', Pushing)
  {
    OneStep(c, job, at, s', Canarying(waiting), end);
    PathConcat(c, job, at, s, run, acts, s', Canarying(waiting), [end], s', Pushing);
  }

  // ------------------------------------------------------------- a placement

  /** What the check of a placement meets: which gates fail, the order in which they
      complete, and how the canaries go. */
  datatype CheckPlan = CheckPlan(fails: seq<bool>, order: seq<nat>, canary: CanaryPlan)

  predicate CheckFits(job: Job, plan: CheckPlan) {
    && |plan.fails| == |Dependencies(job.env.constraints)| && Futures.IsOrder(plan.order, |plan.fails|)
    && (Canaries(job.env.constraints) != [] ==> PlanFits(plan.canary, |Canaries(job.env.constraints)|))
  }

  predicate CheckPasses(c: Setup, apps: map<ObjectKey, Application>, job: Job, at: Coordinates, plan: CheckPlan)
    requires CheckFits(job, plan)
  {
    Passes(c, apps, Dependencies(job.env.constraints), at, plan.fails, plan.order)
  }

  predicate CanariesMustHold(job: Job, plan: CheckPlan)
    requires CheckFits(job, plan)
  {
    Canaries(job.env.constraints) == [] || PlanMustHold(Canaries(job.env.constraints), plan.canary)
  }

  predicate CanariesMayHold(job: Job, plan: CheckPlan)
    requires CheckFits(job, plan)
  {
    Canaries(job.env.constraints) == [] || PlanMayHold(Canaries(job.env.constraints), plan.canary)
  }

  /** The canary release is the last canary's, or as it was if there is none to push. */
  ghost predicate CanaryStands(c: Setup, before: Releases, after: Releases, job: Job, at: Coordinates, plan: CheckPlan)
    requires CheckFits(job, plan)
  {
    if Canaries(job.env.constraints) != [] then RunsLastCanary(c, after, job, at, plan.canary)
    else SameAt(before, after, ReleaseKey(at.cluster, at.namespace, c.key.name + "-canary"))
  }

  lemma CanaryStandsOn(c: Setup, before: Releases, middle: Releases, after: Releases, job: Job, at: Coordinates,
                       plan: CheckPlan)
    requires CheckFits(job, plan) && CanaryStands(c, before, middle, job, at, plan)
    requires SameAt(middle, after, ReleaseKey(at.cluster, at.namespace, c.key.name + "-canary"))
    ensures CanaryStands(c, before, after, job, at, plan)
  {
  }

  /** `DoCheck`: stateless gates first, canaries only after they are granted. */
  method DoCheck(c: Setup, api: ApiServer, store: Store, job: Job, at: Coordinates, plan: CheckPlan)
    returns (checked: bool, ghost acts: seq<PlacementAction>)
    requires CheckFits(job, plan)
    modifies store
    ensures Path(c, job, at, old(View(api, store)), AfterDiff(job.env.constraints), acts,
                 View(api, store), if checked then Pushing else Finished(Denied))
    ensures Dependencies(job.env.constraints) != [] ==>
      acts != [] && plan.order != [] && plan.order[0] < |plan.fails| &&
      acts[0] == Gate(plan.order[0], !plan.fails[plan.order[0]])
    ensures forall act | act in acts :: act.Gate? || act.PushCanary? || act.EndCanary?
    ensures !CheckPasses(c, api.apps, job, at, plan) ==> !checked && store.releases == old(store.releases)
    ensures checked ==> CanariesMayHold(job, plan)
    ensures CheckPasses(c, api.apps, job, at, plan) && Target(job.artifacts).Some? && CanariesMustHold(job, plan) ==>
      checked
    ensures checked ==> CanaryStands(c, old(store.releases), store.releases, job, at, plan)
  {
    var dependencies := Dependencies(job.env.constraints);
    acts := [];
    var canContinue := CheckDependencies(c, api, dependencies, at, plan.fails, plan.order);
    if dependencies != [] {
      ghost var act := Gate(plan.order[0], !plan.fails[plan.order[0]]);
      OneStep(c, job, at, View(api, store), Gating, act);
      acts := [act];
      if !canContinue {
        return false, acts;
      }
    }
    ghost var first, middle := acts, View(api, store);
    if Canaries(job.env.constraints) != [] {
      ghost var more;
      checked, more := RunCanaries(c, api, store, job, at, plan.canary);
      PathConcat(c, job, at, old(View(api, store)), AfterDiff(job.env.constraints), first, middle,
                 AfterGates(job.env.constraints), more, View(api, store),
                 if checked then Pushing else Finished(Denied));
      acts := first + more;
    } else {
      checked := true;
    }
  }

  /** The outcome the faults and the state at the start allow. */
  predicate OutcomeFits(c: Setup, s: State, job: Job, at: Coordinates, diffFails: bool, plan: CheckPlan, push: Faults,
                        outcome: Outcome)
    requires CheckFits(job, plan)
  {
    var diff := DiffOf(s.releases, KeyAt(at, c.key.name), job.artifacts);
    if diffFails || diff.DiffError? then outcome == Failed
    else if diff.Same? then outcome == InSync
    else if !CheckPasses(c, s.apps, job, at, plan) then outcome == Denied
    else
      && outcome != InSync
      && (outcome != Denied ==> CanariesMayHold(job, plan))
      && (outcome == Pushed ==> MaySucceed([push]) && Target(job.artifacts).Some?)
      && (Target(job.artifacts).Some? && CanariesMustHold(job, plan) ==>
            outcome != Denied && (MustSucceed([push]) ==> outcome == Pushed))
  }

  /** `ReconcilePlacement`: diff, check, push. Its outcome and its effect on the
      release store are those of a path of the machine from start to finish, and the
      outcome follows from what was met on the way. */
  method ReconcilePlacement(c: Setup, api: ApiServer, store: Store, job: Job, at: Coordinates, diffFails: bool,
                            plan: CheckPlan, push: Faults)
    returns (outcome: Outcome, ghost acts: seq<PlacementAction>)
    requires CheckFits(job, plan)
    modifies store
    ensures Path(c, job, at, old(View(api, store)), Diffing, acts, View(api, store), Finished(outcome))
    ensures acts != [] && acts[0] == Diff(!diffFails) && CheckFails !in acts
    ensures OutcomeFits(c, old(View(api, store)), job, at, diffFails, plan, push, outcome)
    ensures !CheckPasses(c, api.apps, job, at, plan) ==> store.releases == old(store.releases)
    ensures outcome == Pushed ==> Holds(store.releases, KeyAt(at, c.key.name), job.artifacts)
    ensures outcome == Pushed ==>
      if !push.history && !push.uninstall
      then ReleaseKey(at.cluster, at.namespace, c.key.name + "-canary") !in store.releases
      else CanaryStands(c, old(store.releases), store.releases, job, at, plan)
  {
    var hr := new HelmReconciler(store, c.key.name, at, job.artifacts);
    var differs := hr.Diff(diffFails);
    ghost var start, diff := View(api, store), Diff(!diffFails);
    OneStep(c, job, at, start, Diffing, diff);
    acts := [diff];
    if differs.None? {
      return Failed, acts;
    }
    if !differs.value {
      return InSync, acts;
    }
    var checked;
    ghost var check;
    checked, check := DoCheck(c, api, store, job, at, plan);
    ghost var middle := View(api, store);
    PathConcat(c, job, at, start, Diffing, acts, start, AfterDiff(job.env.constraints), check, middle,
               if checked then Pushing else Finished(Denied));
    acts := acts + check;
    if !checked {
      return Denied, acts;
    }
    ghost var act;
    outcome, act := PushTarget(c, api, store, job, at, push, start, acts);
    if outcome == Pushed && (push.history || push.uninstall) {
      CanaryStandsOn(c, start.releases, middle.releases, store.releases, job, at, plan);
    }
    acts := acts + [act];
  }

  /** The main push of a placement, after the steps `acts` from `start`. */
  method PushTarget(c: Setup, api: ApiServer, store: Store, job: Job, at: Coordinates, push: Faults,
                    ghost start: State, ghost acts: seq<PlacementAction>)
    returns (outcome: Outcome, ghost act: PlacementAction)
    requires Path(c, job, at, start, Diffing, acts, View(api, store), Pushing)
    modifies store
    ensures act.Push? && (outcome == Pushed || outcome == Failed)
    ensures Path(c, job, at, start, Diffing, acts + [act], View(api, store), Finished(outcome))
    ensures outcome == Pushed ==> MaySucceed([push]) && Target(job.artifacts).Some?
    ensures outcome == Pushed ==> Holds(store.releases, KeyAt(at, c.key.name), job.artifacts)
    ensures Target(job.artifacts).Some? && MustSucceed([push]) ==> outcome == Pushed
    ensures outcome == Pushed ==>
      var canary := ReleaseKey(at.cluster, at.namespace, c.key.name + "-canary");
      if !push.history && !push.uninstall then canary !in store.releases
      else SameAt(old(store.releases), store.releases, canary)
  {
    ghost var before := View(api, store);
    var ok;
    ghost var landed, cleaned;
    ok, landed, cleaned := DoPush(store, c.key.name, at, job.artifacts, [push]);
    act := Push(ok, landed, cleaned);
    OneStep(c, job, at, before, Pushing, act);
    outcome := if ok then Pushed else Failed;
    PathConcat(c, job, at, start, Diffing, acts, before, Pushing, [act], View(api, store), Finished(outcome));
    if ok {
      PushThenDiff(before.releases, at, c.key.name, job.artifacts, cleaned);
      DiffSameIff(store.releases, KeyAt(at, c.key.name), job.artifacts);
      CanaryAfterPush(before.releases, at, c.key.name, job.artifacts, cleaned);
    }
  }
}
