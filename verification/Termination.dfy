/** Rounds end, and so does the whole workflow once its Application is gone. */
module Termination {
  import opened Api
  import opened Artifacts
  import opened Placements
  import opened Helm
  import opened Recording
  import opened Protocol
  import opened Invariants

  // --------------------------------------------------------------- measure

  function PlacementLeft(env: Environment, run: PlacementRun): nat {
    match run
    case Diffing => 4 + |Canaries(env.constraints)|
    case Gating => 3 + |Canaries(env.constraints)|
    case Canarying(waiting) => 2 + |waiting|
    case Pushing => 1
    case Finished(_) => 0
  }

  function RunsLeft(env: Environment, runs: seq<PlacementRun>): nat {
    if runs == [] then 0
    else
      var last := |runs| - 1;
      RunsLeft(env, runs[..last]) + PlacementLeft(env, runs[last])
  }

  /** Steps an environment workflow has left once it knows its environment. */
  function PlacingLeft(c: Setup, env: Environment): nat {
    4 + RunsLeft(env, FreshRuns(|CoordinatesOf(c.key.namespace, env.placement, c.clusters)|))
  }

  function EnvLeft(c: Setup, config: Spec, name: string, run: EnvRun): nat {
    match run
    case Fetching => (
      match FindEnvironment(config.environments, name)
      case None => 1
      case Some(env) => 1 + PlacingLeft(c, env))
    case Placing(env, _) => PlacingLeft(c, env)
    case Working(job, runs) => 3 + RunsLeft(job.env, runs)
    case Reading(_, _) => 2
    case Writing(_, _, _) => 1
    case Done(_) => 0
  }

  function EnvsLeft(c: Setup, config: Spec, envs: seq<EnvRun>): nat
    requires |envs| <= |config.environments|
  {
    if envs == [] then 0
    else
      var last := |envs| - 1;
      EnvsLeft(c, config, envs[..last]) + EnvLeft(c, config, config.environments[last].name, envs[last])
  }

  /** An upper bound on the steps the workflow can still take on its own, counting
      one more attempt to begin a round. */
  function Left(c: Setup, s: State): nat {
    match s.flow
    case Closed => 0
    case Sleeping => 1
    case Round(config, envs) => if |envs| <= |config.environments| then 2 + EnvsLeft(c, config, envs) else 0
  }

  // ------------------------------------------------------------ it descends

  lemma {:induction false} RunsLeftUpdate(env: Environment, runs: seq<PlacementRun>, p: nat, run: PlacementRun)
    requires p < |runs|
    ensures RunsLeft(env, runs[p := run]) + PlacementLeft(env, runs[p]) == RunsLeft(env, runs) + PlacementLeft(env, run)
  {
    var last := |runs| - 1;
    if p < last {
      RunsLeftUpdate(env, runs[..last], p, run);
      assert runs[p := run][..last] == runs[..last][p := run];
    } else {
      assert runs[p := run][..last] == runs[..last];
    }
  }

  lemma {:induction false} EnvsLeftUpdate(c: Setup, config: Spec, envs: seq<EnvRun>, k: nat, run: EnvRun)
    requires k < |envs| <= |config.environments|
    ensures EnvsLeft(c, config, envs[k := run]) + EnvLeft(c, config, config.environments[k].name, envs[k]) ==
            EnvsLeft(c, config, envs) + EnvLeft(c, config, config.environments[k].name, run)
  {
    var last := |envs| - 1;
    if k < last {
      EnvsLeftUpdate(c, config, envs[..last], k, run);
      assert envs[k := run][..last] == envs[..last][k := run];
    } else {
      assert envs[k := run][..last] == envs[..last];
    }
  }

  lemma PlacementDescends(c: Setup, s: State, job: Job, at: Coordinates, run: PlacementRun, act: PlacementAction)
    requires PlacementEnabled(job, run, act)
    ensures PlacementLeft(job.env, PlacementNext(c, s, job, at, run, act)) < PlacementLeft(job.env, run)
  {
  }

  lemma EnvDescends(c: Setup, s: State, name: string, run: EnvRun, act: EnvAction)
    requires s.flow.Round? && Stable(c, s) && EnvEnabled(run, act)
    ensures EnvLeft(c, s.flow.config, name, EnvNext(c, s, name, run, act)) < EnvLeft(c, s.flow.config, name, run)
  {
    if act.Child? {
      var p := act.p;
      PlacementDescends(c, s, run.job, run.job.at[p], run.runs[p], act.act);
      RunsLeftUpdate(run.job.env, run.runs, p, PlacementNext(c, s, run.job, run.job.at[p], run.runs[p], act.act));
    }
  }

  predicate Own(a: Action) {
    a.Begin? || a.Env? || a.End?
  }

  /** Every step of the environment workflows, failing or not, brings the round
      closer to its end. */
  lemma RoundDescends(c: Setup, s: State, a: Action)
    requires Enabled(c, s, a) && Stable(c, s) && EnvsShaped(c, s) && s.flow.Round? && (a.Env? || a.End?)
    ensures Left(c, Step(c, s, a)) < Left(c, s)
  {
    if a.Env? {
      var name := s.flow.config.environments[a.k].name;
      var next := EnvNext(c, s, name, s.flow.envs[a.k], a.act);
      EnvDescends(c, s, name, s.flow.envs[a.k], a.act);
      EnvsLeftUpdate(c, s.flow.config, s.flow.envs, a.k, next);
    }
  }

  /** Own steps taken between `b` and `i`. */
  function OwnSteps(r: Run, b: nat, i: nat): nat
    requires b <= i <= |r.actions|
  {
    if i == b then 0 else OwnSteps(r, b, i - 1) + if Own(r.actions[i - 1]) then 1 else 0
  }

  /** An own step of the running round counts, other steps do not matter. */
  lemma RoundStepIsBounded(c: Setup, s: State, a: Action)
    requires Enabled(c, s, a) && Stable(c, s) && EnvsShaped(c, s)
    requires s.flow.Round? && !a.Terminate?
    ensures Left(c, Step(c, s, a)) + (if Own(a) then 1 else 0) <= Left(c, s)
  {
    if Own(a) { RoundDescends(c, s, a); }
  }

  /** Bounded rounds. While a round runs and the spec is left alone, the environment
      and placement workflows take at most `Left` steps together, whatever fails and
      whoever interferes otherwise. */
  lemma {:induction false} RoundIsBounded(c: Setup, r: Run, b: nat, i: nat)
    requires FromRest(c, r) && b <= i < |r.states|
    requires forall j | b <= j < i :: r.states[j].flow.Round? && Stable(c, r.states[j]) && !r.actions[j].Terminate?
    requires r.states[b].flow.Round?
    ensures OwnSteps(r, b, i) + Left(c, r.states[i]) <= Left(c, r.states[b])
  {
    if b < i {
      RoundIsBounded(c, r, b, i - 1);
      AlwaysShaped(c, r, i - 1);
      RoundStepIsBounded(c, r.states[i - 1], r.actions[i - 1]);
    }
  }

  /** A round is never stuck: in every reachable state, until the round is over, some
      step of it is enabled. */
  lemma RoundIsNeverStuck(c: Setup, r: Run, i: nat) returns (a: Action)
    requires FromRest(c, r) && i < |r.states| && r.states[i].flow.Round?
    ensures Own(a) && Enabled(c, r.states[i], a)
  {
    AlwaysShaped(c, r, i);
    a := ShapedIsNeverStuck(c, r.states[i]);
  }

  lemma ShapedIsNeverStuck(c: Setup, s: State) returns (a: Action)
    requires EnvsShaped(c, s) && s.flow.Round?
    ensures Own(a) && Enabled(c, s, a)
  {
    if forall k | 0 <= k < |s.flow.envs| :: s.flow.envs[k].Done? {
      a := End;
    } else {
      var k: nat :| k < |s.flow.envs| && !s.flow.envs[k].Done?;
      var act := EnvIsNeverStuck(c, s.flow.config.environments[k].name, s.flow.envs[k]);
      a := Env(k, act);
    }
  }

  lemma EnvIsNeverStuck(c: Setup, name: string, run: EnvRun) returns (act: EnvAction)
    requires !run.Done? && EnvShape(c, name, run)
    ensures EnvEnabled(run, act)
  {
    match run
    case Fetching => act := Fetch(true);
    case Placing(_, _) => act := Place(true);
    case Reading(_, _) => act := Read(true);
    case Writing(_, _, _) => act := Write(true);
    case Working(job, runs) =>
      if AllFinished(runs) {
        act := Collect;
      } else {
        var p: nat :| p < |runs| && !runs[p].Finished?;
        var x := PlacementIsNeverStuck(job, runs[p]);
        act := Child(p, x);
      }
  }

  /** A placement can always go on, and without failing. */
  lemma PlacementIsNeverStuck(job: Job, run: PlacementRun) returns (x: PlacementAction)
    requires !run.Finished? && Shaped(job.env, run)
    ensures PlacementEnabled(job, run, x)
    ensures x.Diff? || x.Gate? || x.PushCanary? || x.Push? ==> x.ok
    ensures !x.CheckFails?
  {
    match run
    case Diffing => x := Diff(true);
    case Gating => x := Gate(0, true);
    case Pushing => x := Push(true, true, true);
    case Canarying(waiting) =>
      if w :| w in waiting {
        x := PushCanary(w, true, true, true);
      } else {
        x := EndCanary(0);
      }
  }

  /** Any call may fail, and a push may land all the same: wherever a call can succeed it
      can fail as well, and a check can fail while it is under way. */
  lemma AnyCallMayFail(c: Setup, s: State, k: nat, p: nat, which: nat, cleaned: bool, landed: bool, after: bool)
    ensures Enabled(c, s, Begin(true)) ==> Enabled(c, s, Begin(false))
    ensures Enabled(c, s, Env(k, Fetch(true))) ==> Enabled(c, s, Env(k, Fetch(false)))
    ensures Enabled(c, s, Env(k, Place(true))) ==> Enabled(c, s, Env(k, Place(false)))
    ensures Enabled(c, s, Env(k, Read(true))) ==> Enabled(c, s, Env(k, Read(false)))
    ensures Enabled(c, s, Env(k, Write(true))) ==> Enabled(c, s, Env(k, Write(false)))
    ensures Enabled(c, s, Env(k, Child(p, Diff(true)))) ==> Enabled(c, s, Env(k, Child(p, Diff(false))))
    ensures Enabled(c, s, Env(k, Child(p, Gate(which, true)))) ==>
              && Enabled(c, s, Env(k, Child(p, Gate(which, false))))
              && Enabled(c, s, Env(k, Child(p, CheckFails)))
    ensures Enabled(c, s, Env(k, Child(p, PushCanary(which, true, true, cleaned)))) ==>
              && Enabled(c, s, Env(k, Child(p, PushCanary(which, false, landed, after))))
              && Enabled(c, s, Env(k, Child(p, CheckFails)))
    ensures Enabled(c, s, Env(k, Child(p, Push(true, true, cleaned)))) ==>
              Enabled(c, s, Env(k, Child(p, Push(false, landed, after))))
  {
  }

  // -------------------------------------------------------------- shutdown

  /** Without the Application no step begins a round or adds work. */
  lemma OrphanStepIsBounded(c: Setup, s: State, a: Action)
    requires Enabled(c, s, a) && EnvsShaped(c, s) && c.key !in s.apps && !a.Start?
    ensures Left(c, Step(c, s, a)) + (if Own(a) then 1 else 0) <= Left(c, s)
    ensures a.Begin? ==> Step(c, s, a).flow.Closed?
    ensures Step(c, s, a).flow.Round? ==> s.flow.Round?
  {
    if s.flow.Round? && (a.Env? || a.End?) { RoundDescends(c, s, a); }
  }

  /** Bounded shutdown. Once the Application is gone and not recreated, an open
      `Reconcile` workflow begins no new round (the attempt closes it), and its
      remaining steps are bounded, whether or not anybody manages to terminate it and
      whatever happened before. */
  lemma {:induction false} ShutdownIsBounded(c: Setup, r: Run, b: nat, i: nat)
    requires FromRest(c, r) && b <= i < |r.states|
    requires forall j | b <= j < i :: c.key !in r.states[j].apps && !r.actions[j].Start?
    ensures OwnSteps(r, b, i) + Left(c, r.states[i]) <= Left(c, r.states[b])
    ensures forall j | b <= j < i && r.actions[j].Begin? :: r.states[j + 1].flow.Closed?
    ensures !r.states[b].flow.Round? ==> !r.states[i].flow.Round?
  {
    if b < i {
      ShutdownIsBounded(c, r, b, i - 1);
      AlwaysShaped(c, r, i - 1);
      OrphanStepIsBounded(c, r.states[i - 1], r.actions[i - 1]);
    }
  }

  /** When the bound is used up the workflow is closed. */
  lemma ShutdownCompletes(c: Setup, r: Run, b: nat, i: nat)
    requires FromRest(c, r) && b <= i < |r.states|
    requires forall j | b <= j < i :: c.key !in r.states[j].apps && !r.actions[j].Start?
    requires OwnSteps(r, b, i) >= Left(c, r.states[b])
    ensures r.states[i].flow.Closed?
  {
    ShutdownIsBounded(c, r, b, i);
    AlwaysShaped(c, r, i);
  }

  // ------------------------------------------------------- the round loop

  /** The fetch at the beginning of a round succeeds. */
  predicate BeginSucceeds(c: Setup, s: State, a: Action) {
    a.Begin? && a.ok && c.key in s.apps
  }

  /** A step that ends the `Reconcile` workflow. */
  predicate EndsLoop(c: Setup, s: State, a: Action) {
    a.Terminate? || (a.Begin? && !BeginSucceeds(c, s, a))
  }

  lemma LoopStep(c: Setup, s: State, a: Action)
    requires Enabled(c, s, a) && !a.Start?
    ensures Step(c, s, a).flow.Closed? <==> s.flow.Closed? || EndsLoop(c, s, a)
    ensures a.Begin? ==> (Step(c, s, a).flow.Round? <==> BeginSucceeds(c, s, a))
  {
  }

  /** The workflow goes on, and reaches another round, if and only if every fetch so far
      succeeded on an existing object and nobody terminated it. */
  lemma {:induction false} LoopGoesOnIff(c: Setup, r: Run, b: nat, i: nat)
    requires Follows(c, r) && b <= i < |r.states| && !r.states[b].flow.Closed?
    requires forall j | b <= j < i :: !r.actions[j].Start?
    ensures !r.states[i].flow.Closed? <==> forall j | b <= j < i :: !EndsLoop(c, r.states[j], r.actions[j])
    ensures i < |r.actions| && r.actions[i].Begin? ==>
              (r.states[i + 1].flow.Round? <==> BeginSucceeds(c, r.states[i], r.actions[i]))
  {
    if i < |r.actions| && !r.actions[i].Start? { LoopStep(c, r.states[i], r.actions[i]); }
    if b < i {
      LoopGoesOnIff(c, r, b, i - 1);
      LoopStep(c, r.states[i - 1], r.actions[i - 1]);
    }
  }

  lemma ClosedStep(c: Setup, s: State, a: Action)
    requires Enabled(c, s, a) && s.flow.Closed? && !a.Start?
    ensures Step(c, s, a).flow.Closed? && !Own(a)
    ensures !a.Drift? ==> Step(c, s, a).releases == s.releases
    ensures !a.External? ==> Step(c, s, a).apps == s.apps
  {
  }

  /** A failed fetch is the end. After it, and until somebody starts the workflow again,
      the operator takes no step and changes no release and no object. */
  lemma {:induction false} FailedFetchEndsLoop(c: Setup, r: Run, b: nat, i: nat)
    requires Follows(c, r) && b < i < |r.states|
    requires r.actions[b].Begin? && (!r.actions[b].ok || c.key !in r.states[b].apps)
    requires forall j | b < j < i :: !r.actions[j].Start?
    ensures r.states[i].flow.Closed? && OwnSteps(r, b + 1, i) == 0
    ensures forall j | b < j < i ::
              && (!r.actions[j].Drift? ==> r.states[j + 1].releases == r.states[j].releases)
              && (!r.actions[j].External? ==> r.states[j + 1].apps == r.states[j].apps)
  {
    if b + 1 == i {
      LoopStep(c, r.states[b], r.actions[b]);
    } else {
      FailedFetchEndsLoop(c, r, b, i - 1);
      ClosedStep(c, r.states[i - 1], r.actions[i - 1]);
    }
  }
}
