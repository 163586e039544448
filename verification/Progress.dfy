/** When calm runs converge: what an open gate achieves, what a shut gate prevents, and
    which recordings open a gate. */
module Progress {
  import opened Api
  import opened Artifacts
  import opened Placements
  import opened Helm
  import opened Recording
  import opened Protocol
  import opened Invariants
  import opened Promotion
  import opened Serial
  import opened Convergence

  // ------------------------------------------------------- a promotion stays

  lemma {:induction false} PromotedLater(c: Setup, spec: Spec, r: Run, g: nat, i: nat, name: string, names: seq<string>)
    requires Calm(c, spec, r) && g <= i < |r.states|
    requires c.key in r.states[g].apps && Promoted(r.states[g].apps[c.key], name, names)
    ensures c.key in r.states[i].apps && Promoted(r.states[i].apps[c.key], name, names)
  {
    if g < i {
      PromotedLater(c, spec, r, g, i - 1, name, names);
      BaseAlways(c, spec, r, i - 1);
      CommitKeepsPromoted(c, r.states[i - 1], r.actions[i - 1], name, names);
    }
  }

  // ------------------------------------------------------------- shut gates

  /** Environment `k` has gates, and none of them would be granted. */
  predicate Shut(c: Setup, spec: Spec, s: State, k: nat)
    requires k < |spec.environments|
  {
    && c.key in s.apps
    && Dependencies(spec.environments[k].constraints) != []
    && forall d | d in Dependencies(spec.environments[k].constraints) ::
         !Promoted(s.apps[c.key], d.environment, d.artifacts)
  }

  lemma ShutBefore(c: Setup, spec: Spec, r: Run, b: nat, i: nat, k: nat)
    requires Calm(c, spec, r) && b <= i < |r.states| && k < |spec.environments|
    requires Shut(c, spec, r.states[i], k)
    ensures Shut(c, spec, r.states[b], k)
  {
    BaseAlways(c, spec, r, b);
    forall d | d in Dependencies(spec.environments[k].constraints)
      ensures !Promoted(r.states[b].apps[c.key], d.environment, d.artifacts)
    {
      if Promoted(r.states[b].apps[c.key], d.environment, d.artifacts) {
        PromotedLater(c, spec, r, b, i, d.environment, d.artifacts);
      }
    }
  }

  /** No placement behind shut gates is pushed, main or canary. */
  lemma ShutGateIsNotPassed(c: Setup, spec: Spec, r: Run, i: nat, k: nat, p: nat, act: PlacementAction)
    requires Convergeable(c, spec) && Calm(c, spec, r) && Takes(r, i, k, p, act)
    requires act.Push? || act.PushCanary?
    ensures k < |spec.environments| && !Shut(c, spec, r.states[i], k)
  {
    BaseAlways(c, spec, r, i);
    var job := Envs(r.states[i])[k].job;
    assert EnvOk(c, spec, spec.environments[k].name, Envs(r.states[i])[k]);
    JobIsTheSpecs(c, spec, k, job);
    if Shut(c, spec, r.states[i], k) {
      var g, d := GateOf(c, r, i, k, p);
      BaseAlways(c, spec, r, g);
      OpenIsGranted(c, spec, r.states[g], k, job.at[p], d);
      PromotedLater(c, spec, r, g, i, d.environment, d.artifacts);
      assert false;
    }
  }

  /** The gate that let a placement pass. */
  lemma GateOf(c: Setup, r: Run, i: nat, k: nat, p: nat) returns (g: nat, d: Constraint)
    requires FromRest(c, r) && i < |r.states| && k < |Envs(r.states[i])| && p < |RunsOf(Envs(r.states[i])[k])|
    requires PastGate(RunsOf(Envs(r.states[i])[k])[p])
    requires Dependencies(Envs(r.states[i])[k].job.env.constraints) != []
    ensures g < i && d in Dependencies(Envs(r.states[i])[k].job.env.constraints)
    ensures p < |Envs(r.states[i])[k].job.at| && GateHolds(c, r.states[g], Envs(r.states[i])[k].job.at[p], d)
  {
    GatesGrantedAlways(c, r, i);
    var job := Envs(r.states[i])[k].job;
    var f: nat;
    f, g :| RoundStart(r, i) <= f < g < i
      && Fetched(c, r, f, k, job.env, job.artifacts) && Granted(c, r, g, k, p, job);
    var which :| 0 <= which < |Dependencies(job.env.constraints)|
      && r.actions[g] == Env(k, Child(p, Gate(which, true)))
      && GateHolds(c, r.states[g], job.at[p], Dependencies(job.env.constraints)[which]);
    d := Dependencies(job.env.constraints)[which];
  }

  lemma ShutStep(c: Setup, spec: Spec, r: Run, i: nat, k: nat, p: nat)
    requires Convergeable(c, spec) && Calm(c, spec, r) && i < |r.actions|
    requires k < |spec.environments| && p < |PlacesOf(c, spec, k)| && Shut(c, spec, r.states[i], k)
    ensures SameAt(r.states[i].releases, r.states[i + 1].releases, KeyAt(PlacesOf(c, spec, k)[p], c.key.name))
  {
    var s, a, where := r.states[i], r.actions[i], PlacesOf(c, spec, k)[p];
    if a.Env? && a.act.Child? {
      BaseAlways(c, spec, r, i);
      var run := s.flow.envs[a.k];
      JobIsTheSpecs(c, spec, a.k, run.job);
      var at := run.job.at[a.act.p];
      if a.act.act.Push? && at == where {
        assert at in PlacesOf(c, spec, a.k) && where in PlacesOf(c, spec, k);
        assert Takes(r, i, k, a.act.p, a.act.act);
        ShutGateIsNotPassed(c, spec, r, i, k, a.act.p, a.act.act);
        assert false;
      }
      PlacementFrame(c, s.releases, run.job, at, run.runs[a.act.p], a.act.act, where);
    }
  }

  /** Behind gates that are still shut at `i` no release has changed since `b`. */
  lemma {:induction false} ShutGateHoldsBack(c: Setup, spec: Spec, r: Run, b: nat, i: nat, k: nat, p: nat)
    requires Convergeable(c, spec) && Calm(c, spec, r) && b <= i < |r.states|
    requires k < |spec.environments| && p < |PlacesOf(c, spec, k)| && Shut(c, spec, r.states[i], k)
    ensures SameAt(r.states[b].releases, r.states[i].releases, KeyAt(PlacesOf(c, spec, k)[p], c.key.name))
  {
    if b < i {
      ShutBefore(c, spec, r, i - 1, i, k);
      ShutGateHoldsBack(c, spec, r, b, i - 1, k, p);
      ShutStep(c, spec, r, i - 1, k, p);
    }
  }

  lemma SyncNeedsOpenGate(c: Setup, spec: Spec, r: Run, b: nat, i: nat, k: nat, p: nat)
    requires Convergeable(c, spec) && Calm(c, spec, r) && b <= i < |r.states|
    requires k < |spec.environments| && p < |PlacesOf(c, spec, k)| && !Synced(c, spec, r.states[b], k, p)
    requires Synced(c, spec, r.states[i], k, p)
    ensures !Shut(c, spec, r.states[i], k)
  {
    if Shut(c, spec, r.states[i], k) { ShutGateHoldsBack(c, spec, r, b, i, k, p); }
  }

  lemma NotOpenIsShut(c: Setup, spec: Spec, s: State, k: nat)
    requires k < |spec.environments| && c.key in s.apps && |Dependencies(spec.environments[k].constraints)| <= 1
    ensures Shut(c, spec, s, k) <==> !Open(c, spec, s, k)
  {
    var gates := Dependencies(spec.environments[k].constraints);
    assert gates != [] ==> gates[0] in gates;
  }

  /** Convergence, exactly. A placement that is out of step between two rounds (`b`), in
      an environment with at most one gate, gets in step by the end of a complete round
      if that gate was open at `b`, and is never found in step while it is not open. */
  lemma GateDecides(c: Setup, spec: Spec, r: Run, b: nat, i: nat, k: nat, p: nat)
    requires Convergeable(c, spec) && Calm(c, spec, r) && b <= i < |r.states| && !r.states[b].flow.Round?
    requires k < |spec.environments| && p < |PlacesOf(c, spec, k)| && !Synced(c, spec, r.states[b], k, p)
    requires |Dependencies(spec.environments[k].constraints)| <= 1
    ensures Open(c, spec, r.states[b], k) && Rounds(r, i) > Rounds(r, b) ==> Synced(c, spec, r.states[i], k, p)
    ensures Synced(c, spec, r.states[i], k, p) ==> Open(c, spec, r.states[i], k)
  {
    if Open(c, spec, r.states[b], k) && Rounds(r, i) > Rounds(r, b) { OpenGateSyncs(c, spec, r, b, i, k, p); }
    if Synced(c, spec, r.states[i], k, p) {
      SyncNeedsOpenGate(c, spec, r, b, i, k, p);
      BaseAlways(c, spec, r, i);
      NotOpenIsShut(c, spec, r.states[i], k);
    }
  }

  // ------------------------------------------------------ what opens a gate

  /** A recording that goes through opens the gates on that environment. */
  lemma CommitPromotes(c: Setup, spec: Spec, r: Run, j: nat, m: nat, d: Constraint)
    requires Convergeable(c, spec) && Calm(c, spec, r) && j < |r.actions| && CommitsAt(c, r, j) && r.actions[j].k == m
    requires d.DependsOn? && Satisfiable(spec, d)
    requires m < |spec.environments| && spec.environments[m].name == d.environment
    ensures c.key in r.states[j + 1].apps && Promoted(r.states[j + 1].apps[c.key], d.environment, d.artifacts)
  {
    BaseAlways(c, spec, r, j);
    var s := r.states[j];
    var run := s.flow.envs[m];
    JobIsTheSpecs(c, spec, m, run.job);
    assert run.read == s.apps[c.key];
    var x :| 0 <= x < |spec.environments|
      && spec.environments[x].name == d.environment
      && forall n | n in d.artifacts :: n in spec.environments[x].requiredArtifacts && n in ByName(spec.artifacts);
    assert x == m;
    RecordThenPromoted(s.apps[c.key], spec.environments[m], d.artifacts);
  }

  /** An environment ends no round without trying to record. */
  lemma WriteEndsEnvironment(c: Setup, spec: Spec, r: Run, i: nat, k: nat)
    requires Convergeable(c, spec) && Calm(c, spec, r) && i < |r.actions|
    requires k < |Envs(r.states[i + 1])| && Envs(r.states[i + 1])[k].Done?
    ensures k < |Envs(r.states[i])| && (Envs(r.states[i])[k].Done? || r.actions[i] == Env(k, Write(true)))
  {
    var s, a := r.states[i], r.actions[i];
    BaseAlways(c, spec, r, i);
    BaseAlways(c, spec, r, i + 1);
    EnvFrame(c, s, a, k);
    assert !a.Begin?;
    if a.Env? && a.k == k && !s.flow.envs[k].Done? {
      GoodFrom(c, spec, false, false, r, 0, i, k);
      if a.act.Fetch? { FindAmongDistinct(spec.environments, k); }
      if a.act.Collect? { FinishedIsSynced(c, spec, false, false, s, k); }
    }
  }

  lemma {:induction false} EveryEnvironmentWrites(c: Setup, spec: Spec, r: Run, i: nat, k: nat) returns (j: nat)
    requires Convergeable(c, spec) && Calm(c, spec, r) && i < |r.states| && k < |spec.environments|
    requires Rounds(r, i) >= 1 || (k < |Envs(r.states[i])| && Envs(r.states[i])[k].Done?)
    ensures j < i && r.actions[j] == Env(k, Write(true)) && Rounds(r, j) == 0
  {
    BaseAlways(c, spec, r, i - 1);
    if Rounds(r, i - 1) >= 1 {
      j := EveryEnvironmentWrites(c, spec, r, i - 1, k);
    } else if r.actions[i - 1].End? {
      assert Envs(r.states[i - 1])[k].Done?;
      j := EveryEnvironmentWrites(c, spec, r, i - 1, k);
    } else {
      WriteEndsEnvironment(c, spec, r, i - 1, k);
      if Envs(r.states[i - 1])[k].Done? {
        j := EveryEnvironmentWrites(c, spec, r, i - 1, k);
      } else {
        j := i - 1;
      }
    }
  }

  /** In the first round the recordings of the environments that gates of `k` name are
      not overtaken by others. */
  predicate GateRecordingsGoThrough(c: Setup, spec: Spec, r: Run, k: nat)
    requires Follows(c, r) && k < |spec.environments|
  {
    forall j, m | 0 <= j < |r.actions| && 0 <= m < |spec.environments| && Rounds(r, j) == 0 ::
      && r.actions[j] == Env(m, Write(true))
      && (exists d | d in Dependencies(spec.environments[k].constraints) :: d.environment == spec.environments[m].name)
      ==> CommitsAt(c, r, j)
  }

  /** The `n`th round ends. */
  lemma {:induction false} RoundEnds(r: Run, n: nat, i: nat) returns (b: nat)
    requires |r.states| == |r.actions| + 1 && i < |r.states| && Rounds(r, i) >= n > 0
    ensures 0 < b <= i && r.actions[b - 1].End? && Rounds(r, b) == n
  {
    if Rounds(r, i - 1) >= n {
      b := RoundEnds(r, n, i - 1);
    } else {
      b := i;
    }
  }

  lemma {:induction false} OneRoundOpensGates(c: Setup, spec: Spec, r: Run, b: nat, k: nat)
    requires Convergeable(c, spec) && Calm(c, spec, r) && b < |r.states| && Rounds(r, b) >= 1
    requires k < |spec.environments| && GateRecordingsGoThrough(c, spec, r, k)
    ensures Open(c, spec, r.states[b], k)
  {
    BaseAlways(c, spec, r, b);
    forall d | d in Dependencies(spec.environments[k].constraints)
      ensures Promoted(r.states[b].apps[c.key], d.environment, d.artifacts)
    {
      assert Satisfiable(spec, d);
      var m: nat :| m < |spec.environments|
        && spec.environments[m].name == d.environment
        && forall n | n in d.artifacts :: n in spec.environments[m].requiredArtifacts && n in ByName(spec.artifacts);
      var j := EveryEnvironmentWrites(c, spec, r, b, m);
      assert CommitsAt(c, r, j);
      CommitPromotes(c, spec, r, j, m, d);
      PromotedLater(c, spec, r, j + 1, b, d.environment, d.artifacts);
    }
  }

  /** Two-round convergence. Under any schedule in which the first recordings of the
      environments that its gates name are not overtaken, an environment shows no
      difference anywhere after two complete rounds. */
  lemma {:induction false} TwoRoundsConverge(c: Setup, spec: Spec, r: Run, i: nat, k: nat, p: nat)
    requires Convergeable(c, spec) && Calm(c, spec, r) && i < |r.states| && Rounds(r, i) >= 2
    requires k < |spec.environments| && p < |PlacesOf(c, spec, k)|
    requires GateRecordingsGoThrough(c, spec, r, k)
    ensures DiffOf(r.states[i].releases, KeyAt(PlacesOf(c, spec, k)[p], c.key.name), ArtifactsAt(spec, k)) == Same
  {
    var b := RoundEnds(r, 1, i);
    OneRoundOpensGates(c, spec, r, b, k);
    OpenGatesConverge(c, spec, r, b, i, k, p);
  }

  // -------------------------------------------------- every round records

  /** Nobody has recorded in this round yet, so every read is still current. */
  predicate Unspoiled(c: Setup, s: State) {
    forall k | 0 <= k < |Envs(s)| ::
      !Envs(s)[k].Done? && (Envs(s)[k].Writing? ==> c.key in s.apps && Envs(s)[k].read == s.apps[c.key])
  }

  lemma UnspoiledStep(c: Setup, spec: Spec, r: Run, i: nat, k: nat)
    requires Convergeable(c, spec) && Calm(c, spec, r) && i < |r.actions|
    requires r.actions[i].Begin? || Unspoiled(c, r.states[i])
    requires !CommitsAt(c, r, i) && k < |Envs(r.states[i + 1])|
    ensures var s' := r.states[i + 1];
            !Envs(s')[k].Done? && (Envs(s')[k].Writing? ==> c.key in s'.apps && Envs(s')[k].read == s'.apps[c.key])
  {
    var s, a := r.states[i], r.actions[i];
    BaseAlways(c, spec, r, i);
    BaseAlways(c, spec, r, i + 1);
    EnvFrame(c, s, a, k);
    VersionsAlwaysOk(c, r, i);
    UnchangedStep(c, s, a);
    if Envs(r.states[i + 1])[k].Done? {
      WriteEndsEnvironment(c, spec, r, i, k);
      assert false;
    }
  }

  lemma {:induction false} UnspoiledAlways(c: Setup, spec: Spec, r: Run, i: nat)
    requires Convergeable(c, spec) && Calm(c, spec, r) && i < |r.states|
    requires forall j | RoundStart(r, i) <= j < i :: !CommitsAt(c, r, j)
    ensures Unspoiled(c, r.states[i])
  {
    if i > 0 {
      if !r.actions[i - 1].Begin? { UnspoiledAlways(c, spec, r, i - 1); }
      forall k | 0 <= k < |Envs(r.states[i])|
        ensures var s := r.states[i];
                !Envs(s)[k].Done? && (Envs(s)[k].Writing? ==> c.key in s.apps && Envs(s)[k].read == s.apps[c.key])
      {
        UnspoiledStep(c, spec, r, i - 1, k);
      }
    }
  }

  lemma UnspoiledGoesOn(c: Setup, s: State)
    requires Unspoiled(c, s) && Envs(s) != []
    ensures !Enabled(c, s, End)
  {
    assert !Envs(s)[0].Done?;
  }

  /** However recordings overlap, in every complete round at least one goes through. */
  lemma EachRoundCommits(c: Setup, spec: Spec, r: Run, e: nat) returns (j: nat)
    requires Convergeable(c, spec) && Calm(c, spec, r) && e < |r.actions| && r.actions[e].End?
    requires spec.environments != []
    ensures RoundStart(r, e) <= j < e && CommitsAt(c, r, j)
  {
    BaseAlways(c, spec, r, e);
    if forall m | RoundStart(r, e) <= m < e :: !CommitsAt(c, r, m) {
      UnspoiledAlways(c, spec, r, e);
      UnspoiledGoesOn(c, r.states[e]);
      assert false;
    }
    j :| RoundStart(r, e) <= j < e && CommitsAt(c, r, j);
  }

  // ----------------------------------------------------------- quiet rounds

  lemma SelectedAgree(spec: Spec, env: Environment, x: Artifact, y: Artifact)
    requires x in TargetArtifacts(spec, env) && y in TargetArtifacts(spec, env) && x.name == y.name
    ensures x == y
  {
    FilterMembers(env.requiredArtifacts, ByName(spec.artifacts));
    ByNameIsListed(spec.artifacts);
  }

  /** Recording changes something exactly when it was not all recorded before. */
  lemma RecordingChangesIff(c: Setup, spec: Spec, s: State, k: nat)
    requires k < |spec.environments| && c.key in s.apps && s.apps[c.key].spec == spec
    ensures var was := s.apps[c.key].status.deployed;
            Record(was, spec.environments[k].name, ArtifactsAt(spec, k)) == was <==> Recorded(c, spec, s, k)
  {
    var was: Deployed := s.apps[c.key].status.deployed;
    var name, artifacts := spec.environments[k].name, ArtifactsAt(spec, k);
    EnterLookup(EntriesOf(was, name), artifacts);
    if Recorded(c, spec, s, k) {
      RecordTwice(was, name, artifacts);
    } else if name in was {
      var a :| a in artifacts && !(a.name in was[name] && was[name][a.name] == a);
      SelectedAgree(spec, spec.environments[k], a, Enter(EntriesOf(was, name), artifacts)[a.name]);
      assert Record(was, name, artifacts)[name][a.name] == a;
    } else {
      assert name in Record(was, name, artifacts);
    }
  }

  /** Once every placement is in step between two rounds (`b`), nothing is gated or
      pushed any more, main or canary, and the releases stand still; the recorded
      artifacts change exactly when an environment that had not recorded all of its
      artifacts gets to do so. */
  lemma ConvergedIsQuiet(c: Setup, spec: Spec, r: Run, b: nat, i: nat)
    requires Convergeable(c, spec) && Calm(c, spec, r) && b <= i < |r.actions| && !r.states[b].flow.Round?
    requires forall k | 0 <= k < |spec.environments| :: AllSynced(c, spec, r.states[b], k)
    ensures r.actions[i].Env? && r.actions[i].act.Child? ==> r.actions[i].act.act.Diff?
    ensures r.states[i + 1].releases == r.states[i].releases
    ensures r.actions[i].Env? ==> r.actions[i].k < |spec.environments| && c.key in r.states[i].apps
    ensures DeployedIn(c, r.states[i + 1]) != DeployedIn(c, r.states[i]) <==>
            CommitsAt(c, r, i) && !Recorded(c, spec, r.states[i], r.actions[i].k)
  {
    var s, a := r.states[i], r.actions[i];
    BaseAlways(c, spec, r, i);
    if a.Env? {
      GoodFrom(c, spec, false, true, r, b, i, a.k);
      var run := s.flow.envs[a.k];
      if a.act.Child? {
        assert PlacementGood(c, spec, false, true, s, a.k, a.act.p, run.runs[a.act.p]);
      } else if CommitsAt(c, r, i) {
        JobIsTheSpecs(c, spec, a.k, run.job);
        assert run.read == s.apps[c.key];
        RecordingChangesIff(c, spec, s, a.k);
      }
    }
  }

  lemma SyncedMeansNoDifference(c: Setup, spec: Spec, s: State, k: nat)
    requires k < |spec.environments|
    requires forall p | 0 <= p < |PlacesOf(c, spec, k)| ::
      DiffOf(s.releases, KeyAt(PlacesOf(c, spec, k)[p], c.key.name), ArtifactsAt(spec, k)) == Same
    ensures AllSynced(c, spec, s, k)
  {
    forall p | 0 <= p < |PlacesOf(c, spec, k)| ensures Synced(c, spec, s, k, p) {
      DiffSameIff(s.releases, KeyAt(PlacesOf(c, spec, k)[p], c.key.name), ArtifactsAt(spec, k));
    }
  }

  /** After two rounds that opened the gates every later round is quiet. */
  lemma TwoRoundsThenQuiet(c: Setup, spec: Spec, r: Run, i: nat)
    requires Convergeable(c, spec) && Calm(c, spec, r) && i < |r.actions| && Rounds(r, i) >= 2
    requires forall k | 0 <= k < |spec.environments| :: GateRecordingsGoThrough(c, spec, r, k)
    ensures r.actions[i].Env? && r.actions[i].act.Child? ==> r.actions[i].act.act.Diff?
    ensures r.states[i + 1].releases == r.states[i].releases
  {
    var b := RoundEnds(r, 2, i);
    forall k | 0 <= k < |spec.environments| ensures AllSynced(c, spec, r.states[b], k) {
      forall p | 0 <= p < |PlacesOf(c, spec, k)|
        ensures DiffOf(r.states[b].releases, KeyAt(PlacesOf(c, spec, k)[p], c.key.name), ArtifactsAt(spec, k)) == Same
      {
        TwoRoundsConverge(c, spec, r, b, k, p);
      }
      SyncedMeansNoDifference(c, spec, r.states[b], k);
    }
    ConvergedIsQuiet(c, spec, r, b, i);
  }
}
