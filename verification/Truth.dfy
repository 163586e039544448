/** When recorded versions are true. */
module Truth {
  import opened Api
  import opened Artifacts
  import opened Placements
  import opened Helm
  import opened Recording
  import opened Protocol
  import opened Invariants
  import opened Promotion
  import opened Convergence

  // -------------------------------------------------- exact characterisation

  /** The releases are written only by the operator in this round. */
  predicate NoDrift(r: Run, i: nat)
    requires i <= |r.actions|
  {
    forall j | RoundStart(r, i) <= j < i :: !r.actions[j].Drift?
  }

  /** The spec keeps environments apart, and cluster names are distinct. */
  predicate Apart(c: Setup, spec: Spec) {
    && (forall i, j | 0 <= i < j < |c.clusters| :: c.clusters[i].name != c.clusters[j].name)
    && DistinctEnvironments(spec) && Disjoint(c, spec)
  }

  /** What a placement's phase says about the store right now. */
  predicate PhaseTells(c: Setup, releases: Releases, at: Coordinates, artifacts: seq<Artifact>, run: PlacementRun)
  {
    var holds := Holds(releases, KeyAt(at, c.key.name), artifacts);
    && (Reached(run) ==> holds)
    && (run.Gating? || run.Canarying? || run.Pushing? || run == Finished(Denied) ==> !holds)
  }

  predicate PhasesTell(c: Setup, s: State) {
    forall k, p | 0 <= k < |Envs(s)| && 0 <= p < |RunsOf(Envs(s)[k])| ::
      p < |Envs(s)[k].job.at| ==>
        PhaseTells(c, s.releases, Envs(s)[k].job.at[p], Envs(s)[k].job.artifacts, RunsOf(Envs(s)[k])[p])
  }

  /** Two different placement workflows of a round work in different places. */
  lemma PlacesDiffer(c: Setup, s: State, j: nat, q: nat, k: nat, p: nat)
    requires s.flow.Round? && EnvsOk(c, s) && Apart(c, s.flow.config)
    requires j < |s.flow.envs| && HasJob(s.flow.envs[j]) && q < |s.flow.envs[j].job.at|
    requires k < |s.flow.envs| && HasJob(s.flow.envs[k]) && p < |s.flow.envs[k].job.at|
    requires j != k || q != p
    ensures s.flow.envs[j].job.at[q] != s.flow.envs[k].job.at[p]
  {
    JobIsTheSpecs(c, s.flow.config, j, s.flow.envs[j].job);
    JobIsTheSpecs(c, s.flow.config, k, s.flow.envs[k].job);
    CoordinatesAreDistinct(c.key.namespace, s.flow.config.environments[k].placement, c.clusters);
    if j != k {
      assert s.flow.envs[j].job.at[q] in PlacesOf(c, s.flow.config, j);
      assert s.flow.envs[k].job.at[p] in PlacesOf(c, s.flow.config, k);
    }
  }

  lemma PhaseTellsNext(c: Setup, s: State, job: Job, at: Coordinates, run: PlacementRun, act: PlacementAction)
    requires PlacementEnabled(job, run, act) && PhaseTells(c, s.releases, at, job.artifacts, run)
    ensures PhaseTells(c, PlacementReleases(c, s.releases, job, at, run, act), at, job.artifacts,
                       PlacementNext(c, s, job, at, run, act))
  {
    DiffSameIff(s.releases, KeyAt(at, c.key.name), job.artifacts);
    if act.Push? {
      if act.ok && Target(job.artifacts).Some? {
        PushThenDiff(s.releases, at, c.key.name, job.artifacts, act.cleaned);
        DiffSameIff(PlacementReleases(c, s.releases, job, at, run, act), KeyAt(at, c.key.name), job.artifacts);
      }
    } else {
      PlacementFrame(c, s.releases, job, at, run, act, at);
    }
  }

  lemma PhasesTellStep(c: Setup, s: State, a: Action, k: nat, p: nat)
    requires Enabled(c, s, a) && !a.Drift? && EnvsOk(c, s) && PhasesTell(c, s)
    requires s.flow.Round? ==> Apart(c, s.flow.config)
    requires var s' := Step(c, s, a); k < |Envs(s')| && p < |RunsOf(Envs(s')[k])| && p < |Envs(s')[k].job.at|
    ensures var s' := Step(c, s, a);
            PhaseTells(c, s'.releases, Envs(s')[k].job.at[p], Envs(s')[k].job.artifacts, RunsOf(Envs(s')[k])[p])
  {
    var s' := Step(c, s, a);
    EnvFrame(c, s, a, k);
    var was, now := Envs(s)[k], Envs(s')[k];
    if a.Env? && a.act.Child? {
      var mover, q, x := Envs(s)[a.k], a.act.p, a.act.act;
      var at := now.job.at[p];
      if a.k == k && q == p {
        PhaseTellsNext(c, s, was.job, at, was.runs[p], x);
      } else {
        PlacesDiffer(c, s, a.k, q, k, p);
        PlacementFrame(c, s.releases, mover.job, mover.job.at[q], mover.runs[q], x, at);
        assert RunsOf(was)[p] == RunsOf(now)[p];
      }
    } else if !(a.Env? && a.k == k && a.act.Place?) {
      assert RunsOf(was)[p] == RunsOf(now)[p];
    }
  }

  lemma {:induction false} PhasesTellNext(c: Setup, s: State, a: Action)
    requires Enabled(c, s, a) && !a.Drift? && EnvsOk(c, s) && PhasesTell(c, s)
    requires s.flow.Round? ==> Apart(c, s.flow.config)
    ensures PhasesTell(c, Step(c, s, a))
  {
    var s' := Step(c, s, a);
    forall k, p | 0 <= k < |Envs(s')| && 0 <= p < |RunsOf(Envs(s')[k])| && p < |Envs(s')[k].job.at|
      ensures PhaseTells(c, s'.releases, Envs(s')[k].job.at[p], Envs(s')[k].job.artifacts, RunsOf(Envs(s')[k])[p])
    {
      PhasesTellStep(c, s, a, k, p);
    }
  }

  lemma PhasesTellAt(c: Setup, r: Run, i: nat)
    requires FromRest(c, r) && i < |r.actions| && StableRound(c, r, i) && !r.actions[i].Drift?
    requires r.states[i].flow.Round? ==> Apart(c, r.states[i].flow.config)
    requires PhasesTell(c, r.states[i])
    ensures PhasesTell(c, r.states[i + 1])
  {
    StatesOk(c, r, i);
    PhasesTellNext(c, r.states[i], r.actions[i]);
  }

  /** The round running at `i` has been on one separated spec, with nobody else pushing. */
  predicate Undisturbed(c: Setup, r: Run, i: nat)
    requires i < |r.states| == |r.actions| + 1
  {
    StableRound(c, r, i) && NoDrift(r, i) && (r.states[i].flow.Round? ==> Apart(c, r.states[i].flow.config))
  }

  lemma UndisturbedEarlier(c: Setup, r: Run, i: nat)
    requires FromRest(c, r) && 0 < i < |r.states| && Undisturbed(c, r, i)
    requires r.states[i].flow.Round? && !r.actions[i - 1].Begin?
    ensures Undisturbed(c, r, i - 1) && !r.actions[i - 1].Drift?
  {
    SameRound(c, r, i - 1, i);
    assert RoundStart(r, i) == RoundStart(r, i - 1);
  }

  lemma {:induction false} PhasesTellAlways(c: Setup, r: Run, i: nat)
    requires FromRest(c, r) && i < |r.states| && Undisturbed(c, r, i)
    ensures PhasesTell(c, r.states[i])
  {
    if r.states[i].flow.Round? {
      if r.actions[i - 1].Begin? {
        PhasesTellBegins(c, r.states[i - 1], r.actions[i - 1]);
      } else {
        UndisturbedEarlier(c, r, i);
        PhasesTellAlways(c, r, i - 1);
        PhasesTellAt(c, r, i - 1);
      }
    }
  }

  /** At the beginning of a round no placement has started. */
  lemma PhasesTellBegins(c: Setup, s: State, a: Action)
    requires Enabled(c, s, a) && a.Begin?
    ensures PhasesTell(c, Step(c, s, a))
  {
  }

  /** Place by place: an environment that is about to record runs its target at a
      place if and only if the gate of that placement was not denied. */
  lemma PlaceIsTrueIff(c: Setup, r: Run, i: nat, k: nat, p: nat)
    requires FromRest(c, r) && i < |r.states| && Undisturbed(c, r, i)
    requires k < |Envs(r.states[i])| && (Envs(r.states[i])[k].Reading? || Envs(r.states[i])[k].Writing?)
    requires p < |Envs(r.states[i])[k].job.at|
    ensures p < |Envs(r.states[i])[k].runs|
    ensures var run := Envs(r.states[i])[k];
            Holds(r.states[i].releases, KeyAt(run.job.at[p], c.key.name), run.job.artifacts) <==>
            run.runs[p] != Finished(Denied)
  {
    StatesOk(c, r, i);
    PhasesTellAlways(c, r, i);
    var run := Envs(r.states[i])[k];
    assert EnvShape(c, r.states[i].flow.config.environments[k].name, run);
    assert PhaseTells(c, r.states[i].releases, run.job.at[p], run.job.artifacts, RunsOf(run)[p]);
    var outcome := run.runs[p].outcome;
    assert run.runs[p] == Finished(outcome);
    assert outcome.InSync? || outcome.Pushed? || outcome.Denied? || outcome.Failed?;
  }

  predicate RunsEverywhere(c: Setup, s: State, job: Job) {
    forall p | 0 <= p < |job.at| :: Holds(s.releases, KeyAt(job.at[p], c.key.name), job.artifacts)
  }

  predicate RunsSomewhere(c: Setup, s: State, job: Job) {
    exists p | 0 <= p < |job.at| :: Holds(s.releases, KeyAt(job.at[p], c.key.name), job.artifacts)
  }

  /** When a record is true. An environment that is about to record runs its target at
      every place if and only if none of its gates was denied, and it runs it at some
      place at all if and only if some placement was not denied; an environment without
      places records a version that nobody runs. */
  lemma RecordIsTrueIff(c: Setup, r: Run, i: nat, k: nat)
    requires FromRest(c, r) && i < |r.states| && Undisturbed(c, r, i)
    requires k < |Envs(r.states[i])| && (Envs(r.states[i])[k].Reading? || Envs(r.states[i])[k].Writing?)
    ensures var run := Envs(r.states[i])[k];
            && |run.runs| == |run.job.at|
            && (RunsEverywhere(c, r.states[i], run.job) <==> Finished(Denied) !in run.runs)
            && (RunsSomewhere(c, r.states[i], run.job) <==> exists x | x in run.runs :: x != Finished(Denied))
  {
    AlwaysShaped(c, r, i);
    var run := Envs(r.states[i])[k];
    assert EnvShape(c, r.states[i].flow.config.environments[k].name, run);
    forall p | 0 <= p < |run.job.at|
      ensures Holds(r.states[i].releases, KeyAt(run.job.at[p], c.key.name), run.job.artifacts)
              <==> run.runs[p] != Finished(Denied)
    {
      PlaceIsTrueIff(c, r, i, k, p);
    }
    if RunsSomewhere(c, r.states[i], run.job) {
      var p :| 0 <= p < |run.job.at|
        && Holds(r.states[i].releases, KeyAt(run.job.at[p], c.key.name), run.job.artifacts);
      assert run.runs[p] in run.runs;
    }
  }

  /** For an environment without constraints, a caller can tell from the spec: what it
      records runs somewhere exactly when it has a place, that is, when it is placed
      statically or its selector matches a cluster. */
  lemma UnconstrainedRecordIsRealIff(c: Setup, r: Run, i: nat, k: nat)
    requires FromRest(c, r) && i < |r.states| && Undisturbed(c, r, i)
    requires k < |Envs(r.states[i])| && (Envs(r.states[i])[k].Reading? || Envs(r.states[i])[k].Writing?)
    requires Unconstrained(Envs(r.states[i])[k].job.env)
    ensures var job := Envs(r.states[i])[k].job;
            RunsSomewhere(c, r.states[i], job) <==>
            (job.env.placement.StaticPlacement?
             || exists x | x in c.clusters :: job.env.placement.selector.Items <= x.labels.Items)
  {
    RecordIsTrueIff(c, r, i, k);
    AlwaysShaped(c, r, i);
    var run := Envs(r.states[i])[k];
    assert EnvShape(c, r.states[i].flow.config.environments[k].name, run);
    PlacedIff(c.key.namespace, run.job.env.placement, c.clusters);
    if run.job.at != [] {
      assert Ungated(run.runs[0]) && run.runs[0] in run.runs;
    }
  }
}
