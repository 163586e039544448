/** What the pushes of a run do to the releases, with the keys and values written out. */
module Effects {
  import opened Values
  import opened Api
  import opened Artifacts
  import opened Placements
  import opened Helm
  import opened Protocol
  import opened Invariants

  /** A canary push that lands, with a time that parses and a chart, leaves the canary
      running its own values over the target's; any other changes nothing. */
  lemma CanaryPushEffect(c: Setup, r: Run, i: nat, k: nat, p: nat, act: PlacementAction)
    requires Follows(c, r) && Takes(r, i, k, p, act) && act.PushCanary?
    ensures k < |Envs(r.states[i])| && HasJob(Envs(r.states[i])[k]) && p < |Envs(r.states[i])[k].job.at|
    ensures act.which < |Canaries(Envs(r.states[i])[k].job.env.constraints)|
    ensures var job, before, after := Envs(r.states[i])[k].job, r.states[i].releases, r.states[i + 1].releases;
            var at, canary := job.at[p], Canaries(job.env.constraints)[act.which];
            && canary in job.env.constraints && canary.HelmCanary?
            && if act.landed && canary.ttl.Some? && FirstOfKind(job.artifacts, "HelmChart").Some? then
                 && RunsCanary(after, at, c.key.name, canary.values, job.artifacts)
                 && OthersStand(before, after, ReleaseKey(at.cluster, at.namespace, c.key.name + "-canary"),
                                ReleaseKey(at.cluster, at.namespace, c.key.name + "-canary-canary"))
               else after == before
  {
    var job := Envs(r.states[i])[k].job;
    var canary := Canaries(job.env.constraints)[act.which];
    CanariesMembers(job.env.constraints, []);
    assert canary in Canaries(job.env.constraints);
    CanaryPushRuns(r.states[i].releases, job.at[p], c.key.name, canary.values, job.artifacts, act.cleaned);
    assert (c.key.name + "-canary") + "-canary" == c.key.name + "-canary-canary";
    if Target(CanaryArtifacts(canary.values, job.artifacts)).Some? {
      PushEffect(r.states[i].releases, job.at[p], c.key.name + "-canary", CanaryArtifacts(canary.values, job.artifacts),
                 act.cleaned);
    }
  }

  /** A main push that lands leaves exactly the target's chart version and values; its
      canary is gone if it was cleaned up and as before if not. A push counts as done only
      if it landed, so right after a cleaned-up push there is no canary at the place. */
  lemma MainPushEffect(c: Setup, r: Run, i: nat, k: nat, p: nat, act: PlacementAction)
    requires Follows(c, r) && Takes(r, i, k, p, act) && act.Push?
    ensures k < |Envs(r.states[i])| && HasJob(Envs(r.states[i])[k]) && p < |Envs(r.states[i])[k].job.at|
    ensures var job, before, after := Envs(r.states[i])[k].job, r.states[i].releases, r.states[i + 1].releases;
            var at, chart := job.at[p], FirstOfKind(job.artifacts, "HelmChart");
            var main := ReleaseKey(at.cluster, at.namespace, c.key.name);
            var canary := ReleaseKey(at.cluster, at.namespace, c.key.name + "-canary");
            if act.landed && chart.Some? && exists a | a in job.artifacts :: a.kind == "HelmValues" then
              && main in after && after[main] == Release(chart.value.version, EffectiveValues(job.artifacts))
              && (if act.cleaned then canary !in after else SameAt(before, after, canary))
              && OthersStand(before, after, main, canary)
            else after == before
    ensures k < |Envs(r.states[i + 1])| && p < |RunsOf(Envs(r.states[i + 1])[k])|
    ensures var at := Envs(r.states[i])[k].job.at[p];
            RunsOf(Envs(r.states[i + 1])[k])[p] == Finished(Pushed) && act.cleaned ==>
              ReleaseKey(at.cluster, at.namespace, c.key.name + "-canary") !in r.states[i + 1].releases
  {
    var job := Envs(r.states[i])[k].job;
    TargetIff(job.artifacts);
    if Target(job.artifacts).Some? {
      PushEffect(r.states[i].releases, job.at[p], c.key.name, job.artifacts, act.cleaned);
    }
  }

  /** Nothing else changes a release, except what comes from outside. */
  lemma OnlyPushesRelease(c: Setup, r: Run, i: nat)
    requires Follows(c, r) && i < |r.actions| && r.states[i + 1].releases != r.states[i].releases
    ensures r.actions[i].Drift? || exists k, p, act :: Takes(r, i, k, p, act) && (act.Push? || act.PushCanary?)
  {
    var a := r.actions[i];
    if !a.Drift? { assert Takes(r, i, a.k, a.act.p, a.act.act); }
  }
}
