/** The order of events in every placement workflow, for every configuration. */
module Order {
  import opened Api
  import opened Placements
  import opened Helm
  import opened Recording
  import opened Protocol
  import opened Invariants
  import opened Promotion

  // Each predicate speaks about the steps from `lo` up to, not including, `hi`.

  ghost predicate FoundDiff(c: Setup, r: Run, lo: nat, hi: nat, k: nat, p: nat, job: Job)
    requires |r.states| == |r.actions| + 1
  {
    && p < |job.at|
    && exists d | lo <= d < hi ::
         && Takes(r, d, k, p, Diff(true))
         && DiffOf(r.states[d].releases, KeyAt(job.at[p], c.key.name), job.artifacts) == Differs
  }

  /** A gate was granted after the difference was found, if there are gates. */
  ghost predicate PassedGates(c: Setup, r: Run, lo: nat, hi: nat, k: nat, p: nat, job: Job)
    requires |r.states| == |r.actions| + 1
  {
    && FoundDiff(c, r, lo, hi, k, p, job)
    && (Dependencies(job.env.constraints) != [] ==>
          exists g | lo <= g < hi :: Granted(c, r, g, k, p, job) && FoundDiff(c, r, lo, g, k, p, job))
  }

  /** Canary `which` was pushed after the gates were passed. */
  ghost predicate PushedCanary(c: Setup, r: Run, lo: nat, hi: nat, k: nat, p: nat, job: Job, which: nat)
    requires |r.states| == |r.actions| + 1
  {
    exists h, cleaned | lo <= h < hi ::
      Takes(r, h, k, p, PushCanary(which, true, true, cleaned)) && PassedGates(c, r, lo, h, k, p, job)
  }

  /** Everything that must come before a main push did, in order. */
  ghost predicate Cleared(c: Setup, r: Run, lo: nat, hi: nat, k: nat, p: nat, job: Job)
    requires |r.states| == |r.actions| + 1
  {
    && PassedGates(c, r, lo, hi, k, p, job)
    && (Canaries(job.env.constraints) != [] ==>
          exists e, which | lo <= e < hi ::
            Takes(r, e, k, p, EndCanary(which)) && PushedCanary(c, r, lo, e, k, p, job, which))
  }

  /** Step `j` is not a step of this placement, or neither a main push nor a gate
      that was collected without being granted. */
  ghost predicate Harmless(c: Setup, r: Run, j: nat, k: nat, p: nat, job: Job)
    requires j < |r.actions| && |r.states| == |r.actions| + 1
  {
    r.actions[j].Env? && r.actions[j].k == k && r.actions[j].act.Child? && r.actions[j].act.p == p ==>
      var act := r.actions[j].act.act; !act.Push? && (act.Gate? ==> Granted(c, r, j, k, p, job))
  }

  ghost predicate Untroubled(c: Setup, r: Run, lo: nat, hi: nat, k: nat, p: nat, job: Job)
    requires |r.states| == |r.actions| + 1
  {
    forall j | lo <= j < hi && j < |r.actions| :: Harmless(c, r, j, k, p, job)
  }

  /** What the phase of a placement workflow tells about the steps before it. */
  ghost predicate PhaseOk(c: Setup, r: Run, lo: nat, hi: nat, k: nat, p: nat, job: Job, run: PlacementRun)
    requires |r.states| == |r.actions| + 1
  {
    !run.Finished? ==>
      && Untroubled(c, r, lo, hi, k, p, job)
      && (run.Gating? ==> FoundDiff(c, r, lo, hi, k, p, job))
      && (run.Canarying? ==>
            && PassedGates(c, r, lo, hi, k, p, job)
            && forall w: nat | w < |Canaries(job.env.constraints)| && w !in run.waiting ::
                 PushedCanary(c, r, lo, hi, k, p, job, w))
      && (run.Pushing? ==> Cleared(c, r, lo, hi, k, p, job))
  }

  ghost predicate NoChildSteps(r: Run, lo: nat, hi: nat, k: nat) {
    forall j | lo <= j < hi && j < |r.actions| :: !(r.actions[j].Env? && r.actions[j].k == k && r.actions[j].act.Child?)
  }

  ghost predicate EnvPhaseOk(c: Setup, r: Run, lo: nat, hi: nat, k: nat, run: EnvRun)
    requires |r.states| == |r.actions| + 1
  {
    && (run.Fetching? || run.Placing? ==> NoChildSteps(r, lo, hi, k))
    && (run.Working? ==>
          forall p | 0 <= p < |run.runs| && p < |run.job.at| :: PhaseOk(c, r, lo, hi, k, p, run.job, run.runs[p]))
  }

  lemma PassedLater(c: Setup, r: Run, lo: nat, hi: nat, k: nat, p: nat, job: Job)
    requires |r.states| == |r.actions| + 1
    ensures FoundDiff(c, r, lo, hi, k, p, job) ==> FoundDiff(c, r, lo, hi + 1, k, p, job)
    ensures PassedGates(c, r, lo, hi, k, p, job) ==> PassedGates(c, r, lo, hi + 1, k, p, job)
  {
  }

  /** Somebody else's step leaves the phase as it is. */
  lemma PhaseOkLater(c: Setup, r: Run, lo: nat, hi: nat, k: nat, p: nat, job: Job, run: PlacementRun)
    requires |r.states| == |r.actions| + 1 && hi < |r.actions|
    requires PhaseOk(c, r, lo, hi, k, p, job, run)
    requires !(r.actions[hi].Env? && r.actions[hi].k == k && r.actions[hi].act.Child? && r.actions[hi].act.p == p)
    ensures PhaseOk(c, r, lo, hi + 1, k, p, job, run)
  {
    PassedLater(c, r, lo, hi, k, p, job);
    if !run.Finished? { UntroubledLater(c, r, lo, hi, k, p, job); }
  }

  lemma UntroubledLater(c: Setup, r: Run, lo: nat, hi: nat, k: nat, p: nat, job: Job)
    requires |r.states| == |r.actions| + 1 && hi < |r.actions|
    requires Harmless(c, r, hi, k, p, job)
    requires Untroubled(c, r, lo, hi, k, p, job)
    ensures Untroubled(c, r, lo, hi + 1, k, p, job)
  {
  }

  /** Its own step moves a placement from one correct phase to the next. */
  lemma PhaseOkNext(c: Setup, r: Run, lo: nat, hi: nat, k: nat, p: nat, job: Job, run: PlacementRun,
                    act: PlacementAction)
    requires |r.states| == |r.actions| + 1 && lo <= hi && p < |job.at|
    requires Takes(r, hi, k, p, act) && PlacementEnabled(job, run, act)
    requires PhaseOk(c, r, lo, hi, k, p, job, run)
    ensures PhaseOk(c, r, lo, hi + 1, k, p, job, PlacementNext(c, r.states[hi], job, job.at[p], run, act))
  {
    if act.Diff? || act.Gate? {
      GatePhaseNext(c, r, lo, hi, k, p, job, run, act);
    } else if act.PushCanary? || act.EndCanary? {
      CanaryPhaseNext(c, r, lo, hi, k, p, job, run, act);
    }
  }

  lemma GatePhaseNext(c: Setup, r: Run, lo: nat, hi: nat, k: nat, p: nat, job: Job, run: PlacementRun,
                      act: PlacementAction)
    requires |r.states| == |r.actions| + 1 && lo <= hi && p < |job.at| && (act.Diff? || act.Gate?)
    requires Takes(r, hi, k, p, act) && PlacementEnabled(job, run, act)
    requires PhaseOk(c, r, lo, hi, k, p, job, run)
    ensures PhaseOk(c, r, lo, hi + 1, k, p, job, PlacementNext(c, r.states[hi], job, job.at[p], run, act))
  {
    if !PlacementNext(c, r.states[hi], job, job.at[p], run, act).Finished? {
      PassedLater(c, r, lo, hi, k, p, job);
      if act.Diff? {
        assert Takes(r, hi, k, p, Diff(true));
      } else {
        assert Takes(r, hi, k, p, Gate(act.which, true));
        assert Granted(c, r, hi, k, p, job);
      }
      UntroubledLater(c, r, lo, hi, k, p, job);
    }
  }

  lemma CanaryPhaseNext(c: Setup, r: Run, lo: nat, hi: nat, k: nat, p: nat, job: Job, run: PlacementRun,
                        act: PlacementAction)
    requires |r.states| == |r.actions| + 1 && lo <= hi && p < |job.at| && (act.PushCanary? || act.EndCanary?)
    requires Takes(r, hi, k, p, act) && PlacementEnabled(job, run, act)
    requires PhaseOk(c, r, lo, hi, k, p, job, run)
    ensures PhaseOk(c, r, lo, hi + 1, k, p, job, PlacementNext(c, r.states[hi], job, job.at[p], run, act))
  {
    if !PlacementNext(c, r.states[hi], job, job.at[p], run, act).Finished? {
      PassedLater(c, r, lo, hi, k, p, job);
      if act.PushCanary? {
        assert Takes(r, hi, k, p, PushCanary(act.which, true, true, act.cleaned));
      } else {
        assert PushedCanary(c, r, lo, hi, k, p, job, act.which);
        assert Takes(r, hi, k, p, EndCanary(act.which));
      }
      UntroubledLater(c, r, lo, hi, k, p, job);
    }
  }

  ghost predicate PhasesOk(c: Setup, r: Run, i: nat)
    requires i < |r.states| == |r.actions| + 1
  {
    forall k | 0 <= k < |Envs(r.states[i])| :: EnvPhaseOk(c, r, RoundStart(r, i), i, k, Envs(r.states[i])[k])
  }

  lemma PhasesOkStep(c: Setup, r: Run, i: nat, k: nat)
    requires Follows(c, r) && i < |r.actions| && PhasesOk(c, r, i)
    requires k < |Envs(r.states[i + 1])|
    ensures EnvPhaseOk(c, r, RoundStart(r, i + 1), i + 1, k, Envs(r.states[i + 1])[k])
  {
    var s, a := r.states[i], r.actions[i];
    EnvFrame(c, s, a, k);
    var now := Envs(r.states[i + 1])[k];
    if !a.Begin? {
      var was, lo := Envs(s)[k], RoundStart(r, i);
      if now.Working? {
        forall p | 0 <= p < |now.runs| && p < |now.job.at|
          ensures PhaseOk(c, r, lo, i + 1, k, p, now.job, now.runs[p])
        {
          if was.Placing? {
            assert NoChildSteps(r, lo, i, k) && Untroubled(c, r, lo, i + 1, k, p, now.job);
          } else if a.Env? && a.k == k && a.act.Child? && a.act.p == p {
            PhaseOkNext(c, r, lo, i, k, p, now.job, was.runs[p], a.act.act);
          } else {
            PhaseOkLater(c, r, lo, i, k, p, now.job, was.runs[p]);
          }
        }
      }
    }
  }

  lemma {:induction false} PhasesOkAlways(c: Setup, r: Run, i: nat)
    requires FromRest(c, r) && i < |r.states|
    ensures PhasesOk(c, r, i)
  {
    if i > 0 {
      PhasesOkAlways(c, r, i - 1);
      forall k | 0 <= k < |Envs(r.states[i])|
        ensures EnvPhaseOk(c, r, RoundStart(r, i), i, k, Envs(r.states[i])[k])
      {
        PhasesOkStep(c, r, i - 1, k);
      }
    }
  }

  /** Event order. A main push comes only after, in this order and in the same
      round: a difference was found; a gate was granted, if there are gates; a
      canary was pushed and its time waited out, if there are canaries. Before it
      the placement made no other main push, and no gate it collected refused. */
  lemma PushOrder(c: Setup, r: Run, i: nat, k: nat, p: nat, act: PlacementAction)
    requires FromRest(c, r) && Takes(r, i, k, p, act) && act.Push?
    ensures var job := Envs(r.states[i])[k].job;
            && Cleared(c, r, RoundStart(r, i), i, k, p, job)
            && Untroubled(c, r, RoundStart(r, i), i, k, p, job)
  {
    PhasesOkAlways(c, r, i);
    var run := Envs(r.states[i])[k];
    assert PhaseOk(c, r, RoundStart(r, i), i, k, p, run.job, run.runs[p]);
  }

  /** A gate is looked up in the placement's namespace. A gated push therefore means
      that an Application of this name existed THERE and had the dependency promoted;
      in a namespace without one a gated environment is never promoted. */
  lemma GatedPushReadsPlacementNamespace(c: Setup, r: Run, i: nat, k: nat, p: nat, act: PlacementAction)
    returns (g: nat, which: nat)
    requires FromRest(c, r) && Takes(r, i, k, p, act) && act.Push?
    requires Dependencies(Envs(r.states[i])[k].job.env.constraints) != []
    ensures RoundStart(r, i) <= g < i
    ensures var job := Envs(r.states[i])[k].job;
            && which < |Dependencies(job.env.constraints)| && p < |job.at|
            && var d, key := Dependencies(job.env.constraints)[which], ObjectKey(job.at[p].namespace, c.key.name);
               key in r.states[g].apps && Promoted(r.states[g].apps[key], d.environment, d.artifacts)
  {
    PushOrder(c, r, i, k, p, act);
    var job := Envs(r.states[i])[k].job;
    g :| RoundStart(r, i) <= g < i && Granted(c, r, g, k, p, job);
    which := GrantReadsPlacementNamespace(c, r, g, k, p, job);
  }

  lemma GrantReadsPlacementNamespace(c: Setup, r: Run, g: nat, k: nat, p: nat, job: Job) returns (which: nat)
    requires |r.states| == |r.actions| + 1 && Granted(c, r, g, k, p, job)
    ensures which < |Dependencies(job.env.constraints)|
    ensures var d, key := Dependencies(job.env.constraints)[which], ObjectKey(job.at[p].namespace, c.key.name);
            key in r.states[g].apps && Promoted(r.states[g].apps[key], d.environment, d.artifacts)
  {
    var w :| && 0 <= w < |Dependencies(job.env.constraints)|
             && r.actions[g] == Env(k, Child(p, Gate(w, true)))
             && GateHolds(c, r.states[g], job.at[p], Dependencies(job.env.constraints)[w]);
    which := w;
  }
}
