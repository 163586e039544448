/** When an environment workflow ends, and that it records if and only if nothing failed. */
module FanIn {
  import opened Api
  import opened Placements
  import opened Helm
  import opened Protocol
  import opened Invariants
  import opened Order

  /** Step `j` makes placement workflow `p` of environment `k` return an error: the diff
      fails or cannot be made, the check workflow fails, or the push does. A refusal is
      no error. */
  predicate FailsAt(c: Setup, r: Run, j: nat, k: nat, p: nat)
    requires |r.states| == |r.actions| + 1
  {
    && j < |r.actions| && k < |Envs(r.states[j])| && HasJob(Envs(r.states[j])[k]) && p < |Envs(r.states[j])[k].job.at|
    && r.actions[j].Env? && r.actions[j].k == k && r.actions[j].act.Child? && r.actions[j].act.p == p
    && var job := Envs(r.states[j])[k].job;
       match r.actions[j].act.act
       case Diff(ok) =>
         !ok || DiffOf(r.states[j].releases, KeyAt(job.at[p], c.key.name), job.artifacts) == DiffError
       case CheckFails => true
       case Push(ok, _, _) => !ok || Target(job.artifacts).None?
       case _ => false
  }

  ghost predicate FailedIn(c: Setup, r: Run, lo: nat, hi: nat, k: nat, p: nat)
    requires |r.states| == |r.actions| + 1
  {
    exists j | lo <= j < hi :: FailsAt(c, r, j, k, p)
  }

  ghost predicate FailureTells(c: Setup, r: Run, i: nat, k: nat, p: nat)
    requires i < |r.states| == |r.actions| + 1
    requires k < |Envs(r.states[i])| && p < |RunsOf(Envs(r.states[i])[k])|
  {
    RunsOf(Envs(r.states[i])[k])[p] == Finished(Failed) <==> FailedIn(c, r, RoundStart(r, i), i, k, p)
  }

  ghost predicate FailuresTell(c: Setup, r: Run, i: nat)
    requires i < |r.states| == |r.actions| + 1
  {
    forall k, p | 0 <= k < |Envs(r.states[i])| && 0 <= p < |RunsOf(Envs(r.states[i])[k])| :: FailureTells(c, r, i, k, p)
  }

  lemma FailedLater(c: Setup, r: Run, lo: nat, hi: nat, k: nat, p: nat)
    requires |r.states| == |r.actions| + 1 && lo <= hi
    ensures FailedIn(c, r, lo, hi + 1, k, p) <==> FailedIn(c, r, lo, hi, k, p) || FailsAt(c, r, hi, k, p)
  {
  }

  /** The step of the placement itself. */
  lemma FailureTellsNext(c: Setup, r: Run, i: nat, k: nat, p: nat)
    requires FromRest(c, r) && i < |r.actions|
    requires r.actions[i].Env? && r.actions[i].k == k && r.actions[i].act.Child? && r.actions[i].act.p == p
    requires k < |Envs(r.states[i])| && p < |RunsOf(Envs(r.states[i])[k])| && FailureTells(c, r, i, k, p)
    ensures k < |Envs(r.states[i + 1])| && p < |RunsOf(Envs(r.states[i + 1])[k])| && FailureTells(c, r, i + 1, k, p)
  {
    FailedLater(c, r, RoundStart(r, i), i, k, p);
  }

  /** No placement step before placements are known. */
  lemma NothingFailedYet(c: Setup, r: Run, i: nat, k: nat, p: nat)
    requires FromRest(c, r) && i < |r.states| && k < |Envs(r.states[i])| && Envs(r.states[i])[k].Placing?
    ensures !FailedIn(c, r, RoundStart(r, i), i, k, p)
  {
    PhasesOkAlways(c, r, i);
    assert EnvPhaseOk(c, r, RoundStart(r, i), i, k, Envs(r.states[i])[k]);
  }

  lemma FailureTellsStep(c: Setup, r: Run, i: nat, k: nat, p: nat)
    requires FromRest(c, r) && i < |r.actions| && FailuresTell(c, r, i)
    requires k < |Envs(r.states[i + 1])| && p < |RunsOf(Envs(r.states[i + 1])[k])|
    ensures FailureTells(c, r, i + 1, k, p)
  {
    var s, a := r.states[i], r.actions[i];
    EnvFrame(c, s, a, k);
    assert RoundStart(r, i + 1) == RoundStart(r, i);
    FailedLater(c, r, RoundStart(r, i), i, k, p);
    if a.Env? && a.k == k && a.act.Child? && a.act.p == p {
      assert FailureTells(c, r, i, k, p);
      FailureTellsNext(c, r, i, k, p);
    } else if a.Env? && a.k == k && a.act.Place? {
      NothingFailedYet(c, r, i, k, p);
    } else {
      assert FailureTells(c, r, i, k, p);
    }
  }

  lemma {:induction false} FailuresAlwaysTell(c: Setup, r: Run, i: nat)
    requires FromRest(c, r) && i < |r.states|
    ensures FailuresTell(c, r, i)
  {
    if i > 0 {
      FailuresAlwaysTell(c, r, i - 1);
      var s := r.states[i];
      forall k, p | 0 <= k < |Envs(s)| && 0 <= p < |RunsOf(Envs(s)[k])| ensures FailureTells(c, r, i, k, p) {
        FailureTellsStep(c, r, i - 1, k, p);
      }
    }
  }

  /** Some placement of environment `k` failed in the round running at `i`. */
  ghost predicate AnyFailed(c: Setup, r: Run, i: nat, k: nat)
    requires i < |r.states| == |r.actions| + 1 && k < |Envs(r.states[i])|
  {
    exists p: nat | p < |RunsOf(Envs(r.states[i])[k])| :: FailedIn(c, r, RoundStart(r, i), i, k, p)
  }

  /** When the placements of an environment have been collected, it goes on to record if and
      only if none of them failed in this round; otherwise it ends without recording. */
  lemma {:induction false} RecordsIffNoneFailed(c: Setup, r: Run, i: nat, k: nat)
    requires FromRest(c, r) && i < |r.actions| && r.actions[i] == Env(k, Collect)
    ensures k < |Envs(r.states[i])| && k < |Envs(r.states[i + 1])|
    ensures Envs(r.states[i + 1])[k].Reading? <==> !AnyFailed(c, r, i, k)
    ensures !Envs(r.states[i + 1])[k].Reading? ==> Envs(r.states[i + 1])[k].Done?
  {
    FailuresAlwaysTell(c, r, i);
    CollectNext(c, r.states[i], k);
    var runs := RunsOf(Envs(r.states[i])[k]);
    if AnyFailed(c, r, i, k) {
      var p: nat :| p < |runs| && FailedIn(c, r, RoundStart(r, i), i, k, p);
      assert FailureTells(c, r, i, k, p);
      assert runs[p] == Finished(Failed);
    } else {
      forall p | 0 <= p < |runs| ensures runs[p] != Finished(Failed) {
        assert FailureTells(c, r, i, k, p);
        assert !FailedIn(c, r, RoundStart(r, i), i, k, p);
      }
    }
  }

  lemma CollectNext(c: Setup, s: State, k: nat)
    requires Enabled(c, s, Env(k, Collect))
    ensures var next := Step(c, s, Env(k, Collect));
            && k < |Envs(next)|
            && (Envs(next)[k].Reading? <==> NoneFailed(RunsOf(Envs(s)[k])))
            && (!Envs(next)[k].Reading? ==> Envs(next)[k].Done?)
  {
  }

  /** Whoever records has had no failure in the round. */
  lemma {:induction false} NoRecordAfterFailure(c: Setup, r: Run, i: nat, k: nat, p: nat, ok: bool)
    requires FromRest(c, r) && i < |r.actions| && r.actions[i] == Env(k, Write(ok))
    ensures k < |Envs(r.states[i])|
    ensures p < |RunsOf(Envs(r.states[i])[k])| ==> !FailedIn(c, r, RoundStart(r, i), i, k, p)
  {
    FailuresAlwaysTell(c, r, i);
    AlwaysShaped(c, r, i);
    assert EnvShape(c, r.states[i].flow.config.environments[k].name, Envs(r.states[i])[k]);
    if p < |RunsOf(Envs(r.states[i])[k])| { assert FailureTells(c, r, i, k, p); }
  }

  // ------------------------------------------------ the end of an environment

  /** Step `j` ends environment workflow `k`: the Application cannot be fetched or lacks
      the environment, the placement cannot be determined, a placement failed, the status
      cannot be read, or the record was written or refused. */
  ghost predicate EndsAt(c: Setup, r: Run, j: nat, k: nat)
    requires |r.states| == |r.actions| + 1
  {
    && j < |r.actions| && r.actions[j].Env? && r.actions[j].k == k
    && r.states[j].flow.Round? && k < |r.states[j].flow.envs| && k < |r.states[j].flow.config.environments|
    && var s := r.states[j];
       match r.actions[j].act
       case Fetch(ok) =>
         || !ok || c.key !in s.apps
         || forall e | e in s.apps[c.key].spec.environments :: e.name != s.flow.config.environments[k].name
       case Place(ok) => !ok
       case Collect => AnyFailed(c, r, j, k)
       case Read(ok) => !ok || c.key !in s.apps
       case Write(_) => true
       case Child(_, _) => false
  }

  ghost predicate EndedIn(c: Setup, r: Run, lo: nat, hi: nat, k: nat)
    requires |r.states| == |r.actions| + 1
  {
    exists j | lo <= j < hi :: EndsAt(c, r, j, k)
  }

  lemma EndedLater(c: Setup, r: Run, lo: nat, hi: nat, k: nat)
    requires |r.states| == |r.actions| + 1 && lo <= hi
    ensures EndedIn(c, r, lo, hi + 1, k) <==> EndedIn(c, r, lo, hi, k) || EndsAt(c, r, hi, k)
  {
  }

  /** A step of the environment itself ends it exactly in these cases. */
  lemma EndsNext(c: Setup, r: Run, i: nat, k: nat)
    requires FromRest(c, r) && i < |r.actions| && r.actions[i].Env? && r.actions[i].k == k
    ensures k < |Envs(r.states[i])| && k < |Envs(r.states[i + 1])| && !Envs(r.states[i])[k].Done?
    ensures Envs(r.states[i + 1])[k].Done? <==> EndsAt(c, r, i, k)
  {
    var act := r.actions[i].act;
    if act.Fetch? && c.key in r.states[i].apps {
      FindEnvironmentFinds(r.states[i].apps[c.key].spec.environments, r.states[i].flow.config.environments[k].name);
    } else if act.Collect? {
      RecordsIffNoneFailed(c, r, i, k);
    }
  }

  lemma EndsStep(c: Setup, r: Run, i: nat, k: nat)
    requires FromRest(c, r) && i < |r.actions| && !r.actions[i].Begin? && k < |Envs(r.states[i + 1])|
    requires k < |Envs(r.states[i])| && k < |r.states[i].flow.config.environments|
    requires Envs(r.states[i])[k].Done? <==>
             IsRepeat(r.states[i].flow.config, k) || EndedIn(c, r, RoundStart(r, i), i, k)
    ensures r.states[i + 1].flow.Round? && r.states[i + 1].flow.config == r.states[i].flow.config
    ensures Envs(r.states[i + 1])[k].Done? <==>
            IsRepeat(r.states[i].flow.config, k) || EndedIn(c, r, RoundStart(r, i), i + 1, k)
  {
    EnvFrame(c, r.states[i], r.actions[i], k);
    EndedLater(c, r, RoundStart(r, i), i, k);
    if r.actions[i].Env? && r.actions[i].k == k { EndsNext(c, r, i, k); }
  }

  /** In every round an environment workflow has ended if and only if another one of its
      name was started instead or one of these steps was taken; until then it goes on, and
      after that it takes no step. */
  lemma {:induction false} EndedIff(c: Setup, r: Run, i: nat, k: nat)
    requires FromRest(c, r) && i < |r.states| && r.states[i].flow.Round? && k < |r.states[i].flow.envs|
    ensures k < |r.states[i].flow.config.environments|
    ensures r.states[i].flow.envs[k].Done? <==>
            IsRepeat(r.states[i].flow.config, k) || EndedIn(c, r, RoundStart(r, i), i, k)
    ensures i < |r.actions| && r.states[i].flow.envs[k].Done? ==> !(r.actions[i].Env? && r.actions[i].k == k)
  {
    AlwaysShaped(c, r, i);
    if r.actions[i - 1].Begin? {
      AlwaysOnePerName(c, r, i);
    } else {
      EnvFrame(c, r.states[i - 1], r.actions[i - 1], k);
      EndedIff(c, r, i - 1, k);
      EndsStep(c, r, i - 1, k);
    }
  }
}
