/** Convergence under every schedule: while an environment is unrecorded each complete
    round records one more, and once all are recorded every gate is open. */
module EveryRound {
  import opened Api
  import opened Artifacts
  import opened Placements
  import opened Helm
  import opened Recording
  import opened Protocol
  import opened Invariants
  import opened Serial
  import opened Convergence
  import opened Progress

  // ------------------------------------------------- what is not recorded

  /** The environments that have not recorded all the spec asks of them. */
  function Missing(c: Setup, spec: Spec, s: State): set<nat>
    requires c.key in s.apps
  {
    set k: nat | k < |spec.environments| && !Recorded(c, spec, s, k)
  }

  /** A recording that goes through is based on the current object and on the spec. */
  lemma CommitIsCurrent(c: Setup, spec: Spec, s: State, j: nat)
    requires Base(c, spec, s) && DistinctEnvironments(spec)
    requires Enabled(c, s, Env(j, Write(true))) && Commits(c, s, Envs(s)[j], Write(true))
    ensures j < |spec.environments| && Envs(s)[j].read == s.apps[c.key]
    ensures Envs(s)[j].job == Job(spec.environments[j], ArtifactsAt(spec, j), PlacesOf(c, spec, j))
  {
    assert EnvOk(c, spec, spec.environments[j].name, Envs(s)[j]);
    JobIsTheSpecs(c, spec, j, Envs(s)[j].job);
  }

  /** After environment `j` recorded, it is recorded and so is whoever was. */
  lemma RecordedAfter(c: Setup, spec: Spec, s: State, j: nat, k: nat)
    requires Base(c, spec, s) && DistinctEnvironments(spec)
    requires Enabled(c, s, Env(j, Write(true))) && Commits(c, s, Envs(s)[j], Write(true))
    requires k < |spec.environments| && (k == j || Recorded(c, spec, s, k))
    ensures c.key in Step(c, s, Env(j, Write(true))).apps && Recorded(c, spec, Step(c, s, Env(j, Write(true))), k)
  {
    CommitIsCurrent(c, spec, s, j);
    var was: Deployed := s.apps[c.key].status.deployed;
    var name, artifacts := spec.environments[j].name, ArtifactsAt(spec, j);
    EnterLookup(EntriesOf(was, name), artifacts);
    if k == j {
      var entries := Enter(EntriesOf(was, name), artifacts);
      forall x | x in artifacts ensures x.name in entries && entries[x.name] == x {
        SelectedAgree(spec, spec.environments[k], x, entries[x.name]);
      }
    }
  }

  /** Recording once more changes nothing. */
  lemma RecordedWritesNothing(c: Setup, spec: Spec, s: State, j: nat)
    requires Base(c, spec, s) && DistinctEnvironments(spec)
    requires Enabled(c, s, Env(j, Write(true))) && Commits(c, s, Envs(s)[j], Write(true))
    requires j < |spec.environments| && Recorded(c, spec, s, j)
    ensures Step(c, s, Env(j, Write(true))).apps == s.apps
  {
    CommitIsCurrent(c, spec, s, j);
    RecordingChangesIff(c, spec, s, j);
  }

  /** No step loses a recorded environment, and only a missing one changes the object. */
  lemma {:induction false} MissingStep(c: Setup, spec: Spec, s: State, a: Action)
    requires Base(c, spec, s) && DistinctEnvironments(spec) && Enabled(c, s, a) && Clean(a)
    ensures c.key in Step(c, s, a).apps && Missing(c, spec, Step(c, s, a)) <= Missing(c, spec, s)
    ensures Missing(c, spec, Step(c, s, a)) == Missing(c, spec, s) ==> Step(c, s, a).apps == s.apps
  {
    BaseStep(c, spec, s, a);
    if a.Env? && Commits(c, s, Envs(s)[a.k], a.act) {
      forall k: nat | k < |spec.environments| && Recorded(c, spec, s, k)
        ensures Recorded(c, spec, Step(c, s, a), k)
      {
        RecordedAfter(c, spec, s, a.k, k);
      }
      CommitIsCurrent(c, spec, s, a.k);
      RecordedAfter(c, spec, s, a.k, a.k);
      if Recorded(c, spec, s, a.k) {
        RecordedWritesNothing(c, spec, s, a.k);
      } else {
        assert a.k in Missing(c, spec, s) && a.k !in Missing(c, spec, Step(c, s, a));
      }
    }
  }

  lemma {:induction false} MissingShrinks(c: Setup, spec: Spec, r: Run, b: nat, i: nat)
    requires Calm(c, spec, r) && DistinctEnvironments(spec) && b <= i < |r.states|
    ensures c.key in r.states[b].apps && c.key in r.states[i].apps
    ensures Missing(c, spec, r.states[i]) <= Missing(c, spec, r.states[b])
  {
    BaseAlways(c, spec, r, b);
    if b < i {
      MissingShrinks(c, spec, r, b, i - 1);
      BaseAlways(c, spec, r, i - 1);
      MissingStep(c, spec, r.states[i - 1], r.actions[i - 1]);
    }
  }

  // ------------------------------------------- while nobody records anything

  predicate UpToDate(c: Setup, spec: Spec, s: State, k: nat)
    requires c.key in s.apps && k < |Envs(s)|
  {
    && (Envs(s)[k].Done? ==> k !in Missing(c, spec, s))
    && (Envs(s)[k].Writing? ==> Envs(s)[k].read == s.apps[c.key])
  }

  /** Every read of the round is current, and no missing environment has ended. */
  predicate Current(c: Setup, spec: Spec, s: State) {
    c.key in s.apps && forall k | 0 <= k < |Envs(s)| :: UpToDate(c, spec, s, k)
  }

  lemma ReadStaysCurrent(c: Setup, s: State, a: Action, k: nat)
    requires Enabled(c, s, a) && c.key in s.apps && Step(c, s, a).apps == s.apps
    requires k < |Envs(Step(c, s, a))|
    requires !a.Begin? && k < |Envs(s)| && Envs(s)[k].Writing? ==> Envs(s)[k].read == s.apps[c.key]
    ensures Envs(Step(c, s, a))[k].Writing? ==> Envs(Step(c, s, a))[k].read == s.apps[c.key]
  {
    EnvFrame(c, s, a, k);
  }

  /** Who ends in this step, on a current read, is recorded. */
  lemma EndsRecorded(c: Setup, spec: Spec, r: Run, i: nat, k: nat)
    requires Convergeable(c, spec) && Calm(c, spec, r) && i < |r.actions| && k < |Envs(r.states[i + 1])|
    requires Envs(r.states[i + 1])[k].Done? && c.key in r.states[i].apps && c.key in r.states[i + 1].apps
    requires k < |Envs(r.states[i])| ==> UpToDate(c, spec, r.states[i], k)
    requires Missing(c, spec, r.states[i + 1]) == Missing(c, spec, r.states[i])
    ensures k !in Missing(c, spec, r.states[i + 1])
  {
    WriteEndsEnvironment(c, spec, r, i, k);
    if !Envs(r.states[i])[k].Done? {
      BaseAlways(c, spec, r, i);
      CommitIsCurrent(c, spec, r.states[i], k);
      RecordedAfter(c, spec, r.states[i], k, k);
    }
  }

  lemma CurrentStep(c: Setup, spec: Spec, r: Run, i: nat, k: nat)
    requires Convergeable(c, spec) && Calm(c, spec, r) && i < |r.actions| && k < |Envs(r.states[i + 1])|
    requires r.actions[i].Begin? || Current(c, spec, r.states[i])
    requires c.key in r.states[i].apps && c.key in r.states[i + 1].apps
    requires Missing(c, spec, r.states[i + 1]) == Missing(c, spec, r.states[i])
    ensures UpToDate(c, spec, r.states[i + 1], k)
  {
    BaseAlways(c, spec, r, i);
    MissingStep(c, spec, r.states[i], r.actions[i]);
    assert !r.actions[i].Begin? && k < |Envs(r.states[i])| ==> UpToDate(c, spec, r.states[i], k);
    ReadStaysCurrent(c, r.states[i], r.actions[i], k);
    if Envs(r.states[i + 1])[k].Done? { EndsRecorded(c, spec, r, i, k); }
  }

  lemma {:induction false} CurrentNext(c: Setup, spec: Spec, r: Run, i: nat)
    requires Convergeable(c, spec) && Calm(c, spec, r) && i < |r.actions|
    requires r.actions[i].Begin? || Current(c, spec, r.states[i])
    requires c.key in r.states[i].apps && c.key in r.states[i + 1].apps
    requires Missing(c, spec, r.states[i + 1]) == Missing(c, spec, r.states[i])
    ensures Current(c, spec, r.states[i + 1])
  {
    var s' := r.states[i + 1];
    forall k | 0 <= k < |Envs(s')| ensures UpToDate(c, spec, s', k) {
      CurrentStep(c, spec, r, i, k);
    }
  }

  lemma {:induction false} CurrentAlways(c: Setup, spec: Spec, r: Run, i: nat)
    requires Convergeable(c, spec) && Calm(c, spec, r) && i < |r.states|
    requires c.key in r.states[RoundStart(r, i)].apps && c.key in r.states[i].apps
    requires Missing(c, spec, r.states[i]) == Missing(c, spec, r.states[RoundStart(r, i)])
    ensures Current(c, spec, r.states[i])
  {
    if i > 0 {
      MissingShrinks(c, spec, r, i - 1, i);
      if r.actions[i - 1].Begin? {
        BeginMissesTheSame(c, spec, r.states[i - 1], r.actions[i - 1]);
      } else {
        MissingShrinks(c, spec, r, RoundStart(r, i), i - 1);
        CurrentAlways(c, spec, r, i - 1);
      }
      CurrentNext(c, spec, r, i - 1);
    }
  }

  lemma BeginMissesTheSame(c: Setup, spec: Spec, s: State, a: Action)
    requires Enabled(c, s, a) && a.Begin? && c.key in s.apps
    ensures Missing(c, spec, Step(c, s, a)) == Missing(c, spec, s)
  {
    assert Step(c, s, a).apps == s.apps;
  }

  /** A round cannot end while every read is current and something is missing. */
  lemma CurrentGoesOn(c: Setup, spec: Spec, s: State)
    requires Base(c, spec, s) && Current(c, spec, s) && Enabled(c, s, End)
    ensures Missing(c, spec, s) == {}
  {
    forall k: nat | k < |spec.environments| ensures k !in Missing(c, spec, s) {
      assert Envs(s)[k].Done? && UpToDate(c, spec, s, k);
    }
  }

  /** Each round records. While something is unrecorded when a round begins, the complete
      round records at least one more environment, however recordings overlap. */
  lemma {:induction false} EachRoundRecords(c: Setup, spec: Spec, r: Run, e: nat)
    requires Convergeable(c, spec) && Calm(c, spec, r) && e < |r.actions| && r.actions[e].End?
    ensures c.key in r.states[e].apps && c.key in r.states[RoundStart(r, e)].apps
    ensures Missing(c, spec, r.states[RoundStart(r, e)]) != {} ==>
              Missing(c, spec, r.states[e]) < Missing(c, spec, r.states[RoundStart(r, e)])
  {
    var b := RoundStart(r, e);
    MissingShrinks(c, spec, r, b, e);
    BaseAlways(c, spec, r, e);
    if Missing(c, spec, r.states[e]) == Missing(c, spec, r.states[b]) {
      CurrentAlways(c, spec, r, e);
      CurrentGoesOn(c, spec, r.states[e]);
    }
  }

  // -------------------------------------------------------------- counting

  lemma {:induction false} RoundsWithinRound(r: Run, i: nat)
    requires |r.states| == |r.actions| + 1 && i <= |r.actions|
    requires forall j | RoundStart(r, i) <= j < i :: !r.actions[j].End?
    ensures Rounds(r, RoundStart(r, i)) == Rounds(r, i)
  {
    if RoundStart(r, i) < i { RoundsWithinRound(r, i - 1); }
  }

  lemma NoEndWithinRound(c: Setup, r: Run, i: nat, j: nat)
    requires FromRest(c, r) && i < |r.states| && r.states[i].flow.Round? && RoundStart(r, i) <= j < i
    ensures !r.actions[j].End?
  {
    SameRound(c, r, j + 1, i);
  }

  /** After `n` rounds at least `n` of the environments missing at first are recorded. */
  lemma {:induction false} MissingCounts(c: Setup, spec: Spec, r: Run, i: nat)
    requires Convergeable(c, spec) && Calm(c, spec, r) && i < |r.states|
    ensures c.key in r.states[0].apps && c.key in r.states[i].apps
    ensures Missing(c, spec, r.states[i]) == {} ||
            |Missing(c, spec, r.states[i])| + Rounds(r, i) <= |Missing(c, spec, r.states[0])|
    decreases i, 0
  {
    BaseAlways(c, spec, r, 0);
    if i > 0 {
      MissingShrinks(c, spec, r, i - 1, i);
      SubsetIsSmaller(Missing(c, spec, r.states[i]), Missing(c, spec, r.states[i - 1]));
      if r.actions[i - 1].End? {
        RoundCounts(c, spec, r, i - 1);
      } else {
        MissingCounts(c, spec, r, i - 1);
      }
    }
  }

  lemma {:induction false} RoundCounts(c: Setup, spec: Spec, r: Run, e: nat)
    requires Convergeable(c, spec) && Calm(c, spec, r) && e < |r.actions| && r.actions[e].End?
    ensures c.key in r.states[0].apps && c.key in r.states[e].apps
    ensures Missing(c, spec, r.states[e]) == {} ||
            |Missing(c, spec, r.states[e])| + Rounds(r, e) < |Missing(c, spec, r.states[0])|
    decreases e, 1
  {
    var b := RoundStart(r, e);
    MissingCounts(c, spec, r, b);
    EachRoundRecords(c, spec, r, e);
    MissingShrinks(c, spec, r, b, e);
    SubsetIsSmaller(Missing(c, spec, r.states[e]), Missing(c, spec, r.states[b]));
    forall j | b <= j < e ensures !r.actions[j].End? { NoEndWithinRound(c, r, e, j); }
    RoundsWithinRound(r, e);
  }

  // ------------------------------------------------------------- theorems

  /** Once every environment is recorded every gate is open. */
  lemma AllRecordedOpens(c: Setup, spec: Spec, s: State, k: nat)
    requires Fixed(c, spec, s) && Complete(spec) && k < |spec.environments|
    requires Missing(c, spec, s) == {}
    ensures Open(c, spec, s, k)
  {
    forall d | d in Dependencies(spec.environments[k].constraints)
      ensures Promoted(s.apps[c.key], d.environment, d.artifacts)
    {
      assert Satisfiable(spec, d);
      var m: nat :| m < |spec.environments|
        && spec.environments[m].name == d.environment
        && forall n | n in d.artifacts :: n in spec.environments[m].requiredArtifacts && n in ByName(spec.artifacts);
      assert m !in Missing(c, spec, s);
      RecordedIsPromoted(c, spec, s, m, d.artifacts);
    }
  }

  lemma RecordedIsPromoted(c: Setup, spec: Spec, s: State, m: nat, names: seq<string>)
    requires Fixed(c, spec, s) && m < |spec.environments| && Recorded(c, spec, s, m)
    requires forall n | n in names :: n in spec.environments[m].requiredArtifacts && n in ByName(spec.artifacts)
    ensures Promoted(s.apps[c.key], spec.environments[m].name, names)
  {
    FilterMembers(spec.environments[m].requiredArtifacts, ByName(spec.artifacts));
    ByNameIsListed(spec.artifacts);
    forall n | n in names
      ensures var entries := s.apps[c.key].status.deployed[spec.environments[m].name];
              n in entries && entries[n] == ByName(spec.artifacts)[n]
    {
      assert ByName(spec.artifacts)[n] in ArtifactsAt(spec, m);
    }
  }

  /** After as many rounds as environments were missing, all gates are open. */
  lemma {:induction false} GatesOpenInTime(c: Setup, spec: Spec, r: Run, i: nat, k: nat)
    requires Convergeable(c, spec) && Calm(c, spec, r) && i < |r.states| && k < |spec.environments|
    requires c.key in r.states[0].apps && Rounds(r, i) >= |Missing(c, spec, r.states[0])|
    ensures c.key in r.states[i].apps && Missing(c, spec, r.states[i]) == {} && Open(c, spec, r.states[i], k)
  {
    BaseAlways(c, spec, r, i);
    MissingCounts(c, spec, r, i);
    AllRecordedOpens(c, spec, r.states[i], k);
  }

  /** The state between rounds in which the `n`th round has just ended. */
  lemma AfterRounds(c: Setup, r: Run, n: nat, i: nat) returns (b: nat)
    requires FromRest(c, r) && i < |r.states| && Rounds(r, i) >= n
    ensures b <= i && Rounds(r, b) == n && !r.states[b].flow.Round?
  {
    if n == 0 { b := 0; } else { b := RoundEnds(r, n, i); }
  }

  /** Convergence under every schedule. One complete round more than there were
      environments missing at the start leaves no difference at any place. */
  lemma {:induction false} RoundsConverge(c: Setup, spec: Spec, r: Run, i: nat, k: nat, p: nat)
    requires Convergeable(c, spec) && Calm(c, spec, r) && i < |r.states|
    requires c.key in r.states[0].apps && Rounds(r, i) > |Missing(c, spec, r.states[0])|
    requires k < |spec.environments| && p < |PlacesOf(c, spec, k)|
    ensures DiffOf(r.states[i].releases, KeyAt(PlacesOf(c, spec, k)[p], c.key.name), ArtifactsAt(spec, k)) == Same
  {
    var b := AfterRounds(c, r, |Missing(c, spec, r.states[0])|, i);
    GatesOpenInTime(c, spec, r, b, k);
    OpenGatesConverge(c, spec, r, b, i, k, p);
  }

  lemma MissingIsBounded(c: Setup, spec: Spec, s: State)
    requires c.key in s.apps
    ensures |Missing(c, spec, s)| <= |spec.environments|
  {
    SubsetIsSmaller(Missing(c, spec, s), Indices(|spec.environments|));
  }

  /** In particular one round more than there are environments always suffices. */
  lemma {:induction false} EnoughRoundsConverge(c: Setup, spec: Spec, r: Run, i: nat, k: nat, p: nat)
    requires Convergeable(c, spec) && Calm(c, spec, r) && i < |r.states| && Rounds(r, i) > |spec.environments|
    requires k < |spec.environments| && p < |PlacesOf(c, spec, k)|
    ensures DiffOf(r.states[i].releases, KeyAt(PlacesOf(c, spec, k)[p], c.key.name), ArtifactsAt(spec, k)) == Same
  {
    MissingIsBounded(c, spec, r.states[0]);
    RoundsConverge(c, spec, r, i, k, p);
  }

  lemma {:induction false} AllSyncedInTime(c: Setup, spec: Spec, r: Run, i: nat, k: nat)
    requires Convergeable(c, spec) && Calm(c, spec, r) && i < |r.states| && k < |spec.environments|
    requires c.key in r.states[0].apps && Rounds(r, i) > |Missing(c, spec, r.states[0])|
    ensures AllSynced(c, spec, r.states[i], k)
  {
    forall p | 0 <= p < |PlacesOf(c, spec, k)|
      ensures DiffOf(r.states[i].releases, KeyAt(PlacesOf(c, spec, k)[p], c.key.name), ArtifactsAt(spec, k)) == Same
    {
      RoundsConverge(c, spec, r, i, k, p);
    }
    SyncedMeansNoDifference(c, spec, r.states[i], k);
  }

  /** From then on every step is quiet: placements only diff, the releases stand still,
      and so do all recorded artifacts. */
  lemma {:induction false} RoundsThenQuiet(c: Setup, spec: Spec, r: Run, i: nat)
    requires Convergeable(c, spec) && Calm(c, spec, r) && i < |r.actions|
    requires c.key in r.states[0].apps && Rounds(r, i) > |Missing(c, spec, r.states[0])|
    ensures r.actions[i].Env? && r.actions[i].act.Child? ==> r.actions[i].act.act.Diff?
    ensures r.states[i + 1].releases == r.states[i].releases
    ensures r.states[i + 1].apps == r.states[i].apps
  {
    var b := AfterRounds(c, r, |Missing(c, spec, r.states[0])| + 1, i);
    forall k | 0 <= k < |spec.environments| ensures AllSynced(c, spec, r.states[b], k) {
      AllSyncedInTime(c, spec, r, b, k);
    }
    ConvergedIsQuiet(c, spec, r, b, i);
    NothingIsWritten(c, spec, r, i);
  }

  lemma {:induction false} NothingIsWritten(c: Setup, spec: Spec, r: Run, i: nat)
    requires Convergeable(c, spec) && Calm(c, spec, r) && i < |r.actions|
    requires c.key in r.states[0].apps && Rounds(r, i) >= |Missing(c, spec, r.states[0])|
    ensures r.states[i + 1].apps == r.states[i].apps
  {
    MissingCounts(c, spec, r, i);
    MissingShrinks(c, spec, r, i, i + 1);
    BaseAlways(c, spec, r, i);
    MissingStep(c, spec, r.states[i], r.actions[i]);
  }
}
