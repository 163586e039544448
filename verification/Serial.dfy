/** Concurrent recording: any interleaving of status reads and guarded writes has
    the effect of the successful writes, one after another. */
module Serial {
  import opened Api
  import opened Artifacts
  import opened Helm
  import opened Recording
  import opened Protocol
  import opened Invariants

  /** Nobody outside the operator touches the Application object in these steps. */
  predicate Untouched(c: Setup, r: Run, b: nat, i: nat) {
    forall j | b <= j < i && j < |r.actions| :: r.actions[j].External? ==> r.actions[j].key != c.key
  }

  predicate CommitsAt(c: Setup, r: Run, j: nat)
    requires j < |r.actions| && Follows(c, r)
  {
    r.actions[j].Env? && Commits(c, r.states[j], Envs(r.states[j])[r.actions[j].k], r.actions[j].act)
  }

  datatype Entry = Entry(environment: string, artifacts: seq<Artifact>)

  /** What step `j` records: nothing, unless it is a status write that goes through. */
  function CommitAt(c: Setup, r: Run, j: nat): seq<Entry>
    requires Follows(c, r) && j < |r.actions|
  {
    if CommitsAt(c, r, j) then
      var job := Envs(r.states[j])[r.actions[j].k].job; [Entry(job.env.name, job.artifacts)]
    else []
  }

  function Gather(commits: seq<seq<Entry>>, b: nat, i: nat): seq<Entry>
    requires b <= i <= |commits|
  {
    if i == b then [] else Gather(commits, b, i - 1) + commits[i - 1]
  }

  /** The status writes that went through between `b` and `i`, in commit order. */
  function Committed(c: Setup, r: Run, b: nat, i: nat): seq<Entry>
    requires Follows(c, r) && b <= i <= |r.actions|
  {
    Gather(seq(|r.actions|, j requires 0 <= j < |r.actions| => CommitAt(c, r, j)), b, i)
  }

  /** The sequential effect of a list of recordings. */
  function Replay(deployed: Deployed, entries: seq<Entry>): Deployed {
    if entries == [] then deployed
    else
      var last := |entries| - 1;
      Record(Replay(deployed, entries[..last]), entries[last].environment, entries[last].artifacts)
  }

  lemma {:induction false} ReplayConcat(deployed: Deployed, xs: seq<Entry>, ys: seq<Entry>)
    ensures Replay(deployed, xs + ys) == Replay(Replay(deployed, xs), ys)
  {
    if ys == [] {
      assert xs + ys == xs;
    } else {
      assert (xs + ys)[..|xs + ys| - 1] == xs + ys[..|ys| - 1];
      ReplayConcat(deployed, xs, ys[..|ys| - 1]);
    }
  }

  function DeployedIn(c: Setup, s: State): Deployed {
    if c.key in s.apps then s.apps[c.key].status.deployed else map[]
  }

  /** A step of the operator changes at most the recorded artifacts of its own object, and
      the resource version with them. */
  lemma StepsRecordOnly(c: Setup, r: Run, i: nat)
    requires FromRest(c, r) && i < |r.actions| && !r.actions[i].External?
    ensures r.states[i + 1].apps.Keys == r.states[i].apps.Keys
    ensures forall key | key in r.states[i].apps && key != c.key :: r.states[i + 1].apps[key] == r.states[i].apps[key]
    ensures c.key in r.states[i].apps ==>
              var was, now := r.states[i].apps[c.key], r.states[i + 1].apps[c.key];
              && now == was.(status := was.status.(deployed := now.status.deployed),
                             meta := was.meta.(resourceVersion := now.meta.resourceVersion))
              && (now.meta == was.meta <==> now == was)
  {
    VersionsAlwaysOk(c, r, i);
    if CommitsAt(c, r, i) {
      assert Envs(r.states[i])[r.actions[i].k].read == r.states[i].apps[c.key];
      assert r.states[i].apps[c.key].meta.resourceVersion < r.states[i].clock;
    }
  }

  /** One step records what it commits, and nothing else changes the record. */
  lemma OneCommit(c: Setup, r: Run, i: nat)
    requires FromRest(c, r) && i < |r.actions| && c.key in r.states[i].apps
    requires r.actions[i].External? ==> r.actions[i].key != c.key
    ensures c.key in r.states[i + 1].apps
    ensures DeployedIn(c, r.states[i + 1]) == Replay(DeployedIn(c, r.states[i]), CommitAt(c, r, i))
  {
    VersionsAlwaysOk(c, r, i);
    if CommitsAt(c, r, i) {
      assert Envs(r.states[i])[r.actions[i].k].read == r.states[i].apps[c.key];
    }
  }

  lemma {:induction false} StaysPresent(c: Setup, r: Run, b: nat, i: nat)
    requires FromRest(c, r) && b <= i <= |r.actions| && Untouched(c, r, b, i)
    requires c.key in r.states[b].apps
    ensures c.key in r.states[i].apps
  {
    if b < i { StaysPresent(c, r, b, i - 1); }
  }

  lemma {:induction false} ReplayGathered(deployed: seq<Deployed>, commits: seq<seq<Entry>>, b: nat, i: nat)
    requires b <= i <= |commits| && |deployed| == |commits| + 1
    requires forall j | b <= j < i :: deployed[j + 1] == Replay(deployed[j], commits[j])
    ensures deployed[i] == Replay(deployed[b], Gather(commits, b, i))
  {
    if b < i {
      ReplayGathered(deployed, commits, b, i - 1);
      ReplayConcat(deployed[b], Gather(commits, b, i - 1), commits[i - 1]);
    }
  }

  /** Serial recording: the recorded artifacts are those before, with the successful
      writes replayed one after another. */
  lemma RecordingIsSerial(c: Setup, r: Run, b: nat, i: nat)
    requires FromRest(c, r) && b <= i <= |r.actions| && Untouched(c, r, b, i)
    requires c.key in r.states[b].apps
    ensures DeployedIn(c, r.states[i]) == Replay(DeployedIn(c, r.states[b]), Committed(c, r, b, i))
  {
    var deployed := seq(|r.states|, j requires 0 <= j < |r.states| => DeployedIn(c, r.states[j]));
    var commits := seq(|r.actions|, j requires 0 <= j < |r.actions| => CommitAt(c, r, j));
    forall j | b <= j < i ensures deployed[j + 1] == Replay(deployed[j], commits[j]) {
      StaysPresent(c, r, b, j);
      OneCommit(c, r, j);
    }
    ReplayGathered(deployed, commits, b, i);
  }

  /** A replay loses no entry, and an environment nobody recorded is untouched. */
  lemma {:induction false} ReplayLosesNothing(deployed: Deployed, entries: seq<Entry>, name: string)
    requires name in deployed
    ensures var after := Replay(deployed, entries);
            name in after && deployed[name].Keys <= after[name].Keys
    ensures (forall e | e in entries :: e.environment != name) ==> Replay(deployed, entries)[name] == deployed[name]
  {
    if entries != [] {
      var last := |entries| - 1;
      ReplayLosesNothing(deployed, entries[..last], name);
      RecordLosesNothing(Replay(deployed, entries[..last]), entries[last].environment, entries[last].artifacts);
      assert entries[last] in entries;
    }
  }

  /** No recorded entry is ever lost while the object is left to the operator, and
      an environment's entries change only by its own commits. */
  lemma NoEntryIsLost(c: Setup, r: Run, b: nat, i: nat, name: string)
    requires FromRest(c, r) && b <= i < |r.states| && Untouched(c, r, b, i)
    requires c.key in r.states[b].apps && name in r.states[b].apps[c.key].status.deployed
    ensures c.key in r.states[i].apps && name in r.states[i].apps[c.key].status.deployed
    ensures var was, now := r.states[b].apps[c.key].status.deployed, r.states[i].apps[c.key].status.deployed;
            && was[name].Keys <= now[name].Keys
            && ((forall e | e in Committed(c, r, b, i) :: e.environment != name) ==> now[name] == was[name])
  {
    StaysPresent(c, r, b, i);
    RecordingIsSerial(c, r, b, i);
    ReplayLosesNothing(r.states[b].apps[c.key].status.deployed, Committed(c, r, b, i), name);
  }

  /** In every reachable state every entry is filed under its artifact's name. */
  lemma {:induction false} AlwaysFiledByName(c: Setup, r: Run, i: nat)
    requires IsRun(c, r) && i < |r.states|
    ensures c.key in r.states[i].apps ==> FiledByName(r.states[i].apps[c.key].status.deployed)
  {
    if i > 0 {
      AlwaysFiledByName(c, r, i - 1);
      VersionsAlwaysOk(c, r, i - 1);
      if CommitsAt(c, r, i - 1) {
        var run := Envs(r.states[i - 1])[r.actions[i - 1].k];
        RecordKeepsFiling(run.read.status.deployed, run.job.env.name, run.job.artifacts);
      }
    }
  }

  /** A recording goes through at step `j` and changes what is recorded. */
  predicate ChangesAt(c: Setup, r: Run, j: nat)
    requires j < |r.actions| && Follows(c, r)
  {
    CommitsAt(c, r, j) && DeployedIn(c, r.states[j + 1]) != DeployedIn(c, r.states[j])
  }

  lemma ChangeTakesVersion(c: Setup, s: State, a: Action)
    requires Enabled(c, s, a) && VersionsOk(c, s) && a.Env? && Commits(c, s, Envs(s)[a.k], a.act)
    ensures var s' := Step(c, s, a);
            if DeployedIn(c, s') == DeployedIn(c, s) then s'.apps == s.apps
            else s'.apps[c.key].meta.resourceVersion == s.clock
  {
    assert Envs(s)[a.k].read == s.apps[c.key];
  }

  /** From a change on every resource version of the object is at least that of the change. */
  lemma {:induction false} VersionsGrow(c: Setup, r: Run, i: nat, j: nat)
    requires FromRest(c, r) && i < |r.actions| && ChangesAt(c, r, i) && i < j < |r.states|
    ensures r.states[j].clock > r.states[i].clock
    ensures c.key in r.states[j].apps ==> r.states[j].apps[c.key].meta.resourceVersion >= r.states[i].clock
  {
    if i + 1 < j {
      VersionsGrow(c, r, i, j - 1);
      VersionStep(c, r.states[j - 1], r.actions[j - 1], r.states[i].clock);
    } else {
      VersionsAlwaysOk(c, r, i);
      ChangeTakesVersion(c, r.states[i], r.actions[i]);
    }
  }

  lemma VersionStep(c: Setup, s: State, a: Action, v: nat)
    requires Enabled(c, s, a) && v < s.clock
    requires c.key in s.apps ==> s.apps[c.key].meta.resourceVersion >= v
    ensures v < Step(c, s, a).clock
    ensures c.key in Step(c, s, a).apps ==> Step(c, s, a).apps[c.key].meta.resourceVersion >= v
  {
  }

  /** No lost update: a recording that changes something spoils every read taken before
      it, so of several writers that read the same object at most one changes it. */
  lemma CommitSpoilsReads(c: Setup, r: Run, i: nat, j: nat)
    requires FromRest(c, r) && i < j < |r.actions| && ChangesAt(c, r, i)
    requires r.actions[j].Env? && Envs(r.states[j])[r.actions[j].k].Writing?
    requires Envs(r.states[j])[r.actions[j].k].read.meta.resourceVersion < r.states[i].clock
    ensures !CommitsAt(c, r, j)
  {
    VersionsGrow(c, r, i, j);
  }

  // ---------------------------------------------- which recordings go through

  /** Environment workflow `k` read the Application at step `q`. */
  predicate ReadsAt(c: Setup, r: Run, q: nat, k: nat, read: Application)
    requires |r.states| == |r.actions| + 1
  {
    && q < |r.actions| && r.actions[q] == Env(k, Read(true))
    && c.key in r.states[q].apps && r.states[q].apps[c.key] == read
  }

  /** What is about to be written was read earlier in the round. */
  lemma {:induction false} WriteOrigin(c: Setup, r: Run, i: nat, k: nat) returns (q: nat)
    requires FromRest(c, r) && i < |r.states| && k < |Envs(r.states[i])| && Envs(r.states[i])[k].Writing?
    ensures RoundStart(r, i) <= q < i && ReadsAt(c, r, q, k, Envs(r.states[i])[k].read)
  {
    EnvFrame(c, r.states[i - 1], r.actions[i - 1], k);
    if Envs(r.states[i - 1])[k].Writing? {
      q := WriteOrigin(c, r, i - 1, k);
    } else {
      q := i - 1;
    }
  }

  lemma UnchangedStep(c: Setup, s: State, a: Action)
    requires Enabled(c, s, a) && VersionsOk(c, s)
    requires a.External? ==> a.key != c.key
    requires a.Env? && Commits(c, s, Envs(s)[a.k], a.act) ==> DeployedIn(c, Step(c, s, a)) == DeployedIn(c, s)
    ensures c.key in s.apps ==> c.key in Step(c, s, a).apps && Step(c, s, a).apps[c.key] == s.apps[c.key]
  {
    if a.Env? && Commits(c, s, Envs(s)[a.k], a.act) { ChangeTakesVersion(c, s, a); }
  }

  lemma {:induction false} ObjectStands(c: Setup, r: Run, q: nat, i: nat)
    requires FromRest(c, r) && q <= i < |r.states| && Untouched(c, r, q, i) && c.key in r.states[q].apps
    requires forall m | q <= m < i :: !ChangesAt(c, r, m)
    ensures c.key in r.states[i].apps && r.states[i].apps[c.key] == r.states[q].apps[c.key]
  {
    if q < i {
      ObjectStands(c, r, q, i - 1);
      VersionsAlwaysOk(c, r, i - 1);
      assert !ChangesAt(c, r, i - 1);
      UnchangedStep(c, r.states[i - 1], r.actions[i - 1]);
    }
  }

  lemma {:induction false} ClockGrows(c: Setup, r: Run, i: nat, j: nat)
    requires Follows(c, r) && i <= j < |r.states|
    ensures r.states[i].clock <= r.states[j].clock
  {
    if i < j { ClockGrows(c, r, i, j - 1); }
  }

  /** When nobody outside touches the object in the round, a recording goes through if
      and only if no other one changed the status between its read (`q`) and its write. */
  lemma RecordingGoesThroughIff(c: Setup, r: Run, j: nat, k: nat) returns (q: nat)
    requires FromRest(c, r) && j < |r.actions| && r.actions[j] == Env(k, Write(true))
    requires Untouched(c, r, RoundStart(r, j), j)
    ensures RoundStart(r, j) <= q < j && ReadsAt(c, r, q, k, Envs(r.states[j])[k].read)
    ensures CommitsAt(c, r, j) <==> forall m | q <= m < j :: !ChangesAt(c, r, m)
  {
    q := WriteOrigin(c, r, j, k);
    if m :| q <= m < j && ChangesAt(c, r, m) {
      VersionsAlwaysOk(c, r, q);
      ClockGrows(c, r, q, m);
      CommitSpoilsReads(c, r, m, j);
    } else {
      ObjectStands(c, r, q, j);
    }
  }
}
