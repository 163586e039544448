/** The controller of controllers/application_controller.go: finalizer, workflow
    start and status write of one Application, as a machine in which any call may
    fail, reads may be stale and the process may crash between any two calls. */
module Controller {
  import opened Api
  import opened Artifacts
  import opened Recording

  const FINALIZER := "deployments.datadoghq.com/application-finalizer"

  // ----------------------------------------------------------------- worlds

  /** A run of the `Reconcile` workflow at the workflow service. */
  datatype WorkflowRun = WorkflowRun(workflowId: string, open: bool)

  /** Where the one active `Reconcile` call stands, with the object it read. */
  datatype Phase =
    | Idle
    | Got(obj: Application)
    | Terminated(obj: Application)
    | Started(obj: Application, workflowId: string, runId: string)

  /** `history` holds every version of the object ever stored, of all incarnations;
      a cached read may return any of them. `runs[n]` has run ID `RunName(n)`. */
  datatype World = World(
    key: ObjectKey,
    current: Option<Application>,
    history: seq<Application>,
    clock: nat,
    runs: seq<WorkflowRun>,
    phase: Phase)

  function WorkflowId(key: ObjectKey): string {
    "reconcile-" + KeyString(key)
  }

  function RunName(n: nat): (s: string)
    ensures |s| == n + 1
  {
    seq(n + 1, _ => 'r')
  }

  lemma WorkflowIdIs(key: ObjectKey)
    ensures WorkflowId(key) == "reconcile-" + key.namespace + "/" + key.name
  {
    assert "reconcile-" + (key.namespace + "/" + key.name) == "reconcile-" + key.namespace + "/" + key.name;
  }

  /** Different Applications have different workflows, as namespaces contain no slash. */
  lemma WorkflowIdsDiffer(x: ObjectKey, y: ObjectKey)
    requires '/' !in x.namespace && '/' !in y.namespace
    ensures WorkflowId(x) == WorkflowId(y) <==> x == y
  {
    if WorkflowId(x) == WorkflowId(y) {
      assert WorkflowId(x)[|"reconcile-"|..] == KeyString(x) && WorkflowId(y)[|"reconcile-"|..] == KeyString(y);
      SplitAtSlash(x.namespace, x.name);
      SplitAtSlash(y.namespace, y.name);
      assert Split(KeyString(x))[0] == x.namespace && Split(KeyString(y))[0] == y.namespace;
      assert KeyString(x)[|x.namespace| + 1..] == x.name && KeyString(y)[|y.namespace| + 1..] == y.name;
    }
  }

  predicate Unstarted(obj: Application) {
    obj.status.workflowId == "" && obj.status.runId == ""
  }

  // ---------------------------------------------------------------- actions

  /** The calls of the controller, then everybody else. `landed` says whether a call
      took effect, `ok` whether it also reported success. */
  datatype Action =
    | Get(which: nat)
    | Terminate(landed: bool)
    | DropFinalizer(landed: bool)
    | AddFinalizer(landed: bool)
    | StartWorkflow(ok: bool, landed: bool)
    | WriteStatus(landed: bool)
    | Finish
    | Crash
    | Create(spec: Spec, finalizers: set<string>)
    | Edit(spec: Spec, finalizers: set<string>)
    | Delete
    | RecordVersions(environment: string, artifacts: seq<Artifact>)
    | WorkflowEnds(which: nat)

  predicate CleansUp(obj: Application) {
    obj.meta.deleting && FINALIZER in obj.meta.finalizers
  }

  predicate Enabled(w: World, a: Action) {
    match a
    case Get(which) => w.phase.Idle? && which < |w.history|
    case Terminate(_) => w.phase.Got? && CleansUp(w.phase.obj)
    case DropFinalizer(_) => w.phase.Terminated?
    case AddFinalizer(_) => w.phase.Got? && !CleansUp(w.phase.obj) && FINALIZER !in w.phase.obj.meta.finalizers
    case StartWorkflow(ok, landed) =>
      && w.phase.Got? && !CleansUp(w.phase.obj) && FINALIZER in w.phase.obj.meta.finalizers && Unstarted(w.phase.obj)
      && (ok ==> landed)
    case WriteStatus(_) => w.phase.Started?
    case Finish =>
      && w.phase.Got? && !CleansUp(w.phase.obj)
      && FINALIZER in w.phase.obj.meta.finalizers && !Unstarted(w.phase.obj)
    case Crash => true
    case Create(_, _) => w.current.None?
    case Edit(_, finalizers) =>
      // others leave this controller's finalizer alone, and nobody can add a
      // finalizer to an object that is being deleted
      && w.current.Some?
      && (FINALIZER in finalizers <==> FINALIZER in w.current.value.meta.finalizers)
      && (w.current.value.meta.deleting ==> finalizers <= w.current.value.meta.finalizers)
    case Delete => w.current.Some?
    case RecordVersions(_, _) => w.current.Some?
    case WorkflowEnds(which) => which < |w.runs|
  }

  // ------------------------------------------------------------- API server

  /** Storing an object gives it the next resource version; an object that is being
      deleted disappears with its last finalizer. A write that changes nothing takes a
      version here too, where the API server would leave the object alone. In either case
      what carries the current version is the current object (`FreshIsCurrent`), and no
      theorem uses more. */
  function Store(w: World, obj: Application): World {
    var stored := obj.(meta := obj.meta.(resourceVersion := w.clock));
    if obj.meta.deleting && obj.meta.finalizers == {} then w.(current := None, clock := w.clock + 1)
    else w.(current := Some(stored), history := w.history + [stored], clock := w.clock + 1)
  }

  /** Writes are refused unless based on the current version. */
  predicate Fresh(w: World, read: Application) {
    w.current.Some? && w.current.value.meta.resourceVersion == read.meta.resourceVersion
  }

  // --------------------------------------------------------- workflow service

  function OpenRun(runs: seq<WorkflowRun>): (n: Option<nat>)
    ensures n.Some? ==> n.value < |runs| && runs[n.value].open
    ensures n.None? ==> forall i | 0 <= i < |runs| :: !runs[i].open
  {
    if runs == [] then None
    else if runs[|runs| - 1].open then Some(|runs| - 1)
    else OpenRun(runs[..|runs| - 1])
  }

  /** Starting a workflow whose ID is open returns the open run. */
  function RunToUse(runs: seq<WorkflowRun>): nat {
    if OpenRun(runs).Some? then OpenRun(runs).value else |runs|
  }

  function AfterStart(w: World): seq<WorkflowRun> {
    if OpenRun(w.runs).Some? then w.runs else w.runs + [WorkflowRun(WorkflowId(w.key), true)]
  }

  /** Terminating closes the run named by both IDs, or the open run of the workflow
      if the run ID is empty. */
  predicate Names(status: Status, run: WorkflowRun, n: nat) {
    run.workflowId == status.workflowId && (status.runId == "" || status.runId == RunName(n))
  }

  function AfterTerminate(runs: seq<WorkflowRun>, status: Status): (after: seq<WorkflowRun>)
    ensures |after| == |runs|
    ensures forall n | 0 <= n < |runs| ::
              after[n] == if Names(status, runs[n], n) then runs[n].(open := false) else runs[n]
  {
    seq(|runs|, n requires 0 <= n < |runs| => if Names(status, runs[n], n) then runs[n].(open := false) else runs[n])
  }

  // ------------------------------------------------------------------- steps

  function Step(w: World, a: Action): World
    requires Enabled(w, a)
  {
    match a
    case Get(which) => w.(phase := Got(w.history[which]))
    case Terminate(landed) =>
      w.(runs := if landed then AfterTerminate(w.runs, w.phase.obj.status) else w.runs,
         phase := Terminated(w.phase.obj))
    case DropFinalizer(landed) =>
      var obj, idle := w.phase.obj, w.(phase := Idle);
      if landed && Fresh(w, obj)
      then Store(idle, obj.(meta := obj.meta.(finalizers := obj.meta.finalizers - {FINALIZER})))
      else idle
    case AddFinalizer(landed) =>
      var obj, idle := w.phase.obj, w.(phase := Idle);
      if landed && Fresh(w, obj) && !obj.meta.deleting
      then Store(idle, obj.(meta := obj.meta.(finalizers := obj.meta.finalizers + {FINALIZER})))
      else idle
    case StartWorkflow(ok, landed) =>
      w.(runs := if landed then AfterStart(w) else w.runs,
         phase := if ok then Started(w.phase.obj, WorkflowId(w.key), RunName(RunToUse(w.runs))) else Idle)
    case WriteStatus(landed) =>
      var obj, idle := w.phase.obj, w.(phase := Idle);
      if landed && Fresh(w, obj)
      then Store(idle, obj.(status := Status(w.phase.workflowId, w.phase.runId, map[])))
      else idle
    case Finish => w.(phase := Idle)
    case Crash => w.(phase := Idle)
    case Create(spec, finalizers) =>
      Store(w, Application(Metadata(w.clock, 0, finalizers, false), spec, Status("", "", map[])))
    case Edit(spec, finalizers) =>
      Store(w, w.current.value.(spec := spec, meta := w.current.value.meta.(finalizers := finalizers)))
    case Delete => Store(w, w.current.value.(meta := w.current.value.meta.(deleting := true)))
    case RecordVersions(environment, artifacts) =>
      var status := w.current.value.status;
      Store(w, w.current.value.(status := status.(deployed := Record(status.deployed, environment, artifacts))))
    case WorkflowEnds(which) => w.(runs := w.runs[which := w.runs[which].(open := false)])
  }

  predicate Init(w: World) {
    w.current.None? && w.history == [] && w.runs == [] && w.phase.Idle?
  }

  datatype Trace = Trace(worlds: seq<World>, actions: seq<Action>)

  predicate IsTrace(t: Trace) {
    && |t.worlds| == |t.actions| + 1
    && Init(t.worlds[0])
    && forall i | 0 <= i < |t.actions| ::
         Enabled(t.worlds[i], t.actions[i]) && t.worlds[i + 1] == Step(t.worlds[i], t.actions[i])
  }

  // -------------------------------------------------------------- invariant

  /** The IDs are both empty or name a run that was really started. */
  ghost predicate IdsOk(w: World, status: Status) {
    || (status.workflowId == "" && status.runId == "")
    || (status.workflowId == WorkflowId(w.key) && exists n | 0 <= n < |w.runs| :: status.runId == RunName(n))
  }

  predicate HistoryOk(w: World) {
    && (forall i | 0 <= i < |w.history| ::
          w.history[i].meta.resourceVersion < w.clock && w.history[i].meta.uid < w.clock)
    && (forall i, j | 0 <= i < j < |w.history| :: w.history[i].meta.resourceVersion < w.history[j].meta.resourceVersion)
    && (w.current.Some? ==> w.history != [] && w.history[|w.history| - 1] == w.current.value)
    && (!w.phase.Idle? ==> w.phase.obj in w.history)
  }

  predicate RunsOk(w: World) {
    && (forall n | 0 <= n < |w.runs| :: w.runs[n].workflowId == WorkflowId(w.key))
    && (forall m, n | 0 <= m < n < |w.runs| :: !(w.runs[m].open && w.runs[n].open))
  }

  predicate PhaseOk(w: World) {
    && (w.phase.Terminated? ==> CleansUp(w.phase.obj))
    && (w.phase.Started? ==>
          && FINALIZER in w.phase.obj.meta.finalizers && !w.phase.obj.meta.deleting && Unstarted(w.phase.obj)
          && w.phase.workflowId == WorkflowId(w.key))
  }

  ghost predicate StatusesOk(w: World) {
    && (forall i | 0 <= i < |w.history| :: IdsOk(w, w.history[i].status))
    && (w.phase.Started? ==> IdsOk(w, Status(w.phase.workflowId, w.phase.runId, map[])))
  }

  lemma StoreKeepsHistory(w: World, obj: Application)
    requires HistoryOk(w) && obj.meta.uid <= w.clock
    ensures HistoryOk(Store(w, obj))
  {
    var w' := Store(w, obj);
    assert forall i | 0 <= i < |w.history| :: w'.history[i] == w.history[i];
  }

  lemma FinalizersKeepHistory(w: World, a: Action)
    requires Enabled(w, a) && HistoryOk(w) && (a.DropFinalizer? || a.AddFinalizer?)
    ensures HistoryOk(Step(w, a))
  {
    var obj, idle := w.phase.obj, w.(phase := Idle);
    assert obj in w.history;
    if a.DropFinalizer? {
      StoreKeepsHistory(idle, obj.(meta := obj.meta.(finalizers := obj.meta.finalizers - {FINALIZER})));
    } else {
      StoreKeepsHistory(idle, obj.(meta := obj.meta.(finalizers := obj.meta.finalizers + {FINALIZER})));
    }
  }

  lemma StatusKeepsHistory(w: World, a: Action)
    requires Enabled(w, a) && HistoryOk(w) && a.WriteStatus?
    ensures HistoryOk(Step(w, a))
  {
    assert w.phase.obj in w.history;
    StoreKeepsHistory(w.(phase := Idle), w.phase.obj.(status := Status(w.phase.workflowId, w.phase.runId, map[])));
  }

  lemma OthersKeepHistory(w: World, a: Action)
    requires Enabled(w, a) && HistoryOk(w) && (a.Create? || a.Edit? || a.Delete? || a.RecordVersions?)
    ensures HistoryOk(Step(w, a))
  {
    if a.Create? {
      StoreKeepsHistory(w, Application(Metadata(w.clock, 0, a.finalizers, false), a.spec, Status("", "", map[])));
    } else {
      var app := w.current.value;
      assert w.history[|w.history| - 1].meta.uid < w.clock;
      if a.Edit? {
        StoreKeepsHistory(w, app.(spec := a.spec, meta := app.meta.(finalizers := a.finalizers)));
      } else if a.Delete? {
        StoreKeepsHistory(w, app.(meta := app.meta.(deleting := true)));
      } else {
        var deployed := Record(app.status.deployed, a.environment, a.artifacts);
        StoreKeepsHistory(w, app.(status := app.status.(deployed := deployed)));
      }
    }
  }

  lemma {:induction false} HistoryOkStep(w: World, a: Action)
    requires Enabled(w, a) && HistoryOk(w)
    ensures HistoryOk(Step(w, a))
  {
    if a.DropFinalizer? || a.AddFinalizer? {
      FinalizersKeepHistory(w, a);
    } else if a.WriteStatus? {
      StatusKeepsHistory(w, a);
    } else if a.Create? || a.Edit? || a.Delete? || a.RecordVersions? {
      OthersKeepHistory(w, a);
    }
  }

  lemma RunsOkStep(w: World, a: Action)
    requires Enabled(w, a) && RunsOk(w)
    ensures RunsOk(Step(w, a))
    ensures |Step(w, a).runs| >= |w.runs| && Step(w, a).key == w.key
    ensures forall n | 0 <= n < |w.runs| :: Step(w, a).runs[n].open ==> w.runs[n].open
  {
  }

  lemma StatusesOkStep(w: World, a: Action)
    requires Enabled(w, a) && HistoryOk(w) && RunsOk(w) && PhaseOk(w) && StatusesOk(w)
    ensures StatusesOk(Step(w, a))
  {
    var w' := Step(w, a);
    RunsOkStep(w, a);
    forall i | 0 <= i < |w'.history| ensures IdsOk(w', w'.history[i].status) {
      if i < |w.history| {
        assert w'.history[i] == w.history[i] && IdsOk(w, w.history[i].status);
      }
    }
  }

  lemma PhaseOkStep(w: World, a: Action)
    requires Enabled(w, a) && PhaseOk(w)
    ensures PhaseOk(Step(w, a))
  {
  }

  ghost predicate WorldOk(w: World) {
    HistoryOk(w) && RunsOk(w) && PhaseOk(w) && StatusesOk(w)
  }

  lemma {:induction false} WorldOkStep(w: World, a: Action)
    requires Enabled(w, a) && WorldOk(w)
    ensures WorldOk(Step(w, a)) && Step(w, a).key == w.key
  {
    HistoryOkStep(w, a);
    RunsOkStep(w, a);
    PhaseOkStep(w, a);
    StatusesOkStep(w, a);
  }

  lemma {:induction false} AlwaysOk(t: Trace, i: nat)
    requires IsTrace(t) && i < |t.worlds|
    ensures HistoryOk(t.worlds[i]) && RunsOk(t.worlds[i]) && PhaseOk(t.worlds[i]) && StatusesOk(t.worlds[i])
    ensures t.worlds[i].key == t.worlds[0].key
  {
    if i > 0 {
      AlwaysOk(t, i - 1);
      WorldOkStep(t.worlds[i - 1], t.actions[i - 1]);
    }
  }

  // --------------------------------------------------------------- theorems

  /** Whatever fails or crashes, at most one workflow of the Application is open, and
      the IDs in its status, if any, name a run that exists. */
  lemma AtMostOneOpen(t: Trace, i: nat)
    requires IsTrace(t) && i < |t.worlds|
    ensures var w := t.worlds[i];
            forall m, n | 0 <= m < |w.runs| && 0 <= n < |w.runs| && w.runs[m].open && w.runs[n].open :: m == n
    ensures var w := t.worlds[i];
            w.current.Some? ==> IdsOk(w, w.current.value.status)
  {
    AlwaysOk(t, i);
    var w := t.worlds[i];
    if w.current.Some? { assert IdsOk(w, w.history[|w.history| - 1].status); }
  }

  /** Every run goes back to one step that started it, on a version of the object that
      was stored with the finalizer, not being deleted, and without workflow IDs; and
      no other run was open then. */
  lemma {:induction false} EveryRunWasStarted(t: Trace, i: nat, n: nat) returns (j: nat)
    requires IsTrace(t) && i < |t.worlds| && n < |t.worlds[i].runs|
    ensures j < i && t.actions[j].StartWorkflow? && |t.worlds[j].runs| == n && |t.worlds[j + 1].runs| == n + 1
    ensures var w := t.worlds[j];
            && w.phase.Got? && w.phase.obj in w.history
            && FINALIZER in w.phase.obj.meta.finalizers && !w.phase.obj.meta.deleting && Unstarted(w.phase.obj)
            && forall m | 0 <= m < |w.runs| :: !w.runs[m].open
  {
    if n < |t.worlds[i - 1].runs| {
      j := EveryRunWasStarted(t, i - 1, n);
    } else {
      j := i - 1;
      AlwaysOk(t, j);
      OnlyAStartAddsARun(t.worlds[j], t.actions[j]);
    }
  }

  lemma OnlyAStartAddsARun(w: World, a: Action)
    requires Enabled(w, a) && |Step(w, a).runs| > |w.runs|
    ensures a.StartWorkflow? && |Step(w, a).runs| == |w.runs| + 1
    ensures forall m | 0 <= m < |w.runs| :: !w.runs[m].open
  {
  }

  predicate EndsIn(t: Trace, lo: nat, hi: nat, n: nat) {
    exists m | lo <= m < hi && m < |t.actions| :: t.actions[m] == WorkflowEnds(n)
  }

  lemma RunsWhileTerminated(w: World, a: Action, n: nat)
    requires Enabled(w, a) && w.phase.Terminated? && Step(w, a).phase == w.phase && n < |w.runs|
    ensures |Step(w, a).runs| == |w.runs| && Step(w, a).runs[n].workflowId == w.runs[n].workflowId
    ensures Step(w, a).runs[n].open <==> w.runs[n].open && a != WorkflowEnds(n)
  {
  }

  /** A deletion is only let through after an attempt to terminate the workflow named
      in the status that was read, with no crash in between. A run is still open then
      if and only if it was open before, the attempt failed or the status does not name
      it, and it did not end by itself. */
  lemma {:induction false} TerminateComesFirst(t: Trace, i: nat) returns (j: nat)
    requires IsTrace(t) && i < |t.worlds| && t.worlds[i].phase.Terminated?
    ensures j < i && t.actions[j].Terminate? && t.worlds[j].phase == Got(t.worlds[i].phase.obj)
    ensures forall m | j < m <= i :: t.worlds[m].phase == t.worlds[i].phase
    ensures |t.worlds[i].runs| == |t.worlds[j].runs|
    ensures forall n: nat | n < |t.worlds[i].runs| ::
              t.worlds[i].runs[n].workflowId == t.worlds[j].runs[n].workflowId &&
              (t.worlds[i].runs[n].open <==>
               && t.worlds[j].runs[n].open
               && !(&& t.actions[j].landed
                    && t.worlds[j].runs[n].workflowId == t.worlds[i].phase.obj.status.workflowId
                    && (|| t.worlds[i].phase.obj.status.runId == ""
                        || t.worlds[i].phase.obj.status.runId == RunName(n)))
               && !EndsIn(t, j + 1, i, n))
  {
    if t.actions[i - 1].Terminate? {
      j := i - 1;
    } else {
      j := TerminateComesFirst(t, i - 1);
      forall n: nat | n < |t.worlds[i - 1].runs|
        ensures |t.worlds[i].runs| == |t.worlds[i - 1].runs|
        ensures t.worlds[i].runs[n].workflowId == t.worlds[i - 1].runs[n].workflowId
        ensures t.worlds[i].runs[n].open <==> t.worlds[i - 1].runs[n].open && t.actions[i - 1] != WorkflowEnds(n)
      {
        RunsWhileTerminated(t.worlds[i - 1], t.actions[i - 1], n);
      }
      RunsWhileTerminatedCount(t.worlds[i - 1], t.actions[i - 1]);
    }
  }

  lemma RunsWhileTerminatedCount(w: World, a: Action)
    requires Enabled(w, a) && w.phase.Terminated? && Step(w, a).phase == w.phase
    ensures |Step(w, a).runs| == |w.runs|
  {
  }

  /** A terminate that lands closes the run whose two IDs the object carries, and no other. */
  lemma TerminateClosesTheNamedRun(w: World, n: nat)
    requires Enabled(w, Terminate(true)) && RunsOk(w) && n < |w.runs|
    requires w.phase.obj.status.workflowId == "reconcile-" + w.key.namespace + "/" + w.key.name
    requires w.phase.obj.status.runId == RunName(n)
    ensures Step(w, Terminate(true)).runs == w.runs[n := w.runs[n].(open := false)]
  {
    WorkflowIdIs(w.key);
    forall m: nat | m < |w.runs| && m != n ensures RunName(m) != RunName(n) {
      assert |RunName(m)| != |RunName(n)|;
    }
    assert RunName(n) != "";
  }

  predicate NoneOpen(runs: seq<WorkflowRun>) {
    forall n | 0 <= n < |runs| :: !runs[n].open
  }

  /** Run `n` is open, and no other. */
  predicate OnlyOpen(runs: seq<WorkflowRun>, n: nat) {
    n < |runs| && forall m | 0 <= m < |runs| :: runs[m].open <==> m == n
  }

  /** If the only run that can be open is the one whose IDs the deleted object carries, and
      the terminate lands, no run is open when the finalizer goes. */
  lemma DeletionStopsTheRun(t: Trace, i: nat) returns (j: nat)
    requires IsTrace(t) && i < |t.actions| && t.actions[i].DropFinalizer?
    ensures j < i && t.actions[j].Terminate? && t.worlds[j].phase == Got(t.worlds[i].phase.obj)
    ensures var status, key := t.worlds[i].phase.obj.status, t.worlds[0].key;
            && t.actions[j].landed
            && status.workflowId == "reconcile-" + key.namespace + "/" + key.name
            && (forall n | 0 <= n < |t.worlds[j].runs| && t.worlds[j].runs[n].open :: status.runId == RunName(n)) ==>
              NoneOpen(t.worlds[i + 1].runs)
  {
    j := TerminateComesFirst(t, i);
    AlwaysOk(t, j);
    WorkflowIdIs(t.worlds[0].key);
    assert t.worlds[i + 1].runs == t.worlds[i].runs;
  }

  lemma StartHandsOut(w: World, a: Action) returns (n: nat)
    requires Enabled(w, a) && RunsOk(w) && a.StartWorkflow? && a.ok
    ensures Step(w, a).phase == Started(w.phase.obj, "reconcile-" + w.key.namespace + "/" + w.key.name, RunName(n))
    ensures OnlyOpen(Step(w, a).runs, n)
  {
    n := RunToUse(w.runs);
    WorkflowIdIs(w.key);
  }

  lemma StartHandsOutAt(t: Trace, j: nat) returns (n: nat)
    requires IsTrace(t) && j < |t.actions| && t.actions[j].StartWorkflow? && t.actions[j].ok
    ensures var key := t.worlds[0].key;
            t.worlds[j + 1].phase ==
            Started(t.worlds[j].phase.obj, "reconcile-" + key.namespace + "/" + key.name, RunName(n))
    ensures OnlyOpen(t.worlds[j + 1].runs, n)
  {
    AlwaysOk(t, j);
    n := StartHandsOut(t.worlds[j], t.actions[j]);
  }

  /** What the controller is about to store was handed out by one start, with no crash in
      between, and names the run that was open right after it. */
  lemma {:induction false} StartComesFirst(t: Trace, i: nat) returns (j: nat, n: nat)
    requires IsTrace(t) && i < |t.worlds| && t.worlds[i].phase.Started?
    ensures j < i && t.actions[j].StartWorkflow? && t.worlds[j].phase == Got(t.worlds[i].phase.obj)
    ensures forall m | j < m <= i :: t.worlds[m].phase == t.worlds[i].phase
    ensures OnlyOpen(t.worlds[j + 1].runs, n)
    ensures t.worlds[i].phase.runId == RunName(n)
    ensures t.worlds[i].phase.workflowId == "reconcile-" + t.worlds[0].key.namespace + "/" + t.worlds[0].key.name
  {
    if t.actions[i - 1].StartWorkflow? {
      j := i - 1;
      n := StartHandsOutAt(t, j);
    } else {
      j, n := StartComesFirst(t, i - 1);
    }
  }

  /** A status write that goes through stores exactly these IDs. */
  lemma StoredIdsNameTheRun(t: Trace, i: nat) returns (j: nat, n: nat)
    requires IsTrace(t) && i < |t.actions| && t.actions[i] == WriteStatus(true)
    requires Fresh(t.worlds[i], t.worlds[i].phase.obj)
    ensures j < i && t.actions[j].StartWorkflow? && OnlyOpen(t.worlds[j + 1].runs, n)
    ensures t.worlds[i + 1].current.Some?
    ensures var key := t.worlds[0].key;
            t.worlds[i + 1].current.value.status ==
            Status("reconcile-" + key.namespace + "/" + key.name, RunName(n), map[])
  {
    AlwaysOk(t, i);
    j, n := StartComesFirst(t, i);
  }

  predicate ByController(a: Action) {
    a.Get? || a.Terminate? || a.DropFinalizer? || a.AddFinalizer? || a.StartWorkflow? || a.WriteStatus? || a.Finish?
  }

  /** The controller never touches the spec or anybody else's finalizer: it adds or removes
      its own, and writes the status. The object goes only with its last finalizer. */
  lemma ControllerKeepsTheRest(t: Trace, i: nat)
    requires IsTrace(t) && i < |t.actions| && ByController(t.actions[i]) && t.worlds[i].current.Some?
    ensures t.worlds[i + 1].current.None? ==>
              && t.actions[i] == DropFinalizer(true)
              && t.worlds[i].current.value.meta.finalizers == {FINALIZER}
    ensures t.worlds[i + 1].current.Some? ==>
              var was, now := t.worlds[i].current.value, t.worlds[i + 1].current.value;
              && now.spec == was.spec && now.meta.uid == was.meta.uid && now.meta.deleting == was.meta.deleting
              && now.meta.finalizers - {FINALIZER} == was.meta.finalizers - {FINALIZER}
              && (now.meta.finalizers != was.meta.finalizers ==>
                    t.actions[i].DropFinalizer? || t.actions[i].AddFinalizer?)
              && (now.status != was.status ==> t.actions[i] == WriteStatus(true))
  {
    AlwaysOk(t, i);
    FreshIsCurrent(t.worlds[i]);
    if t.actions[i].DropFinalizer? { DropLeavesOthers(t.worlds[i]); }
  }

  lemma DropLeavesOthers(w: World)
    requires HistoryOk(w) && PhaseOk(w) && w.phase.Terminated?
    ensures var finalizers := w.phase.obj.meta.finalizers;
            finalizers - {FINALIZER} == {} ==> finalizers == {FINALIZER}
  {
    var finalizers := w.phase.obj.meta.finalizers;
    assert finalizers == (finalizers - {FINALIZER}) + {FINALIZER};
  }

  /** An object that is being deleted stays so, and gains no finalizer. */
  lemma DeletionIsFinal(t: Trace, i: nat)
    requires IsTrace(t) && i < |t.actions| && t.worlds[i].current.Some? && t.worlds[i + 1].current.Some?
    requires t.worlds[i].current.value.meta.deleting
    ensures t.worlds[i + 1].current.value.meta.deleting
    ensures t.worlds[i + 1].current.value.meta.finalizers <= t.worlds[i].current.value.meta.finalizers
  {
    AlwaysOk(t, i);
    FreshIsCurrent(t.worlds[i]);
  }

  /** An object that carries the finalizer keeps it, and keeps existing, except by
      the controller's own removal after a terminate attempt. */
  lemma FinalizerGoesOnlyAfterTerminate(t: Trace, i: nat) returns (j: nat)
    requires IsTrace(t) && i < |t.actions|
    requires t.worlds[i].current.Some? && FINALIZER in t.worlds[i].current.value.meta.finalizers
    requires t.worlds[i + 1].current.None? || FINALIZER !in t.worlds[i + 1].current.value.meta.finalizers
    ensures t.actions[i].DropFinalizer?
    ensures t.worlds[i].phase == Terminated(t.worlds[i].current.value) && t.worlds[i].current.value.meta.deleting
    ensures j < i && t.actions[j].Terminate? && t.worlds[j].phase == Got(t.worlds[i].current.value)
  {
    var w := t.worlds[i];
    AlwaysOk(t, i);
    FreshIsCurrent(w);
    j := TerminateComesFirst(t, i);
  }

  /** A snapshot with the current version IS the current object. */
  lemma FreshIsCurrent(w: World)
    requires HistoryOk(w)
    ensures !w.phase.Idle? && Fresh(w, w.phase.obj) ==> w.phase.obj == w.current.value
  {
    if !w.phase.Idle? && Fresh(w, w.phase.obj) {
      var k :| 0 <= k < |w.history| && w.history[k] == w.phase.obj;
      assert w.history[|w.history| - 1] == w.current.value;
    }
  }

  // ------------------------------------------------------ recorded versions

  /** Nothing of `was` is missing from `now`. */
  predicate KeepsEntries(was: Deployed, now: Deployed) {
    forall e | e in was :: e in now && was[e].Keys <= now[e].Keys
  }

  predicate HasEntry(deployed: Deployed) {
    exists e :: e in deployed
  }

  /** Exactly the controller's first status write loses recorded versions: a step on
      one incarnation of the object drops something if and only if it is a status
      write that goes through on an object with something recorded. */
  lemma LosesEntriesIff(t: Trace, i: nat)
    requires IsTrace(t) && i < |t.actions|
    requires t.worlds[i].current.Some? && t.worlds[i + 1].current.Some?
    ensures var was, now := t.worlds[i].current.value, t.worlds[i + 1].current.value;
            && (!KeepsEntries(was.status.deployed, now.status.deployed) <==>
                && t.actions[i] == WriteStatus(true)
                && Fresh(t.worlds[i], t.worlds[i].phase.obj)
                && HasEntry(was.status.deployed))
            && (!KeepsEntries(was.status.deployed, now.status.deployed) ==> Unstarted(was))
  {
    var w, a := t.worlds[i], t.actions[i];
    AlwaysOk(t, i);
    FreshIsCurrent(w);
    if a.RecordVersions? {
      RecordLosesNothing(w.current.value.status.deployed, a.environment, a.artifacts);
    }
  }

  /** The same incarnation, with the same workflow IDs and nothing lost. */
  predicate StillOwned(uid: nat, status: Status, w: World) {
    w.current.Some? && w.current.value.meta.uid == uid ==>
      && w.current.value.status.workflowId == status.workflowId
      && w.current.value.status.runId == status.runId
      && KeepsEntries(status.deployed, w.current.value.status.deployed)
  }

  lemma StillOwnedStep(uid: nat, status: Status, w: World, a: Action)
    requires Enabled(w, a) && HistoryOk(w) && uid < w.clock
    requires status.workflowId != "" || status.runId != ""
    requires PhaseOk(w) && StillOwned(uid, status, w)
    ensures StillOwned(uid, status, Step(w, a)) && uid < Step(w, a).clock
  {
    FreshIsCurrent(w);
    if a.RecordVersions? && w.current.value.meta.uid == uid {
      RecordLosesNothing(w.current.value.status.deployed, a.environment, a.artifacts);
    }
  }

  /** Once the workflow IDs are recorded they never change while the object lives, and
      from then on no recorded version is ever lost. */
  lemma {:induction false} IdsArePermanent(t: Trace, i: nat, j: nat)
    requires IsTrace(t) && i <= j < |t.worlds| && t.worlds[i].current.Some? && !Unstarted(t.worlds[i].current.value)
    ensures StillOwned(t.worlds[i].current.value.meta.uid, t.worlds[i].current.value.status, t.worlds[j])
    ensures t.worlds[i].current.value.meta.uid < t.worlds[j].clock
  {
    AlwaysOk(t, i);
    if i == j {
      assert t.worlds[i].history[|t.worlds[i].history| - 1] == t.worlds[i].current.value;
    } else {
      IdsArePermanent(t, i, j - 1);
      StillOwnedNext(t, j - 1, t.worlds[i].current.value.meta.uid, t.worlds[i].current.value.status);
    }
  }

  lemma StillOwnedNext(t: Trace, j: nat, uid: nat, status: Status)
    requires IsTrace(t) && j < |t.actions| && uid < t.worlds[j].clock
    requires status.workflowId != "" || status.runId != ""
    requires StillOwned(uid, status, t.worlds[j])
    ensures StillOwned(uid, status, t.worlds[j + 1]) && uid < t.worlds[j + 1].clock
  {
    AlwaysOk(t, j);
    StillOwnedStep(uid, status, t.worlds[j], t.actions[j]);
  }

  // ------------------------------------------------------------- restarts

  /** The object read, if any, carries workflow IDs. */
  predicate KnowsIds(w: World) {
    w.phase.Idle? || !Unstarted(w.phase.obj) || w.phase.Terminated?
  }

  lemma KnowsIdsStep(w: World, a: Action)
    requires Enabled(w, a) && KnowsIds(w)
    requires a.Get? ==> !Unstarted(w.history[a.which])
    ensures KnowsIds(Step(w, a)) && !a.StartWorkflow?
    ensures |Step(w, a).runs| == |w.runs|
  {
  }

  /** Once the IDs are stored, a workflow is started for the object only on a stale read,
      whose status write is then refused. */
  lemma StartedOnlyFromStaleRead(t: Trace, i: nat, j: nat)
    requires IsTrace(t) && i <= j < |t.actions| && t.actions[j].StartWorkflow?
    requires t.worlds[i].current.Some? && !Unstarted(t.worlds[i].current.value)
    requires t.worlds[j].current.Some? && t.worlds[j].current.value.meta.uid == t.worlds[i].current.value.meta.uid
    ensures t.worlds[j].phase.obj != t.worlds[j].current.value && !Fresh(t.worlds[j], t.worlds[j].phase.obj)
  {
    IdsArePermanent(t, i, j);
    AlwaysOk(t, j);
    FreshIsCurrent(t.worlds[j]);
  }

  lemma ClosedStaysClosedNext(t: Trace, i: nat, j: nat)
    requires IsTrace(t) && i <= j < |t.actions| && KnowsIds(t.worlds[j])
    requires t.worlds[i].current.Some? && !Unstarted(t.worlds[i].current.value)
    requires t.actions[j].Get? ==>
               && t.worlds[j].current == Some(t.worlds[j].history[t.actions[j].which])
               && t.worlds[j].current.value.meta.uid == t.worlds[i].current.value.meta.uid
    ensures KnowsIds(t.worlds[j + 1]) && |t.worlds[j + 1].runs| == |t.worlds[j].runs|
    ensures forall n | 0 <= n < |t.worlds[j].runs| :: t.worlds[j + 1].runs[n].open ==> t.worlds[j].runs[n].open
  {
    IdsArePermanent(t, i, j);
    AlwaysOk(t, j);
    KnowsIdsStep(t.worlds[j], t.actions[j]);
    RunsOkStep(t.worlds[j], t.actions[j]);
  }

  /** A workflow that has closed is not restarted: while every read is current and of the
      same incarnation, no run is added and none reopens, whatever closed the last one. */
  lemma {:induction false} ClosedStaysClosed(t: Trace, i: nat, j: nat)
    requires IsTrace(t) && i <= j < |t.worlds| && t.worlds[i].phase.Idle?
    requires t.worlds[i].current.Some? && !Unstarted(t.worlds[i].current.value)
    requires forall m | i <= m < j && t.actions[m].Get? ::
               && t.worlds[m].current == Some(t.worlds[m].history[t.actions[m].which])
               && t.worlds[m].current.value.meta.uid == t.worlds[i].current.value.meta.uid
    ensures KnowsIds(t.worlds[j]) && |t.worlds[j].runs| == |t.worlds[i].runs|
    ensures forall n | 0 <= n < |t.worlds[i].runs| :: t.worlds[j].runs[n].open ==> t.worlds[i].runs[n].open
  {
    if i < j {
      ClosedStaysClosed(t, i, j - 1);
      ClosedStaysClosedNext(t, i, j - 1);
    }
  }

  // ------------------------------------------------------------- concrete

  lemma Extend(t: Trace, a: Action) returns (longer: Trace)
    requires IsTrace(t) && Enabled(t.worlds[|t.actions|], a)
    ensures IsTrace(longer) && longer.actions == t.actions + [a] && |longer.worlds| == |t.worlds| + 1
    ensures longer.worlds[|t.actions|] == t.worlds[|t.actions|]
    ensures longer.worlds[|longer.actions|] == Step(t.worlds[|t.actions|], a)
  {
    longer := Trace(t.worlds + [Step(t.worlds[|t.actions|], a)], t.actions + [a]);
  }

  function Last(t: Trace): World
    requires |t.worlds| > 0
  {
    t.worlds[|t.worlds| - 1]
  }

  function Version(spec: Spec, resourceVersion: nat, finalizers: set<string>, deployed: Deployed): Application {
    Application(Metadata(0, resourceVersion, finalizers, false), spec, Status("", "", deployed))
  }

  lemma ProtectedObject(key: ObjectKey, spec: Spec) returns (t: Trace)
    ensures IsTrace(t) && Crash !in t.actions
    ensures var v0, v1 := Version(spec, 0, {}, map[]), Version(spec, 1, {FINALIZER}, map[]);
            Last(t) == World(key, Some(v1), [v0, v1], 2, [], Idle)
  {
    var v0 := Version(spec, 0, {}, map[]);
    t := Trace([World(key, None, [], 0, [], Idle)], []);
    t := Extend(t, Create(spec, {}));
    assert Last(t) == World(key, Some(v0), [v0], 1, [], Idle);
    t := Extend(t, Get(0));
    t := Extend(t, AddFinalizer(true));
    var v1 := Version(spec, 1, {FINALIZER}, map[]);
    assert v0.meta.finalizers + {FINALIZER} == {FINALIZER};
    assert Last(t).current == Some(v1) && Last(t).history == [v0, v1];
  }

  /** The object once its workflow IDs are stored. */
  function Named(key: ObjectKey, spec: Spec, resourceVersion: nat, deleting: bool): Application {
    Application(Metadata(0, resourceVersion, {FINALIZER}, deleting), spec, Status(WorkflowId(key), RunName(0), map[]))
  }

  lemma StartedOnce(key: ObjectKey, spec: Spec) returns (t: Trace)
    ensures IsTrace(t) && Crash !in t.actions
    ensures var v0, v1 := Version(spec, 0, {}, map[]), Version(spec, 1, {FINALIZER}, map[]);
            var v2 := Named(key, spec, 2, false);
            Last(t) == World(key, Some(v2), [v0, v1, v2], 3, [WorkflowRun(WorkflowId(key), true)], Idle)
  {
    var v1 := Version(spec, 1, {FINALIZER}, map[]);
    t := ProtectedObject(key, spec);
    t := Extend(t, Get(1));
    t := Extend(t, StartWorkflow(true, true));
    assert Last(t).phase == Started(v1, WorkflowId(key), RunName(0));
    t := Extend(t, WriteStatus(true));
  }

  lemma EndedOnce(key: ObjectKey, spec: Spec) returns (t: Trace)
    ensures IsTrace(t) && Crash !in t.actions
    ensures var v0, v1 := Version(spec, 0, {}, map[]), Version(spec, 1, {FINALIZER}, map[]);
            var v2 := Named(key, spec, 2, false);
            Last(t) == World(key, Some(v2), [v0, v1, v2], 3, [WorkflowRun(WorkflowId(key), false)], Idle)
  {
    t := StartedOnce(key, spec);
    t := Extend(t, WorkflowEnds(0));
    assert Last(t).runs == [WorkflowRun(WorkflowId(key), false)];
  }

  lemma StartedTwice(key: ObjectKey, spec: Spec) returns (t: Trace)
    ensures IsTrace(t) && Crash !in t.actions
    ensures var v0, v1 := Version(spec, 0, {}, map[]), Version(spec, 1, {FINALIZER}, map[]);
            var v2 := Named(key, spec, 2, false);
            Last(t) == World(key, Some(v2), [v0, v1, v2], 3,
                             [WorkflowRun(WorkflowId(key), false), WorkflowRun(WorkflowId(key), true)], Idle)
  {
    var v1 := Version(spec, 1, {FINALIZER}, map[]);
    t := EndedOnce(key, spec);
    t := Extend(t, Get(1));
    t := Extend(t, StartWorkflow(true, true));
    assert Last(t).phase == Started(v1, WorkflowId(key), RunName(1));
    t := Extend(t, WriteStatus(true));
  }

  /** A stale read can leave a run that deletion does not close: the first workflow ends,
      a read of the version without IDs starts another one, whose IDs are never stored,
      and then the object is deleted. Terminating succeeds, but it closes the run the
      status names, and the other one outlives its object. */
  lemma RunOutlivesObject(key: ObjectKey, spec: Spec) returns (t: Trace)
    ensures IsTrace(t) && Crash !in t.actions && Terminate(true) in t.actions
    ensures Last(t).current.None? && |Last(t).runs| == 2 && Last(t).runs[1].open
  {
    var v3 := Named(key, spec, 3, true);
    t := StartedTwice(key, spec);
    t := Extend(t, Delete);
    assert Last(t).current == Some(v3) && Last(t).history[3] == v3;
    t := Extend(t, Get(3));
    assert |RunName(0)| != |RunName(1)|;
    t := Extend(t, Terminate(true));
    assert t.actions[|t.actions| - 1] == Terminate(true);
    assert Last(t).runs[1].open && Last(t).phase == Terminated(v3);
    t := Extend(t, DropFinalizer(true));
    assert v3.meta.finalizers - {FINALIZER} == {};
  }

  lemma CrashAfterStart(key: ObjectKey, spec: Spec) returns (t: Trace)
    ensures IsTrace(t) && Crash in t.actions
    ensures var v0, v1 := Version(spec, 0, {}, map[]), Version(spec, 1, {FINALIZER}, map[]);
            Last(t) == World(key, Some(v1), [v0, v1], 2, [WorkflowRun(WorkflowId(key), true)], Idle)
  {
    t := ProtectedObject(key, spec);
    t := Extend(t, Get(1));
    t := Extend(t, StartWorkflow(true, true));
    t := Extend(t, Crash);
    assert t.actions[|t.actions| - 1] == Crash;
  }

  lemma RecordedAfterCrash(key: ObjectKey, spec: Spec, chart: Artifact) returns (t: Trace)
    ensures IsTrace(t) && Crash in t.actions
    ensures var v0, v1 := Version(spec, 0, {}, map[]), Version(spec, 1, {FINALIZER}, map[]);
            var v2 := Version(spec, 2, {FINALIZER}, map["staging" := map[chart.name := chart]]);
            Last(t) == World(key, Some(v2), [v0, v1, v2], 3, [WorkflowRun(WorkflowId(key), true)], Idle)
  {
    var deployed: Deployed := map["staging" := map[chart.name := chart]];
    assert Enter(map[], [chart][..0]) == map[];
    assert Enter(map[], [chart]) == map[chart.name := chart];
    assert Record(map[], "staging", [chart]) == deployed;
    t := CrashAfterStart(key, spec);
    t := Extend(t, RecordVersions("staging", [chart]));
  }

  /** The loss does happen: the process crashes between starting the workflow and
      writing the status, the workflow records a version, and the controller's second
      attempt, which is handed the same open run, overwrites it. */
  lemma CrashLosesEntries(key: ObjectKey, spec: Spec, chart: Artifact) returns (t: Trace, i: nat)
    ensures IsTrace(t) && i < |t.actions| && Crash in t.actions
    ensures t.worlds[i].current.Some? && t.worlds[i + 1].current.Some?
    ensures t.worlds[i].current.value.status.deployed == map["staging" := map[chart.name := chart]]
    ensures t.worlds[i + 1].current.value.status.deployed == map[]
    ensures t.worlds[i + 1].current.value.status.runId == RunName(0)
  {
    var v2 := Version(spec, 2, {FINALIZER}, map["staging" := map[chart.name := chart]]);
    t := RecordedAfterCrash(key, spec, chart);
    t := Extend(t, Get(2));
    t := Extend(t, StartWorkflow(true, true));
    assert Last(t).phase == Started(v2, WorkflowId(key), RunName(0));
    i := |t.actions|;
    t := Extend(t, WriteStatus(true));
  }

  // ------------------------------------------------------- one reconciliation

  /** The faults one `Reconcile` call meets: which stored version its cached read
      returns (`None`: not found or an error), and whether each call takes effect
      and reports success. */
  datatype Faults = Faults(
    read: Option<nat>,
    notFound: bool,
    terminate: bool,
    update: bool,
    startOk: bool,
    startLanded: bool,
    statusUpdate: bool)

  datatype Result = Finished | Requeued | Errored

  /** `w` becomes `after` by these steps. */
  ghost predicate Executes(w: World, actions: seq<Action>, after: World)
    decreases |actions|
  {
    if actions == [] then w == after
    else Enabled(w, actions[0]) && Executes(Step(w, actions[0]), actions[1..], after)
  }

  /** The step has the outcome these faults prescribe; a crash is none of them. */
  predicate Meets(a: Action, f: Faults) {
    match a
    case Get(which) => f.read == Some(which)
    case Terminate(landed) => landed == f.terminate
    case DropFinalizer(landed) => landed == f.update
    case AddFinalizer(landed) => landed == f.update
    case StartWorkflow(ok, landed) => ok == f.startOk && landed == f.startLanded
    case WriteStatus(landed) => landed == f.statusUpdate
    case Finish => true
    case _ => false
  }

  class ApplicationReconciler {
    const key: ObjectKey
    var current: Option<Application>
    var history: seq<Application>
    var clock: nat
    var runs: seq<WorkflowRun>

    constructor (key: ObjectKey)
      ensures this.key == key && Init(View())
    {
      this.key := key;
      current, history, clock, runs := None, [], 0, [];
    }

    /** The world between two reconciliations. */
    ghost function View(): World
      reads this
    {
      World(key, current, history, clock, runs, Idle)
    }

    /** An API server write based on `read`. */
    method Update(read: Application, obj: Application, landed: bool) returns (ok: bool)
      modifies this
      ensures ok == (&& landed && Fresh(old(View()), read)
                     && (read.meta.deleting ==> obj.meta.finalizers <= read.meta.finalizers))
      ensures View() == if ok then Store(old(View()), obj) else old(View())
    {
      ok := false;
      if landed && current.Some? && current.value.meta.resourceVersion == read.meta.resourceVersion
        && (!read.meta.deleting || obj.meta.finalizers <= read.meta.finalizers) {
        ok := true;
        if obj.meta.deleting && obj.meta.finalizers == {} {
          current := None;
        } else {
          var stored := obj.(meta := obj.meta.(resourceVersion := clock));
          current, history := Some(stored), history + [stored];
        }
        clock := clock + 1;
      }
    }

    method TerminateWorkflow(status: Status, landed: bool)
      modifies this
      ensures View() == old(View()).(runs := if landed then AfterTerminate(old(runs), status) else old(runs))
    {
      if landed {
        var i := 0;
        ghost var was := runs;
        while i < |runs|
          invariant 0 <= i <= |runs| == |was|
          invariant forall n | 0 <= n < i ::
            runs[n] == if Names(status, was[n], n) then was[n].(open := false) else was[n]
          invariant forall n | i <= n < |runs| :: runs[n] == was[n]
          invariant View() == old(View()).(runs := runs)
        {
          if Names(status, runs[i], i) {
            runs := runs[i := runs[i].(open := false)];
          }
          i := i + 1;
        }
        assert runs == AfterTerminate(was, status);
      }
    }

    method StartReconcilerWorkflow(ok: bool, landed: bool) returns (info: Option<(string, string)>)
      requires ok ==> landed
      modifies this
      ensures info == if ok then Some((WorkflowId(key), RunName(RunToUse(old(runs))))) else None
      ensures View() == old(View()).(runs := if landed then AfterStart(old(View())) else old(runs))
    {
      var n := RunToUse(runs);
      if landed && n == |runs| {
        runs := runs + [WorkflowRun(WorkflowId(key), true)];
      }
      info := if ok then Some((WorkflowId(key), RunName(n))) else None;
    }

    /** The deletion branch: a failed terminate is only logged. */
    method CleanUp(obj: Application, f: Faults) returns (ok: bool, ghost steps: seq<Action>)
      requires CleansUp(obj)
      modifies this
      ensures steps == [Terminate(f.terminate), DropFinalizer(f.update)]
      ensures Executes(old(View()).(phase := Got(obj)), steps, View())
      ensures ok <==> View().clock > old(View()).clock
    {
      TerminateWorkflow(obj.status, f.terminate);
      ok := Update(obj, obj.(meta := obj.meta.(finalizers := obj.meta.finalizers - {FINALIZER})), f.update);
      steps := [Terminate(f.terminate), DropFinalizer(f.update)];
      TwoSteps(old(View()).(phase := Got(obj)), steps, View());
    }

    method Protect(obj: Application, f: Faults) returns (ok: bool, ghost steps: seq<Action>)
      requires FINALIZER !in obj.meta.finalizers
      modifies this
      ensures steps == [AddFinalizer(f.update)]
      ensures Executes(old(View()).(phase := Got(obj)), steps, View())
      ensures ok <==> View().clock > old(View()).clock
    {
      ok := Update(obj, obj.(meta := obj.meta.(finalizers := obj.meta.finalizers + {FINALIZER})), f.update);
      steps := [AddFinalizer(f.update)];
      OneStep(old(View()).(phase := Got(obj)), steps, View());
    }

    method StartAndRecord(obj: Application, f: Faults) returns (ok: bool, ghost steps: seq<Action>)
      requires f.startOk ==> f.startLanded
      requires FINALIZER in obj.meta.finalizers && !obj.meta.deleting && Unstarted(obj)
      modifies this
      ensures steps ==
        [StartWorkflow(f.startOk, f.startLanded)] + if f.startOk then [WriteStatus(f.statusUpdate)] else []
      ensures Executes(old(View()).(phase := Got(obj)), steps, View())
      ensures ok <==> View().clock > old(View()).clock
    {
      var info := StartReconcilerWorkflow(f.startOk, f.startLanded);
      steps := [StartWorkflow(f.startOk, f.startLanded)];
      ok := false;
      if info.None? {
        OneStep(old(View()).(phase := Got(obj)), steps, View());
      } else {
        ok := Update(obj, obj.(status := Status(info.value.0, info.value.1, map[])), f.statusUpdate);
        steps := steps + [WriteStatus(f.statusUpdate)];
        TwoSteps(old(View()).(phase := Got(obj)), steps, View());
      }
    }

    /** What follows a successful read. */
    method Act(obj: Application, f: Faults) returns (result: Result, ghost steps: seq<Action>)
      requires f.startOk ==> f.startLanded
      modifies this
      ensures Executes(old(View()).(phase := Got(obj)), steps, View())
      ensures steps != [] && forall a | a in steps :: Meets(a, f) && !a.Get?
      ensures result.Requeued? <==> AddFinalizer(f.update) in steps && View().clock > old(View()).clock
      ensures result.Finished? <==>
        Finish in steps || (AddFinalizer(f.update) !in steps && View().clock > old(View()).clock)
    {
      var ok;
      if obj.meta.deleting && FINALIZER in obj.meta.finalizers {
        ok, steps := CleanUp(obj, f);
        result := if ok then Finished else Errored;
      } else if FINALIZER !in obj.meta.finalizers {
        ok, steps := Protect(obj, f);
        result := if ok then Requeued else Errored;
      } else if obj.status.workflowId == "" && obj.status.runId == "" {
        ok, steps := StartAndRecord(obj, f);
        result := if ok then Finished else Errored;
      } else {
        steps := [Finish];
        OneStep(old(View()).(phase := Got(obj)), steps, View());
        result := Finished;
      }
    }

    /** One uninterrupted reconciliation performs steps of the machine and nothing
        else; `steps` are the ones it took. */
    method Reconcile(f: Faults) returns (result: Result, ghost steps: seq<Action>)
      requires f.startOk ==> f.startLanded
      requires f.read.Some? ==> f.read.value < |history|
      modifies this
      ensures Executes(old(View()), steps, View())
      ensures f.read.None? ==> steps == []
      ensures f.read.Some? ==> |steps| >= 2 && steps[0] == Get(f.read.value)
      ensures forall a | a in steps :: Meets(a, f)
      ensures result.Requeued? <==> AddFinalizer(f.update) in steps && View().clock > old(View()).clock
      ensures f.read.None? ==> result == if f.notFound then Finished else Errored
      ensures f.read.Some? ==>
        (result.Finished? <==>
         Finish in steps || (AddFinalizer(f.update) !in steps && View().clock > old(View()).clock))
    {
      if f.read.None? {
        return (if f.notFound then Finished else Errored), [];
      }
      ghost var rest;
      result, rest := Act(history[f.read.value], f);
      steps := [Get(f.read.value)] + rest;
      assert steps[1..] == rest;
    }
  }

  lemma OneStep(w: World, actions: seq<Action>, after: World)
    requires |actions| == 1 && Enabled(w, actions[0])
    requires after == Step(w, actions[0])
    ensures Executes(w, actions, after)
  {
    assert actions[1..] == [];
  }

  lemma TwoSteps(w: World, actions: seq<Action>, after: World)
    requires |actions| == 2 && Enabled(w, actions[0]) && Enabled(Step(w, actions[0]), actions[1])
    requires after == Step(Step(w, actions[0]), actions[1])
    ensures Executes(w, actions, after)
  {
    assert actions[1..][1..] == [];
  }
}
