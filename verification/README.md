# Verified model of the application operator

The operator deploys an Application to its environments. A controller keeps one
`Reconcile` workflow open per Application. The workflow runs endless rounds: each
round starts one workflow per environment, each of these one workflow per placement,
and a placement compares the deployed Helm release with what the spec asks for,
passes its gates and pushes. An environment then records the versions it deployed in
the Application's status, and the DependsOn gates of other environments read that
record. Values of several artifacts are layered by a deep merge.

This project models the three parts of that design and proves what they guarantee.

## Files

| files | content |
|---|---|
| `Values`, `HeapMaps` | the deep merge and its fold as functions on trees, and the loops themselves on mutable shared maps |
| `Api`, `Artifacts`, `Placements` | the Application type and the selection loops |
| `Helm`, `Recording`, `Futures` | diff and push on a release store, status recording and checking on an API server, and the selector loops |
| `Protocol`, `Invariants` | the promotion protocol as a machine of atomic steps under any interleaving, and what its reachable states keep |
| `Promotion`, `Order`, `FanIn`, `Effects`, `Serial`, `Termination`, `Truth` | theorems over all runs: safety, event order, failures, what pushes release, concurrent recording, the round loop and its bounds, when a record is true |
| `Convergence`, `Progress`, `EveryRound` | what undisturbed rounds achieve, exactly when, and after how many rounds under every schedule |
| `Workflows` | the sequential `ReconcilePlacement` and `DoCheck`, proved to be paths of the machine |
| `Scenes`, `Witness`, `SameVersion`, `Stall`, `Nginx` | concrete runs that show which hypotheses are needed; the shipped example meets all conditions on specs |
| `Controller` | the controller as a machine with crashes and stale reads, and as an imperative class |

Code that changes something step by step is a method with the source's loops and
early returns, proved against a specification function; the theorems are about these
functions. The workflows run concurrently, so they are a step relation: `Step` gives
the next state for an enabled action and a run is any sequence of enabled actions.

## How a run is read

An action is one decision of a workflow or one activity. Activities may fail. A push
may fail although it landed; a write of the status goes through only if the object has
the resource version that was read, and takes a new version only if it changes something. `External` lets anybody create, edit, delete or recreate any Application at
any time (only the operator writes recorded versions, everybody else keeps or empties
them), `Drift` lets anybody change any release, `Terminate` and `Start` close and
reopen the workflow. A push that lands after its workflow was terminated is a `Drift`.
`IsRun` starts with nothing recorded, `FromRest` at any time between rounds. Theorems
name the further hypotheses they need:

- `AlwaysWellFormed`: at every time the spec has at most one DependsOn gate per
  environment, places gated environments dynamically, and its gates name only
  environments that have no constraints.
- `AlwaysPlaced`: the environments that gates name have a place to run in.
- `VersionsIdentify`: an artifact is never changed without changing its version.
- `StableRound`: the spec has not changed since the current round began. Safety,
  truthful records and shutdown do not need it.
- `Convergeable`: environment names are distinct, environments share no place, every
  environment asks for a chart and values, gates name recorded things, canary times parse.
- `Calm`: no call fails and nobody outside the operator acts. Recordings of different
  environments may still overlap, and then one of them is refused.

`Nginx.NginxIsCovered` proves that `examples/nginx-with-production-canary.yaml`
satisfies the conditions on the spec.

## Where the code does not do what it seems to intend

The model follows the code. These are the places where that matters.

- `executeConstraints` (`pkg/worker/worker.go:497`) collects one future, not all.
  It computes the conjunction under every completion order exactly when all gates
  agree (`Futures.GateIsConjunctionIff`).
- A denied gate returns without error (`pkg/worker/worker.go:355-358`), so the
  environment still records its targets as deployed. What it records runs everywhere if
  and only if no placement took that exit (`Truth.RecordIsTrueIff`). If a gated
  environment is itself depended on, production can be promoted on a version nobody
  ever ran (`Witness.UnsafePromotion`).
- An environment whose selector matches no cluster records as well
  (`pkg/worker/worker.go:255-301`), a version that nobody runs. Production can be
  promoted on it although the configuration is otherwise well formed
  (`Witness.EmptyPromotion`). For an environment without constraints the record stands
  for a release if and only if the environment has a place
  (`Truth.UnconstrainedRecordIsRealIff`).
- The gate compares versions (`pkg/worker/worker.go:553`). Values artifacts often have
  none, so an edit of their content passes it unseen (`SameVersion.UnseenContent`).
- A recording that was overtaken by one that changed the status is refused, the refusal
  is only logged (`pkg/worker/worker.go:301-303`), and the environment tries again only
  in the next round. Two rounds therefore need not converge although nothing fails: in
  `Stall.TwoRoundsDoNotSuffice` production's record of its own refusal overtakes
  staging's, so production is refused once more. But a write that changes nothing spoils
  no read, so while something is unrecorded each round records at least one more
  environment (`EveryRound.EachRoundRecords`), and under every schedule one round more
  than environments were unrecorded at the start leaves no difference anywhere
  (`EveryRound.RoundsConverge`); the run of `Stall` shows that this bound cannot be
  lowered. Two rounds suffice if the first recordings of the environments that gates name
  are not overtaken (`Progress.TwoRoundsConverge`), and one round if the gates are open,
  as they are for environments without gates (`Convergence.OpenGatesConverge`). Which
  gate is open can be read off the status, and it decides (`Progress.GateDecides`).
- The gate looks the Application up in the placement's namespace
  (`pkg/worker/worker.go:446`), so a gated environment elsewhere is never promoted
  unless an Application of the same name lives there
  (`Order.GatedPushReadsPlacementNamespace`).
- The controller's first status write replaces the whole status
  (`controllers/application_controller.go:103-109`). It loses recorded versions exactly
  when there are some (`Controller.LosesEntriesIff`), which a crash between start and
  write makes possible (`Controller.CrashLosesEntries`). Once the workflow IDs are
  stored nothing is lost (`Controller.IdsArePermanent`).
- A stale read can start a second workflow after the first has closed, whose IDs are
  never stored. Deleting the object then terminates the run that the status names and
  leaves the other one open (`Controller.RunOutlivesObject`), which ends by itself at
  its next fetch (`Termination.ShutdownIsBounded`). On current reads a workflow that has
  closed, for instance on a failed fetch, is never restarted
  (`Controller.ClosedStaysClosed`).
- The merge is not associative; `Values.MergeAssociativeIff` gives the exact pattern.

## Model

| member | source | states |
|---|---|---|
| Values.MergeIdentity | pkg/worker/helm.go:94-111 | the empty object is a two-sided identity of the merge |
| Values.MergeIdempotent | pkg/worker/helm.go:94-111 | merging a document with itself gives the document |
| Values.MergeAbsorbs | pkg/worker/helm.go:94-111 | applying an override again, before or after, changes nothing |
| Values.CoversIffMergeVanishes | pkg/worker/helm.go:99-109 | nothing of the first argument survives exactly when the second overrides all its paths |
| Values.MergeAssociativeIff | pkg/worker/helm.go:94-111 | the two bracketings of three documents agree if and only if no shared path is object, non-object, object with the last not overriding the first |
| Values.SameShapeMergesAssociate | pkg/worker/helm.go:94-111 | documents that agree on object-or-not at shared paths associate |
| Values.MergeNotAssociative | pkg/worker/helm.go:94-111 | three concrete documents whose bracketings differ |
| Values.FoldRefinesLayer | pkg/worker/helm.go:78-92 | merging documents one by one equals the one-pass rule: at each path the first document decides, objects are layered, later non-objects skipped |
| Values.MergedValuesIgnoresRepeat | pkg/worker/helm.go:78-92 | repeating a document later never changes the values, whatever the shapes |
| Values.FoldKeepsLeafOfBase | pkg/worker/helm.go:78-92 | every leaf of an earlier document survives all later ones at the same path |
| Values.PrependIsMergeIff | pkg/worker/helm.go:78-111 | putting a document in front equals merging it over the finished result, exactly when it fits |
| Values.SameShapeFits | pkg/worker/helm.go:78-111 | documents of one shape always fit |
| HeapMaps.MergeMaps | pkg/worker/helm.go:94-111 | on shared mutable maps, in any iteration order, the result denotes the merge, is fresh, and both arguments still denote what they did |
| HeapMaps.GetMergedValues | pkg/worker/helm.go:78-92 | the loop over documents yields the layered values in fresh maps and changes no input map |
| Api.KeyRoundTripIff | pkg/worker/worker.go:116-121 | the key is recovered from its string exactly when neither part has a slash |
| Artifacts.FilterArtifacts | pkg/worker/worker.go:243-253 | the two loops select the required artifacts in required order through the last-wins name map |
| Artifacts.ByNameLastWins | pkg/worker/worker.go:243-246 | under a name the last artifact listed with it is found |
| Artifacts.FilterMembers | pkg/worker/worker.go:248-253 | selected are exactly the required names that exist |
| Artifacts.FilterIsPointwise | pkg/worker/worker.go:248-253 | selection goes through the required names one by one, keeping order and repetitions |
| Artifacts.SelectionIgnoresOrder | pkg/worker/worker.go:243-253 | with distinct names the order of the spec's artifacts does not matter |
| Artifacts.FindFirstArtifact | pkg/worker/worker.go:135-143 | the first artifact of the kind, or an error when there is none |
| Artifacts.FindAllArtifacts | pkg/worker/worker.go:145-157 | all artifacts of the kind in order, or an error when there is none |
| Artifacts.RepeatedArtifactIsIgnored | pkg/worker/worker.go:248-253 | requiring an artifact twice changes neither values nor chart |
| Placements.DeterminePlacement | pkg/worker/worker.go:671-707 | static placement as given, otherwise exactly the clusters that carry every entry of the selector, in the parent namespace |
| Placements.MatchesEveryEntry | pkg/worker/worker.go:689-699 | a cluster matches if and only if all entries of the selector are among its labels |
| Placements.SelectedIsSubsequence | pkg/worker/worker.go:694-703 | the coordinates are the clusters that carry every entry of the selector, all of them, in list order |
| Placements.CoordinatesAreDistinct | pkg/worker/worker.go:671-707 | distinct cluster names give distinct coordinates |
| Helm.PushThenDiff | pkg/worker/helm.go:47-76 | after a push the same artifacts show no difference |
| Helm.CanaryPushKeepsDiff | pkg/worker/worker.go:574-593 | a canary push never changes the difference seen for the main release |
| Helm.CanaryOverrides | pkg/worker/worker.go:569-591 | every canary leaf is what the canary runs, with the target's chart |
| Helm.CanaryIsOverlayIff | pkg/worker/worker.go:569-591 | the canary runs the target's values with its own merged on top, exactly when the target has no values or they fit |
| Helm.DiffCases | pkg/worker/helm.go:47-76 | no release is a difference whatever the artifacts lack, and when else there is an error, a difference or none |
| Helm.CanaryPushRuns | pkg/worker/worker.go:569-591 | a pushed canary has the chart version of the target and every leaf of its own values, merged over the target exactly when they fit |
| Helm.PushEffect | pkg/worker/helm.go:113-179 | the whole store after a push: the target under the release name, the canary gone or untouched, all else as before |
| Helm.HelmReconciler.Diff | pkg/worker/helm.go:47-76 | errors and answer for every combination of release, chart and values |
| Helm.HelmReconciler.Push | pkg/worker/helm.go:113-160 | which error, if any, the store for every combination of faults, and that the canary is gone after a push without a cleanup fault |
| Helm.HelmReconciler.CleanupCanaries | pkg/worker/helm.go:162-179 | removes the canary of this release or leaves the store alone |
| Recording.UpdateDeployedVersions | pkg/worker/worker.go:623-651 | the new status is the recorded one, other objects and the spec stay, a new resource version is taken exactly when something changes, a failure changes nothing |
| Recording.DependsOnConstraint | pkg/worker/worker.go:515-560 | granted exactly when every name is recorded at the version in the spec; an error when the object cannot be read |
| Recording.RecordKeepsFiling | pkg/worker/worker.go:640-642 | entries stay filed under their artifact's name |
| Recording.EnterLastWins | pkg/worker/worker.go:640-642 | among artifacts of one name the last is recorded |
| Recording.RecordLosesNothing | pkg/worker/worker.go:633-642 | recording loses no entry and leaves other environments alone |
| Recording.RecordThenPromoted | pkg/worker/worker.go:535-558 | what an environment just recorded satisfies every gate on names it requires |
| Protocol.CanariesMembers | pkg/worker/worker.go:406-416 | all HelmCanary constraints are taken, in the order of the spec |
| Futures.Drain | pkg/worker/worker.go:90-104 | the draining loop ends, runs each callback once, and collects nothing exactly when nothing failed |
| Futures.ErrorsAreOrderFree | pkg/worker/worker.go:271-285 | every completion order collects the same errors, each as often as it occurred |
| Futures.ExecuteConstraints | pkg/worker/worker.go:473-506 | the outcome of the first completed gate, an error counting as refusal |
| Futures.GateIsConjunctionIff | pkg/worker/worker.go:473-506 | this is the conjunction under every order exactly when the gates agree |
| Futures.RefusalCanBeIgnored | pkg/worker/worker.go:497-499 | a refused gate among several can be ignored |
| Invariants.OriginsAlwaysKnown | pkg/worker/worker.go:204-253 | in every reachable state an environment workflow works on what the spec said at a step of its round |
| Invariants.StatesOk | pkg/worker/worker.go:204-290 | in a round with a stable spec every workflow works on that spec, and resource versions identify what was read |
| Invariants.AlwaysOnePerName | pkg/worker/worker.go:77-87 | a round starts one workflow for each environment name, and never has two of one name at work |
| Promotion.PromotionSafety | pkg/worker/worker.go:204-306 | a gated push was preceded, in its round, by the fetch of what is pushed and then by a gate that found every named artifact recorded at the version in the spec, the pushed one unless the spec was edited in between; each record was written by an earlier write that went through, after every place of the dependency ran it |
| Promotion.PromotedArtifactsRan | pkg/worker/worker.go:515-560 | if versions identify artifacts, behind each named artifact stands a truthful record of the very artifact in the spec, content included, at every place of the dependency; if the dependencies have places, what is recorded really ran |
| Promotion.PlacedIff | pkg/worker/worker.go:671-707 | an environment has a place exactly when it is placed statically or some cluster carries every label it selects |
| Promotion.RecordedChartVersionRan | pkg/worker/worker.go:294-303 | behind a recorded chart version stands a release of that version at every placement |
| Promotion.RecordedAtPush | pkg/worker/worker.go:399-453 | if nobody outside touches the object in the round, the record still stands at the push, at the versions being pushed |
| Promotion.WriteIsTruthful | pkg/worker/worker.go:255-303 | a write of an unconstrained environment that goes through records only what all its places ran in that round, even if the spec changes meanwhile |
| Promotion.ReachedRanAlways | pkg/worker/worker.go:317-375 | a placement that finished well ran its target in that round, in every reachable state |
| Order.PushOrder | pkg/worker/worker.go:317-375 | before a main push come, in order, a difference, a granted gate if any, a canary push and its wait if any; no earlier main push, no refused gate |
| Order.GatedPushReadsPlacementNamespace | pkg/worker/worker.go:436-453 | a gated push needs an Application of that name, with the dependency promoted, in the placement's namespace |
| FanIn.RecordsIffNoneFailed | pkg/worker/worker.go:271-303 | an environment goes on to record if and only if no placement returned an error in the round, a refused gate being none |
| FanIn.EndedIff | pkg/worker/worker.go:204-306 | in every round an environment has ended if and only if its name was taken, a fetch, placement, child or status read failed, its environment is not in the spec, or it wrote; after that it takes no step |
| FanIn.NoRecordAfterFailure | pkg/worker/worker.go:287-303 | whoever writes a record had no failure in the round |
| Effects.CanaryPushEffect | pkg/worker/worker.go:569-601 | over runs: a canary push that lands leaves the canary with its own values over the target and all other releases alone; one without a parsable time or chart changes nothing |
| Effects.MainPushEffect | pkg/worker/helm.go:113-179 | over runs: a main push that lands leaves the chart version and values of the target, and no canary at the place if it was cleaned up |
| Effects.OnlyPushesRelease | pkg/worker/worker.go:317-375 | over runs: the operator changes releases by pushes only |
| Serial.RecordingIsSerial | pkg/worker/worker.go:623-651 | any interleaving of recordings has the effect of the successful ones in commit order |
| Serial.NoEntryIsLost | pkg/worker/worker.go:633-646 | no entry is lost, and an environment's entries change only by its own commits |
| Serial.AlwaysFiledByName | pkg/worker/worker.go:640-642 | in every reachable state an entry's key is its artifact's name |
| Serial.StepsRecordOnly | pkg/worker/worker.go:623-651 | the operator changes nothing of any object but the recorded artifacts of its own and the version with them |
| Serial.CommitSpoilsReads | pkg/worker/worker.go:629-646 | after a recording that changed something no write based on an earlier read goes through |
| Serial.RecordingGoesThroughIff | pkg/worker/worker.go:623-651 | a recording goes through if and only if no other one changed the status between its read and its write |
| Termination.RoundIsBounded | pkg/worker/worker.go:63-104 | while the spec is left alone the workflows of a round take at most a computed number of steps together, whatever fails |
| Termination.RoundIsNeverStuck | pkg/worker/worker.go:102-104 | in every reachable state, until a round is over one of its steps is enabled |
| Termination.AnyCallMayFail | pkg/worker/worker.go:63-375 | wherever a call can succeed it can fail as well, with or without a push having landed |
| Termination.ShutdownIsBounded | pkg/worker/worker.go:63-70 | once the Application is gone every attempt to begin a round closes the workflow and the remaining steps are bounded, whatever happened before |
| Termination.ShutdownCompletes | pkg/worker/worker.go:63-70 | when that bound is used up the workflow is closed |
| Termination.LoopGoesOnIff | pkg/worker/worker.go:63-70 | the workflow goes on to further rounds if and only if every fetch so far succeeded on an existing object and nobody terminated it |
| Termination.FailedFetchEndsLoop | pkg/worker/worker.go:67-70 | after one failed fetch the operator takes no step and changes nothing until it is started again |
| Convergence.OutOfStepNeverGrows | pkg/worker/worker.go:255-303 | whatever fails, no step of the operator takes a placement out of step, so their number never rises |
| Convergence.OpenGatesConverge | pkg/worker/worker.go:63-111 | if the gates of an environment are open, the next complete round leaves all its places without a difference, under any scheduling |
| Progress.GateDecides | pkg/worker/worker.go:340-358 | a placement out of step gets in step in a complete round if its gate was open before, and is never found in step while it is not |
| Progress.ShutGateIsNotPassed | pkg/worker/worker.go:345-358 | no placement behind shut gates is pushed, main or canary |
| Progress.ShutGateHoldsBack | pkg/worker/worker.go:345-368 | behind gates that are still shut no release has changed |
| Progress.CommitPromotes | pkg/worker/worker.go:294-303 | a recording that goes through opens every gate on that environment |
| Progress.EveryEnvironmentWrites | pkg/worker/worker.go:294-303 | no environment ends its first round without trying to record, refused or not |
| Progress.TwoRoundsConverge | pkg/worker/worker.go:63-111 | two rounds suffice if the first recordings of the environments that the gates name are not overtaken |
| Progress.TwoRoundsThenQuiet | pkg/worker/worker.go:327-338 | after such two rounds every later one only diffs, and the releases stand still |
| Progress.ConvergedIsQuiet | pkg/worker/worker.go:327-338 | once all is in step nothing is gated or pushed, and records change exactly when an environment that had not recorded everything gets to do so |
| Progress.RecordingChangesIff | pkg/worker/worker.go:633-642 | recording changes the status exactly when something was not recorded yet |
| Progress.EachRoundCommits | pkg/worker/worker.go:90-104 | however recordings overlap, in every complete round at least one goes through |
| EveryRound.EachRoundRecords | pkg/worker/worker.go:90-104 | while something is unrecorded, each complete round records one more environment and loses none |
| EveryRound.RoundsConverge | pkg/worker/worker.go:63-111 | under every schedule, one complete round more than environments were unrecorded at the start leaves no difference at any place |
| EveryRound.EnoughRoundsConverge | pkg/worker/worker.go:63-111 | whatever was recorded, one round more than there are environments suffices |
| EveryRound.RoundsThenQuiet | pkg/worker/worker.go:327-338 | from then on placements only diff, and releases, records and the object itself stand still |
| Stall.TwoRoundsDoNotSuffice | pkg/worker/worker.go:301-303 | a run of two complete rounds with two unrecorded environments and no failing call, in every state of which production differs |
| Truth.RecordIsTrueIff | pkg/worker/worker.go:355-358 | an environment about to record runs its target everywhere if and only if no gate was denied, and somewhere if and only if some placement was not denied |
| Truth.UnconstrainedRecordIsRealIff | pkg/worker/worker.go:255-301 | what an unconstrained environment records runs somewhere if and only if it is placed statically or its selector matches a cluster |
| Witness.UnsafePromotion | pkg/worker/worker.go:294-301 | a run with a gated dependency that promotes production although nothing was ever released |
| Witness.EmptyPromotion | pkg/worker/worker.go:255-301 | a well-formed run in which a dependency without places lets production be promoted although nothing was ever released |
| SameVersion.UnseenContent | pkg/worker/worker.go:546-556 | for any two contents, a run that pushes an artifact edited under one version behind a gate that names it, though the dependency never ran nor recorded that content |
| Nginx.NginxIsCovered | examples/nginx-with-production-canary.yaml:6-56 | the shipped example satisfies the hypotheses on specs |
| Nginx.NginxReleases | examples/nginx-with-production-canary.yaml:6-56 | what staging, production and its canary run: chart version and merged values, written out |
| Workflows.DoPush | pkg/worker/worker.go:609-616 | the store after up to the allowed attempts, when it succeeds, and that the canary is then gone unless a cleanup failed |
| Workflows.CheckDependencies | pkg/worker/worker.go:410-426 | the decision is that of the first completed gate in the placement's namespace |
| Workflows.RunCanaries | pkg/worker/worker.go:569-601 | pushing canaries and waiting is a path of the machine; it is granted only if every time parses and every push had an attempt that could succeed, always if every push had one without faults, and then the last canary runs its own values |
| Workflows.DoCheck | pkg/worker/worker.go:399-434 | gates, then canaries, is a path of the machine to a push or a denial; a refusing gate leaves the store alone, a granting one leaves the answer to the canaries |
| Workflows.ReconcilePlacement | pkg/worker/worker.go:317-375 | the sequential code is a path of the machine from start to its outcome; difference, gates, canary faults and push faults determine the outcome, and after a clean push the target runs and no canary does |
| Controller.AtMostOneOpen | controllers/application_controller.go:127-141 | under failures, stale reads and crashes at most one workflow is open, and status IDs name a run that exists |
| Controller.EveryRunWasStarted | controllers/application_controller.go:87-98 | every run was started from a read object with the finalizer, not being deleted, without IDs, while no run was open |
| Controller.TerminateComesFirst | controllers/application_controller.go:72-78 | before the finalizer is dropped comes a terminate attempt with no crash in between; a run is still open then if and only if it was open before, was not terminated by that attempt and did not end by itself |
| Controller.TerminateClosesTheNamedRun | controllers/application_controller.go:76 | a terminate that lands closes the run with the two stored IDs and no other |
| Controller.DeletionStopsTheRun | controllers/application_controller.go:74-83 | if the only open run is the one whose IDs are stored and the terminate lands, no run is open when the finalizer goes |
| Controller.StoredIdsNameTheRun | controllers/application_controller.go:96-111 | the stored IDs are those of the one run that was open right after the start that handed them out |
| Controller.ControllerKeepsTheRest | controllers/application_controller.go:72-111 | the controller touches neither the spec nor other finalizers, and the object goes only with its last finalizer |
| Controller.DeletionIsFinal | controllers/application_controller.go:87-94 | an object that is being deleted stays so and gains no finalizer |
| Controller.WorkflowIdsDiffer | controllers/application_controller.go:127-130 | different Applications have different workflow IDs |
| Controller.FinalizerGoesOnlyAfterTerminate | controllers/application_controller.go:72-84 | an object keeps the finalizer and keeps existing except by that removal |
| Controller.RunOutlivesObject | controllers/application_controller.go:72-98 | a stale read starts a run that the status never names and deletion leaves open |
| Controller.StartedOnlyFromStaleRead | controllers/application_controller.go:96-111 | once the IDs are stored a workflow is started for the object only on a stale read, whose status write is refused |
| Controller.ClosedStaysClosed | controllers/application_controller.go:96-113 | while reads are current a workflow that has closed is not restarted |
| Controller.LosesEntriesIff | controllers/application_controller.go:103-109 | recorded versions are lost exactly by the first status write on an object that has some |
| Controller.IdsArePermanent | controllers/application_controller.go:96-111 | once stored the IDs never change and no recorded version is ever lost |
| Controller.CrashLosesEntries | controllers/application_controller.go:96-111 | a crash between start and status write leads to such a loss |
| Controller.ApplicationReconciler.Reconcile | controllers/application_controller.go:60-114 | one call performs exactly the steps of the machine under the given faults, and for each way it can end the result it returns |
| Controller.ApplicationReconciler.StartReconcilerWorkflow | controllers/application_controller.go:127-141 | an open run is reused, otherwise a new one is added |

## Left out

- Chart download, temporary files, kubeconfig and the cluster file: charts and clusters are data; the chart fetched for a version is taken to have that version.
- Helm itself: a release is its chart version and user values, stored as given. Helm's special treatment of empty values on upgrade is not modelled.
- Temporal itself: histories, retries beyond the stated attempts and timers; a sleep or timeout is a step that may happen at any time.
- The API server beyond resource versions, finalizers and deletion. Names are taken to be legal. In `Controller` a write that changes nothing takes a new version as well; no result there depends on it.
- JSON decoding: documents start as decoded trees; null is the empty document; arrays and null values are leaves.
- Constraints without a body, placements without a kind and illegal selector labels, on which the code panics: the types exclude them.
- Canaries of one placement still being pushed when another canary has already ended its wait: they are terminated with their parent, so only a push that was already under way is missed, and `Drift` stands for it.
- Generated code, client plumbing, wiring, logging, the unused lifecycle hooks and other dead code.
- Helm.HelmReconciler.Diff: the merge inside it is the function `Values.MergedValues`; `HeapMaps.GetMergedValues` proves the loop that computes it.
- Workflows.ReconcilePlacement: one uninterrupted call; interleavings are the subject of `Protocol`, which also has the failure of the check workflow itself.
