# KubeAthrix, verified model

A Dafny model of the parts of KubeAthrix that decide what happens to a cluster, with proofs of what they promise.
`dafny verify dfyconfig.toml` checks everything.

| files | what they model |
|---|---|
| `Catalog`, `PlanBuilder`, `PlanMeaning`, `Workload` | the typed action catalog, how a finding becomes a plan and what that plan holds, the resource edit and its preview |
| `ClusterModel`, `Effects`, `ApplyLaws`, `Operator`, `OperatorLaws` | the remediation operator: gate, dry run, snapshot, write, verify, rollback |
| `ChaosModel`, `ChaosLaws`, `ChaosEvents` | the chaos run record, its transitions, what every legal history guarantees, and what its audit events say |
| `ChaosTrace`, `ChaosWorld`, `ChaosSafety` | the log of what really happened, all acts of all parties, and what holds in every reachable world |
| `ChaosStore`, `ChaosTurns`, `ChaosManager`, `ChaosTermination`, `ChaosHazards`, `ChaosNeighbours` | the versioned run store, one reconcile alone, the manager's methods, termination, and the surprises: stuck runs, late stamps, shared names |
| `Approval` | the approval protocol over two stored objects, up to the operator's gate |
| `PlanStore` | plans, runs, approvals and audit log of the in-memory store |
| `Graph`, `UnionFind`, `Correlation`, `CorrelationRun`, `CorrelationLaws`, `CorrelationMeaning` | finding correlation and scoring |
| `Limiter`, `Cache`, `Projection`, `CutOrder`, `Advisor`, `AdvisorMeaning` | the request limiter, the single-flight cache, the prompt-shrinking loop and what the provider can learn |
| `Basics` | options, results and the textual sort order |

## How it is modelled

- **Operator.** The cluster is a map from object identities to objects without status and server-set metadata; the snapshot
  ConfigMap is a map from actions to saved items. Any API call may fail, a failed write may have taken effect, and an accepted
  delete may leave its object behind. Every method ensures that its effect is a run of three kinds of steps (take a snapshot,
  write an intended object, restore a saved item), and the laws quantify over all such runs, hence over all retries, partial
  failures and repeated reconciles. With `reliable` set every call succeeds, and the executors' effects are stated exactly;
  with `caughtUp` set too, rollouts are complete whenever they are looked at, and the effect of a whole plan is.
- **Chaos runs.** `ChaosModel.Next` defines the legal transitions from what a caller saw; `ChaosEvents` tells the same ones from the
  audit event alone. A world is the store's histories, a log of
  what really happened (clock readings, looks, Starts, observations, deletes, pod checks, commits), the objects in the cluster
  under their kind, namespace and name with the run id of their label, the Starts still in flight, and the clock. `ChaosWorld`
  lists every single act that anybody may perform on it, and its invariant ties each version to earlier log entries about the
  version it replaced. The manager's methods work on copies that may be stale; before each of their calls `Interfere` performs
  any acts of anybody. Each method ensures that what happened is a run of permitted acts, and that what it decided rests on
  what it saw. With `alone` set nobody interferes and the API does not fail; then a reconcile equals one atomic step on the
  record and the object under its name, which gives termination.
- **Approval.** All stored versions of both objects are kept in a view; a resource version is the number of versions. Callers
  read, then compare-and-swap with up to five attempts, among arbitrary other callers; replies may be lost. `alone` again
  excludes both.
- **Cache.** Each critical section is one method; callers' positions between sections, channels and the log of source calls are
  explicit.
- **Store, limiter, advisor, correlation.** Classes and array loops as in the source, proved against declarative functions.

Times are whole seconds for chaos runs, nanoseconds for correlation windows, and plain integers elsewhere.

## What the proofs found

- **Shared workloads.** Two direct actions on one workload, such as filling resources and configured probes, snapshot it twice.
  Rollback visits keys in map order, so it may end in the second snapshot (`OperatorLaws.SharedWorkloadBreaksRollback`). For every
  plan, all orders restore the cluster exactly when the snapshot ConfigMap holds no object in two states
  (`OperatorLaws.RollbackUndoesIff`); plans built from findings always satisfy this.
- **Shared chaos names.** Experiments name their object in the manifest and the run id is only a label, so two runs of one
  experiment in one namespace share an object. While one run's object stands, every look of the other errs and it makes no progress
  (`ChaosNeighbours.SharedNameBlocks`). Deletes do not look at the label: a reconcile removes another owner's object exactly when its
  run is cleaning up or aborting (`ChaosNeighbours.RemovesAnothersIff`). The run that lost its object is noted as failed exactly when
  it is reconciled before its end (`ChaosNeighbours.LossIsNotedIff`); otherwise it can be recorded as succeeded, although its fault
  was gone long before (`ChaosNeighbours.SuccessWithoutItsObject`). What `ChaosTrace.SuccessMeans` calls the full duration is
  measured by the clock alone.
- **Stalled verification.** A run that verifies recovery without a clean-up deadline while its own resource is present is never
  changed again by any reconcile. It takes a Start in flight that lands after the resource had been found missing
  (`ChaosHazards.StallsComeFromLateStarts`, `ChaosHazards.StallIsReachable`). An abort still gets it out. This and a blocked look are
  the only states in which an active run is stuck (`ChaosTermination.StuckIff`).
- **Stale plan sync.** Attaching AI text stores a whole plan copy. A copy read before the approval takes the approval back, and the
  plan can then be neither executed nor decided again (`PlanStore.SyncAfterApproval`, `PlanStore.Strand`). No unapproved execution
  results.
- **Idempotency scopes.** Requester and key are joined with a bar. A request shares its scope with no other exactly when neither
  part contains one (`PlanStore.ScopeIsOwnIff`); otherwise one requester can be answered with the plan of another
  (`PlanStore.AnswerAnother`). The API accepts only keys without bars, and those keep requests apart
  (`PlanStore.ScopesKeepRequestsApart`).
- **Previews of refused edits.** The resource preview shows the raw quantities; only the executor parses them. So a preview is shown
  for an edit that will be refused exactly when one does not parse, and it shows other texts than those stored exactly when one of
  them is not canonical (`OperatorLaws.PreviewMatchesExecution`).
- **Dead branches.** A running record always has a start time (`ChaosLaws.RunningRecords`), citations without any evidence are
  refused before the check meant for them (`Advisor.NoEvidenceNoCitations`), and the longer of the two pod security phrases that the
  plan builder looks for contains the shorter one (`PlanMeaning.PrivilegedAddsNothing`).
- **Approval time.** Expiry is compared with one clock reading and the record is stamped with a later one, so an approval can be
  stamped after its expiry (`ChaosHazards.LateStampIsReachable`); what holds is that the reading that was compared lay within the window (`ChaosTrace.ApprovalsAreTimely`).
- **Limiter.** The bound is one better than twice the limit, because the request that opens the earlier window lies outside the span
  (`Limiter.LimiterHolds`), and it is attained (`Limiter.AttainBound`).

## Model

| member | source | states |
|---|---|---|
| `OperatorLaws.RollbackUndoesApply` | operator/controllers/remediation_controller.go:893-931 | For every plan built from a finding and every run of snapshots, writes and partial restores that starts without snapshots, a complete rollback pass in any key order returns exactly the original cluster |
| `OperatorLaws.PlanLife` | operator/controllers/remediation_controller.go:63-112 | Any number of reconciles with approval fields, rollback request and recorded status changing in between: whenever the last phase is RolledBack the cluster equals the one before the first reconcile, and objects no action writes never change |
| `OperatorLaws.RollBackPlan` | operator/controllers/remediation_controller.go:893-931 | With a reliable API, rolling back a built plan that has snapshots succeeds and leaves the original cluster, whatever failed before |
| `OperatorLaws.UndoFromDisjointWrites` | operator/controllers/remediation_controller.go:893-931 | The same for any action list whose executable actions write pairwise disjoint objects |
| `OperatorLaws.BuiltPlansWriteDisjointObjects` | services/api/internal/store/store.go:1072-1159 | The executable actions of every plan built from a finding write pairwise disjoint objects |
| `OperatorLaws.ReachableWorlds` | operator/controllers/remediation_controller.go:806-891 | Every reachable world keeps: saved items hold original states, uncovered objects are untouched, objects new to the cluster carry the managed-by label |
| `OperatorLaws.SnapshotCoversWrites` | operator/controllers/remediation_controller.go:848-891 | An executable action's snapshot refs are exactly the objects its executor may write |
| `OperatorLaws.SnapshotPrecedesWrites` | operator/controllers/remediation_controller.go:228-239 | In every run, an action's snapshot holds the states at the moment it was taken, no earlier world has that key (and a write requires it), and later worlds keep it |
| `OperatorLaws.SnapshotsAreKept` | operator/controllers/remediation_controller.go:806-846 | Once a snapshot key exists no later step changes or drops it |
| `OperatorLaws.ChangesAreCovered` | operator/controllers/remediation_controller.go:228-239 | In every reachable world of every plan whatsoever, what a step changes was covered by a snapshot taken before |
| `OperatorLaws.OnlyWrittenObjectsChange` | operator/controllers/remediation_controller.go:134-288 | For every plan whatsoever, objects outside its write set keep their state over every run |
| `OperatorLaws.RollbackLandsOnSnapshots` | operator/controllers/remediation_controller.go:905-930 | Even when keys share objects: a saved object ends in one of its saved states and nothing else moves |
| `OperatorLaws.LastKeyWins` | operator/controllers/remediation_controller.go:905-930 | The last visited key that mentions an object decides its final state |
| `OperatorLaws.RollbackIsSafeIff` | operator/controllers/remediation_controller.go:905-930 | For every plan and every reachable world, a saved object gets its original state back under every visiting order if and only if the ConfigMap holds it in one state only |
| `OperatorLaws.RollbackUndoesIff` | operator/controllers/remediation_controller.go:905-930 | For every plan and every reachable world, every visiting order gives the whole original cluster back if and only if no object is saved in two states |
| `OperatorLaws.FirstItemsHoldOrigin` | operator/controllers/remediation_controller.go:806-846 | For every plan and every reachable world, a covered object is saved in its original state by some key, and an uncovered one is untouched |
| `OperatorLaws.SharedWorkloadBreaksRollback` | operator/controllers/remediation_controller.go:905-930 | A concrete run of two executable actions on one workload after which one visiting order does not restore the original |
| `OperatorLaws.RollbackOrderDoesNotMatter` | operator/controllers/remediation_controller.go:905-930 | When no object is saved in two states, all visiting orders give the same cluster |
| `OperatorLaws.RollbackResumes` | operator/controllers/remediation_controller.go:905-930 | A pass after any number of interrupted passes, in any orders, ends where one uninterrupted pass would have |
| `OperatorLaws.RollbackIsNeverRefused` | operator/controllers/remediation_controller.go:945-947 | In invariant worlds rollback never meets an unmanaged object that it would have to delete |
| `OperatorLaws.ReconcileTwice` | operator/controllers/remediation_controller.go:134-288 | With an API that does not fail, controllers that have caught up and an open gate, a built plan gets through if and only if every action would have got through at the start; then the cluster is what its executable actions make of it in order, each reads back as intended, and a second reconcile ends in the same phase and changes nothing |
| `OperatorLaws.ReachableIsRecorded` | operator/controllers/remediation_controller.go:806-846 | In every reachable world, snapshots are only of actions whose snapshot is defined, which ReconcileTwice asks for |
| `OperatorLaws.WellBuiltGoesIff` | operator/controllers/remediation_controller.go:184-262 | A plan as built, over named objects, gets through if and only if its proposals are valid and its writes would be accepted |
| `ApplyLaws.ApplyAllTwice` | operator/controllers/remediation_controller.go:184-262 | Applying the executable actions of any plan with disjoint writes again changes nothing, and if all of them got through, all of them do again |
| `ApplyLaws.AppliedTwice` | operator/controllers/remediation_controller.go:290-562 | Applying any one action twice is applying it once, whatever it meets |
| `ApplyLaws.GoesAtItsTurn` | operator/controllers/remediation_controller.go:184-262 | In a plan with disjoint writes, an action gets through at its turn if and only if it would have at the start |
| `OperatorLaws.PreviewMatchesExecution` | services/api/internal/cluster/diff.go:65-115 | Preview, rehearsal and execution side by side: the executor refuses if and only if one of the four quantities does not parse; otherwise what was shown is what is stored, each new value as its shown text parses, and it reads the same if and only if every shown text is canonical. A line is shown if and only if some container lacks that request or limit, with the parameter of that name, and what is stored is told from the parameters alone |
| `OperatorLaws.PreviewResources` | services/api/internal/cluster/diff.go:65-115 | The preview alone: its lines are exactly the missing requests and limits of some container, each with its own parameter |
| `Effects.WritableIff` | operator/controllers/remediation_controller.go:290-562 | When each of the five executors is accepted, told from the action's parameters and the cluster: namespaces, protected names, labels, kinds, selectors, container names and quantities that parse |
| `Effects.AppliedHasEffect` | operator/controllers/remediation_controller.go:290-562 | What each executor leaves behind, told from the parameters and the two clusters: the default quota and range, three labels, each missing request and limit from its own parameter, probes of the named container within their bounds, and the budget |
| `Effects.LinesAreOf` | services/api/internal/cluster/diff.go:75-103 | Section and key of a preview line decide which parameter it shows |
| `Operator.Reconciler.Reconcile` | operator/controllers/remediation_controller.go:63-112 | Rollback once requested and the action loop otherwise; every effect is a run of protocol steps, a finished rollback equals restoring all keys in the visited order |
| `Operator.Reconciler.ReconcilePlanActions` | operator/controllers/remediation_controller.go:134-288 | Gate branches and their phases; no effect unless approved as required, requested and mutation enabled; with mutation disabled, the phase of the rehearsal, which with a reliable API is passed exactly when every action rehearses; Applied means every executable action succeeded and, with disjoint writes, still reads back as intended at the end |
| `Operator.Reconciler.RunActions` | operator/controllers/remediation_controller.go:184-262 | The loop stops at the first failing or pending action; otherwise every status is the one its action must have and the counters say which kinds occur; when nothing fails, a plan with disjoint writes reaches the end exactly if every action would get through at the start, and leaves exactly their writes |
| `Operator.Reconciler.ProcessAction` | operator/controllers/remediation_controller.go:184-262 | Validation, dry run, snapshot, write and verification of one action, and which stop phase each failure gives; nothing outside its write set changes and old snapshots stay; success and a pending verification leave the action's effect; when nothing fails it gets through exactly if its proposal is valid and its writes are accepted and read back, and then leaves exactly those writes |
| `Operator.Reconciler.EnsureActionSnapshot` | operator/controllers/remediation_controller.go:806-846 | The snapshot is written at most once, from the current states of the action's refs; success means that the key exists |
| `Operator.Reconciler.SnapshotItemsForAction` | operator/controllers/remediation_controller.go:848-891 | Each ref's current state or its absence, or failure when the action or a read is refused |
| `Operator.Reconciler.ExecuteTypedAction` | operator/controllers/remediation_controller.go:321-350 | A real run needs the dry run to have passed since the last one; a dry run changes nothing; a real run changes only the action's objects and leaves the effect told from its parameters unless it failed. With a reliable API the dry run passes exactly when the action is acceptable, and the real run leaves exactly the action's writes |
| `Operator.Reconciler.ExecuteGovernance` | operator/controllers/remediation_controller.go:290-319 | Quota and limit range written in order, each possibly failing; success implies exactly the default values in both; with a reliable API exactly these writes happen |
| `Operator.Reconciler.ExecutePodSecurityLabels` | operator/controllers/remediation_controller.go:352-397 | Protected namespaces are refused; three labels are set from the parameters or their defaults, the others stay, and they are read back |
| `Operator.Reconciler.ExecuteWorkloadResources` | operator/controllers/remediation_controller.go:399-463 | Each missing request and limit of every container of both lists becomes what the parameter of its own name parses to, present values stay, and success implies that none is missing |
| `Operator.Reconciler.ExecuteWorkloadProbes` | operator/controllers/remediation_controller.go:465-512 | The first container of the given name gets the probes it lacks, with the given path and port and bounded timings; existing probes stay, and success implies they match |
| `Operator.Reconciler.ExecutePdb` | operator/controllers/remediation_controller.go:514-562 | Daemon sets and empty selectors are refused; success leaves a budget with the given minimum and the workload's selector |
| `Operator.Reconciler.UpsertObject` | operator/controllers/remediation_controller.go:564-590 | Creates, or replaces only an object that carries the managed-by label |
| `Operator.Reconciler.RestoreSnapshotItem` | operator/controllers/remediation_controller.go:933-986 | Done means the item's saved state is what is stored; refusal means an unmanaged object stands where nothing was; a reliable API leaves only these two |
| `Operator.Reconciler.ReconcileRollback` | operator/controllers/remediation_controller.go:893-931 | Without snapshots nothing changes; at every stop each object is untouched or back in a saved state; success equals restoring all keys in the visited order, and with a reliable API only a refusal prevents it |
| `Catalog.ExecutableTargets` | pkg/actioncatalog/catalog.go:67-234 | Every action that may run directly targets exactly the kinds its definition allows, and probes only when configured |
| `Catalog.ExecutableIff` | pkg/actioncatalog/catalog.go:67-234 | Exactly which actions may run directly: five types, each on its own kinds and with its own parameters filled in, and probes only when configured |
| `PlanBuilder.BuiltPlans` | services/api/internal/store/store.go:1072-1159 | No built plan holds two actions of one type, and no built plan configures probes |
| `PlanMeaning.BuiltPlansFit` | services/api/internal/store/store.go:1072-1159 | For every finding: one review if it comes from a managed resource; otherwise each of six types exactly when the first resource and the words of the finding's text ask for it, in a fixed order, with its target and all its parameters; and the fallback alone exactly when none is asked for |
| `PlanMeaning.ApprovalIsNeededIff` | services/api/internal/store/store.go:1401-1412 | A plan is gated if and only if it holds anything but namespace defaults on a namespace |
| `PlanMeaning.TierIsGravest` | services/api/internal/store/store.go:1385-1399 | A plan's risk tier is the gravest of its actions' tiers, and refused actions count as the gravest |
| `PlanBuilder.DedupeKeepsFirsts` | services/api/internal/store/store.go:1184-1196 | For every list, deduplication keeps exactly the first action of each key, in the order of the list |
| `PlanBuilder.DedupeKeepsKeys` | services/api/internal/store/store.go:1184-1196 | For every list, no two kept actions share a key, and every new key of the list is kept |
| `PlanBuilder.ApprovalIsSkippedOnlyForGovernance` | services/api/internal/store/store.go:1385-1412 | The decision starts pending iff approval is required, approval is skipped exactly for plans of valid governance actions, and such plans are tier A |
| `Workload.MutateResources` | operator/controllers/remediation_controller.go:420-436 | Concatenate, fill, copy back in place: both lists become their filled versions |
| `Workload.RenderWorkloadResources` | services/api/internal/cluster/diff.go:65-115 | The preview renders the filled lists and one line per missing value, in order |
| `Workload.AddMissing` | services/api/internal/cluster/diff.go:186-192 | Adds the value and a line exactly when the value is missing |
| `Workload.SameTextsIff` | services/api/internal/cluster/diff.go:75-103 | The previewed and the executed list read the same if and only if every text that a line shows is canonical |
| `Workload.NoLinesIffNoChange` | services/api/internal/cluster/diff.go:65-115 | There are no change lines exactly when execution changes nothing |
| `Workload.LinesAreExactlyTheGaps` | services/api/internal/cluster/diff.go:75-103 | A line is rendered exactly for each cpu or memory value that some container lacks, and shows the value that execution gives it |
| `Workload.FillPreservesAndSettles` | operator/controllers/remediation_controller.go:751-755 | Existing values, names, probes and order are preserved, and filling twice is filling once |
| `ChaosStore.Store.CreateChaosRun` | services/api/internal/store/store.go:768-784 | Whatever the record: an empty id or a version is invalid, a known id is a conflict, and both change nothing; otherwise it is stored as version one with exactly one audit event |
| `ChaosStore.Store.UpdateChaosRun` | services/api/internal/store/store.go:813-830 | Compare-and-swap on any record: succeeds exactly when reachable, present and at the expected version; then version, history and audit each grow by one, otherwise nothing changes |
| `ChaosStore.Store.GetChaosRun` | services/api/internal/store/store.go:786-797 | Returns the newest version, or not-found exactly when there is none |
| `ChaosStore.StoringKeepsTable` | services/api/internal/store/store.go:813-841 | Storing the next version of a record keeps every record the newest of its numbered versions, with exactly one audit event per version |
| `ChaosManager.Manager.Exists` | services/api/internal/cluster/chaos.go:202-220 | A true look at the object under the run's name, logged; an object with another label is an error |
| `ChaosManager.Manager.Start` | services/api/internal/cluster/chaos.go:155-200 | Creates under the run's name with the run's label, or finds its own object there; reported failures may land later, and alone exactly the reported outcome happens |
| `ChaosManager.Manager.Delete` | services/api/internal/cluster/chaos.go:286-299 | Deletes by name, whoever owns the object; alone it is gone |
| `ChaosManager.Manager.Request` | services/api/internal/cluster/chaos_manager.go:41-62 | A request becomes version one of a pending or preflight-only record of the same requester, resource and duration |
| `ChaosManager.Manager.Approve` | services/api/internal/cluster/chaos_manager.go:85-111 | Success is an approval of the pending version it replaced, by someone other than the requester, for which the clock was read during this call and found inside the approval window; alone, a pending run of another requester is approved or expires |
| `ChaosManager.Manager.Reject` | services/api/internal/cluster/chaos_manager.go:113-138 | The same for a rejection |
| `ChaosManager.Manager.OpenRun` | services/api/internal/cluster/chaos_manager.go:90-103 | The common prefix: the returned copy was stored, has the wanted status, and the clock was read for it during this call and found inside its approval window; alone, the run opens if and only if that reading is less than 900 seconds after the request, and is expired otherwise |
| `ChaosManager.Manager.Execute` | services/api/internal/cluster/chaos_manager.go:140-166 | The approved version was replaced by an execution request, after a clock reading inside the window during this call, and what its reconcile saw is logged and what that asks for is stored |
| `ChaosManager.Manager.Abort` | services/api/internal/cluster/chaos_manager.go:168-200 | Abortable runs become aborted before creation and abort-requested afterwards, by this actor |
| `ChaosManager.Manager.Fetch` | services/api/internal/cluster/chaos_manager.go:202-211 | An active copy is reconciled before the answer: what was seen is logged and what it asks for is stored, and alone the outcome is that of the table in ChaosTurns; other records are returned as read |
| `ChaosManager.Manager.ReconcileAll` | services/api/internal/cluster/chaos_manager.go:233-247 | Reconciling from listed copies that grow stale is a run of permitted acts |
| `ChaosManager.Manager.ReconcileOne` | services/api/internal/cluster/chaos_manager.go:249-421 | Under any interference success means that what was seen is logged and what it asks for is stored; alone, record and cluster take exactly the atomic step, the outcome is the table's, every other record and object stays, it errs exactly while another owner's object blocks the run, and with nothing left under its name and unhealthy targets the record changes if and only if its recovery deadline has come; a pending run expires exactly 900 seconds after its request |
| `ChaosManager.Manager.ReconcileExecution` | services/api/internal/cluster/chaos_manager.go:256-317 | The execution_requested branches, from vanished resource to observed injection, each on logged looks, Starts and observations |
| `ChaosManager.Manager.ReconcileRunning` | services/api/internal/cluster/chaos_manager.go:320-346 | The running branches, including the fall-through into clean-up |
| `ChaosManager.Manager.ReconcileCleanup` | services/api/internal/cluster/chaos_manager.go:347-360 | Delete by name, look again, and move to verification once nothing stands there |
| `ChaosManager.Manager.ReconcileAbort` | services/api/internal/cluster/chaos_manager.go:361-386 | Delete by name, look again, then abort on checked health or fail at the recovery deadline |
| `ChaosManager.Manager.ReconcileVerifying` | services/api/internal/cluster/chaos_manager.go:387-418 | Wait for the resource to go, then succeed, fail with the noted reason, or fail at the recovery deadline, on a logged look and a logged check of the pods |
| `ChaosManager.Manager.Save` | services/api/internal/store/store.go:813-830 | A stale copy commits only if it is still current, and then exactly the version that the operation makes of it |
| `ChaosTurns.StepsAreTurns` | services/api/internal/cluster/chaos_manager.go:249-421 | When a reconcile alone has which outcome: one condition for each status it may lead to, for an unchanged record, for attempts, injection deadline and noted reason, and for what is left under the run's name |
| `ChaosEvents.EventsTellAll` | services/api/internal/cluster/chaos_manager.go:41-434 | Two well-formed versions follow each other if and only if the audit event stored with the second says so, which fixes every field, deadline and actor |
| `ChaosEvents.HistoriesAreTold` | services/api/internal/cluster/chaos_manager.go:41-434 | The legal histories are exactly those whose audit log tells every version, from the request on |
| `ChaosEvents.UnhealthyMeans` | services/api/internal/cluster/chaos_manager.go:361-418 | In every legal history, a run that failed on unhealthy targets was verifying or aborting, and its recovery deadline had come |
| `ChaosEvents.FailedStartsMean` | services/api/internal/cluster/chaos_manager.go:269-281 | In every legal history, a failed Start leaves the run asking for execution twice and fails it the third time |
| `ChaosWorld.ReachableWorlds` | services/api/internal/cluster/chaos_manager.go:41-434 | In every world reachable by any acts of anybody: histories are legal, every version rests on earlier log entries about the version it replaced, Starts were permitted when they began, and labels come from logged Starts |
| `ChaosWorld.ActKeepsInv` | services/api/internal/cluster/chaos_manager.go:41-434 | Each single act of anybody keeps that invariant |
| `ChaosSafety.StartsAreApproved` | services/api/internal/cluster/chaos_manager.go:256-283 | In every reachable world, before any Start began its run had been approved by someone other than the requester and asked to execute, each after a logged clock reading inside the approval window, and a look had found nothing under its name |
| `ChaosSafety.LabelsComeFromStarts` | services/api/internal/cluster/chaos.go:181-189 | In every reachable world, an object with a run's label comes from a logged Start of that run under this very name |
| `ChaosSafety.NeverStartedOwnsNothing` | services/api/internal/cluster/chaos_manager.go:113-186 | In every reachable world, a rejected, expired, or unverified aborted run was never started and no object carries its label |
| `ChaosSafety.AbortMeans` | services/api/internal/cluster/chaos_manager.go:361-380 | An abort that ended after a recovery check deleted the resource, then saw it gone and the targets healthy, all logged before its last version |
| `ChaosLaws.EndedIsFinal` | services/api/internal/cluster/chaos_manager.go:249-421 | No transition leaves an ended or preflight-only record |
| `ChaosLaws.RecordInvariants` | services/api/internal/cluster/chaos_manager.go:249-421 | Every committed version is well formed (deadlines, reasons, attempts, finish time, approval), numbered by its position, and still the same request |
| `ChaosLaws.RunningRecords` | services/api/internal/cluster/chaos_manager.go:315-325 | A running record has its start time and the three deadlines derived from it, at most 450 seconds after the start, so the missing-start branch is dead |
| `ChaosLaws.ApprovalPrecedes` | services/api/internal/cluster/chaos_manager.go:94-110 | Whatever is past approval was approved by the approver it still names, who is not the requester |
| `ChaosTrace.ApprovalsAreTimely` | services/api/internal/cluster/chaos_manager.go:97-110 | The approval and the execution request of whatever got past them were stored after a logged clock reading, for the version replaced, inside the approval window |
| `ChaosTrace.SuccessMeans` | services/api/internal/cluster/chaos_manager.go:388-413 | A succeeded run was approved by another and asked to execute, each on a logged clock reading inside the window; started on a logged observation of injection; ran its full duration; never had an abort requested; notes no failure; and was closed on a logged look that found the resource gone and a logged check that found the targets healthy |
| `ChaosLaws.NeverStartedMeans` | services/api/internal/cluster/chaos_manager.go:113-186 | Such runs never even reached execution_requested |
| `ChaosLaws.AbortSticks` | services/api/internal/cluster/chaos_manager.go:182-200 | After an abort request the run can only end aborted or failed |
| `ChaosLaws.FailureSticks` | services/api/internal/cluster/chaos_manager.go:402-410 | A noted failure is never forgotten, so such a run never succeeds |
| `ChaosTermination.ReconcileUntilEnded` | services/api/internal/cluster/chaos_manager.go:249-421 | Left alone, every active run that is not stuck ends within 800 reconciles at least a second apart, and nothing stands under its name |
| `ChaosTermination.AtomicStepProgresses` | services/api/internal/cluster/chaos_manager.go:249-421 | Each atomic step of a run that is not stuck ends it without a resource or lowers the measure of remaining reconciles without getting stuck |
| `ChaosTermination.StuckIff` | services/api/internal/cluster/chaos_manager.go:249-421 | An active run is stuck for good if and only if it is verifying its own present resource without a clean-up deadline, or must look while another owner's object stands under its name |
| `ChaosHazards.StallsComeFromLateStarts` | services/api/internal/cluster/chaos_manager.go:256-283 | In every run of the system, a stall has one cause: a caller found the acknowledged resource missing, and after that look a logged Start of this run landed |
| `ChaosHazards.StallIsReachable` | services/api/internal/cluster/chaos_manager.go:256-283 | A run of the system that stalls: two callers start, the resource is lost and the loss noticed, and then the second Start lands |
| `ChaosHazards.LateStampIsReachable` | services/api/internal/cluster/chaos_manager.go:97-110 | A run of the system after which an approval carries a time past its expiry |
| `ChaosNeighbours.SharedNameBlocks` | services/api/internal/cluster/chaos.go:209-218 | A run of the system after which two runs share one name, and the second is stuck while the object of the first stands |
| `ChaosNeighbours.RemovesAnothersIff` | services/api/internal/cluster/chaos.go:286-299 | A reconcile changes the object of another owner under its name if and only if the run is cleaning up or aborting, and then removes it |
| `ChaosNeighbours.ReconcileBesideAnother` | services/api/internal/cluster/chaos_manager.go:347-365 | The same by the manager, for every active run beside another owner's object; no other object and no other record changes |
| `ChaosNeighbours.LossIsNotedIff` | services/api/internal/cluster/chaos_manager.go:326-346 | A running run whose object is gone is noted as failed if and only if it is reconciled before its end |
| `ChaosNeighbours.LossEndsIn` | services/api/internal/cluster/chaos_manager.go:326-413 | Once its targets are healthy it ends failed if it was reconciled before its end, and succeeded otherwise |
| `ChaosNeighbours.DeleteTheNeighbour` | services/api/internal/cluster/chaos.go:286-299 | Reconciling a deleting run, then the running run that shared its name: the object is gone, and the second is noted as failed if and only if its own reconcile came before its end |
| `ChaosNeighbours.NeighboursAreReachable` | services/api/internal/cluster/chaos_manager.go:140-200 | A run of the system that leads to such a pair: a running run that owns its object beside an aborted run of the same name |
| `ChaosNeighbours.SuccessWithoutItsObject` | services/api/internal/cluster/chaos_manager.go:326-413 | A run of the system in which the object of a running run is deleted long before its end and the run is still recorded as succeeded |
| `Approval.ReachableViews` | services/api/internal/cluster/workflow.go:154-309 | Whatever the interleaving: approvals start pending and never flip, plans start undecided if gated and with nothing requested, a plan's decision is pending or the approval's, execution is requested only on approval |
| `Approval.DecisionsNeverFlip` | services/api/internal/cluster/workflow.go:242-268 | A decision, once made, is the decision at every later point |
| `Approval.OpenGateIsAuthorized` | operator/controllers/remediation_controller.go:134-171 | However old the operator's copy of the plan, an open gate means that approval and plan say approved and requested now |
| `Approval.AuthorizationLasts` | services/api/internal/cluster/workflow.go:242-309 | Authorization is never lost |
| `Approval.OperatorPass` | operator/controllers/remediation_controller.go:63-171 | A reconcile on any stored copy changes the cluster only if mutation is enabled and the plan is authorized |
| `Approval.OperatorLife` | operator/controllers/remediation_controller.go:63-171 | Over any interleaving of operator passes with all callers of the protocol, the cluster has changed only if mutation is enabled and the plan is authorized |
| `Approval.Workflow.CreatePlan` | services/api/internal/cluster/workflow.go:154-240 | Creates the plan and, if needed, its approval, each idempotently and possibly stopping in between; alone it always succeeds, and leaves exactly an undecided or ungated plan with nothing requested and a pending approval where there was none |
| `Approval.Workflow.DecideApproval` | services/api/internal/cluster/workflow.go:242-282 | Success leaves approval and plan agreed on the decision; a contrary earlier decision is an error; a conflict means that, or five attempts that each found a newer version; alone, deciding an undecided or equally decided approval succeeds and changes only the decision of the two objects |
| `Approval.Workflow.SetPlanApprovalDecision` | services/api/internal/cluster/workflow.go:497-509 | Copies a decision that is on record, retrying on conflicts; alone only the plan's decision changes |
| `Approval.Workflow.RequestExecution` | services/api/internal/cluster/workflow.go:284-309 | Success means the plan is authorized; a conflict means an unapproved version or five attempts that each found a newer one; alone, it succeeds exactly when the stored plan is approved as required, and only marks it |
| `Approval.Workflow.RequestRollback` | services/api/internal/cluster/workflow.go:323-356 | Refused unless the run is eligible; a conflict means that or five attempts that each found a newer version; success marks the plan; alone, eligibility and a stored plan suffice, and nothing else changes |
| `Approval.Workflow.UpdatePlan` | services/api/internal/cluster/workflow.go:497-509 | Compare-and-swap on the resource version, with replies that may be lost |
| `PlanStore.MemoryStore.CreateRemediationPlanFromFinding` | services/api/internal/store/store.go:306-323 | Exact error cases; a new finding is stored and a stored one kept; a replayed key returns the stored plan and changes nothing; otherwise exactly one plan from the stored or given finding, its run, one log entry and, iff required, an approval are added, and the plan holds exactly the actions that the finding's words ask for |
| `PlanStore.MemoryStore.CreateRemediationPlan` | services/api/internal/store/store.go:294-304 | The same for a finding already stored: not-found exactly without it, invalid exactly without a requester, conflict exactly when the key belongs to another finding |
| `PlanStore.MemoryStore.CreatePlanLocked` | services/api/internal/store/store.go:325-385 | The locked part, and that a fresh plan holds exactly the actions that the finding's words ask for and is gated exactly if one of them is more than namespace defaults |
| `PlanStore.MemoryStore.ExecuteRemediationPlan` | services/api/internal/store/store.go:424-475 | Succeeds exactly for an authenticated actor on a present, not rejected plan that is approved as required; run, status and log change as stated |
| `PlanStore.MemoryStore.Decide` | services/api/internal/store/store.go:948-1041 | Succeeds exactly for an authenticated actor on a pending approval; approval, plan, run and log take over the decision |
| `PlanStore.MemoryStore.Approve` | services/api/internal/store/store.go:724-726 | Exact success and not-found cases; approval, plan status and decision, run state and log become those of an approval |
| `PlanStore.MemoryStore.Reject` | services/api/internal/store/store.go:728-730 | Exact success and not-found cases; approval, plan status and decision, run state and log become those of a rejection |
| `PlanStore.MemoryStore.SyncRemediationPlan` | services/api/internal/store/store.go:400-414 | Stores whatever it is given under a known id, with exact error cases; a copy of any earlier version keeps all invariants |
| `PlanStore.MemoryStore.SyncRemediationRun` | services/api/internal/store/store.go:677-692 | The mirrored run state becomes the plan's status and nothing is logged |
| `PlanStore.MemoryStore.RequestRollback` | services/api/internal/store/store.go:694-722 | Exact success and not-found cases; the stored run, its plan status and the log are marked |
| `PlanStore.MemoryStore.GatedExecutionsAreApproved` | services/api/internal/store/store.go:424-475 | Every logged execution of a gated plan has exactly one approval event, before it, and the plan has no refusal event |
| `PlanStore.MemoryStore.PlansAreComplete` | services/api/internal/store/store.go:325-385 | Every plan has its run, and an approval iff it needs one; a decided plan agrees with its approval |
| `PlanStore.SyncAfterApproval` | services/api/internal/store/store.go:400-414 | After an approval, a sync keeps the plan executable exactly when the copy it carries was read after that approval; otherwise the plan is stranded |
| `PlanStore.Strand` | services/api/internal/store/store.go:400-414 | Every finding whose plan needs an approval gives a stranded plan: created, approved, and written back from the copy read before, it cannot be executed while its approval and its run say approved |
| `PlanStore.ScopesKeepRequestsApart` | services/api/internal/store/store.go:329-338 | Idempotency scopes of keys without the separator are equal exactly for equal requests |
| `PlanStore.ScopeIsOwnIff` | services/api/internal/store/store.go:329-338 | A request shares its scope with no other if and only if neither its requester nor its key contains the separator |
| `PlanStore.AnswerAnother` | services/api/internal/store/store.go:329-338 | Two requesters with colliding scopes: the second is answered with the plan that was made for the first |
| `PlanStore.FreshIdsFit` | services/api/internal/store/store.go:340-346 | A request with a new scope gets an id that no plan has |
| `CorrelationRun.CorrelateWithConfig` | services/api/internal/findings/correlation.go:84-135 | The loops over rules, buckets, windows and groups compute exactly the declarative specification |
| `CorrelationRun.UnionAll` | services/api/internal/findings/correlation.go:89-113 | Two findings share a root exactly when a chain of same-key, same-window links joins them |
| `CorrelationRun.UnionBucket` | services/api/internal/findings/correlation.go:102-112 | The greedy windows of one bucket are united completely, and only linked findings are |
| `CorrelationRun.GroupByRoot` | services/api/internal/findings/correlation.go:114-118 | Groups are the index lists under each root, and compression moves no root |
| `CorrelationRun.AnnotateGroup` | services/api/internal/findings/correlation.go:119-133 | Every member, and nothing else, gets the group's name and its own score in place |
| `CorrelationRun.ComputeScore` | services/api/internal/findings/correlation.go:155-191 | The scored loop equals the declarative score |
| `UnionFind.Find` | services/api/internal/findings/correlation.go:193-198 | Terminates, returns the root, and leaves every root and acyclicity intact |
| `UnionFind.Union` | services/api/internal/findings/correlation.go:200-205 | Exactly the two trees are merged, under the left root |
| `UnionFind.CompressionKeepsRoots` | services/api/internal/findings/correlation.go:193-198 | Pointing a node at its root keeps the array acyclic and changes no root |
| `CorrelationLaws.AcceptedConfigs` | services/api/internal/findings/correlation.go:46-69 | The range checks accept exactly descending bases within 0 to 100, points within 0 to 20 and windows within 1 to 10080, the default included |
| `CorrelationLaws.ScoresAreBounded` | services/api/internal/findings/correlation.go:155-191 | Under an accepted configuration every score is min(100, base + points) with 0 <= base <= final <= 100 |
| `CorrelationLaws.WindowSpan` | services/api/internal/findings/correlation.go:104-111 | Findings in one window lie within the rule's window of each other |
| `CorrelationLaws.OrderDoesNotMatter` | services/api/internal/findings/correlation.go:84-135 | Permuting the input, ties and old annotations included, permutes the output and nothing else |
| `CorrelationLaws.CorrelationIsIdempotent` | services/api/internal/findings/correlation.go:84-135 | Correlating twice is correlating once |
| `CorrelationLaws.GroupNamesAreComponents` | services/api/internal/findings/correlation.go:119-130 | With distinct ids, two findings carry one group name exactly when they are connected |
| `CorrelationMeaning.TwoShareNamesIff` | services/api/internal/findings/correlation.go:71-135 | Two findings with distinct ids get one group name if and only if they share a nonempty workload, image, identity or network exposure within that key's own window in minutes |
| `CorrelationMeaning.SameNameMeans` | services/api/internal/findings/correlation.go:71-135 | In any input with distinct ids, findings of one group name are joined by a chain of findings, each sharing one of the four keys with the next within that key's window |
| `CorrelationMeaning.FollowersShareNames` | services/api/internal/findings/correlation.go:102-112 | Whoever follows a finding that opened a window, with the same key and within the window, gets its group name |
| `CorrelationMeaning.OnlyKeysAndScores` | services/api/internal/findings/correlation.go:137-153 | Which workload and namespace keys are completed and how, and that nothing else of a finding changes but its group name, explanation and score |
| `CorrelationMeaning.ScoresMean` | services/api/internal/findings/correlation.go:155-191 | The score read off the result: the base of the severity, each of six factors exactly on its own condition and with its own points, another source and the number of findings under the same group name among them, summed and capped at 100 |
| `CorrelationMeaning.BasesDescend` | services/api/internal/findings/correlation.go:155-159 | Under an accepted configuration a graver severity never starts lower |
| `Limiter.RequestLimiter.Allow` | services/api/internal/httpapi/middleware.go:74-96 | Every answer is the one a limiter that never deletes would give, with the stated wait; up to 4096 keys all are kept, and above that exactly those seen within five intervals |
| `Limiter.RequestLimiter.Prune` | services/api/internal/httpapi/middleware.go:84-90 | Deletes exactly the keys unseen for more than five intervals, in any order, without changing any later answer |
| `Limiter.LimiterHolds` | services/api/internal/httpapi/middleware.go:74-96 | Any half-open span of one interval admits at most 2 x limit - 1 requests per key |
| `Limiter.SpansAreBounded` | services/api/internal/httpapi/middleware.go:74-96 | The same bound for every log such a limiter can produce |
| `Limiter.AttainBound` | services/api/internal/httpapi/middleware.go:74-96 | For every limit, and any interval of more than one clock tick, a log that attains the bound |
| `Cache.ManagedResourceCache.Enter` | services/api/cmd/kubeathrix-api/main.go:439-460 | Serves within the time-to-live, waits on the channel in flight, or leads a new flight; at most one leader exists and no call begins within the time-to-live of a fill |
| `Cache.ManagedResourceCache.Finish` | services/api/cmd/kubeathrix-api/main.go:461-478 | Logs the outcome, fills or ages the snapshot accordingly, closes the channel, and leaves every waiter on a closed channel |
| `Cache.ManagedResourceCache.Discover` | services/api/cmd/kubeathrix-api/main.go:438-479 | Under any interference, a served snapshot is what the log says the source last returned, plus one stale marker per failed refresh logged since |
| `Cache.LastSuccessMeans` | services/api/cmd/kubeathrix-api/main.go:461-476 | What the log says was last returned is its newest successful fill, and the failures counted are the fills since |
| `Cache.CachedMeans` | services/api/cmd/kubeathrix-api/main.go:461-476 | The cached snapshot is the body and warnings of the newest successful fill, followed by exactly one stale marker per fill since |
| `Cache.FillsAreEarlier` | services/api/cmd/kubeathrix-api/main.go:441-444 | In every log of calls and fills, no earlier fill is later than the newest, so spacing against the newest covers all |
| `Advisor.BuildRequestBody` | services/api/internal/ai/advisor.go:287-322 | Sends the first successive cut that fits; failure means that not even the fully stripped input fits; the evidence ids are the nonempty trimmed ids of what is sent, and the allowed actions those of the plan |
| `AdvisorMeaning.SendLookAlikes` | services/api/internal/ai/advisor.go:467-523 | Two inputs that differ only in what redaction removes give the same sent input, the same evidence ids and the same failures |
| `AdvisorMeaning.ProjectionShows` | services/api/internal/ai/advisor.go:467-523 | Before any cut, every text is the start of the trimmed redacted text of the same raw field, all of it when it fits that field's cap; evidence is the first ten pieces whose id survives redaction, and the other lists are the first elements, in order |
| `CutOrder.CutsGoInOrder` | services/api/internal/ai/advisor.go:534-642 | Each cut takes from the first of 36 parts, in a fixed order, of which anything is left, and changes nothing but that part's field; no cut applies exactly when nothing is left |
| `Advisor.ProjectionIsBounded` | services/api/internal/ai/advisor.go:467-523 | A projected input allows at most 183 cuts, so the 256-attempt cap never decides |
| `Advisor.ChainAt` | services/api/internal/ai/advisor.go:296-320 | Successive cuts keep risk score, approval flag and evidence ids, and end exactly at the fully stripped input |
| `Advisor.CutsKeepIds` | services/api/internal/ai/advisor.go:644-652 | What remains after any number of cuts names only evidence of the input that was cut |
| `Advisor.Draft.ShrinkProjectedInput` | services/api/internal/ai/advisor.go:534-642 | The in-place cut is the first applicable one in the fixed order, and nothing changes when none applies |
| `Projection.ShrinkingCutsDown` | services/api/internal/ai/advisor.go:534-642 | Each cut strictly lowers the measure |
| `Projection.NothingLeftToCut` | services/api/internal/ai/advisor.go:534-642 | No cut applies exactly at the fully stripped input |
| `Projection.BoundedStringIsBounded` | services/api/internal/ai/advisor.go:808-815 | A bounded string is no longer than its bound or its source |
| `Advisor.ValidateProviderOutput` | services/api/internal/ai/advisor.go:654-703 | Accepts exactly the acceptable outputs and returns the cited ids once each, sorted, all of them in the body that was sent |
| `Advisor.NoEvidenceNoCitations` | services/api/internal/ai/advisor.go:698-700 | Without evidence only an empty citation list passes, so the last check can never fire |

## Left out

- OperatorLaws.ReconcileTwice: assumes that nobody else edits the plan's objects in between, and that rollouts are complete when they are looked at; a pending rollout stops the loop, which RunActions states.
- Operator.Reconciler.ReconcileRollback: one item's decoding error is not modelled, because snapshot payloads are values here.
- PlanStore.MemoryStore.SyncRemediationPlan: the store's invariants are promised only for copies of earlier versions with AI text attached, which is what its callers pass; an arbitrary rewrite is stored just the same, but may break them.
- Approval.Workflow.CreatePlan: takes the requirement from the plan's id and starts pending iff approval is required, which PlanBuilder.ApprovalIsSkippedOnlyForGovernance proves of every built plan; the conflict on a differing identity annotation and the finding object it also stores are not modelled, so object names are taken to identify plans.
- ChaosManager.Manager.Request: the preflight is a parameter, either a resource name and a bounded duration or a refusal; manifest field checks, here and before a Start, are not modelled beyond a Start that may fail.
- ChaosManager.Manager.Observe: what the mesh and the pods report is arbitrary and taken as reported; third parties may delete objects and create others at any time, but do not write this application's run labels.
- ChaosTermination.ReconcileUntilEnded: assumes no other caller, deletes that take effect, creations that leave nothing when they fail, and a second between reconciles.
- Limiter.RequestLimiter.Allow: clock readings must not go back; the source reads the clock before it takes the lock, so concurrent requests could be answered slightly out of order.
- Cache.ManagedResourceCache.Discover: waiting is bounded by the caller's patience, which stands for its context; whether the source call ever returns is not modelled.
- Advisor.BuildRequestBody: the length of the encoded body is an arbitrary function of the projected input; JSON encoding itself and its failure are not modelled.
- SHA-256 values (snapshot keys, group names, idempotent plan ids) are taken to be injective, and object names derived from ids likewise.
- Whether a text is a positive resource quantity, and its canonical text, are a parameter; workload fields no action reads are one opaque value; status and server-set metadata are dropped.
- Typed action descriptions, status texts, audit messages and the JSON-patch artifact check (a verdict carried by the action type).
- The 900 KiB snapshot limit, plan status and run mirroring in the operator, finding status updates and finalizers: no effect on the modelled objects.
- Context cancellation in the store, findings' own status, exceptions, evidence bundles, settings and manually recorded audit events.
- Deletion of approval or plan objects, and third parties that edit the objects a plan writes.
- HTTP routing, authentication, redaction patterns, the Kubernetes clients, the Postgres store, adapters, inspectors, managed-resource discovery, the circuit breaker and the console.
