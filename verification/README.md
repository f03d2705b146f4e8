# OJS operator verification

A Dafny model of the OJS Kubernetes operator (package paths below are those of the operator's
repository) and proofs about it. `dafny verify dfyconfig.toml` checks everything.

## What is modelled

Two custom resources, OJSCluster and OJSWorker, are reconciled by two controllers through one API
server. The hard question is what every run keeps: a reconcile is a sequence of calls any of which
can fail, take effect and lose its reply, or never happen because the operator crashed, and between
any two of them users, other controllers and the garbage collector change the same store.

- `OjsTypes`, `Payloads`: specs, status, conditions; names, labels and payloads of the children.
- `ApiServer`, `Operator`: the store and what it does with a request; the whole system, whose
  `Action`s hold all nondeterminism, so that a run is a list of actions.
- `ClusterMachine`, `WorkerMachine`, `Observation`, `Events`: each controller as a coroutine, its
  next call and what it computes from the reply. This is the form invariants are proved about.
- `ClusterReconciler`, `WorkerReconciler`, `Interleaving`: each controller as the class it is, with
  an in-memory resource, a client and a recorder that its methods update in place. `Reconcile` is
  proved to make exactly the coroutine's calls, under every interleaving, so it refines it in final
  world, events and result.
- `Invariants`, `FinalizerSafety`, `Ownership`, `StatusSafety`, `ObservedGeneration`,
  `StatusInMemory`, `PhaseHistory`, `Admission`, `CreationOrder`: safety over all runs.
- `ClusterConvergence`, `WorkerConvergence`, `WorkerHistories`, `Wiring`: what one uninterrupted
  reconcile achieves after any history, what the history must not have done to a worker, and who
  then talks to whom. `Manifests`: every managed field of a settled child in terms of the spec.
- `ResultLaws`: results and events as a law on the calls a reconcile made and the replies it got.
- `Webhook`: the validators. `JoinedLists`: joinStrings. `DesiredReplicas`, `GoIntegers`: replica
  arithmetic with Go's integers. `Metrics`, `CollectorThreads`: the metrics cache as a heap class
  and under concurrent threads. `Pointers`, `DeepCopy`: the generated copy methods on a heap.

## Assumptions

- At most one reconcile per resource is in flight. Reads see the current store.
- A write carries the resource version it was read at and fails on any other; a successful one
  refreshes the object in memory; one that changes nothing keeps the version.
- Users and other controllers leave the operator's finalizers and the status of its resources
  alone. They may do anything else to the custom resources. Other writers may create a child that has
  no controller or a foreign one, edit any child's fields but not its controller reference nor a
  Deployment's selector, and delete any child.
- The validating webhooks (on or off for a whole run) see creations and updates, not status updates.
- SetControllerReference refuses a child another resource controls; as in controller-runtime
  v0.20.4 it compares kind and name, not uid, so a recreated resource takes over its predecessor's
  children.
- CreateOrUpdate is get, mutate, then create, update or nothing. Deployment selectors are immutable:
  an update that changes one is rejected. There is no server-side defaulting of managed fields.
- The collector deletes a child whose controlling resource of that uid is gone. Children have no
  finalizers of their own. A resource being deleted goes away with its last finalizer.
- A condition's transition time moves only when its status flips; the clock is read once per step.

## Where code and expectation differ

- The disabled-autoscaler path deletes the HPA by name without looking at its owner
  (`Ownership.WorkerSparesOthers` makes it the one exception).
- Replica arithmetic is not antitone in the target for a negative depth and a negative minimum
  (`DesiredReplicas.AntitoneInTarget` says exactly when it is), and it wraps beyond 2^31 - 1 workers
  for every target, 1 included, as far as such a depth fits an int64.
- A cluster spec's copy shares three fields with the original (`DeepCopy.ClusterSpecStruct.DeepCopy`).
- The worker validator admits entries with commas, so an admitted list of two or more entries always
  joins like an admitted one-entry list. `JoinedLists.AdmittedToldExactly` says exactly which admitted
  lists the variables determine; among comma-free lists they determine every one.
- A worker's own variables may redefine OJS_URL: they come later and the last one counts
  (`Wiring.OjsUrlIsTheParents` says exactly when it is the parent's, `Wiring.OverriddenUrlLeadsElsewhere`
  gives the failing input).
- The worker's selector includes its clusterRef, and Deployment selectors are immutable: a worker
  whose clusterRef was edited fails every reconcile until its Deployment is deleted or the clusterRef
  put back (`WorkerHistories.EditedWorkerIsStuck`, `WorkerHistories.RetargetedWorkerIsStuck`).

## Model

| member | source | states |
|---|---|---|
| ClusterReconciler.Reconciler.Reconcile | internal/controller/ojscluster_controller.go:61-156 | Under every interleaving with other actors and every pattern of failed calls and lost replies, the method leaves the world a step-by-step driven reconcile leaves, records exactly its events, and returns the result the law of results gives for the calls made and the replies got |
| ClusterReconciler.Reconciler.ReconcileFetched | internal/controller/ojscluster_controller.go:72-90 | Deletion and finalizer branches: the code makes each call the coroutine makes next and ends with its result |
| ClusterReconciler.Reconciler.HandleDeletion | internal/controller/ojscluster_controller.go:72-82 | On deletion only the finalizer is removed; result and event match the coroutine |
| ClusterReconciler.Reconciler.ReconcileAnchored | internal/controller/ojscluster_controller.go:92-100 | A new cluster is first persisted as Pending with Progressing set; a failed write ends the reconcile with an error |
| ClusterReconciler.Reconciler.ReconcileInitialized | internal/controller/ojscluster_controller.go:102-115 | A backend failure sets BackendReady and Degraded, writes the status, ignores that write's failure and returns the delayed error |
| ClusterReconciler.Reconciler.ReportBackendFailure | internal/controller/ojscluster_controller.go:104-112 | Makes the coroutine's one status write, whose content StatusInMemory.BackendIsTold gives, and goes on to the same end whether or not it succeeds |
| ClusterReconciler.Reconciler.ReconcileChildren | internal/controller/ojscluster_controller.go:117-139 | Children in the fixed order, the first failure ending the reconcile |
| ClusterReconciler.Reconciler.ReconcileMonitorAndStatus | internal/controller/ojscluster_controller.go:141-155 | A ServiceMonitor failure is only recorded; the status is updated all the same |
| ClusterReconciler.Reconciler.CreateOrUpdate | internal/controller/ojscluster_controller.go:166-177 | Get, then create, refuse, skip or update, each the call the coroutine makes, for any reply |
| ClusterReconciler.Reconciler.ReconcileConfigMap | internal/controller/ojscluster_controller.go:158-179 | The stepwise closure computes the ConfigMap payload of the spec |
| ClusterReconciler.Reconciler.BuildServerEnv | internal/controller/ojscluster_controller.go:211-241 | The appended variables are the specified ones, secret or ConfigMap |
| ClusterReconciler.Reconciler.BuildPodSecurityContext | internal/controller/ojscluster_controller.go:527-551 | Field-by-field overriding of defaults equals the specified security context |
| ClusterReconciler.Reconciler.BuildServerPod | internal/controller/ojscluster_controller.go:243-366 | Container, resources, service account, spread and affinity built step by step equal the specified pod |
| ClusterReconciler.Reconciler.ReconcileDeployment | internal/controller/ojscluster_controller.go:181-373 | The server Deployment written is the one the spec determines |
| ClusterReconciler.Reconciler.ReconcileService | internal/controller/ojscluster_controller.go:375-397 | The Service written is the one the spec determines |
| ClusterReconciler.Reconciler.ReconcileEmbeddedBackend | internal/controller/ojscluster_controller.go:399-406 | Only redis is embedded; any other type fails without a call |
| ClusterReconciler.Reconciler.ReconcileEmbeddedRedis | internal/controller/ojscluster_controller.go:408-525 | Redis Deployment, then redis Service; the second is not tried when the first fails |
| ClusterReconciler.Reconciler.ReconcilePDB | internal/controller/ojscluster_controller.go:553-601 | No call when one replica or disabled; else minAvailable, maxUnavailable or the default of 1, in that order of preference |
| ClusterReconciler.Reconciler.ReconcileServiceMonitor | internal/controller/ojscluster_controller.go:603-638 | Failure is reported, never fatal |
| ClusterReconciler.Reconciler.Observe | internal/controller/ojscluster_controller.go:649-687 | Counts to phase and conditions, set one after the other, equal the status function the invariants are proved about |
| ClusterReconciler.Reconciler.UpdateStatus | internal/controller/ojscluster_controller.go:646-696 | Read the Deployment, derive the status, announce a phase change, write |
| OjsTypes.SetCondition | internal/controller/ojscluster_controller.go:698-706 | Upsert by type: afterwards the type holds the given status and generation, its transition time moved only if the status flipped, and every other type is as before |
| WorkerReconciler.Reconciler.Reconcile | internal/controller/ojsworker_controller.go:50-130 | As for clusters: final world, events, and the lawful result |
| WorkerReconciler.Reconciler.ReconcileAnchored | internal/controller/ojsworker_controller.go:81-129 | Missing parent: conditions, phase Error, status write whose failure is ignored, 30s requeue; otherwise Deployment, autoscaler, status |
| WorkerReconciler.Reconciler.ReconcileFetched | internal/controller/ojsworker_controller.go:61-79 | Deletion and finalizer branches |
| WorkerReconciler.Reconciler.BuildWorkerEnv | internal/controller/ojsworker_controller.go:155-169 | OJS_URL, joined queues and job types, concurrency only if positive, then the user's variables |
| WorkerReconciler.Reconciler.ReconcileWorkerDeployment | internal/controller/ojsworker_controller.go:132-200 | The worker Deployment written is the one the spec determines |
| WorkerReconciler.Reconciler.ReconcileWorkerHPA | internal/controller/ojsworker_controller.go:302-346 | Disabled: look up, delete by name, a failed look-up taken for absence; enabled: create or update |
| WorkerReconciler.Reconciler.UpdateWorkerStatus | internal/controller/ojsworker_controller.go:202-252 | Read, derive, announce, write; the object is refreshed by the write |
| ResultLaws.ClusterResultIsLawful | internal/controller/ojscluster_controller.go:61-156 | On calls and replies alone, for every world and script: nothing is returned exactly when the cluster was not found, was let go or had its final status stored; an error at once exactly when the read, a finalizer write or the first status failed; an error after ten seconds otherwise. Each kind of event is recorded exactly when the calls call for it |
| ResultLaws.WorkerResultIsLawful | internal/controller/ojsworker_controller.go:50-130 | The same for workers: a 30s requeue exactly when the parent look-up answered not found, a polling requeue exactly when the final status was stored with autoscaling on, nothing when it was with it off or the worker was gone or let go, an error otherwise; and the events |
| StatusInMemory.BackendIsTold | internal/controller/ojscluster_controller.go:104-114 | In every reachable world a reconcile about to report a failed backend says BackendReady false and Degraded true, and one of an embedded cluster past its backend says BackendReady true |
| Observation.ObserveTells | internal/controller/ojscluster_controller.go:649-687 | The derived status has the Deployment's counts whatever the phase (or the old ones when there is none), the phase they stand for, all four conditions, and the old BackendReady |
| Interleaving.DriveIsARun | internal/controller/ojscluster_controller.go:61-156 | A driven cluster reconcile is a run of the system, so every invariant below holds of the imperative method |
| Interleaving.DrivenReconcileIsReachable | internal/controller/ojscluster_controller.go:61-156 | Calling Reconcile in a reachable world leads to a reachable world, whatever happens around it |
| Interleaving.UndisturbedDriveFinishes | internal/controller/ojscluster_controller.go:61-156 | Undisturbed, it is the reconcile the convergence theorems are about, and its events are the run's |
| Interleaving.DriveWorkerIsARun | internal/controller/ojsworker_controller.go:50-130 | The same for workers |
| Interleaving.DrivenWorkerReconcileIsReachable | internal/controller/ojsworker_controller.go:50-130 | The same for workers |
| Interleaving.UndisturbedDriveWorkerFinishes | internal/controller/ojsworker_controller.go:50-130 | The same for workers |
| Invariants.StepKeepsInv | internal/controller/ojscluster_controller.go:61-156 | Every step of either controller, a user, the collector, a foreign writer, a failing call or a crash keeps the invariant tying each in-flight reconcile's memory to the store |
| Invariants.ReachableInv | internal/controller/ojsworker_controller.go:50-130 | Hence every reachable world satisfies it |
| FinalizerSafety.ClusterWritesAreAnchored | internal/controller/ojscluster_controller.go:73-90 | Every child write of a cluster reconcile is made while the cluster is stored, holds its finalizer, and names it as controller |
| FinalizerSafety.WorkerWritesAreAnchored | internal/controller/ojsworker_controller.go:62-79 | The same for workers, deletions of a child included |
| FinalizerSafety.ClusterReleasedForGood | internal/controller/ojscluster_controller.go:73-82 | From any reachable world: after the step that takes the finalizer off, it never returns for that incarnation and its set of children only shrinks, over every run |
| FinalizerSafety.WorkerReleasedForGood | internal/controller/ojsworker_controller.go:62-71 | The same for workers |
| FinalizerSafety.ReleasedForGood | internal/controller/ojscluster_controller.go:73-82 | The induction behind both: once an incarnation is released it stays so |
| FinalizerSafety.ReachableUidsDistinct | internal/controller/ojscluster_controller.go:61-156 | In every reachable store a uid belongs to one resource of its kind |
| FinalizerSafety.CollectedForGood | internal/controller/ojsworker_controller.go:62-71 | After the resource is gone, every run in which the collector gets round to each child it left ends with none of them, whatever happens in between and after |
| FinalizerSafety.ClusterFinalizerGoesOnlyOnDeletion | internal/controller/ojscluster_controller.go:73-90 | The finalizer is lost only through the cluster's own reconcile, and only while it is being deleted |
| FinalizerSafety.WorkerFinalizerGoesOnlyOnDeletion | internal/controller/ojsworker_controller.go:62-79 | The same for workers |
| FinalizerSafety.ClusterSparesFinalizers | internal/controller/ojscluster_controller.go:74-90 | No call of a cluster reconcile touches anybody else's finalizer |
| FinalizerSafety.WorkerSparesFinalizers | internal/controller/ojsworker_controller.go:63-79 | Nor does one of a worker reconcile |
| Ownership.ClusterSparesOthers | internal/controller/ojscluster_controller.go:167 | No cluster step changes a child that belongs to anybody else, even one sharing its name |
| Ownership.WorkerSparesOthers | internal/controller/ojsworker_controller.go:312-315 | No worker step does either, except exactly the delete by name of an autoscaler, which only a reconcile whose spec does not enable autoscaling gets to |
| Ownership.ReachableAutoscales | internal/controller/ojsworker_controller.go:311-317 | In every reachable world an autoscaler is written only by a reconcile whose spec enables it and looked up for deletion only by one whose spec does not |
| WorkerConvergence.ForeignAutoscalerFate | internal/controller/ojsworker_controller.go:311-317 | An uninterrupted reconcile deletes an autoscaler of somebody else exactly when it gets past its Deployment and the spec does not enable autoscaling, and else leaves it alone |
| WorkerHistories.ForeignAutoscalerIsDeleted | internal/controller/ojsworker_controller.go:312-315 | A reachable world where it does |
| Ownership.ControllerForLife | internal/controller/ojsworker_controller.go:140-148 | Over every run a controlled child that still exists is controlled by the same resource |
| Ownership.ClusterChildNamesNeverCollide | internal/controller/ojscluster_controller.go:161-164 | Among clusters, children share a key only if they are the same child of the same cluster, for all name strings |
| Ownership.WorkerChildNamesNeverCollide | internal/controller/ojsworker_controller.go:138-143 | Among workers, children share a key only if they are the same child of the same worker |
| Ownership.WorkerMeetsCluster | internal/controller/ojsworker_controller.go:138-143 | A worker meets a cluster on a key exactly when it is named <cluster>-server or <cluster>-redis |
| StatusSafety.ClusterStatusInvariant | internal/controller/ojscluster_controller.go:646-706 | In every reachable store: Running iff Ready, Running or Scaling iff Available, Pending or Scaling iff Progressing, counts agree with the phase, phase is never Error, one condition per type |
| StatusSafety.WorkerStatusInvariant | internal/controller/ojsworker_controller.go:202-262 | In every reachable store: Running iff Ready, Scaling or Error iff Degraded, never Ready and Degraded together, one condition per type |
| OjsTypes.SetConditionKeepsUnique | internal/controller/ojscluster_controller.go:698-706 | Setting a condition never duplicates a type |
| OjsTypes.UniqueMeansDistinct | internal/controller/ojscluster_controller.go:698-706 | That notion of uniqueness is pairwise distinct types, and then Find sees every condition |
| ObservedGeneration.ClusterStatusWriteIsCurrent | internal/controller/ojscluster_controller.go:93-97 | When a status write goes through, every condition touched carries the generation stored at that moment and every other one is the stored one |
| ObservedGeneration.WorkerStatusWriteIsCurrent | internal/controller/ojsworker_controller.go:82-98 | The same for workers |
| ObservedGeneration.ClusterObservedGenerationsGrow | internal/controller/ojscluster_controller.go:646-706 | Over every run no condition disappears, no observed generation decreases and none exceeds the stored generation |
| ObservedGeneration.WorkerObservedGenerationsGrow | internal/controller/ojsworker_controller.go:202-262 | The same for workers |
| PhaseHistory.EventsNameThePersistedPhase | internal/controller/ojscluster_controller.go:689-693 | On every run, lost writes included, a PhaseChanged event names the stored phase as its source |
| PhaseHistory.EventsAreThePhaseHistory | internal/controller/ojscluster_controller.go:646-696 | On runs that lose no status write the events are exactly the persisted phase changes, a connected chain between the stored phases at both ends |
| Webhook.ValidateCluster | internal/webhook/ojscluster_webhook.go:48-68 | Accepts exactly the admissible specs |
| Webhook.ValidateWorker | internal/webhook/ojsworker_webhook.go:38-72 | Accepts exactly the admissible specs |
| Webhook.ClusterRejectionIsTheFirstFault | internal/webhook/ojscluster_webhook.go:48-68 | A rejection names a fault the spec has, and the first the validator looks for |
| Webhook.WorkerRejectionIsTheFirstFault | internal/webhook/ojsworker_webhook.go:38-72 | The same for workers, an empty entry by its first position |
| Webhook.FirstEmpty | internal/webhook/ojsworker_webhook.go:48-52 | Finds the first empty entry, if any |
| Admission.ReachableAdmitted | internal/webhook/ojscluster_webhook.go:28-42 | With the webhooks on, every stored spec in every reachable store is admitted |
| Admission.ClusterFinalizerWriteExactly | internal/controller/ojscluster_controller.go:76-89 | An up-to-date finalizer write goes through exactly if the stored spec is admissible |
| Admission.WorkerFinalizerWriteExactly | internal/controller/ojsworker_controller.go:65-78 | The same for workers |
| Admission.ClusterDeletionIsNeverBlocked | internal/webhook/ojscluster_webhook.go:36-42 | In reachable worlds validation never keeps a deleted cluster from losing its finalizer |
| Admission.WorkerDeletionIsNeverBlocked | internal/webhook/ojsworker_webhook.go:26-32 | The same for workers |
| Admission.ServerReplicasArePositive | internal/controller/ojscluster_controller.go:182-204 | With the webhooks on, every server Deployment written asks for at least one replica |
| Admission.AutoscalerBoundsAreOrdered | internal/controller/ojsworker_controller.go:329-330 | With the webhooks on, every autoscaler written has 1 <= min <= max |
| CreationOrder.CreatedInOrder | internal/controller/ojscluster_controller.go:103-139 | While nobody else deletes children, every store reachable through any crash has them in creation order, and a generated URL in a ConfigMap is the embedded redis's, whose Deployment and Service exist |
| ClusterConvergence.ClusterConverges | internal/controller/ojscluster_controller.go:61-156 | From every reachable store one uninterrupted reconcile makes every required child what the current spec determines, if and only if none was held by another controller or another selector |
| ClusterConvergence.ConvergedStaysConverged | internal/controller/ojscluster_controller.go:61-156 | It touches nothing else, stores a status that tells the Deployment's counts, phase and conditions and, with an embedded backend, BackendReady true, and a further reconcile changes no child and sends no request that writes one |
| ClusterConvergence.FailedBackendIsStored | internal/controller/ojscluster_controller.go:103-113 | An uninterrupted reconcile of a live cluster whose embedded backend is not redis, or whose redis Deployment or Service cannot be written, stores BackendReady false and Degraded true |
| ClusterConvergence.OnlySupportedBackendsWriteChildren | internal/controller/ojscluster_controller.go:399-406 | In every reachable world a cluster reconcile about to write a child has a backend that is not embedded or is redis: anything else stops every reconcile before its first child |
| ClusterConvergence.UnsupportedBackendWritesNoChild | internal/controller/ojscluster_controller.go:399-406 | An uninterrupted reconcile with such a backend leaves the children as they are |
| ClusterConvergence.OwnClusterConverges | internal/controller/ojscluster_controller.go:61-156 | From every reachable store, with nothing foreign at the names the spec needs, one uninterrupted reconcile converges |
| ClusterConvergence.OwnChildrenAreFree | internal/controller/ojscluster_controller.go:206-209 | In reachable stores a child the cluster controls never blocks it |
| ClusterConvergence.ResumeDescends | internal/controller/ojscluster_controller.go:61-156 | Every call brings a reconcile nearer its end, whatever the reply |
| WorkerConvergence.WorkerConverges | internal/controller/ojsworker_controller.go:50-130 | With the parent present one uninterrupted reconcile leaves the Deployment determined by the spec and the autoscaler present exactly when enabled, if and only if neither name was held by another controller and the Deployment found, if any, has the selector of the current clusterRef |
| WorkerHistories.FixedRefConverges | internal/controller/ojsworker_controller.go:50-130 | After any aborted history in which users keep one clusterRef, with nothing foreign at its names, one uninterrupted reconcile converges |
| WorkerHistories.OwnDeploymentFreeExactly | internal/controller/ojsworker_controller.go:150-153 | In every reachable world a worker's own Deployment can be written exactly if it was made for the current clusterRef |
| WorkerHistories.SelectorForLife | internal/controller/ojsworker_controller.go:150-153 | Over every run a Deployment that still stands has the selector it was made with |
| WorkerHistories.RetargetedWorkerIsStuck | internal/controller/ojsworker_controller.go:150-153 | While a Deployment made for another clusterRef stands, however long the history, every uninterrupted reconcile changes no child and does not converge |
| WorkerHistories.EditedWorkerIsStuck | internal/controller/ojsworker_controller.go:150-153 | So every converged worker given another existing cluster by an admitted edit is stuck |
| WorkerHistories.RetargetableWorker | internal/controller/ojsworker_controller.go:150-153 | Such a worker exists in a reachable world |
| WorkerHistories.OrphansWriteNoChild | internal/controller/ojsworker_controller.go:82-98 | While the parent stays away, at every moment of every history the call in flight is no child write and, however it ends, changes no child |
| WorkerConvergence.ConvergedWorkerStaysConverged | internal/controller/ojsworker_controller.go:106-117 | The stored status then tells the Deployment's counts, phase and conditions, the phase is never Error, and a further reconcile changes no child and sends no request that writes or deletes one |
| WorkerConvergence.NoParentNoChildWrites | internal/controller/ojsworker_controller.go:82-98 | With the parent absent a reconcile changes no child, however its calls end, and undisturbed stores phase Error and ends with the 30s requeue |
| Wiring.SelectorsAreIsolated | internal/controller/ojscluster_controller.go:746-754 | A generated selector matches a generated pod template exactly for the same component of the same owner |
| Manifests.WorkerReadsItsLists | internal/controller/ojsworker_controller.go:155-169 | A settled worker's pods read their queues and job types, by splitting, and their concurrency in decimal exactly if positive, each unless the worker's own variables redefine it |
| Manifests.OwnVariablesStand | internal/controller/ojsworker_controller.go:169 | And the worker's own variables as they are |
| Manifests.WorkerRunsItsSpec | internal/controller/ojsworker_controller.go:132-200 | The other fields of a settled worker Deployment in terms of the spec |
| Manifests.AutoscalerScalesTheWorker | internal/controller/ojsworker_controller.go:321-343 | A settled autoscaler scales the worker's own Deployment, within the spec's bounds, at 80 percent |
| Manifests.ConfigMapTellsTheBackend | internal/controller/ojscluster_controller.go:172-175 | The settled ConfigMap: engine, and the user's URL, the embedded redis's, or none |
| Manifests.ServerReadsItsBackend | internal/controller/ojscluster_controller.go:211-241 | What a settled server reads: its engine, and under that engine's variable name the URL, from the secret or the ConfigMap |
| Manifests.ServerRunsItsSpec | internal/controller/ojscluster_controller.go:181-373 | The other fields of a settled server Deployment in terms of the spec |
| Manifests.ServerIsSecured | internal/controller/ojscluster_controller.go:527-551 | Its security: the spec's fields, and restrictive defaults for the rest |
| Manifests.ServerIsSpread | internal/controller/ojscluster_controller.go:336-364 | Its spreading: the spec's constraints, or over zones and hosts by its own labels with several replicas |
| Manifests.BudgetCoversTheServer | internal/controller/ojscluster_controller.go:581-597 | A settled disruption budget sets one field: the spec's minimum, else its maximum, else one pod down |
| Manifests.OptionalChildren | internal/controller/ojscluster_controller.go:553-567 | Which optional children a spec asks for |
| Manifests.ServerIsServed | internal/controller/ojscluster_controller.go:386-395 | The settled Service and ServiceMonitor of the server |
| Manifests.RedisRuns | internal/controller/ojscluster_controller.go:408-525 | The settled embedded redis |
| Manifests.ChildrenAreNamed | internal/controller/ojscluster_controller.go:161-164 | Where each child is found |
| Manifests.DecimalSpells | internal/controller/ojsworker_controller.go:163-168 | The concurrency is in decimal notation without leading zeros |
| Wiring.HostsResolve | internal/controller/ojscluster_controller.go:708-727 | A generated host resolves to its Service and namespace exactly when neither contains a dot |
| Wiring.ServerReadsItsConfig | internal/controller/ojscluster_controller.go:211-241 | The server's backend variable carries the ConfigMap's URL |
| Wiring.ServerFindsItsRedis | internal/controller/ojscluster_controller.go:408-525 | Following that variable through host, Service, selector and named port ends at this cluster's redis container |
| Wiring.ReconcileWiresRedis | internal/controller/ojscluster_controller.go:102-139 | One uninterrupted reconcile from any reachable store closes that loop |
| Wiring.OjsUrlIsTheParents | internal/controller/ojsworker_controller.go:155-169 | OJS_URL is the parent's server exactly when the worker's own variables do not redefine it, or to the same value |
| Wiring.WorkerDials | internal/controller/ojsworker_controller.go:155-169 | Where a settled worker's pods dial, whatever variables it brings |
| Wiring.WorkerFindsItsServer | internal/controller/ojsworker_controller.go:155-161 | Under that condition OJS_URL leads to the http port of the parent's server |
| Wiring.OverriddenUrlLeadsElsewhere | internal/controller/ojsworker_controller.go:169 | Every admitted worker stays admitted with a variable that makes its pods dial elsewhere |
| Wiring.ReconcileWiresWorker | internal/controller/ojsworker_controller.go:50-130 | One uninterrupted reconcile from any reachable store points the worker's pods at its parent's settled server |
| JoinedLists.Join | internal/controller/ojsworker_controller.go:281-290 | The loop computes the join; its length is the sum of lengths plus separators |
| JoinedLists.JoinUndoesSplit | internal/controller/ojsworker_controller.go:281-290 | Every string is the join of its comma-separated parts |
| JoinedLists.SplitUndoesJoin | internal/controller/ojsworker_controller.go:281-290 | Splitting undoes the join on exactly the non-empty comma-free lists |
| JoinedLists.OnlyEmptyListsCollide | internal/controller/ojsworker_controller.go:281-290 | Among comma-free lists only [] and [""] collide |
| JoinedLists.ToldExactly | internal/controller/ojsworker_controller.go:281-290 | A list without empty entries is determined by its join exactly when it is empty or is one entry with no comma inside |
| JoinedLists.AdmittedToldExactly | internal/webhook/ojsworker_webhook.go:45-62 | So of the queues and job types the validator admits, exactly those can be read back among all admitted ones |
| JoinedLists.AdmittedListsAreTold | internal/webhook/ojsworker_webhook.go:45-62 | Among admitted comma-free lists the variables determine the lists |
| JoinedLists.AdmittedCommasCollide | internal/webhook/ojsworker_webhook.go:45-62 | Entries with commas are admitted and do collide |
| DesiredReplicas.Compute | internal/metrics/queue_metrics.go:120-135 | The stepwise code equals the wrapped ceiling clamped, and stays in [min, max] for every int64 depth; max wins when max < min |
| GoIntegers.Wraps64 | internal/metrics/queue_metrics.go:112 | So does the sum that makes a total |
| GoIntegers.Wraps32 | internal/metrics/queue_metrics.go:124 | Conversion keeps the one value in range that differs by a multiple of the width |
| DesiredReplicas.CeilOfQuotient | internal/metrics/queue_metrics.go:124-127 | Truncated quotient plus one for a positive remainder is the ceiling, for either sign |
| DesiredReplicas.NoWrapMeansClampedCeiling | internal/metrics/queue_metrics.go:120-135 | For -2^31*t <= depth <= (2^31-1)*t it is the clamped ceiling |
| DesiredReplicas.WhenTheCodeIsRight | internal/metrics/queue_metrics.go:124-133 | For all depths: it is the clamped ceiling exactly in range, or when max <= min, or when the wrapped count lands beyond the same bound |
| DesiredReplicas.OneMoreJobWraps | internal/metrics/queue_metrics.go:124 | The upper bound is sharp: one job more turns max into min |
| DesiredReplicas.MonotoneInDepth | internal/metrics/queue_metrics.go:120-135 | More jobs never mean fewer workers, in range |
| DesiredReplicas.AntitoneInTarget | internal/metrics/queue_metrics.go:120-135 | A larger target never means more workers, for all targets that keep the depth in range, exactly when depth >= 0 or the clamp hides that it is negative: min >= 0, max <= min, or max at most the count of the least target in range |
| DesiredReplicas.LeastTargetIsLeast | internal/metrics/queue_metrics.go:124 | A negative depth is in range exactly from that target on |
| DesiredReplicas.RisingTargetRaises | internal/metrics/queue_metrics.go:124-133 | Otherwise two named targets in range show more workers for the larger one |
| DesiredReplicas.LeastCovering | internal/metrics/queue_metrics.go:124-133 | The answer covers the depth unless capped, and one fewer would not unless lifted |
| Metrics.Collector.GetQueueDepth | internal/metrics/queue_metrics.go:51-59 | The pending count of a known queue, else (0, false) |
| Metrics.Collector.GetAllMetrics | internal/metrics/queue_metrics.go:61-70 | A new map of the same entry pointers |
| Metrics.Collector.Poll | internal/metrics/queue_metrics.go:72-117 | A complete response is merged, field by field, with entries that are all new; a failure changes nothing |
| Metrics.LastWriterWins | internal/metrics/queue_metrics.go:107-115 | The last entry of a name in a response is the one kept: its name, pending and active counts, the time of the poll, and the sum wrapped to int64 |
| Metrics.TotalIsTheSum | internal/metrics/queue_metrics.go:112 | The total is the sum exactly when that fits an int64 |
| Metrics.PollThenAsk | internal/metrics/queue_metrics.go:51-59 | After a decoded poll a caller is told the pending count of the last entry of each queue in it |
| Metrics.UnmentionedStays | internal/metrics/queue_metrics.go:107-115 | A queue a response does not mention keeps its entry |
| Metrics.PollPastSnapshot | internal/metrics/queue_metrics.go:61-70 | No sequence of later polls changes a snapshot or any entry in it, though the entries are shared |
| CollectorThreads.EveryAnswerIsLinearizable | internal/metrics/queue_metrics.go:51-70 | With any number of threads stepping entry by entry under the lock, every answer is the fold of the polls completed by then: none by halves, all that completed before the call |
| CollectorThreads.DepthIsTheLastEntrys | internal/metrics/queue_metrics.go:51-59 | With any number of threads a depth is known exactly if some poll completed by then mentions the queue, and is the pending count of the last entry in the last such poll |
| CollectorThreads.SnapshotIsTheLastEntries | internal/metrics/queue_metrics.go:61-70 | And so is every entry of a snapshot, field by field |
| CollectorThreads.DoKeepsInv | internal/metrics/queue_metrics.go:104-117 | Every step of every thread keeps the lock and half-done-write invariant |
| CollectorThreads.SnapshotsNeverRegress | internal/metrics/queue_metrics.go:61-70 | Of two snapshots in real-time order the later has every queue of the earlier, none older |
| CollectorThreads.KnownQueuesStay | internal/metrics/queue_metrics.go:104-117 | At every step of every run known queues stay and timestamps do not go back |
| CollectorThreads.SequentialPollsFold | internal/metrics/queue_metrics.go:72-117 | From one thread the class computes that fold, failed polls dropping out |
| DeepCopy.WorkerSpecStruct.DeepCopy | api/v1alpha1/zz_generated_deepcopy.go:250-290 | Equal value, nil slices and pointers kept nil, all storage fresh |
| DeepCopy.CopyEnv | api/v1alpha1/zz_generated_deepcopy.go:272-277 | Element by element, each nested pointer getting a cell of its own |
| DeepCopy.WorkerStatusStruct.DeepCopy | api/v1alpha1/zz_generated_deepcopy.go:303-316 | Equal value, all storage fresh |
| DeepCopy.WorkerStruct.DeepCopy | api/v1alpha1/zz_generated_deepcopy.go:191-197 | Equal value, all storage fresh |
| DeepCopy.CopyItems | api/v1alpha1/zz_generated_deepcopy.go:218-229 | The worker list: nil kept nil, every element equal, its storage fresh and disjoint from every other copied element's |
| DeepCopy.WritesThroughCopyStayThere | api/v1alpha1/zz_generated_deepcopy.go:218-229 | Whatever is written to the storage of a disjoint copy, the original keeps its value |
| DeepCopy.WritesThroughPolicyCopyStayThere | api/v1alpha1/zz_generated_deepcopy.go:394-416 | The same for the policy spec, nested policy included |
| DeepCopy.ModelPolicyStruct.DeepCopy | api/v1alpha1/zz_generated_deepcopy.go:374-381 | Equal value, fresh slice |
| DeepCopy.PolicySpecStruct.DeepCopy | api/v1alpha1/zz_generated_deepcopy.go:394-416 | Equal value, nested policy included, all storage fresh |
| DeepCopy.ClusterStatusStruct.DeepCopy | api/v1alpha1/zz_generated_deepcopy.go:104-113 | Equal value, fresh conditions |
| DeepCopy.ClusterSpecStruct.DeepCopy | api/v1alpha1/zz_generated_deepcopy.go:72-91 | Equal value always; independent exactly when security context, disruption budget and topology constraints are all nil |
| DeepCopy.EditSharedSecurityContext | api/v1alpha1/zz_generated_deepcopy.go:72-91 | A write through the copy's security context does reach the original |
| Pointers.CopySlice | api/v1alpha1/zz_generated_deepcopy.go:252-256 | nil stays nil, otherwise a new array with the same elements |

## Left out

- Reasons and messages of conditions, and the wording of events: conditions carry type, status,
  generation and transition time, events their kind and phases.
- Constant payloads: probes, default resource quantities, capabilities, volumes, seccomp profiles,
  the HPA's API versions and the ServiceMonitor's endpoint path and interval.
- Removal of a disruption budget, an embedded redis or a ServiceMonitor the spec no longer asks for:
  the code does not attempt it, and convergence is stated for what is currently required.
- Convergence of the ServiceMonitor: its errors are swallowed.
- `Draining`, `lastScaleTime`, `activeJobs` and `queueDepth` in the status, which no controller sets
  (they are copied by the copy methods), and spec fields no controller reads.
- Durations: the polling interval stays a string, parsing it is outside the model.
- int32 ranges of spec fields: the controllers only compare and copy them. Wrap-around is modelled
  in the replica arithmetic and in the metrics totals.
- HTTP, JSON and authentication of a poll: a poll is a failure or an arbitrary decoded list.
- Writer preference and fairness of the reader/writer lock: only what it excludes matters here.
- Caches, work queues, leader election, the manager, charts and RBAC.
- Secrets: what a variable taken from one contains.
- ClusterReconciler.Reconciler.Reconcile: split over several methods along the source's comments, so
  that each block has a contract of its own; a crash in the middle is a step of `Operator`, since
  the method then never returns.
- WorkerReconciler.Reconciler.ReconcileAnchored: the parent cluster is read only for its name and
  namespace, which are the ones it was looked up by.
- DeepCopy.WorkerSpecStruct.DeepCopy: a struct is a value holding references and the out pointer a
  local of that type, so writing through an out that is the receiver itself is not modelled; type
  and object metadata, copied by library code, are one value. Slices are whole arrays, without
  capacity or sharing of a backing array.
- DeepCopy.CopyItems: the cluster and policy lists are copied by the same loop and left out.
- CreationOrder.CreatedInOrder: nobody but the operator deletes children, edits ConfigMaps or
  creates ones under a cluster's control; with such actors the order can be broken at any time.
