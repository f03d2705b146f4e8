/**
 The generated DeepCopyInto methods.  Each starts by copying the struct, pointers and all, and then
 gives every pointer and slice field that is not nil storage of its own.
 */
module DeepCopy {
  import opened OjsTypes
  import opened Pointers

  // ---------------------------------------------------------------- values

  datatype Scaling = Scaling(
    enabled: bool, minReplicas: int, maxReplicas: int, targetJobsPerWorker: int, scaleUpThreshold: int,
    scaleDownDelay: string, pollingInterval: string)

  datatype Shutdown = Shutdown(timeoutSeconds: int, drainBeforeShutdown: bool)

  datatype EnvValue = EnvValue(name: string, value: string, valueFrom: Option<EnvSource>)

  datatype WorkerSpecValue = WorkerSpecValue(
    clusterRef: string, jobTypes: Option<seq<string>>, queues: Option<seq<string>>, concurrency: int,
    replicas: Option<int>, image: string, command: Option<seq<string>>, env: Option<seq<EnvValue>>,
    limits: Option<Labels>, requests: Option<Labels>, autoScaling: Option<Scaling>, gracefulShutdown: Option<Shutdown>)

  datatype WorkerStatusValue = WorkerStatusValue(
    phase: string, replicas: int, readyReplicas: int, activeJobs: int, queueDepth: int,
    lastScaleTime: Option<int>, conditions: Option<seq<Condition>>)

  datatype WorkerValue = WorkerValue(meta: Name, spec: WorkerSpecValue, status: WorkerStatusValue)

  datatype Hardware = Hardware(kind: string, minVersion: string)

  datatype ModelPolicyValue = ModelPolicyValue(allowedModels: Option<seq<string>>, requireFingerprint: bool)

  datatype PolicySpecValue = PolicySpecValue(
    mode: string, jobTypes: Option<seq<string>>, hardware: Option<seq<Hardware>>, regions: Option<seq<string>>,
    minKeyClass: string, modelPolicy: Option<ModelPolicyValue>)

  datatype ClusterStatusValue = ClusterStatusValue(
    phase: string, replicas: int, readyReplicas: int, queueDepth: int, activeJobs: int, conditions: Option<seq<Condition>>)

  datatype ClusterScaling = ClusterScaling(
    enabled: bool, minReplicas: int, maxReplicas: int, targetQueueDepth: int, targetJobsPerWorker: int,
    scaleUpCooldown: string, scaleDownCooldown: string)

  datatype MonitoringValue = MonitoringValue(enabled: bool, serviceMonitor: bool, grafanaDashboard: bool)

  datatype ClusterSpecValue = ClusterSpecValue(
    engine: string, url: string, urlSecretRef: Option<SecretKeyRef>, embedded: bool,
    replicas: Option<int>, image: string, autoScaling: Option<ClusterScaling>,
    limits: Option<Labels>, requests: Option<Labels>, monitoring: Option<MonitoringValue>,
    securityContext: Option<PodSecurity>, podDisruptionBudget: Option<DisruptionBudget>,
    topologySpread: Option<seq<Spread>>, serviceAccountName: string)

  // ---------------------------------------------------------------- worker spec

  /** An element of the env slice: a struct held in place, with one pointer in it. */
  datatype EnvItem = EnvItem(name: string, value: string, valueFrom: Cell?<EnvSource>) {
    ghost function Value(): EnvValue
      reads valueFrom
    {
      EnvValue(name, value, Deref(valueFrom))
    }
  }

  ghost function EnvStorage(env: array?<EnvItem>): set<object>
    reads env
  {
    if env == null then {} else {env} + set i | 0 <= i < env.Length && env[i].valueFrom != null :: env[i].valueFrom as object
  }

  ghost function EnvValues(env: array?<EnvItem>): Option<seq<EnvValue>>
    reads env, EnvStorage(env)
  {
    if env == null then None
    else Some(seq(env.Length, i requires 0 <= i < env.Length reads env, EnvStorage(env) => env[i].Value()))
  }

  method CopyEnv(env: array?<EnvItem>) returns (copy: array?<EnvItem>)
    ensures EnvValues(copy) == EnvValues(env) && fresh(EnvStorage(copy))
  {
    if env == null {
      return null;
    }
    copy := new EnvItem[env.Length](_ => EnvItem("", "", null));
    for i := 0 to env.Length
      invariant fresh(copy) && copy.Length == env.Length
      invariant forall k :: 0 <= k < copy.Length ==> fresh(Ref(copy[k].valueFrom))
      invariant forall k :: 0 <= k < i ==> copy[k].Value() == env[k].Value()
    {
      var valueFrom := CopyPointer(env[i].valueFrom);
      copy[i] := EnvItem(env[i].name, env[i].value, valueFrom);
    }
    assert EnvValues(copy).value == EnvValues(env).value;
  }

  datatype WorkerSpecStruct = WorkerSpecStruct(
    clusterRef: string, jobTypes: array?<string>, queues: array?<string>, concurrency: int, replicas: Cell?<int>,
    image: string, command: array?<string>, env: array?<EnvItem>, limits: Cell?<Labels>, requests: Cell?<Labels>,
    autoScaling: Cell?<Scaling>, gracefulShutdown: Cell?<Shutdown>)
  {
    /** All storage behind the struct. */
    ghost function Storage(): set<object>
      reads env
    {
      Ref(jobTypes) + Ref(queues) + Ref(replicas) + Ref(command) + EnvStorage(env)
      + Ref(limits) + Ref(requests) + Ref(autoScaling) + Ref(gracefulShutdown)
    }

    ghost function Value(): WorkerSpecValue
      reads env, Storage()
    {
      WorkerSpecValue(clusterRef, Elements(jobTypes), Elements(queues), concurrency, Deref(replicas), image,
        Elements(command), EnvValues(env), Deref(limits), Deref(requests), Deref(autoScaling), Deref(gracefulShutdown))
    }

    method DeepCopy() returns (out: WorkerSpecStruct)
      ensures out.Value() == Value() && fresh(out.Storage())
      ensures out.clusterRef == clusterRef && out.concurrency == concurrency && out.image == image
    {
      hide EnvStorage, EnvValues;
      out := DeepCopyPointers();
      out := out.DeepCopySlices();
    }

    method DeepCopySlices() returns (out: WorkerSpecStruct)
      ensures out == this.(jobTypes := out.jobTypes, queues := out.queues, command := out.command, env := out.env)
      ensures Elements(out.jobTypes) == Elements(jobTypes) && Elements(out.queues) == Elements(queues)
      ensures Elements(out.command) == Elements(command)
      ensures EnvValues(out.env) == EnvValues(env)
      ensures fresh(Ref(out.jobTypes)) && fresh(Ref(out.queues)) && fresh(Ref(out.command)) && fresh(EnvStorage(out.env))
    {
      hide EnvValues, EnvStorage;
      EnvIsAllocated(env);
      out := this;
      var jobTypes' := CopySlice(jobTypes);
      out := out.(jobTypes := jobTypes');
      var queues' := CopySlice(queues);
      out := out.(queues := queues');
      var command' := CopySlice(command);
      out := out.(command := command');
      var env' := CopyEnv(env);
      out := out.(env := env');
    }

    method DeepCopyPointers() returns (out: WorkerSpecStruct)
      ensures out == this.(replicas := out.replicas, limits := out.limits, requests := out.requests,
        autoScaling := out.autoScaling, gracefulShutdown := out.gracefulShutdown)
      ensures Deref(out.replicas) == Deref(replicas) && Deref(out.limits) == Deref(limits) && Deref(out.requests) == Deref(requests)
      ensures Deref(out.autoScaling) == Deref(autoScaling) && Deref(out.gracefulShutdown) == Deref(gracefulShutdown)
      ensures fresh(Ref(out.replicas)) && fresh(Ref(out.limits)) && fresh(Ref(out.requests))
      ensures fresh(Ref(out.autoScaling)) && fresh(Ref(out.gracefulShutdown))
    {
      out := this;
      var replicas' := CopyPointer(replicas);
      out := out.(replicas := replicas');
      var limits' := CopyPointer(limits);
      out := out.(limits := limits');
      var requests' := CopyPointer(requests);
      out := out.(requests := requests');
      var autoScaling' := CopyPointer(autoScaling);
      out := out.(autoScaling := autoScaling');
      var gracefulShutdown' := CopyPointer(gracefulShutdown);
      out := out.(gracefulShutdown := gracefulShutdown');
    }
  }

  // ---------------------------------------------------------------- worker status, worker, worker list

  datatype WorkerStatusStruct = WorkerStatusStruct(
    phase: string, replicas: int, readyReplicas: int, activeJobs: int, queueDepth: int,
    lastScaleTime: Cell?<int>, conditions: array?<Condition>)
  {
    ghost function Storage(): set<object> {
      Ref(lastScaleTime) + Ref(conditions)
    }

    ghost function Value(): WorkerStatusValue
      reads Storage()
    {
      WorkerStatusValue(phase, replicas, readyReplicas, activeJobs, queueDepth, Deref(lastScaleTime), Elements(conditions))
    }

    method DeepCopy() returns (out: WorkerStatusStruct)
      ensures out.Value() == Value() && fresh(out.Storage())
      ensures out.phase == phase && out.replicas == replicas && out.readyReplicas == readyReplicas && out.activeJobs == activeJobs && out.queueDepth == queueDepth
    {
      out := this;
      var lastScaleTime' := CopyPointer(lastScaleTime);
      out := out.(lastScaleTime := lastScaleTime');
      var conditions' := CopySlice(conditions);
      out := out.(conditions := conditions');
    }
  }

  /** Type and object metadata are copied by library code and stand here as one value. */
  datatype WorkerStruct = WorkerStruct(meta: Name, spec: WorkerSpecStruct, status: WorkerStatusStruct) {
    ghost function Storage(): set<object>
      reads spec.env
    {
      spec.Storage() + status.Storage()
    }

    ghost function Value(): WorkerValue
      reads spec.env, Storage()
    {
      WorkerValue(meta, spec.Value(), status.Value())
    }

    method DeepCopy() returns (out: WorkerStruct)
      ensures out.Value() == Value() && fresh(out.Storage())
    {
      out := this;
      var status' := status.DeepCopy();
      out := out.(status := status');
      var spec' := spec.DeepCopy();
      out := out.(spec := spec');
    }
  }

  /** What an object does not share with what changed keeps its value. */
  twostate lemma UntouchedWorker(w: WorkerStruct)
    requires forall o: object :: o in old(w.Storage()) ==> unchanged(o)
    ensures w.Storage() == old(w.Storage()) && w.Value() == old(w.Value())
  {
  }

  /**
   Independence: if a copy shares no storage with the original, then whatever is written through the
   copy, to any of its storage, leaves the original what it was.
   */
  twostate lemma WritesThroughCopyStayThere(original: WorkerStruct, copy: WorkerStruct)
    requires old(original.Storage() !! copy.Storage())
    requires forall o: object :: old(allocated(o)) && o !in old(copy.Storage()) ==> unchanged(o)
    ensures original.Value() == old(original.Value())
  {
    hide *;
    StorageWasAllocated(original);
    UntouchedWorker(original);
  }

  twostate lemma StorageWasAllocated(w: WorkerStruct)
    ensures forall o <- old(w.Storage()) :: old(allocated(o))
  {
    hide EnvStorage;
    EnvWasAllocated(w.spec.env);
  }

  twostate lemma EnvWasAllocated(env: array?<EnvItem>)
    ensures forall o <- old(EnvStorage(env)) :: old(allocated(o))
  {
  }

  lemma StorageIsAllocated(w: WorkerStruct)
    ensures forall o <- w.Storage() :: allocated(o)
  {
    hide EnvStorage;
    EnvIsAllocated(w.spec.env);
  }

  lemma EnvIsAllocated(env: array?<EnvItem>)
    ensures forall o <- EnvStorage(env) :: allocated(o)
  {
  }

  method CopyItem(items: array<WorkerStruct>, copy: array<WorkerStruct>, i: nat)
    requires copy != items && i < items.Length == copy.Length
    requires forall k :: 0 <= k < i ==> copy !in copy[k].Storage()
    requires forall k :: 0 <= k < items.Length ==> copy !in items[k].Storage()
    modifies copy
    ensures forall k :: 0 <= k < copy.Length && k != i ==> copy[k] == old(copy[k])
    ensures forall k :: 0 <= k < i ==> copy[k].Value() == old(copy[k].Value())
    ensures forall k :: 0 <= k < i ==> copy[k].Storage() == old(copy[k].Storage())
    ensures copy[i].Value() == items[i].Value()
    ensures fresh(copy[i].Storage())
    ensures forall k :: 0 <= k < i ==> copy[k].Storage() !! copy[i].Storage()
  {
    hide *;
    var source := items[i];
    assert source.Storage() == items[i].Storage();
    StorageIsAllocated(source);
    forall k | 0 <= k < i ensures forall o <- copy[k].Storage() :: allocated(o) {
      StorageIsAllocated(copy[k]);
    }
    var item := source.DeepCopy();
    label copied:
    copy[i] := item;
    UntouchedWorker@copied(item);
    UntouchedWorker(source);
    assert source == items[i];
    forall k | 0 <= k < i
      ensures copy[k].Value() == old(copy[k].Value())
      ensures copy[k].Storage() == old(copy[k].Storage())
    {
      assert copy[k] == old(copy[k]);
      assert copy !in old(copy[k].Storage());
      UntouchedWorker(copy[k]);
    }
  }

  /** The Items slice: structs held in place, each copied into its slot of the new array. */
  method CopyItems(items: array?<WorkerStruct>) returns (copy: array?<WorkerStruct>)
    ensures copy == null <==> items == null
    ensures copy != null ==> fresh(copy) && copy.Length == items.Length
    ensures copy != null ==> forall i :: 0 <= i < copy.Length ==> copy[i].Value() == items[i].Value()
    ensures copy != null ==> forall i :: 0 <= i < copy.Length ==> fresh(copy[i].Storage())
    ensures copy != null ==> forall i, j :: 0 <= i < j < copy.Length ==> copy[i].Storage() !! copy[j].Storage()
  {
    hide *;
    if items == null {
      return null;
    }
    forall k | 0 <= k < items.Length ensures forall o <- items[k].Storage() :: allocated(o) {
      StorageIsAllocated(items[k]);
    }
    copy := new WorkerStruct[items.Length](_ => ZERO_WORKER);
    forall k | 0 <= k < items.Length
      ensures items[k].Storage() == old(items[k].Storage()) && items[k].Value() == old(items[k].Value())
    {
      UntouchedWorker(items[k]);
    }
    for i := 0 to items.Length
      invariant fresh(copy) && copy.Length == items.Length
      invariant forall k :: 0 <= k < items.Length ==> items[k].Storage() == old(items[k].Storage())
      invariant forall k :: 0 <= k < items.Length ==> items[k].Value() == old(items[k].Value())
      invariant forall k :: 0 <= k < i ==> fresh(copy[k].Storage())
      invariant forall k :: 0 <= k < i ==> copy !in copy[k].Storage()
      invariant forall k :: 0 <= k < i ==> copy[k].Value() == items[k].Value()
      invariant forall j, k :: 0 <= j < k < i ==> copy[j].Storage() !! copy[k].Storage()
    {
      CopyItem(items, copy, i);
      forall k | 0 <= k < items.Length
        ensures items[k].Storage() == old(items[k].Storage()) && items[k].Value() == old(items[k].Value())
      {
        UntouchedWorker(items[k]);
      }
    }
  }

  const ZERO_SPEC := WorkerSpecStruct("", null, null, 0, null, "", null, null, null, null, null, null)
  const ZERO_WORKER := WorkerStruct(Name("", ""), ZERO_SPEC, WorkerStatusStruct("", 0, 0, 0, 0, null, null))

  // ---------------------------------------------------------------- attestation policy

  datatype ModelPolicyStruct = ModelPolicyStruct(allowedModels: array?<string>, requireFingerprint: bool) {
    ghost function Value(): ModelPolicyValue
      reads allowedModels
    {
      ModelPolicyValue(Elements(allowedModels), requireFingerprint)
    }

    method DeepCopy() returns (out: ModelPolicyStruct)
      ensures out.Value() == Value() && fresh(Ref(out.allowedModels))
      ensures out.requireFingerprint == requireFingerprint
    {
      out := this;
      var allowedModels' := CopySlice(allowedModels);
      out := out.(allowedModels := allowedModels');
    }
  }

  ghost function ModelPolicyStorage(p: Cell?<ModelPolicyStruct>): set<object>
    reads p
  {
    if p == null then {} else {p} + Ref(p.v.allowedModels)
  }

  ghost function ModelPolicyAt(p: Cell?<ModelPolicyStruct>): Option<ModelPolicyValue>
    reads p, ModelPolicyStorage(p)
  {
    if p == null then None else Some(p.v.Value())
  }

  method CopyModelPolicy(p: Cell?<ModelPolicyStruct>) returns (q: Cell?<ModelPolicyStruct>)
    ensures ModelPolicyAt(q) == ModelPolicyAt(p) && fresh(ModelPolicyStorage(q))
  {
    if p == null {
      return null;
    }
    var policy := p.v.DeepCopy();
    q := new Cell(policy);
  }

  datatype PolicySpecStruct = PolicySpecStruct(
    mode: string, jobTypes: array?<string>, hardware: array?<Hardware>, regions: array?<string>, minKeyClass: string,
    modelPolicy: Cell?<ModelPolicyStruct>)
  {
    ghost function Storage(): set<object>
      reads modelPolicy
    {
      Ref(jobTypes) + Ref(hardware) + Ref(regions) + ModelPolicyStorage(modelPolicy)
    }

    ghost function Value(): PolicySpecValue
      reads modelPolicy, Storage()
    {
      PolicySpecValue(mode, Elements(jobTypes), Elements(hardware), Elements(regions), minKeyClass, ModelPolicyAt(modelPolicy))
    }

    method DeepCopy() returns (out: PolicySpecStruct)
      ensures out.Value() == Value() && fresh(out.Storage())
      ensures out.mode == mode && out.minKeyClass == minKeyClass
    {
      out := this;
      var jobTypes' := CopySlice(jobTypes);
      out := out.(jobTypes := jobTypes');
      var hardware' := CopySlice(hardware);
      out := out.(hardware := hardware');
      var regions' := CopySlice(regions);
      out := out.(regions := regions');
      var modelPolicy' := CopyModelPolicy(modelPolicy);
      out := out.(modelPolicy := modelPolicy');
    }
  }

  /** Independence, as for workers. */
  twostate lemma WritesThroughPolicyCopyStayThere(original: PolicySpecStruct, copy: PolicySpecStruct)
    requires old(original.Storage() !! copy.Storage())
    requires forall o: object :: old(allocated(o)) && o !in old(copy.Storage()) ==> unchanged(o)
    ensures original.Value() == old(original.Value())
  {
    hide *;
    PolicyStorageWasAllocated(original);
    UntouchedPolicy(original);
  }

  twostate lemma PolicyStorageWasAllocated(p: PolicySpecStruct)
    ensures forall o <- old(p.Storage()) :: old(allocated(o))
  {
  }

  twostate lemma UntouchedPolicy(p: PolicySpecStruct)
    requires forall o: object :: o in old(p.Storage()) ==> unchanged(o)
    ensures p.Value() == old(p.Value())
  {
    assert p.jobTypes != null ==> p.jobTypes in old(p.Storage());
    assert p.hardware != null ==> p.hardware in old(p.Storage());
    assert p.regions != null ==> p.regions in old(p.Storage());
    if p.modelPolicy != null {
      assert p.modelPolicy in old(p.Storage());
      assert forall o <- old(Ref(p.modelPolicy.v.allowedModels)) :: o in old(p.Storage());
      assert ModelPolicyAt(p.modelPolicy) == old(ModelPolicyAt(p.modelPolicy));
    }
    assert Elements(p.jobTypes) == old(Elements(p.jobTypes));
    assert Elements(p.hardware) == old(Elements(p.hardware)) && Elements(p.regions) == old(Elements(p.regions));
  }

  // ---------------------------------------------------------------- cluster status

  datatype ClusterStatusStruct = ClusterStatusStruct(
    phase: string, replicas: int, readyReplicas: int, queueDepth: int, activeJobs: int, conditions: array?<Condition>)
  {
    ghost function Value(): ClusterStatusValue
      reads conditions
    {
      ClusterStatusValue(phase, replicas, readyReplicas, queueDepth, activeJobs, Elements(conditions))
    }

    method DeepCopy() returns (out: ClusterStatusStruct)
      ensures out.Value() == Value() && fresh(Ref(out.conditions))
      ensures out.phase == phase && out.replicas == replicas && out.readyReplicas == readyReplicas && out.queueDepth == queueDepth && out.activeJobs == activeJobs
    {
      out := this;
      var conditions' := CopySlice(conditions);
      out := out.(conditions := conditions');
    }
  }

  // ---------------------------------------------------------------- cluster spec

  datatype ClusterSpecStruct = ClusterSpecStruct(
    engine: string, url: string, urlSecretRef: Cell?<SecretKeyRef>, embedded: bool, replicas: Cell?<int>, image: string,
    autoScaling: Cell?<ClusterScaling>, limits: Cell?<Labels>, requests: Cell?<Labels>, monitoring: Cell?<MonitoringValue>,
    securityContext: Cell?<PodSecurity>, podDisruptionBudget: Cell?<DisruptionBudget>, topologySpread: array?<Spread>,
    serviceAccountName: string)
  {
    ghost function Copied(): set<object> {
      Ref(urlSecretRef) + Ref(replicas) + Ref(autoScaling) + Ref(limits) + Ref(requests) + Ref(monitoring)
    }

    /** The three fields the generated method does not know. */
    ghost function Shared(): set<object> {
      Ref(securityContext) + Ref(podDisruptionBudget) + Ref(topologySpread)
    }

    ghost function Value(): ClusterSpecValue
      reads Copied(), Shared()
    {
      ClusterSpecValue(engine, url, Deref(urlSecretRef), embedded, Deref(replicas), image, Deref(autoScaling),
        Deref(limits), Deref(requests), Deref(monitoring), Deref(securityContext), Deref(podDisruptionBudget),
        Elements(topologySpread), serviceAccountName)
    }

    /** Field by field: six get storage of their own, three are left as the struct copy made them. */
    method DeepCopyFields() returns (out: ClusterSpecStruct)
      ensures out == this.(urlSecretRef := out.urlSecretRef, replicas := out.replicas, autoScaling := out.autoScaling,
        limits := out.limits, requests := out.requests, monitoring := out.monitoring)
      ensures Deref(out.urlSecretRef) == Deref(urlSecretRef) && fresh(Ref(out.urlSecretRef))
      ensures Deref(out.replicas) == Deref(replicas) && fresh(Ref(out.replicas))
      ensures Deref(out.autoScaling) == Deref(autoScaling) && fresh(Ref(out.autoScaling))
      ensures Deref(out.limits) == Deref(limits) && fresh(Ref(out.limits))
      ensures Deref(out.requests) == Deref(requests) && fresh(Ref(out.requests))
      ensures Deref(out.monitoring) == Deref(monitoring) && fresh(Ref(out.monitoring))
    {
      out := this;
      var urlSecretRef' := CopyPointer(urlSecretRef);
      out := out.(urlSecretRef := urlSecretRef');
      var replicas' := CopyPointer(replicas);
      out := out.(replicas := replicas');
      var autoScaling' := CopyPointer(autoScaling);
      out := out.(autoScaling := autoScaling');
      var limits' := CopyPointer(limits);
      out := out.(limits := limits');
      var requests' := CopyPointer(requests);
      out := out.(requests := requests');
      var monitoring' := CopyPointer(monitoring);
      out := out.(monitoring := monitoring');
    }

    /**
     Always an equal value, but an independent one exactly when the security context, the
     disruption budget and the topology constraints are all nil.
     */
    method DeepCopy() returns (out: ClusterSpecStruct)
      ensures out.Value() == Value()
      ensures fresh(out.Copied())
      ensures out.securityContext == securityContext && out.podDisruptionBudget == podDisruptionBudget && out.topologySpread == topologySpread
      ensures fresh(out.Shared()) <==> securityContext == null && podDisruptionBudget == null && topologySpread == null
      ensures out.engine == engine && out.url == url && out.embedded == embedded && out.image == image && out.serviceAccountName == serviceAccountName
    {
      out := DeepCopyFields();
      assert securityContext != null ==> securityContext in out.Shared();
      assert podDisruptionBudget != null ==> podDisruptionBudget in out.Shared();
      assert topologySpread != null ==> topologySpread in out.Shared();
    }
  }

  /** A write through a cluster spec's copy that reaches the original. */
  method EditSharedSecurityContext(spec: ClusterSpecStruct, edit: PodSecurity)
    requires spec.securityContext != null
    modifies spec.securityContext
    ensures spec.Value().securityContext == Some(edit)
  {
    var copy := spec.DeepCopy();
    copy.securityContext.v := edit;
  }
}
