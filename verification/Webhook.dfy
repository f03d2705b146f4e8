/** The validating webhooks. */
module Webhook {
  import opened OjsTypes

  const VALID_BACKENDS := {"redis", "postgres", "nats", "kafka", "sqs", "lite"}

  datatype Rejection =
    | BackendTypeRequired
    | BackendTypeInvalid(engine: string)
    | ReplicasTooFew(replicas: int)
    | MinReplicasTooSmall
    | MaxBelowMin
    | ClusterRefRequired
    | ImageRequired
    | JobTypesRequired
    | EmptyJobType(index: nat)
    | NegativeConcurrency(concurrency: int)
    | EmptyQueue(index: nat)

  /** What an admitted cluster spec promises the controllers. */
  predicate ClusterAdmissible(spec: ClusterSpec) {
    && spec.backend.engine in {"redis", "postgres", "nats", "kafka", "sqs", "lite"}
    && (spec.replicas.Some? ==> 1 <= spec.replicas.value)
    && (spec.autoScaling.Some? && spec.autoScaling.value.enabled ==>
          1 <= spec.autoScaling.value.minReplicas <= spec.autoScaling.value.maxReplicas)
  }

  /** What an admitted worker spec promises. */
  predicate WorkerAdmissible(spec: WorkerSpec) {
    && spec.clusterRef != "" && spec.image != ""
    && spec.jobTypes != [] && "" !in spec.jobTypes
    && 0 <= spec.concurrency
    && "" !in spec.queues
    && (spec.autoScaling.Some? && spec.autoScaling.value.enabled ==>
          1 <= spec.autoScaling.value.minReplicas <= spec.autoScaling.value.maxReplicas)
  }

  function ValidateScaling(enabled: bool, min: int, max: int): (r: Option<Rejection>)
    ensures r.None? <==> (enabled ==> 1 <= min <= max)
  {
    if !enabled then None
    else if min < 1 then Some(MinReplicasTooSmall)
    else if max < min then Some(MaxBelowMin)
    else None
  }

  function ValidateCluster(spec: ClusterSpec): (r: Option<Rejection>)
    ensures r.None? <==> ClusterAdmissible(spec)
  {
    if spec.backend.engine == "" then Some(BackendTypeRequired)
    else if spec.backend.engine !in VALID_BACKENDS then Some(BackendTypeInvalid(spec.backend.engine))
    else if spec.replicas.Some? && spec.replicas.value < 1 then Some(ReplicasTooFew(spec.replicas.value))
    else if spec.autoScaling.Some? then
      var a := spec.autoScaling.value;
      ValidateScaling(a.enabled, a.minReplicas, a.maxReplicas)
    else None
  }

  /** Position of the first empty entry at or after `i`, as the range loops of the validator find it. */
  function FirstEmpty(ss: seq<string>, i: nat): (r: Option<nat>)
    requires i <= |ss|
    ensures r.None? <==> "" !in ss[i..]
    ensures r.Some? ==> i <= r.value < |ss| && ss[r.value] == "" && "" !in ss[i..r.value]
    decreases |ss| - i
  {
    if i == |ss| then None
    else
      assert ss[i..] == [ss[i]] + ss[i + 1..];
      if ss[i] == "" then Some(i)
      else
        var r := FirstEmpty(ss, i + 1);
        assert r.Some? ==> ss[i..r.value] == [ss[i]] + ss[i + 1..r.value];
        r
  }

  function ValidateWorker(spec: WorkerSpec): (r: Option<Rejection>)
    ensures r.None? <==> WorkerAdmissible(spec)
  {
    assert spec.jobTypes[0..] == spec.jobTypes && spec.queues[0..] == spec.queues;
    var jobType, queue := FirstEmpty(spec.jobTypes, 0), FirstEmpty(spec.queues, 0);
    if spec.clusterRef == "" then Some(ClusterRefRequired)
    else if spec.image == "" then Some(ImageRequired)
    else if spec.jobTypes == [] then Some(JobTypesRequired)
    else if jobType.Some? then Some(EmptyJobType(jobType.value))
    else if spec.concurrency < 0 then Some(NegativeConcurrency(spec.concurrency))
    else if queue.Some? then Some(EmptyQueue(queue.value))
    else if spec.autoScaling.Some? then
      var a := spec.autoScaling.value;
      ValidateScaling(a.enabled, a.minReplicas, a.maxReplicas)
    else None
  }

  // ---------------------------------------------------------------- which fault is reported

  predicate ScalingFault(enabled: bool, min: int, max: int, r: Rejection) {
    enabled && ((r == MinReplicasTooSmall && min < 1) || (r == MaxBelowMin && 1 <= min && max < min))
  }

  /** A rejection names a fault the cluster spec has, and no fault the validator looks for earlier. */
  lemma ClusterRejectionIsTheFirstFault(spec: ClusterSpec, r: Rejection)
    requires ValidateCluster(spec) == Some(r)
    ensures var valid := spec.backend.engine in {"redis", "postgres", "nats", "kafka", "sqs", "lite"};
      var tooFew := spec.replicas.Some? && spec.replicas.value < 1;
      || (r == BackendTypeRequired && spec.backend.engine == "")
      || (r == BackendTypeInvalid(spec.backend.engine) && spec.backend.engine != "" && !valid)
      || (valid && tooFew && r == ReplicasTooFew(spec.replicas.value))
      || (valid && !tooFew && spec.autoScaling.Some?
          && ScalingFault(spec.autoScaling.value.enabled, spec.autoScaling.value.minReplicas, spec.autoScaling.value.maxReplicas, r))
  {
  }

  /** The same for workers; an empty entry is reported by its first position. */
  lemma WorkerRejectionIsTheFirstFault(spec: WorkerSpec, r: Rejection)
    requires ValidateWorker(spec) == Some(r)
    ensures var named, jobsGiven := spec.clusterRef != "" && spec.image != "", spec.jobTypes != [];
      var jobsOk := jobsGiven && "" !in spec.jobTypes;
      || (r == ClusterRefRequired && spec.clusterRef == "")
      || (r == ImageRequired && spec.clusterRef != "" && spec.image == "")
      || (r == JobTypesRequired && named && !jobsGiven)
      || (r.EmptyJobType? && named && FirstEmptyAt(spec.jobTypes, r.index))
      || (r == NegativeConcurrency(spec.concurrency) && named && jobsOk && spec.concurrency < 0)
      || (r.EmptyQueue? && named && jobsOk && 0 <= spec.concurrency && FirstEmptyAt(spec.queues, r.index))
      || (named && jobsOk && 0 <= spec.concurrency && "" !in spec.queues && spec.autoScaling.Some?
          && ScalingFault(spec.autoScaling.value.enabled, spec.autoScaling.value.minReplicas, spec.autoScaling.value.maxReplicas, r))
  {
    assert spec.jobTypes[0..] == spec.jobTypes && spec.queues[0..] == spec.queues;
    hide FirstEmpty, ValidateScaling;
    if spec.autoScaling.Some? { ScalingFaultIsReal(spec.autoScaling.value.enabled, spec.autoScaling.value.minReplicas, spec.autoScaling.value.maxReplicas); }
  }

  lemma ScalingFaultIsReal(enabled: bool, min: int, max: int)
    ensures var r := ValidateScaling(enabled, min, max); r.Some? ==> ScalingFault(enabled, min, max, r.value)
  {
  }

  predicate FirstEmptyAt(ss: seq<string>, i: nat) {
    i < |ss| && ss[i] == "" && "" !in ss[..i]
  }
}
