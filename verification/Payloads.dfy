/**
 The child objects: their names, the managed fields the reconcilers' mutate closures set, and
 the payload each closure computes from a spec.  Constant parts that do not depend on the spec
 (probes, resource quantities, images of sidecars) are left out of the payload.
 */
module Payloads {
  import opened OjsTypes

  datatype Kind = ConfigMapKind | DeploymentKind | ServiceKind | BudgetKind | MonitorKind | AutoscalerKind

  datatype ChildKey = ChildKey(kind: Kind, ns: string, name: string)

  /** The children a cluster reconcile visits, in the order it visits them. */
  datatype ClusterSlot =
    | RedisDeployment | RedisService | Config | ServerDeployment | ServerService | Budget | Monitor

  /** The children of a worker. */
  datatype WorkerSlot = WorkerDeployment | Autoscaler

  datatype ContainerPort = ContainerPort(name: string, number: int)

  datatype ServicePort = ServicePort(name: string, number: nat, targetPort: string)

  datatype Container = Container(
    name: string, image: string, ports: seq<ContainerPort>, env: seq<EnvVar>, command: seq<string>,
    resources: Option<Resources>, readOnlyRootFilesystem: Option<bool>)

  datatype PodSpec = PodSpec(
    container: Container, security: Option<PodSecurity>, serviceAccountName: string, automountToken: Option<bool>,
    graceSeconds: Option<int>, spread: seq<Spread>, antiAffinity: Option<Labels>)

  /** The fields a reconciler owns on each kind of child; everything else is left as found. */
  datatype Managed =
    | ConfigMapFields(labels: Labels, data: Labels)
    | DeploymentFields(labels: Labels, replicas: int, selector: Labels, podLabels: Labels, pod: PodSpec)
    | ServiceFields(labels: Labels, selector: Labels, ports: seq<ServicePort>)
    | BudgetFields(labels: Labels, selector: Labels, minAvailable: Option<int>, maxUnavailable: Option<int>)
    | MonitorFields(labels: Labels, selector: Labels, namespaces: seq<string>, port: string)
    | AutoscalerFields(labels: Labels, target: string, minReplicas: int, maxReplicas: int, cpuUtilization: int)

  predicate Fits(kind: Kind, managed: Managed) {
    match kind
    case ConfigMapKind => managed.ConfigMapFields?
    case DeploymentKind => managed.DeploymentFields?
    case ServiceKind => managed.ServiceFields?
    case BudgetKind => managed.BudgetFields?
    case MonitorKind => managed.MonitorFields?
    case AutoscalerKind => managed.AutoscalerFields?
  }

  // ---------------------------------------------------------------- names

  function ClusterChildKey(slot: ClusterSlot, n: Name): ChildKey {
    match slot
    case RedisDeployment => ChildKey(DeploymentKind, n.ns, n.name + "-redis")
    case RedisService => ChildKey(ServiceKind, n.ns, n.name + "-redis")
    case Config => ChildKey(ConfigMapKind, n.ns, n.name + "-config")
    case ServerDeployment => ChildKey(DeploymentKind, n.ns, n.name + "-server")
    case ServerService => ChildKey(ServiceKind, n.ns, n.name + "-server")
    case Budget => ChildKey(BudgetKind, n.ns, n.name + "-server")
    case Monitor => ChildKey(MonitorKind, n.ns, n.name + "-server")
  }

  function WorkerChildKey(slot: WorkerSlot, n: Name): ChildKey {
    match slot
    case WorkerDeployment => ChildKey(DeploymentKind, n.ns, n.name)
    case Autoscaler => ChildKey(AutoscalerKind, n.ns, n.name + "-hpa")
  }

  // ---------------------------------------------------------------- labels

  function LabelsForCluster(name: string): Labels {
    map["app.kubernetes.io/name" := "ojs-server",
        "app.kubernetes.io/instance" := name,
        "app.kubernetes.io/component" := "server",
        "app.kubernetes.io/part-of" := "ojs",
        "app.kubernetes.io/managed-by" := "ojs-k8s-operator"]
  }

  function LabelsForRedis(name: string): Labels {
    map["app.kubernetes.io/name" := "redis",
        "app.kubernetes.io/instance" := name,
        "app.kubernetes.io/component" := "backend",
        "app.kubernetes.io/part-of" := "ojs"]
  }

  function LabelsForWorker(workerName: string, clusterName: string): Labels {
    map["app.kubernetes.io/name" := "ojs-worker",
        "app.kubernetes.io/instance" := workerName,
        "app.kubernetes.io/component" := "worker",
        "app.kubernetes.io/part-of" := "ojs",
        "app.kubernetes.io/managed-by" := "ojs-k8s-operator",
        "ojs.openjobspec.dev/cluster" := clusterName]
  }

  // ---------------------------------------------------------------- cluster payloads

  const DEFAULT_IMAGE := "ghcr.io/openjobspec/ojs-server:latest"
  const DEFAULT_PORT := 8080
  const METRICS_PORT := 9090
  const REDIS_PORT := 6379

  function Replicas(spec: ClusterSpec): int {
    if spec.replicas.Some? then spec.replicas.value else 2
  }

  /** DNS name of a Service inside the cluster. */
  function ServiceHost(ns: string, name: string): string {
    name + "." + ns + ".svc.cluster.local"
  }

  function RedisUrl(n: Name): string {
    "redis://" + ServiceHost(n.ns, n.name + "-redis") + ":6379"
  }

  function ResolveBackendUrl(n: Name, b: Backend): string {
    if b.url != "" then b.url
    else if b.embedded then
      if b.engine == "redis" then RedisUrl(n)
      else if b.engine == "postgres" then
        "postgres://" + ServiceHost(n.ns, n.name + "-postgres") + ":5432/ojs?sslmode=disable"
      else if b.engine == "nats" then "nats://" + ServiceHost(n.ns, n.name + "-nats") + ":4222"
      else if b.engine == "kafka" then ServiceHost(n.ns, n.name + "-kafka") + ":9092"
      else if b.engine == "sqs" then "https://sqs." + ServiceHost(n.ns, n.name + "-sqs")
      else ""
    else ""
  }

  function BackendUrlEnvVar(engine: string): string {
    if engine == "postgres" then "DATABASE_URL"
    else if engine == "nats" then "NATS_URL"
    else if engine == "kafka" then "KAFKA_BROKERS"
    else if engine == "sqs" then "SQS_QUEUE_URL"
    else if engine == "lite" then "BACKEND_URL"
    else "REDIS_URL"
  }

  function OrElse<T>(o: Option<T>, default: T): Option<T> {
    if o.Some? then o else Some(default)
  }

  function ServerPodSecurity(spec: ClusterSpec): PodSecurity {
    var given := if spec.securityContext.Some? then spec.securityContext.value
                 else PodSecurity(None, None, None, None, None);
    PodSecurity(OrElse(given.runAsNonRoot, true), OrElse(given.runAsUser, 65534), OrElse(given.runAsGroup, 65534),
                given.fsGroup, None)
  }

  function ServerEnv(n: Name, b: Backend): seq<EnvVar> {
    [EnvVar("BACKEND_TYPE", FromConfigMap(n.name + "-config", "BACKEND_TYPE")),
     EnvVar(BackendUrlEnvVar(b.engine),
            if b.urlSecretRef.Some? then FromSecret(b.urlSecretRef.value)
            else FromConfigMap(n.name + "-config", "BACKEND_URL"))]
  }

  function ServerPod(n: Name, spec: ClusterSpec): PodSpec {
    var spread :=
      if spec.topologySpread != [] then spec.topologySpread
      else if Replicas(spec) > 1 then [Spread(1, "topology.kubernetes.io/zone", true, LabelsForCluster(n.name))]
      else [];
    PodSpec(
      Container(
        "ojs-server",
        if spec.image != "" then spec.image else DEFAULT_IMAGE,
        [ContainerPort("http", DEFAULT_PORT), ContainerPort("metrics", METRICS_PORT)],
        ServerEnv(n, spec.backend),
        [],
        if spec.resources.limits.Some? || spec.resources.requests.Some? then Some(spec.resources) else None,
        OrElse(if spec.securityContext.Some? then spec.securityContext.value.readOnlyRootFilesystem else None, true)),
      Some(ServerPodSecurity(spec)),
      spec.serviceAccountName,
      Some(spec.serviceAccountName != ""),
      Some(30),
      spread,
      if spec.topologySpread == [] && Replicas(spec) > 1 then Some(LabelsForCluster(n.name)) else None)
  }

  function RedisPod(): PodSpec {
    PodSpec(
      Container("redis", "redis:7-alpine", [ContainerPort("redis", REDIS_PORT)], [], [], None, Some(true)),
      Some(PodSecurity(Some(true), Some(999), Some(999), None, None)), "", Some(false), None, [], None)
  }

  /** What the mutate closure of each cluster child computes. */
  function ClusterChild(slot: ClusterSlot, n: Name, spec: ClusterSpec): Managed {
    var server, redis := LabelsForCluster(n.name), LabelsForRedis(n.name);
    match slot
    case RedisDeployment => DeploymentFields(redis, 1, redis, redis, RedisPod())
    case RedisService => ServiceFields(redis, redis, [ServicePort("redis", REDIS_PORT, "redis")])
    case Config =>
      ConfigMapFields(server, map["BACKEND_TYPE" := spec.backend.engine,
                                  "BACKEND_URL" := ResolveBackendUrl(n, spec.backend)])
    case ServerDeployment => DeploymentFields(server, Replicas(spec), server, server, ServerPod(n, spec))
    case ServerService =>
      ServiceFields(server, server, [ServicePort("http", DEFAULT_PORT, "http"), ServicePort("metrics", METRICS_PORT, "metrics")])
    case Budget =>
      if spec.podDisruptionBudget.Some? && spec.podDisruptionBudget.value.minAvailable.Some? then
        BudgetFields(server, server, spec.podDisruptionBudget.value.minAvailable, None)
      else if spec.podDisruptionBudget.Some? && spec.podDisruptionBudget.value.maxUnavailable.Some? then
        BudgetFields(server, server, None, spec.podDisruptionBudget.value.maxUnavailable)
      else BudgetFields(server, server, None, Some(1))
    case Monitor => MonitorFields(server, server, [n.ns], "metrics")
  }

  /** Which children the spec asks for. */
  predicate Wanted(slot: ClusterSlot, spec: ClusterSpec) {
    match slot
    case RedisDeployment => spec.backend.embedded
    case RedisService => spec.backend.embedded
    case Budget =>
      && Replicas(spec) > 1
      && !(spec.podDisruptionBudget.Some? && spec.podDisruptionBudget.value.enabled == Some(false))
    case Monitor => spec.monitoring.Some? && spec.monitoring.value.enabled && spec.monitoring.value.serviceMonitor
    case _ => true
  }

  // ---------------------------------------------------------------- worker payloads

  function JoinStrings(ss: seq<string>): string {
    if ss == [] then ""
    else if |ss| == 1 then ss[0]
    else ss[0] + "," + JoinStrings(ss[1..])
  }

  function Decimal(n: nat): string {
    if n < 10 then ["0123456789"[n]] else Decimal(n / 10) + ["0123456789"[n % 10]]
  }

  function OjsUrl(cluster: Name): string {
    "http://" + ServiceHost(cluster.ns, cluster.name + "-server") + ":8080"
  }

  predicate Autoscaled(spec: WorkerSpec) {
    spec.autoScaling.Some? && spec.autoScaling.value.enabled
  }

  function WorkerEnv(n: Name, spec: WorkerSpec): seq<EnvVar> {
    [EnvVar("OJS_URL", Literal(OjsUrl(Name(n.ns, spec.clusterRef)))),
     EnvVar("OJS_QUEUES", Literal(JoinStrings(spec.queues))),
     EnvVar("OJS_JOB_TYPES", Literal(JoinStrings(spec.jobTypes)))]
    + (if spec.concurrency > 0 then [EnvVar("OJS_CONCURRENCY", Literal(Decimal(spec.concurrency)))] else [])
    + spec.env
  }

  function WorkerPod(n: Name, spec: WorkerSpec): PodSpec {
    PodSpec(
      Container("ojs-worker", spec.image, [], WorkerEnv(n, spec), spec.command,
                if spec.resources.limits.Some? || spec.resources.requests.Some? then Some(spec.resources) else None,
                None),
      None, "", None,
      Some(if spec.gracefulTimeout.Some? && spec.gracefulTimeout.value > 0 then spec.gracefulTimeout.value else 30),
      [], None)
  }

  /**
   What the mutate closure of each worker child computes.  The Deployment closure reads the
   parent only for its name and namespace, which are the ones it was looked up by.
   */
  function WorkerChild(slot: WorkerSlot, n: Name, spec: WorkerSpec): Managed {
    var labels := LabelsForWorker(n.name, spec.clusterRef);
    match slot
    case WorkerDeployment =>
      DeploymentFields(labels, if spec.replicas.Some? then spec.replicas.value else 1, labels, labels, WorkerPod(n, spec))
    case Autoscaler =>
      var scaling := if spec.autoScaling.Some? then spec.autoScaling.value else WorkerAutoScaling(false, 0, 0, "");
      AutoscalerFields(labels, n.name, scaling.minReplicas, scaling.maxReplicas, 80)
  }
}
