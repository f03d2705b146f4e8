/**
 What the children of a settled store say, read off the children themselves: each managed field in
 terms of the spec, and each variable through what the container sees.
 */
module Manifests {
  import opened OjsTypes
  import opened Payloads
  import opened ApiServer
  import opened ClusterMachine
  import opened WorkerMachine
  import opened ClusterConvergence
  import opened WorkerConvergence
  import opened JoinedLists
  import opened Wiring

  // ---------------------------------------------------------------- names and labels

  /** Where each child of a cluster and of a worker is found. */
  lemma ChildrenAreNamed(n: Name)
    ensures ClusterChildKey(RedisDeployment, n) == ChildKey(DeploymentKind, n.ns, n.name + "-redis")
    ensures ClusterChildKey(RedisService, n) == ChildKey(ServiceKind, n.ns, n.name + "-redis")
    ensures ClusterChildKey(Config, n) == ChildKey(ConfigMapKind, n.ns, n.name + "-config")
    ensures ClusterChildKey(ServerDeployment, n) == ChildKey(DeploymentKind, n.ns, n.name + "-server")
    ensures ClusterChildKey(ServerService, n) == ChildKey(ServiceKind, n.ns, n.name + "-server")
    ensures ClusterChildKey(Budget, n) == ChildKey(BudgetKind, n.ns, n.name + "-server")
    ensures ClusterChildKey(Monitor, n) == ChildKey(MonitorKind, n.ns, n.name + "-server")
    ensures WorkerChildKey(WorkerDeployment, n) == ChildKey(DeploymentKind, n.ns, n.name)
    ensures WorkerChildKey(Autoscaler, n) == ChildKey(AutoscalerKind, n.ns, n.name + "-hpa")
  {
  }

  predicate LabelIs(labels: Labels, key: string, value: string) {
    key in labels && labels[key] == value
  }

  predicate Labelled(labels: Labels, name: string, instance: string, component: string) {
    && LabelIs(labels, "app.kubernetes.io/name", name)
    && LabelIs(labels, "app.kubernetes.io/instance", instance)
    && LabelIs(labels, "app.kubernetes.io/component", component)
    && LabelIs(labels, "app.kubernetes.io/part-of", "ojs")
  }

  /** A Deployment whose labels, selector and pod labels are the same. */
  predicate SelectsItsPods(m: Managed)
    requires m.DeploymentFields?
  {
    m.labels == m.selector == m.podLabels
  }

  // ---------------------------------------------------------------- decimal numbers

  predicate Digits(s: string) {
    forall i :: 0 <= i < |s| ==> '0' <= s[i] <= '9'
  }

  function NumberOf(s: string): nat
    requires Digits(s)
  {
    if s == "" then 0
    else
      NumberOf(s[..|s| - 1]) * 10 + (s[|s| - 1] as int - '0' as int)
  }

  /** The string is the number's decimal notation, without leading zeros. */
  predicate Spells(s: string, n: nat) {
    s != "" && Digits(s) && NumberOf(s) == n && (n > 0 ==> s[0] != '0')
  }

  lemma DigitSpells(d: nat)
    requires d < 10
    ensures var c := "0123456789"[d]; '0' <= c <= '9' && c as int - '0' as int == d
  {
  }

  lemma {:induction false} DecimalSpells(n: nat)
    ensures Spells(Decimal(n), n)
  {
    var last := n % 10;
    DigitSpells(last);
    if n < 10 {
      var s := Decimal(n);
      assert s[..|s| - 1] == "";
    } else {
      DecimalSpells(n / 10);
      var most, s := Decimal(n / 10), Decimal(n);
      assert s == most + ["0123456789"[last]] && s[..|s| - 1] == most;
      assert n / 10 > 0;
    }
  }

  // ---------------------------------------------------------------- a worker's variables

  lemma LookupLast(env: seq<EnvVar>, v: EnvVar, name: string)
    ensures Lookup(env + [v], name) == if v.name == name then Some(v.source) else Lookup(env, name)
  {
    assert (env + [v])[..|env + [v]| - 1] == env;
  }

  /** The variables the reconciler makes, before the worker's own. */
  lemma GeneratedVariables(worker: Name, spec: WorkerSpec, name: string)
    requires Lookup(spec.env, name).None?
    ensures var found := Lookup(WorkerEnv(worker, spec), name);
      && (name == "OJS_QUEUES" ==> found == Some(Literal(JoinStrings(spec.queues))))
      && (name == "OJS_JOB_TYPES" ==> found == Some(Literal(JoinStrings(spec.jobTypes))))
      && (name == "OJS_CONCURRENCY" ==> found == if spec.concurrency > 0 then Some(Literal(Decimal(spec.concurrency))) else None)
  {
    hide OjsUrl, Decimal, JoinStrings, Lookup;
    var url := EnvVar("OJS_URL", Literal(OjsUrl(Name(worker.ns, spec.clusterRef))));
    var queues, jobTypes := EnvVar("OJS_QUEUES", Literal(JoinStrings(spec.queues))), EnvVar("OJS_JOB_TYPES", Literal(JoinStrings(spec.jobTypes)));
    var three := [url] + [queues] + [jobTypes];
    assert "OJS_QUEUES"[4] == 'Q' && "OJS_URL"[4] == 'U' && "OJS_JOB_TYPES"[4] == 'J' && "OJS_CONCURRENCY"[4] == 'C';
    LookupLast([], url, name);
    LookupLast([url], queues, name);
    LookupLast([url] + [queues], jobTypes, name);
    assert Lookup([], name).None?;
    if spec.concurrency > 0 {
      var conc := EnvVar("OJS_CONCURRENCY", Literal(Decimal(spec.concurrency)));
      LookupLast(three, conc, name);
      LaterVariablesWin(three + [conc], spec.env, name);
      assert WorkerEnv(worker, spec) == three + [conc] + spec.env;
    } else {
      LaterVariablesWin(three, spec.env, name);
      assert WorkerEnv(worker, spec) == three + spec.env;
    }
  }

  /** The container reads this list from the variable, if it splits the value at commas. */
  predicate ReadsList(s: Store, ns: string, env: seq<EnvVar>, name: string, list: seq<string>) {
    var source := Lookup(env, name);
    var value := if source.Some? then ValueOf(s, ns, source.value) else None;
    && value.Some?
    && (list == [] ==> value.value == "")
    && (list != [] && CommaFree(list) ==> Split(value.value) == list)
    && value.value == JoinStrings(list)
  }

  /** The container reads a positive number from the variable, and nothing for any other. */
  predicate ReadsNumber(s: Store, ns: string, env: seq<EnvVar>, name: string, k: int) {
    var source := Lookup(env, name);
    var value := if source.Some? then ValueOf(s, ns, source.value) else None;
    && (source.Some? <==> k > 0)
    && (k > 0 ==> value.Some? && Spells(value.value, k))
  }

  /**
   What a settled worker's pods read: their queues, their job types and their concurrency, each unless
   the worker's own variables redefine it, and those as they are.
   */
  lemma WorkerReadsItsLists(s: Store, worker: Name, wuid: nat, spec: WorkerSpec)
    requires WorkerSettledAt(s, worker, wuid, WorkerDeployment, spec)
    ensures var m := s.children[ChildKey(DeploymentKind, worker.ns, worker.name)].managed;
      && m.DeploymentFields?
      && var env := m.pod.container.env;
      && (Lookup(spec.env, "OJS_QUEUES").None? ==> ReadsList(s, worker.ns, env, "OJS_QUEUES", spec.queues))
      && (Lookup(spec.env, "OJS_JOB_TYPES").None? ==> ReadsList(s, worker.ns, env, "OJS_JOB_TYPES", spec.jobTypes))
      && (Lookup(spec.env, "OJS_CONCURRENCY").None? ==> ReadsNumber(s, worker.ns, env, "OJS_CONCURRENCY", spec.concurrency))
  {
    hide LabelsForWorker, WorkerEnv, Decimal, JoinStrings, Split, Lookup;
    if Lookup(spec.env, "OJS_QUEUES").None? { GeneratedVariables(worker, spec, "OJS_QUEUES"); }
    if Lookup(spec.env, "OJS_JOB_TYPES").None? { GeneratedVariables(worker, spec, "OJS_JOB_TYPES"); }
    if Lookup(spec.env, "OJS_CONCURRENCY").None? {
      GeneratedVariables(worker, spec, "OJS_CONCURRENCY");
      if spec.concurrency > 0 { DecimalSpells(spec.concurrency); }
    }
    SplitUndoesJoin(spec.queues);
    SplitUndoesJoin(spec.jobTypes);
    assert JoinStrings([]) == "" by { NoEntriesJoinToNothing(); }
  }

  lemma NoEntriesJoinToNothing()
    ensures JoinStrings([]) == ""
  {
  }

  lemma OwnVariablesStand(s: Store, worker: Name, wuid: nat, spec: WorkerSpec, name: string)
    requires WorkerSettledAt(s, worker, wuid, WorkerDeployment, spec) && Lookup(spec.env, name).Some?
    ensures var m := s.children[ChildKey(DeploymentKind, worker.ns, worker.name)].managed;
      m.DeploymentFields? && Lookup(m.pod.container.env, name) == Lookup(spec.env, name)
  {
    hide LabelsForWorker, Decimal, JoinStrings, OjsUrl, Lookup;
    var env := WorkerEnv(worker, spec);
    var generated := env[..|env| - |spec.env|];
    assert env == generated + spec.env;
    LaterVariablesWin(generated, spec.env, name);
  }

  /** Everything else in a settled worker's Deployment. */
  lemma WorkerRunsItsSpec(s: Store, worker: Name, wuid: nat, spec: WorkerSpec)
    requires WorkerSettledAt(s, worker, wuid, WorkerDeployment, spec)
    ensures var m := s.children[ChildKey(DeploymentKind, worker.ns, worker.name)].managed;
      && m.DeploymentFields? && SelectsItsPods(m)
      && Labelled(m.labels, "ojs-worker", worker.name, "worker")
      && LabelIs(m.labels, "app.kubernetes.io/managed-by", "ojs-k8s-operator")
      && LabelIs(m.labels, "ojs.openjobspec.dev/cluster", spec.clusterRef) && |m.labels| == 6
      && (spec.replicas.Some? ==> m.replicas == spec.replicas.value) && (spec.replicas.None? ==> m.replicas == 1)
      && m.pod.container.name == "ojs-worker"
      && m.pod.container.image == spec.image && m.pod.container.command == spec.command && m.pod.container.ports == []
      && (spec.resources.limits.None? && spec.resources.requests.None? ==> m.pod.container.resources == None)
      && (spec.resources.limits.Some? || spec.resources.requests.Some? ==> m.pod.container.resources == Some(spec.resources))
      && (spec.gracefulTimeout.Some? && spec.gracefulTimeout.value > 0 ==> m.pod.graceSeconds == spec.gracefulTimeout)
      && (spec.gracefulTimeout.None? || spec.gracefulTimeout.value <= 0 ==> m.pod.graceSeconds == Some(30))
  {
    hide WorkerEnv;
  }

  /** A settled autoscaler scales the worker's own Deployment, within the spec's bounds, at 80 percent. */
  lemma AutoscalerScalesTheWorker(s: Store, worker: Name, wuid: nat, spec: WorkerSpec)
    requires WorkerSettledAt(s, worker, wuid, Autoscaler, spec) && spec.autoScaling.Some?
    ensures var m := s.children[ChildKey(AutoscalerKind, worker.ns, worker.name + "-hpa")].managed;
      && m.AutoscalerFields? && ChildKey(DeploymentKind, worker.ns, m.target) == WorkerChildKey(WorkerDeployment, worker)
      && m.minReplicas == spec.autoScaling.value.minReplicas && m.maxReplicas == spec.autoScaling.value.maxReplicas
      && m.cpuUtilization == 80
      && Labelled(m.labels, "ojs-worker", worker.name, "worker")
      && LabelIs(m.labels, "ojs.openjobspec.dev/cluster", spec.clusterRef)
  {
  }

  // ---------------------------------------------------------------- a cluster's ConfigMap and variables

  /** A settled ConfigMap: the engine, and the URL - the user's, or the embedded redis's, or none. */
  lemma ConfigMapTellsTheBackend(s: Store, n: Name, uid: nat, spec: ClusterSpec)
    requires SettledAt(s, n, uid, Config, spec)
    ensures var m := s.children[ChildKey(ConfigMapKind, n.ns, n.name + "-config")].managed;
      && m.ConfigMapFields? && m.data.Keys == {"BACKEND_TYPE", "BACKEND_URL"}
      && m.data["BACKEND_TYPE"] == spec.backend.engine
      && (spec.backend.url != "" ==> m.data["BACKEND_URL"] == spec.backend.url)
      && (spec.backend.url == "" && !spec.backend.embedded ==> m.data["BACKEND_URL"] == "")
      && (spec.backend.url == "" && spec.backend.embedded && spec.backend.engine == "redis" ==>
            m.data["BACKEND_URL"] == "redis://" + n.name + "-redis." + n.ns + ".svc.cluster.local:6379")
      && Labelled(m.labels, "ojs-server", n.name, "server")
  {
    hide ServiceHost;
    assert "BACKEND_TYPE"[8] == 'T' && "BACKEND_URL"[8] == 'U';
    RedisUrlIs(n);
  }

  lemma RedisUrlIs(n: Name)
    ensures RedisUrl(n) == "redis://" + n.name + "-redis." + n.ns + ".svc.cluster.local:6379"
  {
    assert "-redis" + "." == "-redis." && ".svc.cluster.local" + ":6379" == ".svc.cluster.local:6379";
  }

  /** The variable each engine's server reads its URL from. */
  function UrlVariables(): map<string, string> {
    map["redis" := "REDIS_URL", "postgres" := "DATABASE_URL", "nats" := "NATS_URL",
        "kafka" := "KAFKA_BROKERS", "sqs" := "SQS_QUEUE_URL", "lite" := "BACKEND_URL"]
  }

  lemma UrlVariableOf(engine: string)
    requires engine in UrlVariables()
    ensures BackendUrlEnvVar(engine) == UrlVariables()[engine]
  {
    assert "redis"[0] == 'r' && "kafka"[0] == 'k' && "nats"[0] == 'n' && "lite"[0] == 'l' && "sqs"[0] == 's';
  }

  /**
   What a settled server's container reads: its engine, and under that engine's name for it the URL -
   from the secret if the spec names one, and else what the settled ConfigMap says.
   */
  lemma ServerReadsItsBackend(s: Store, n: Name, uid: nat, spec: ClusterSpec)
    requires SettledAt(s, n, uid, Config, spec) && SettledAt(s, n, uid, ServerDeployment, spec)
    requires spec.backend.engine in UrlVariables()
    ensures var m, config := s.children[ChildKey(DeploymentKind, n.ns, n.name + "-server")].managed,
                             s.children[ChildKey(ConfigMapKind, n.ns, n.name + "-config")].managed;
      && m.DeploymentFields? && config.ConfigMapFields? && "BACKEND_URL" in config.data
      && var env, variable := m.pod.container.env, UrlVariables()[spec.backend.engine];
      && |env| == 2 && env[0].name == "BACKEND_TYPE" && env[1].name == variable
      && ValueOf(s, n.ns, env[0].source) == Some(spec.backend.engine)
      && (spec.backend.urlSecretRef.Some? ==> env[1].source == FromSecret(spec.backend.urlSecretRef.value))
      && (spec.backend.urlSecretRef.None? ==> ValueOf(s, n.ns, env[1].source) == Some(config.data["BACKEND_URL"]))
  {
    hide ResolveBackendUrl, LabelsForCluster, ServerPodSecurity, BackendUrlEnvVar, UrlVariables;
    UrlVariableOf(spec.backend.engine);
    assert "BACKEND_TYPE"[8] == 'T' && "BACKEND_URL"[8] == 'U';
  }

  // ---------------------------------------------------------------- a cluster's other children

  predicate Defaults<T(==)>(field: Option<T>, given: Option<T>, default: T) {
    field.Some? && (given.Some? ==> field == given) && (given.None? ==> field == Some(default))
  }

  /** How many servers the spec asks for. */
  predicate AsksFor(spec: ClusterSpec, replicas: int) {
    (spec.replicas.Some? ==> replicas == spec.replicas.value) && (spec.replicas.None? ==> replicas == 2)
  }

  /** A settled server Deployment, its security apart. */
  lemma ServerRunsItsSpec(s: Store, n: Name, uid: nat, spec: ClusterSpec)
    requires SettledAt(s, n, uid, ServerDeployment, spec)
    ensures var m := s.children[ChildKey(DeploymentKind, n.ns, n.name + "-server")].managed;
      && m.DeploymentFields? && SelectsItsPods(m)
      && Labelled(m.labels, "ojs-server", n.name, "server")
      && LabelIs(m.labels, "app.kubernetes.io/managed-by", "ojs-k8s-operator") && |m.labels| == 5
      && AsksFor(spec, m.replicas)
      && var c := m.pod.container;
      && c.name == "ojs-server" && c.command == []
      && (spec.image != "" ==> c.image == spec.image)
      && (spec.image == "" ==> c.image == "ghcr.io/openjobspec/ojs-server:latest")
      && c.ports == [ContainerPort("http", 8080), ContainerPort("metrics", 9090)]
      && (spec.resources.limits.None? && spec.resources.requests.None? ==> c.resources == None)
      && (spec.resources.limits.Some? || spec.resources.requests.Some? ==> c.resources == Some(spec.resources))
      && m.pod.serviceAccountName == spec.serviceAccountName
      && (m.pod.automountToken == Some(true) <==> spec.serviceAccountName != "")
      && m.pod.graceSeconds == Some(30)
  {
    hide ServerPodSecurity, ServerEnv;
  }

  /** Its security: what the spec gives, field by field, and restrictive defaults for the rest. */
  lemma ServerIsSecured(s: Store, n: Name, uid: nat, spec: ClusterSpec)
    requires SettledAt(s, n, uid, ServerDeployment, spec)
    ensures var m := s.children[ChildKey(DeploymentKind, n.ns, n.name + "-server")].managed;
      var given := if spec.securityContext.Some? then spec.securityContext.value else PodSecurity(None, None, None, None, None);
      && m.DeploymentFields? && m.pod.security.Some?
      && Defaults(m.pod.security.value.runAsNonRoot, given.runAsNonRoot, true)
      && Defaults(m.pod.security.value.runAsUser, given.runAsUser, 65534)
      && Defaults(m.pod.security.value.runAsGroup, given.runAsGroup, 65534)
      && m.pod.security.value.fsGroup == given.fsGroup
      && Defaults(m.pod.container.readOnlyRootFilesystem, given.readOnlyRootFilesystem, true)
  {
    hide LabelsForCluster, ServerEnv;
  }

  /** Its spreading: the spec's constraints, or with several replicas over zones and hosts by its own labels, or none. */
  lemma ServerIsSpread(s: Store, n: Name, uid: nat, spec: ClusterSpec)
    requires SettledAt(s, n, uid, ServerDeployment, spec)
    ensures var m := s.children[ChildKey(DeploymentKind, n.ns, n.name + "-server")].managed;
      && m.DeploymentFields?
      && (spec.topologySpread != [] ==> m.pod.spread == spec.topologySpread && m.pod.antiAffinity == None)
      && (spec.topologySpread == [] && m.replicas > 1 ==>
            && m.pod.spread == [Spread(1, "topology.kubernetes.io/zone", true, m.podLabels)]
            && m.pod.antiAffinity == Some(m.podLabels))
      && (spec.topologySpread == [] && m.replicas <= 1 ==> m.pod.spread == [] && m.pod.antiAffinity == None)
  {
    hide LabelsForCluster, ServerEnv, ServerPodSecurity;
  }

  /**
   A settled disruption budget covers the server's pods and sets exactly one of its two fields: the
   spec's minimum if it gives one, else its maximum if it gives that, else at most one pod down.
   */
  lemma BudgetCoversTheServer(s: Store, n: Name, uid: nat, spec: ClusterSpec)
    requires SettledAt(s, n, uid, Budget, spec)
    ensures var m := s.children[ChildKey(BudgetKind, n.ns, n.name + "-server")].managed;
      var given := if spec.podDisruptionBudget.Some? then spec.podDisruptionBudget.value else DisruptionBudget(None, None, None);
      && m.BudgetFields? && m.labels == m.selector && Labelled(m.selector, "ojs-server", n.name, "server")
      && m.minAvailable == given.minAvailable
      && (given.minAvailable.Some? ==> m.maxUnavailable == None)
      && (given.minAvailable.None? ==> Defaults(m.maxUnavailable, given.maxUnavailable, 1))
  {
  }

  /** Which optional children a spec asks for. */
  lemma OptionalChildren(spec: ClusterSpec, replicas: int)
    requires AsksFor(spec, replicas)
    ensures Wanted(Budget, spec) <==> replicas > 1 && !(spec.podDisruptionBudget.Some? && spec.podDisruptionBudget.value.enabled == Some(false))
    ensures Wanted(RedisDeployment, spec) == Wanted(RedisService, spec) == spec.backend.embedded
    ensures Wanted(Monitor, spec) <==> spec.monitoring.Some? && spec.monitoring.value.enabled && spec.monitoring.value.serviceMonitor
    ensures Wanted(Config, spec) && Wanted(ServerDeployment, spec) && Wanted(ServerService, spec)
  {
  }

  /** The settled Service and ServiceMonitor of the server. */
  lemma ServerIsServed(s: Store, n: Name, uid: nat, spec: ClusterSpec)
    ensures SettledAt(s, n, uid, ServerService, spec) ==>
      var m := s.children[ChildKey(ServiceKind, n.ns, n.name + "-server")].managed;
      && m.ServiceFields? && m.labels == m.selector && Labelled(m.selector, "ojs-server", n.name, "server")
      && m.ports == [ServicePort("http", 8080, "http"), ServicePort("metrics", 9090, "metrics")]
    ensures SettledAt(s, n, uid, Monitor, spec) ==>
      var m := s.children[ChildKey(MonitorKind, n.ns, n.name + "-server")].managed;
      && m.MonitorFields? && m.labels == m.selector && Labelled(m.selector, "ojs-server", n.name, "server")
      && m.namespaces == [n.ns] && m.port == "metrics"
  {
  }

  /** The settled embedded redis. */
  lemma RedisRuns(s: Store, n: Name, uid: nat, spec: ClusterSpec)
    ensures SettledAt(s, n, uid, RedisDeployment, spec) ==>
      var m := s.children[ChildKey(DeploymentKind, n.ns, n.name + "-redis")].managed;
      && m.DeploymentFields? && SelectsItsPods(m) && Labelled(m.labels, "redis", n.name, "backend") && m.replicas == 1
      && m.pod.container.name == "redis" && m.pod.container.image == "redis:7-alpine"
      && m.pod.container.ports == [ContainerPort("redis", 6379)] && m.pod.container.readOnlyRootFilesystem == Some(true)
      && m.pod.security == Some(PodSecurity(Some(true), Some(999), Some(999), None, None)) && m.pod.automountToken == Some(false)
    ensures SettledAt(s, n, uid, RedisService, spec) ==>
      var m := s.children[ChildKey(ServiceKind, n.ns, n.name + "-redis")].managed;
      && m.ServiceFields? && m.labels == m.selector && Labelled(m.selector, "redis", n.name, "backend")
      && m.ports == [ServicePort("redis", 6379, "redis")]
  {
  }
}
