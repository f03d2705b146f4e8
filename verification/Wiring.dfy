/**
 Who ends up talking to whom: from an environment variable through ConfigMap, URL, Service and
 selector to a container port, and which selector matches which pods.
 */
module Wiring {
  import opened OjsTypes
  import opened Payloads
  import opened ApiServer
  import opened Webhook
  import opened Operator
  import opened Ownership
  import opened ClusterConvergence
  import opened WorkerConvergence

  // ---------------------------------------------------------------- selectors

  /** A pod template generated by the operator. */
  datatype Component = Server(cluster: string) | Redis(cluster: string) | Worker(worker: string, cluster: string)

  function LabelsOf(c: Component): Labels {
    match c
    case Server(cluster) => LabelsForCluster(cluster)
    case Redis(cluster) => LabelsForRedis(cluster)
    case Worker(worker, cluster) => LabelsForWorker(worker, cluster)
  }

  predicate Matches(selector: Labels, labels: Labels) {
    forall k <- selector :: k in labels && labels[k] == selector[k]
  }

  /** A generated selector matches a generated pod template exactly when both are of the same component of the same owner. */
  lemma SelectorsAreIsolated(a: Component, b: Component)
    ensures Matches(LabelsOf(a), LabelsOf(b)) <==> a == b
  {
    var name, instance, cluster := "app.kubernetes.io/name", "app.kubernetes.io/instance", "ojs.openjobspec.dev/cluster";
    var selector, labels := LabelsOf(a), LabelsOf(b);
    assert name in selector && instance in selector && (a.Worker? ==> cluster in selector);
    if Matches(selector, labels) {
      assert labels[name] == selector[name];
      assert "ojs-server"[0] == 'o' && "redis"[0] == 'r' && "ojs-server"[4] == 's' && "ojs-worker"[4] == 'w';
      assert labels[instance] == selector[instance];
      if a.Worker? { assert labels[cluster] == selector[cluster]; }
    }
  }

  // ---------------------------------------------------------------- cluster DNS

  function IndexOf(s: string, c: char): (i: nat)
    ensures i <= |s| && c !in s[..i]
    ensures i < |s| ==> s[i] == c
  {
    if s == [] || s[0] == c then 0
    else
      var i := IndexOf(s[1..], c);
      assert s[..1 + i] == [s[0]] + s[1..][..i];
      1 + i
  }

  lemma {:induction false} IndexOfIsFirst(a: string, c: char, b: string)
    requires c !in a
    ensures IndexOf(a + [c] + b, c) == |a|
  {
    if a == [] {
      assert (a + [c] + b)[0] == c;
    } else {
      assert (a + [c] + b)[1..] == a[1..] + [c] + b;
      IndexOfIsFirst(a[1..], c, b);
    }
  }

  datatype Endpoint = Endpoint(service: string, ns: string, port: string)

  const DOMAIN := "svc.cluster.local:"

  /** What a client resolves from `scheme` service.ns.svc.cluster.local:port. */
  function Dial(url: string, scheme: string): Option<Endpoint> {
    if !(scheme <= url) then None
    else
      var authority := url[|scheme|..];
      var i := IndexOf(authority, '.');
      if i == |authority| then None
      else
        var rest := authority[i + 1..];
        var j := IndexOf(rest, '.');
        if j == |rest| || !(DOMAIN <= rest[j + 1..]) then None
        else Some(Endpoint(authority[..i], rest[..j], rest[j + 1..][|DOMAIN|..]))
  }

  lemma Spelled(ns: string, service: string, port: string)
    ensures ServiceHost(ns, service) + ":" + port == service + ['.'] + (ns + ['.'] + (DOMAIN + port))
  {
    assert ".svc.cluster.local" + ":" == ['.'] + DOMAIN;
  }

  lemma DotFreeHostsResolve(scheme: string, ns: string, service: string, port: string)
    requires '.' !in service && '.' !in ns
    ensures Dial(scheme + (service + ['.'] + (ns + ['.'] + (DOMAIN + port))), scheme) == Some(Endpoint(service, ns, port))
  {
    hide IndexOf;
    var tail := ns + ['.'] + (DOMAIN + port);
    var authority := service + ['.'] + tail;
    assert (scheme + authority)[|scheme|..] == authority;
    IndexOfIsFirst(service, '.', tail);
    assert authority[..|service|] == service && authority[|service| + 1..] == tail;
    IndexOfIsFirst(ns, '.', DOMAIN + port);
    assert tail[..|ns|] == ns && tail[|ns| + 1..] == DOMAIN + port;
    assert (DOMAIN + port)[|DOMAIN|..] == port;
  }

  /**
   A generated host name resolves to the service and namespace it was made from exactly when neither
   contains a dot, as Kubernetes demands of both.
   */
  lemma HostsResolve(scheme: string, ns: string, service: string, port: string)
    ensures Dial(scheme + (ServiceHost(ns, service) + ":" + port), scheme) == Some(Endpoint(service, ns, port))
      <==> '.' !in service && '.' !in ns
  {
    hide IndexOf, ServiceHost;
    Spelled(ns, service, port);
    if '.' !in service && '.' !in ns {
      DotFreeHostsResolve(scheme, ns, service, port);
    }
  }

  // ---------------------------------------------------------------- following a variable

  /** The variable a container sees: of several with one name the last counts. */
  function Lookup(env: seq<EnvVar>, name: string): (r: Option<EnvSource>)
    ensures r.None? <==> forall v <- env :: v.name != name
  {
    if env == [] then None
    else if env[|env| - 1].name == name then Some(env[|env| - 1].source)
    else
      assert env == env[..|env| - 1] + [env[|env| - 1]];
      Lookup(env[..|env| - 1], name)
  }

  lemma {:induction false} LaterVariablesWin(a: seq<EnvVar>, b: seq<EnvVar>, name: string)
    ensures Lookup(a + b, name) == if Lookup(b, name).Some? then Lookup(b, name) else Lookup(a, name)
    decreases |b|
  {
    if b == [] {
      assert a + b == a;
    } else {
      LaterVariablesWin(a, b[..|b| - 1], name);
      assert (a + b)[..|a + b| - 1] == a + b[..|b| - 1];
    }
  }

  /** Its value; secrets are outside the model. */
  function ValueOf(s: Store, ns: string, source: EnvSource): Option<string> {
    match source
    case Literal(value) => Some(value)
    case FromSecret(_) => None
    case FromConfigMap(name, key) =>
      var at := ChildKey(ConfigMapKind, ns, name);
      if at in s.children && s.children[at].managed.ConfigMapFields? && key in s.children[at].managed.data
      then Some(s.children[at].managed.data[key]) else None
  }

  /** Where the variable `name` of the pods of a Deployment points a client of that scheme. */
  function Target(s: Store, from: ChildKey, name: string, scheme: string): Option<Endpoint> {
    if from !in s.children || !s.children[from].managed.DeploymentFields? then None
    else
      var source := Lookup(s.children[from].managed.pod.container.env, name);
      var value := if source.Some? then ValueOf(s, from.ns, source.value) else None;
      if value.Some? then Dial(value.value, scheme) else None
  }

  /** A connection to a Service port arrives at a named port of this Deployment's container. */
  ghost predicate Reaches(s: Store, e: Endpoint, deployment: ChildKey, number: int) {
    var at := ChildKey(ServiceKind, e.ns, e.service);
    && at in s.children && s.children[at].managed.ServiceFields?
    && deployment in s.children && deployment.ns == e.ns && s.children[deployment].managed.DeploymentFields?
    && Matches(s.children[at].managed.selector, s.children[deployment].managed.podLabels)
    && Lands(s.children[at].managed.ports, s.children[deployment].managed.pod.container.ports, e.port, number)
  }

  ghost predicate Lands(offered: seq<ServicePort>, named: seq<ContainerPort>, port: string, number: int) {
    exists p, c :: p in offered && c in named && Decimal(p.number) == port && c.name == p.targetPort && c.number == number
  }

  lemma Ports()
    ensures Decimal(6379) == "6379" && Decimal(8080) == "8080"
  {
    assert Decimal(637) == Decimal(63) + "7" && Decimal(63) == "6" + "3";
    assert Decimal(808) == Decimal(80) + "8" && Decimal(80) == "8" + "0";
  }

  /** The redis Service, as generated, leads to the redis container, as generated. */
  lemma RedisReached(s: Store, n: Name, uid: nat, spec: ClusterSpec)
    requires SettledAt(s, n, uid, RedisDeployment, spec) && SettledAt(s, n, uid, RedisService, spec)
    ensures Reaches(s, Endpoint(n.name + "-redis", n.ns, "6379"), ClusterChildKey(RedisDeployment, n), REDIS_PORT)
  {
    hide LabelsForRedis, LabelsForCluster, Decimal;
    Ports();
    var p, c := ServicePort("redis", REDIS_PORT, "redis"), ContainerPort("redis", REDIS_PORT);
    assert p in [p] && c in RedisPod().container.ports;
    assert Lands([p], RedisPod().container.ports, "6379", REDIS_PORT);
  }

  /** The server Service, as generated, leads to the http port of the server container. */
  lemma ServerReached(s: Store, n: Name, uid: nat, spec: ClusterSpec)
    requires SettledAt(s, n, uid, ServerDeployment, spec) && SettledAt(s, n, uid, ServerService, spec)
    ensures Reaches(s, Endpoint(n.name + "-server", n.ns, "8080"), ClusterChildKey(ServerDeployment, n), DEFAULT_PORT)
  {
    hide LabelsForRedis, LabelsForCluster, Decimal, ServerPodSecurity, ServerEnv, Replicas;
    Ports();
    var p, c := ServicePort("http", DEFAULT_PORT, "http"), ContainerPort("http", DEFAULT_PORT);
    var offered, named := s.children[ClusterChildKey(ServerService, n)].managed.ports, ServerPod(n, spec).container.ports;
    assert offered[0] == p && named[0] == c;
    assert p in offered && c in named;
    assert Lands(offered, named, "8080", DEFAULT_PORT);
  }

  /** What the server reads is the ConfigMap entry, unless its spec takes the URL from a secret. */
  lemma ServerReadsItsConfig(s: Store, n: Name, uid: nat, spec: ClusterSpec, scheme: string)
    requires SettledAt(s, n, uid, Config, spec) && SettledAt(s, n, uid, ServerDeployment, spec)
    requires spec.backend.urlSecretRef.None?
    ensures var variable := BackendUrlEnvVar(spec.backend.engine);
      Target(s, ClusterChildKey(ServerDeployment, n), variable, scheme) == Dial(ResolveBackendUrl(n, spec.backend), scheme)
  {
    hide LabelsForCluster, Dial, ResolveBackendUrl, ServerPodSecurity, Replicas, BackendUrlEnvVar;
    var env := ServerEnv(n, spec.backend);
    assert env[|env| - 1].name == BackendUrlEnvVar(spec.backend.engine);
    assert s.children[ClusterChildKey(ServerDeployment, n)].managed.pod.container.env == env;
    assert ValueOf(s, n.ns, env[1].source) == Some(ResolveBackendUrl(n, spec.backend));
  }

  /**
   Embedded redis, for every cluster of dot-free name and namespace: once its children are settled,
   the variable its server reads names the redis Service, and that Service leads to the redis
   container of this very cluster.
   */
  lemma ServerFindsItsRedis(s: Store, n: Name, uid: nat, spec: ClusterSpec)
    requires spec.backend.embedded && spec.backend.engine == "redis"
    requires spec.backend.url == "" && spec.backend.urlSecretRef.None?
    requires '.' !in n.name && '.' !in n.ns
    requires forall t | Required(t, spec) :: SettledAt(s, n, uid, t, spec)
    ensures var e := Target(s, ClusterChildKey(ServerDeployment, n), "REDIS_URL", "redis://");
      e.Some? && Reaches(s, e.value, ClusterChildKey(RedisDeployment, n), REDIS_PORT)
  {
    hide SettledAt, Dial, ServiceHost, Reaches, Target;
    assert Required(Config, spec) && Required(ServerDeployment, spec) && Required(RedisDeployment, spec) && Required(RedisService, spec);
    ServerReadsItsConfig(s, n, uid, spec, "redis://");
    assert BackendUrlEnvVar("redis") == "REDIS_URL" && ResolveBackendUrl(n, spec.backend) == RedisUrl(n);
    RedisReached(s, n, uid, spec);
    var service := n.name + "-redis";
    assert '.' !in service by { assert '.' !in "-redis"; }
    HostsResolve("redis://", n.ns, service, "6379");
    assert RedisUrl(n) == "redis://" + (ServiceHost(n.ns, service) + ":" + "6379");
  }

  /** What a worker's pods read as OJS_URL: the last of its own variables of that name, or else its parent's server. */
  lemma OwnVariablesWin(worker: Name, spec: WorkerSpec)
    ensures var own, url := Lookup(spec.env, "OJS_URL"), Literal(OjsUrl(Name(worker.ns, spec.clusterRef)));
      Lookup(WorkerEnv(worker, spec), "OJS_URL") == if own.Some? then own else Some(url)
  {
    hide OjsUrl, Decimal, JoinStrings;
    var env, size := WorkerEnv(worker, spec), |WorkerEnv(worker, spec)| - |spec.env|;
    var url, generated := [EnvVar("OJS_URL", Literal(OjsUrl(Name(worker.ns, spec.clusterRef))))], env[1..size];
    assert env == url + (generated + spec.env);
    assert forall v <- generated :: v.name != "OJS_URL" by {
      assert "OJS_QUEUES"[4] == 'Q' && "OJS_URL"[4] == 'U' && "OJS_JOB_TYPES"[4] == 'J' && "OJS_CONCURRENCY"[4] == 'C';
    }
    assert Lookup(generated, "OJS_URL").None?;
    LaterVariablesWin(url, generated + spec.env, "OJS_URL");
    LaterVariablesWin(generated, spec.env, "OJS_URL");
    assert Lookup(url, "OJS_URL") == Some(url[0].source);
  }

  /** The worker's own variables leave OJS_URL alone, or set it to what it would be anyway. */
  predicate KeepsOjsUrl(worker: Name, spec: WorkerSpec) {
    Lookup(spec.env, "OJS_URL") in {None, Some(Literal(OjsUrl(Name(worker.ns, spec.clusterRef))))}
  }

  /** OJS_URL is the parent's server exactly when the worker's own variables do not say otherwise. */
  lemma OjsUrlIsTheParents(worker: Name, spec: WorkerSpec)
    ensures Lookup(WorkerEnv(worker, spec), "OJS_URL") == Some(Literal(OjsUrl(Name(worker.ns, spec.clusterRef))))
      <==> KeepsOjsUrl(worker, spec)
  {
    hide OjsUrl, WorkerEnv;
    OwnVariablesWin(worker, spec);
  }

  /** Where a settled worker's pods dial, whatever variables it brings. */
  lemma WorkerDials(s: Store, worker: Name, wuid: nat, spec: WorkerSpec)
    requires WorkerSettledAt(s, worker, wuid, WorkerDeployment, spec)
    ensures var own := Lookup(spec.env, "OJS_URL");
      var value := if own.Some? then ValueOf(s, worker.ns, own.value) else Some(OjsUrl(Name(worker.ns, spec.clusterRef)));
      Target(s, WorkerChildKey(WorkerDeployment, worker), "OJS_URL", "http://")
        == if value.Some? then Dial(value.value, "http://") else None
  {
    hide LabelsForWorker, Dial, OjsUrl, WorkerEnv;
    OwnVariablesWin(worker, spec);
  }

  /** Where the parent's server is reached. */
  function ServerEndpoint(worker: Name, spec: WorkerSpec): Endpoint {
    Endpoint(spec.clusterRef + "-server", worker.ns, "8080")
  }

  lemma OjsUrlResolves(worker: Name, spec: WorkerSpec)
    requires '.' !in spec.clusterRef && '.' !in worker.ns
    ensures Dial(OjsUrl(Name(worker.ns, spec.clusterRef)), "http://") == Some(ServerEndpoint(worker, spec))
  {
    hide Dial, ServiceHost;
    var service := spec.clusterRef + "-server";
    assert '.' !in service by { assert '.' !in "-server"; }
    HostsResolve("http://", worker.ns, service, "8080");
    assert OjsUrl(Name(worker.ns, spec.clusterRef)) == "http://" + (ServiceHost(worker.ns, service) + ":" + "8080");
  }

  /**
   Workers, for every worker and every parent of dot-free name and namespace: once both are settled,
   and unless the worker's own variables redefine it, OJS_URL leads through the parent's Service to
   the http port of the parent's server container.
   */
  lemma WorkerFindsItsServer(s: Store, worker: Name, wuid: nat, wspec: WorkerSpec, uid: nat, spec: ClusterSpec)
    requires '.' !in wspec.clusterRef && '.' !in worker.ns && KeepsOjsUrl(worker, wspec)
    requires WorkerSettledAt(s, worker, wuid, WorkerDeployment, wspec)
    requires var n := Name(worker.ns, wspec.clusterRef);
      SettledAt(s, n, uid, ServerService, spec) && SettledAt(s, n, uid, ServerDeployment, spec)
    ensures var e := Target(s, WorkerChildKey(WorkerDeployment, worker), "OJS_URL", "http://");
      && e == Some(ServerEndpoint(worker, wspec))
      && Reaches(s, e.value, ClusterChildKey(ServerDeployment, Name(worker.ns, wspec.clusterRef)), DEFAULT_PORT)
  {
    hide SettledAt, WorkerSettledAt, Dial, OjsUrl, Reaches, Target;
    WorkerDials(s, worker, wuid, wspec);
    OjsUrlResolves(worker, wspec);
    ServerReached(s, Name(worker.ns, wspec.clusterRef), uid, spec);
  }

  const ELSEWHERE := "http://other.away.svc.cluster.local:80"

  lemma ElsewhereIsNoServer(n: Name)
    ensures OjsUrl(n) != ELSEWHERE
  {
    hide ServiceHost;
    var url := OjsUrl(n);
    assert url[|url| - 3] == '0' && ELSEWHERE[|ELSEWHERE| - 3] == ':';
  }

  lemma ElsewhereResolves()
    ensures Dial(ELSEWHERE, "http://") == Some(Endpoint("other", "away", "80"))
  {
    hide Dial;
    HostsResolve("http://", "away", "other", "80");
    assert ELSEWHERE == "http://" + (ServiceHost("away", "other") + ":" + "80");
  }

  /** The failing input: any admitted worker stays admitted with such a variable of its own, and its pods dial elsewhere. */
  lemma OverriddenUrlLeadsElsewhere(s: Store, worker: Name, wuid: nat, spec: WorkerSpec)
    requires ValidateWorker(spec).None?
    ensures var over := spec.(env := [EnvVar("OJS_URL", Literal(ELSEWHERE))]);
      && ValidateWorker(over).None? && !KeepsOjsUrl(worker, over)
      && (WorkerSettledAt(s, worker, wuid, WorkerDeployment, over) ==>
            var e := Target(s, WorkerChildKey(WorkerDeployment, worker), "OJS_URL", "http://");
            e == Some(Endpoint("other", "away", "80")) && e != Some(ServerEndpoint(worker, over)))
  {
    hide Dial, OjsUrl, WorkerSettledAt, Target, WorkerEnv;
    var over := spec.(env := [EnvVar("OJS_URL", Literal(ELSEWHERE))]);
    assert Lookup(over.env, "OJS_URL") == Some(Literal(ELSEWHERE));
    ElsewhereIsNoServer(Name(worker.ns, spec.clusterRef));
    ElsewhereResolves();
    if WorkerSettledAt(s, worker, wuid, WorkerDeployment, over) {
      WorkerDials(s, worker, wuid, over);
    }
  }

  /** So one uninterrupted reconcile, after any history, closes the loop. */
  lemma ReconcileWiresRedis(w: World, n: Name)
    requires Reachable(w) && n in w.store.clusters && n !in w.clusterProcs && !w.store.clusters[n].deleting
    requires var b := w.store.clusters[n].spec.backend;
      b.embedded && b.engine == "redis" && b.url == "" && b.urlSecretRef.None?
    requires '.' !in n.name && '.' !in n.ns
    requires forall t | Required(t, w.store.clusters[n].spec) :: Free(w.store, n, t, w.store.clusters[n].spec)
    ensures var s := Reconcile(w, n).store;
      var e := Target(s, ClusterChildKey(ServerDeployment, n), "REDIS_URL", "redis://");
      e.Some? && Reaches(s, e.value, ClusterChildKey(RedisDeployment, n), REDIS_PORT)
  {
    hide SettledAt, Reaches, Target, Reconcile, Free, Required, Reachable;
    ClusterConverges(w, n);
    var cr := w.store.clusters[n];
    ServerFindsItsRedis(Reconcile(w, n).store, n, cr.uid, cr.spec);
  }

  /** A worker's reconcile leaves a settled server of another name alone: a worker named after it is blocked instead. */
  lemma WorkerSparesServer(s: Store, s': Store, worker: Name, wspec: WorkerSpec, n: Name, uid: nat, slot: ClusterSlot, spec: ClusterSpec)
    requires SettledAt(s, n, uid, slot, spec) && WorkerFree(s, worker, WorkerDeployment, wspec)
    requires OnlyOwnNames(s.children, s'.children, worker)
    ensures SettledAt(s', n, uid, slot, spec)
  {
    hide ClusterChild, WorkerChild, SelectorAccepted, ClusterChildKey, WorkerChildKey;
    WorkerMeetsCluster(slot, n, WorkerDeployment, worker);
    WorkerMeetsCluster(slot, n, Autoscaler, worker);
    assert SameAt(s.children, s'.children, ClusterChildKey(slot, n));
  }

  /** The same for workers: after any history one uninterrupted reconcile points the pods at the parent's settled server. */
  lemma ReconcileWiresWorker(w: World, worker: Name, uid: nat, spec: ClusterSpec)
    requires Reachable(w) && worker in w.store.workers && worker !in w.workerProcs && !w.store.workers[worker].deleting
    requires var wspec := w.store.workers[worker].spec;
      && HasParent(w, worker, wspec) && Clear(w.store, worker, wspec)
      && '.' !in wspec.clusterRef && '.' !in worker.ns && KeepsOjsUrl(worker, wspec)
    requires var n := Name(worker.ns, w.store.workers[worker].spec.clusterRef);
      SettledAt(w.store, n, uid, ServerService, spec) && SettledAt(w.store, n, uid, ServerDeployment, spec)
    ensures var s, wspec := ReconcileWorker(w, worker).store, w.store.workers[worker].spec;
      && Target(s, WorkerChildKey(WorkerDeployment, worker), "OJS_URL", "http://") == Some(ServerEndpoint(worker, wspec))
      && Reaches(s, ServerEndpoint(worker, wspec), ClusterChildKey(ServerDeployment, Name(worker.ns, wspec.clusterRef)), DEFAULT_PORT)
  {
    hide SettledAt, WorkerSettledAt, Reaches, Target, ReconcileWorker, WorkerFree, Reachable, KeepsOjsUrl, OnlyOwnNames, HasParent;
    var wspec, s := w.store.workers[worker].spec, ReconcileWorker(w, worker).store;
    var n := Name(worker.ns, wspec.clusterRef);
    WorkerConverges(w, worker);
    WorkerSparesServer(w.store, s, worker, wspec, n, uid, ServerService, spec);
    WorkerSparesServer(w.store, s, worker, wspec, n, uid, ServerDeployment, spec);
    WorkerFindsItsServer(s, worker, w.store.workers[worker].uid, wspec, uid, spec);
  }
}
