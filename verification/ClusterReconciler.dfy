/**
 OJSClusterReconciler as the object it is: methods that change the cluster in memory and call the
 API server, proved step for step against the coroutine of ClusterMachine under every interleaving.
 */
module ClusterReconciler {
  import opened OjsTypes
  import opened Payloads
  import opened ApiServer
  import opened Events
  import opened Observation
  import opened ClusterMachine
  import opened Operator
  import opened Interleaving
  import opened ResultLaws

  /** The cluster in memory: `base` as the API server last returned it, and the status being worked on. */
  class ClusterObject {
    const n: Name
    var base: Cr<ClusterSpec>
    var status: Status

    constructor (n: Name, cr: Cr<ClusterSpec>)
      ensures this.n == n && base == cr && status == cr.status
    {
      this.n := n;
      base, status := cr, cr.status;
    }

    /** A reply to a write refreshes the object. */
    method Refresh(cr: Cr<ClusterSpec>)
      modifies this
      ensures base == cr && status == cr.status
    {
      base, status := cr, cr.status;
    }

    method SetCondition(t: ConditionType, value: bool, now: nat)
      modifies this`status
      ensures status == old(status).(conditions := OjsTypes.SetCondition(old(status).conditions, t, value, base.gen, now))
      ensures Find(status.conditions, t).Some? && Find(status.conditions, t).value.status == value
      ensures Find(status.conditions, t).value.observed == base.gen
      ensures forall u :: u != t ==> Find(status.conditions, u) == Find(old(status).conditions, u)
    {
      status := status.(conditions := OjsTypes.SetCondition(status.conditions, t, value, base.gen, now));
    }
  }

  /** The API server, with everybody else's moves and the fate of each call scripted. */
  class ClusterClient {
    const n: Name
    var world: World
    var script: seq<Turn>
    ghost var announced: seq<Event>

    constructor (n: Name, world: World, script: seq<Turn>)
      ensures this.n == n && this.world == world && this.script == script && announced == []
    {
      this.n := n;
      this.world := world;
      this.script := script;
      announced := [];
    }

    /** The coroutine is where `turn` leaves it. */
    ghost predicate Stands(turn: ClusterTurn)
      reads this
    {
      if turn.next.None? then n !in world.clusterProcs
      else n in world.clusterProcs && world.clusterProcs[n] == turn.next.value
    }

    /** What the whole reconcile comes to, seen from here. */
    ghost function Final(): World
      reads this
    {
      Drive(world, script, n)
    }

    ghost function Record(): seq<Event>
      reads this
    {
      announced + Announced(world, script, n)
    }

    method Start()
      requires n !in world.clusterProcs
      modifies this
      ensures Stands(ClusterTurn(Some(Starting), [])) && script == old(script) && announced == old(announced)
      ensures world == Apply(old(world), StartCluster(n))
    {
      world := Apply(world, StartCluster(n));
    }

    /** One call.  It must be the one the coroutine makes next. */
    method Call(request: Request<ClusterSpec>, ghost p: ClusterProc) returns (reply: Reply<ClusterSpec>)
      requires Stands(ClusterTurn(Some(p), [])) && request == ClusterRequest(n, p)
      modifies this
      ensures Stands(ClusterResume(n, p, reply, world.now))
      ensures announced == old(announced) + ClusterResume(n, p, reply, world.now).events
      ensures Final() == old(Final()) && Record() == old(Record())
    {
      hide ClusterResume, ClusterRequest, Advance, ReplyTo, Disturbed;
      AdvanceFollowsReply(world, script, n);
      reply := ReplyTo(world, script, n);
      announced := announced + Answered(world, script, n).events;
      world := Advance(world, script, n);
      script := Rest(script);
    }
  }

  class Reconciler {
    const n: Name
    const client: ClusterClient
    var events: seq<Event>

    constructor (client: ClusterClient)
      ensures this.client == client && n == client.n && events == []
    {
      this.client := client;
      n := client.n;
      events := [];
    }

    /** The code is where the coroutine is, but for the events of `turn`, which it has yet to record. */
    ghost predicate InStep(turn: ClusterTurn)
      reads this, client
    {
      client.n == n && client.Stands(turn) && client.announced == events + turn.events
    }

    /** What the reconcile comes to has not changed. */
    twostate predicate OnCourse()
      reads this, client
    {
      client.Final() == old(client.Final()) && client.Record() == old(client.Record())
    }

    method RecordEvent(e: Event)
      modifies this`events
      ensures events == old(events) + [e]
    {
      events := events + [e];
    }

    method Call(request: Request<ClusterSpec>, ghost p: ClusterProc) returns (reply: Reply<ClusterSpec>)
      requires InStep(ClusterTurn(Some(p), [])) && request == ClusterRequest(n, p)
      modifies client
      ensures InStep(ClusterResume(n, p, reply, client.world.now))
      ensures OnCourse()
    {
      hide ClusterResume, ClusterRequest, Drive, Announced;
      reply := client.Call(request, p);
    }

    // -------------------------------------------------------------- one child

    /** controllerutil.CreateOrUpdate around a closure that sets the controller and the managed fields. */
    method CreateOrUpdate(cluster: ClusterObject, slot: ClusterSlot, managed: Managed) returns (ok: bool)
      requires cluster.n == n && managed == ClusterChild(slot, n, cluster.base.spec)
      requires InStep(ClusterGo(ClusterPc.Read(slot), cluster.base, cluster.status))
      modifies client
      ensures OnCourse()
      ensures ok ==> InStep(ClusterSlotDone(cluster.base, cluster.status, slot, client.world.now))
      ensures !ok ==> InStep(ClusterSlotFailed(n, cluster.base, cluster.status, slot, client.world.now))
    {
      hide ClusterChild, ClusterSlotDone, ClusterSlotFailed, Drive, Announced;
      var base, status := cluster.base, cluster.status;
      var key, controller := ClusterChildKey(slot, n), ClusterController(n, base.uid);
      var reply := Call(GetChild(key), Active(ClusterPc.Read(slot), base, status));
      if reply.NotFound? {
        reply := Call(CreateChild(key, controller, managed), Active(ClusterPc.Write(slot, None), base, status));
        return reply.GotChild?;
      }
      if !reply.GotChild? {
        return false;
      }
      var child := reply.child;
      if ControlledByOther(child, ByCluster, n.name) {
        return false;
      }
      if Settled(child, controller, managed) {
        return true;
      }
      reply := Call(UpdateChild(key, child, controller, managed), Active(ClusterPc.Write(slot, Some(child)), base, status));
      return reply.GotChild?;
    }

    method ReconcileConfigMap(cluster: ClusterObject) returns (ok: bool)
      requires cluster.n == n && InStep(ClusterGo(ClusterPc.Read(Config), cluster.base, cluster.status))
      modifies client
      ensures OnCourse()
      ensures ok ==> InStep(ClusterGo(ClusterPc.Read(ServerDeployment), cluster.base, cluster.status))
      ensures !ok ==> InStep(ClusterStop(n, FailureAfterDelay))
    {
      hide ResolveBackendUrl, Drive, Announced;
      var backendUrl := ResolveBackendUrl(n, cluster.base.spec.backend);
      var data := map["BACKEND_TYPE" := cluster.base.spec.backend.engine, "BACKEND_URL" := backendUrl];
      ok := CreateOrUpdate(cluster, Config, ConfigMapFields(LabelsForCluster(n.name), data));
    }

    method BuildPodSecurityContext(cluster: ClusterObject) returns (sc: PodSecurity)
      ensures sc == ServerPodSecurity(cluster.base.spec)
    {
      sc := PodSecurity(Some(true), Some(65534), Some(65534), None, None);
      if cluster.base.spec.securityContext.Some? {
        var given := cluster.base.spec.securityContext.value;
        if given.runAsNonRoot.Some? {
          sc := sc.(runAsNonRoot := given.runAsNonRoot);
        }
        if given.runAsUser.Some? {
          sc := sc.(runAsUser := given.runAsUser);
        }
        if given.runAsGroup.Some? {
          sc := sc.(runAsGroup := given.runAsGroup);
        }
        if given.fsGroup.Some? {
          sc := sc.(fsGroup := given.fsGroup);
        }
      }
    }

    method BuildServerEnv(cluster: ClusterObject) returns (envVars: seq<EnvVar>)
      requires cluster.n == n
      ensures envVars == ServerEnv(n, cluster.base.spec.backend)
    {
      var backend := cluster.base.spec.backend;
      envVars := [EnvVar("BACKEND_TYPE", FromConfigMap(n.name + "-config", "BACKEND_TYPE"))];
      if backend.urlSecretRef.Some? {
        envVars := envVars + [EnvVar(BackendUrlEnvVar(backend.engine), FromSecret(backend.urlSecretRef.value))];
      } else {
        envVars := envVars + [EnvVar(BackendUrlEnvVar(backend.engine), FromConfigMap(n.name + "-config", "BACKEND_URL"))];
      }
    }

    method BuildServerPod(cluster: ClusterObject, replicas: int, image: string, labels: Labels) returns (pod: PodSpec)
      requires cluster.n == n && labels == LabelsForCluster(n.name) && replicas == Replicas(cluster.base.spec)
      requires image == if cluster.base.spec.image != "" then cluster.base.spec.image else DEFAULT_IMAGE
      ensures pod == ServerPod(n, cluster.base.spec)
    {
      hide LabelsForCluster, ServerPodSecurity, ServerEnv, Replicas;
      var spec := cluster.base.spec;
      var envVars := BuildServerEnv(cluster);
      var readOnly := Some(true);
      if spec.securityContext.Some? && spec.securityContext.value.readOnlyRootFilesystem.Some? {
        readOnly := spec.securityContext.value.readOnlyRootFilesystem;
      }
      var ports := [ContainerPort("http", DEFAULT_PORT), ContainerPort("metrics", METRICS_PORT)];
      var container := Container("ojs-server", image, ports, envVars, [], None, readOnly);
      if spec.resources.limits.Some? || spec.resources.requests.Some? {
        container := container.(resources := Some(spec.resources));
      }
      var security := BuildPodSecurityContext(cluster);
      pod := PodSpec(container, Some(security), "", Some(false), Some(30), [], None);
      if spec.serviceAccountName != "" {
        pod := pod.(serviceAccountName := spec.serviceAccountName, automountToken := Some(true));
      }
      if |spec.topologySpread| > 0 {
        pod := pod.(spread := spec.topologySpread);
      } else if replicas > 1 {
        pod := pod.(spread := [Spread(1, "topology.kubernetes.io/zone", true, labels)]);
        pod := pod.(antiAffinity := Some(labels));
      }
    }

    method ReconcileDeployment(cluster: ClusterObject) returns (ok: bool)
      requires cluster.n == n && InStep(ClusterGo(ClusterPc.Read(ServerDeployment), cluster.base, cluster.status))
      modifies client
      ensures OnCourse()
      ensures ok ==> InStep(ClusterGo(ClusterPc.Read(ServerService), cluster.base, cluster.status))
      ensures !ok ==> InStep(ClusterStop(n, FailureAfterDelay))
    {
      hide LabelsForCluster, ServerPod, Drive, Announced;
      var replicas := 2;
      if cluster.base.spec.replicas.Some? {
        replicas := cluster.base.spec.replicas.value;
      }
      var image := DEFAULT_IMAGE;
      if cluster.base.spec.image != "" {
        image := cluster.base.spec.image;
      }
      var labels := LabelsForCluster(n.name);
      var pod := BuildServerPod(cluster, replicas, image, labels);
      ok := CreateOrUpdate(cluster, ServerDeployment, DeploymentFields(labels, replicas, labels, labels, pod));
    }

    method ReconcileService(cluster: ClusterObject) returns (ok: bool)
      requires cluster.n == n && InStep(ClusterGo(ClusterPc.Read(ServerService), cluster.base, cluster.status))
      modifies client
      ensures OnCourse()
      ensures ok ==> InStep(AfterService(cluster.base, cluster.status))
      ensures !ok ==> InStep(ClusterStop(n, FailureAfterDelay))
    {
      hide LabelsForCluster, Wanted, Drive, Announced;
      var labels := LabelsForCluster(n.name);
      var ports := [ServicePort("http", DEFAULT_PORT, "http"), ServicePort("metrics", METRICS_PORT, "metrics")];
      ok := CreateOrUpdate(cluster, ServerService, ServiceFields(labels, labels, ports));
    }

    method ReconcilePDB(cluster: ClusterObject) returns (ok: bool)
      requires cluster.n == n && InStep(AfterService(cluster.base, cluster.status))
      modifies client
      ensures OnCourse()
      ensures ok ==> InStep(AfterBudget(cluster.base, cluster.status))
      ensures !ok ==> InStep(ClusterStop(n, FailureAfterDelay))
    {
      hide LabelsForCluster, Drive, Announced;
      var spec := cluster.base.spec;
      var replicas := 2;
      if spec.replicas.Some? {
        replicas := spec.replicas.value;
      }
      if replicas <= 1 {
        return true;
      }
      if spec.podDisruptionBudget.Some? && spec.podDisruptionBudget.value.enabled == Some(false) {
        return true;
      }
      var labels := LabelsForCluster(n.name);
      var budget := BudgetFields(labels, labels, None, None);
      if spec.podDisruptionBudget.Some? && spec.podDisruptionBudget.value.minAvailable.Some? {
        budget := budget.(minAvailable := spec.podDisruptionBudget.value.minAvailable);
      } else if spec.podDisruptionBudget.Some? && spec.podDisruptionBudget.value.maxUnavailable.Some? {
        budget := budget.(maxUnavailable := spec.podDisruptionBudget.value.maxUnavailable);
      } else {
        budget := budget.(maxUnavailable := Some(1));
      }
      ok := CreateOrUpdate(cluster, Budget, budget);
    }

    method ReconcileServiceMonitor(cluster: ClusterObject) returns (ok: bool)
      requires cluster.n == n && InStep(ClusterGo(ClusterPc.Read(Monitor), cluster.base, cluster.status))
      modifies client
      ensures OnCourse()
      ensures InStep(if ok then ClusterGo(ClusterPc.ReadServer, cluster.base, cluster.status)
                     else Noting(MonitorFailed(n), ClusterGo(ClusterPc.ReadServer, cluster.base, cluster.status)))
    {
      hide LabelsForCluster, Drive, Announced;
      var labels := LabelsForCluster(n.name);
      ok := CreateOrUpdate(cluster, Monitor, MonitorFields(labels, labels, [n.ns], "metrics"));
    }

    // -------------------------------------------------------------- the embedded backend

    method ReconcileEmbeddedBackend(cluster: ClusterObject) returns (ok: bool)
      requires cluster.n == n && cluster.base.spec.backend.embedded
      requires InStep(ClusterInitialized(n, cluster.base, client.world.now)) && cluster.status == cluster.base.status
      modifies client
      ensures OnCourse()
      ensures ok ==> InStep(ClusterSlotDone(cluster.base, cluster.status, RedisService, client.world.now))
      ensures !ok ==> InStep(ClusterBackendFailed(cluster.base, cluster.status, client.world.now))
    {
      hide ClusterBackendFailed, ClusterSlotDone, Drive, Announced;
      if cluster.base.spec.backend.engine == "redis" {
        ok := ReconcileEmbeddedRedis(cluster);
      } else {
        ok := false;
      }
    }

    method ReconcileEmbeddedRedis(cluster: ClusterObject) returns (ok: bool)
      requires cluster.n == n && InStep(ClusterGo(ClusterPc.Read(RedisDeployment), cluster.base, cluster.status))
      modifies client
      ensures OnCourse()
      ensures ok ==> InStep(ClusterSlotDone(cluster.base, cluster.status, RedisService, client.world.now))
      ensures !ok ==> InStep(ClusterBackendFailed(cluster.base, cluster.status, client.world.now))
    {
      hide LabelsForRedis, RedisPod, ClusterBackendFailed, SetCondition, Drive, Announced;
      var labels := LabelsForRedis(n.name);
      ok := CreateOrUpdate(cluster, RedisDeployment, DeploymentFields(labels, 1, labels, labels, RedisPod()));
      if !ok {
        return;
      }
      ok := CreateOrUpdate(cluster, RedisService, ServiceFields(labels, labels, [ServicePort("redis", REDIS_PORT, "redis")]));
    }

    // -------------------------------------------------------------- status

    /** The four conditions that go with a phase, set one after the other. */
    method SetConditions(cluster: ClusterObject, phase: Phase, available: bool, degraded: bool)
      modifies cluster`status
      ensures cluster.status == Conclude(old(cluster.status), phase, available, degraded, cluster.base.gen, client.world.now)
    {
      hide OjsTypes.SetCondition;
      var now := client.world.now;
      cluster.status := cluster.status.(phase := phase);
      cluster.SetCondition(Ready, phase == Running, now);
      cluster.SetCondition(Available, available, now);
      cluster.SetCondition(Progressing, phase != Running, now);
      cluster.SetCondition(Degraded, degraded, now);
    }

    method Observe(cluster: ClusterObject, server: Option<Unmanaged>)
      modifies cluster`status
      ensures cluster.status == Observation.Observe(old(cluster.status), server, cluster.base.gen, client.world.now)
    {
      hide Conclude;
      if server.None? {
        SetConditions(cluster, Pending, false, false);
      } else {
        var dep := server.value;
        cluster.status := cluster.status.(replicas := dep.replicas, readyReplicas := dep.readyReplicas);
        if dep.readyReplicas == dep.replicas && dep.replicas > 0 {
          SetConditions(cluster, Running, true, false);
        } else if dep.readyReplicas > 0 {
          SetConditions(cluster, Scaling, true, true);
        } else {
          SetConditions(cluster, Pending, false, false);
        }
      }
    }

    method UpdateStatus(cluster: ClusterObject) returns (ok: bool)
      requires cluster.n == n && InStep(ClusterGo(ClusterPc.ReadServer, cluster.base, cluster.status))
      modifies this, client, cluster
      ensures OnCourse() && InStep(ClusterStop(n, if ok then Quiet else FailureAfterDelay))
    {
      hide Observation.Observe, Drive, Announced;
      var previousPhase := cluster.status.phase;
      var reply := Call(GetChild(ClusterChildKey(ServerDeployment, n)), Active(ClusterPc.ReadServer, cluster.base, cluster.status));
      if reply.GotChild? {
        Observe(cluster, Some(reply.child.rest));
      } else if reply.NotFound? {
        Observe(cluster, None);
      } else {
        return false;
      }
      if previousPhase != Unset && previousPhase != cluster.status.phase {
        RecordEvent(PhaseChanged(ByCluster, n, cluster.base.uid, previousPhase, cluster.status.phase));
      }
      reply := Call(PutStatus(cluster.base, cluster.status), Active(ClusterPc.WriteStatus, cluster.base, cluster.status));
      return reply.GotCr?;
    }

    // -------------------------------------------------------------- Reconcile

    /** From a cluster with its finalizer in place and a phase to the end. */
    method ReconcileChildren(cluster: ClusterObject) returns (result: Result)
      requires cluster.n == n && InStep(ClusterGo(ClusterPc.Read(Config), cluster.base, cluster.status))
      modifies this, client, cluster
      ensures OnCourse() && InStep(ClusterStop(n, result))
    {
      hide Drive, Announced, Wanted;
      var ok := ReconcileConfigMap(cluster);
      if !ok {
        return FailureAfterDelay;
      }
      ok := ReconcileDeployment(cluster);
      if !ok {
        return FailureAfterDelay;
      }
      ok := ReconcileService(cluster);
      if !ok {
        return FailureAfterDelay;
      }
      ok := ReconcilePDB(cluster);
      if !ok {
        return FailureAfterDelay;
      }
      result := ReconcileMonitorAndStatus(cluster);
    }

    method ReconcileMonitorAndStatus(cluster: ClusterObject) returns (result: Result)
      requires cluster.n == n && InStep(AfterBudget(cluster.base, cluster.status))
      modifies this, client, cluster
      ensures OnCourse() && InStep(ClusterStop(n, result))
    {
      hide Drive, Announced;
      var monitoring := cluster.base.spec.monitoring;
      if monitoring.Some? && monitoring.value.enabled && monitoring.value.serviceMonitor {
        var monitored := ReconcileServiceMonitor(cluster);
        if !monitored {
          RecordEvent(MonitorFailed(n));
        }
      }
      var ok := UpdateStatus(cluster);
      return if ok then Quiet else FailureAfterDelay;
    }

    /** The status write is attempted once; whether it goes through makes no difference. */
    method ReportBackendFailure(cluster: ClusterObject)
      requires cluster.n == n && InStep(ClusterBackendFailed(cluster.base, cluster.status, client.world.now))
      modifies this, client, cluster
      ensures OnCourse() && InStep(ClusterStop(n, FailureAfterDelay))
    {
      hide Drive, Announced, OjsTypes.SetCondition, ClusterChild, ClusterChildKey, ClusterController;
      var now := client.world.now;
      cluster.SetCondition(BackendReady, false, now);
      cluster.SetCondition(Degraded, true, now);
      var _ := Call(PutStatus(cluster.base, cluster.status), Active(ClusterPc.ReportBackend, cluster.base, cluster.status));
      RecordEvent(BackendFailed(n));
    }

    /** The embedded backend, if one is asked for, and then the children. */
    method ReconcileInitialized(cluster: ClusterObject) returns (result: Result)
      requires cluster.n == n && cluster.status == cluster.base.status
      requires InStep(ClusterInitialized(n, cluster.base, client.world.now))
      modifies this, client, cluster
      ensures OnCourse() && InStep(ClusterStop(n, result))
    {
      hide Drive, Announced, OjsTypes.SetCondition, ClusterBackendFailed;
      if cluster.base.spec.backend.embedded {
        var ok := ReconcileEmbeddedBackend(cluster);
        if !ok {
          ReportBackendFailure(cluster);
          return FailureAfterDelay;
        }
        cluster.SetCondition(BackendReady, true, client.world.now);
      }
      result := ReconcileChildren(cluster);
    }

    /** The phase of a new cluster, and then everything else. */
    method ReconcileAnchored(cluster: ClusterObject) returns (result: Result)
      requires cluster.n == n && cluster.status == cluster.base.status
      requires InStep(ClusterAnchored(n, cluster.base, client.world.now))
      modifies this, client, cluster
      ensures OnCourse() && InStep(ClusterStop(n, result))
    {
      hide Drive, Announced, ClusterInitialized, OjsTypes.SetCondition;
      if cluster.status.phase == Unset {
        cluster.status := cluster.status.(phase := Pending);
        cluster.SetCondition(Progressing, true, client.world.now);
        var reply := Call(PutStatus(cluster.base, cluster.status), Active(ClusterPc.Initialize, cluster.base, cluster.status));
        if !reply.GotCr? {
          return Failure;
        }
        cluster.Refresh(reply.cr);
        RecordEvent(Reconciling(n));
      }
      result := ReconcileInitialized(cluster);
    }

    method HandleDeletion(cluster: ClusterObject) returns (result: Result)
      requires cluster.n == n && cluster.base.deleting && cluster.status == cluster.base.status
      requires InStep(ClusterFetched(n, cluster.base, client.world.now))
      modifies this, client
      ensures OnCourse() && InStep(ClusterStop(n, result))
    {
      hide Drive, Announced;
      if OJS_FINALIZER in cluster.base.finalizers {
        RecordEvent(Deleting(ByCluster, n));
        var reply := Call(PutFinalizers(cluster.base, cluster.base.finalizers - {OJS_FINALIZER}),
                          Active(ClusterPc.DropFinalizer, cluster.base, cluster.status));
        if !reply.GotCr? {
          return Failure;
        }
      }
      return Quiet;
    }

    /**
     Reconcile, however the API server is shared and whichever of its calls fail: it leaves the world
     a driven reconcile leaves, and records and returns what that one does.
     */
    method Reconcile() returns (result: Result)
      requires client.n == n && n !in client.world.clusterProcs && client.announced == events
      modifies this, client
      ensures var start := Apply(old(client.world), StartCluster(n));
        && client.world == Drive(start, old(client.script), n)
        && events + [Finished(ByCluster, n, result)] == old(events) + Announced(start, old(client.script), n)
        && ClusterLawful(Transcript(start, old(client.script), n), n, result)
    {
      hide ClusterFetched, ClusterAnchored, Apply, ClusterLawful, ClusterTold;
      client.Start();
      ClusterResultIsLawful(client.world, client.script, n);
      ghost var announced := Announced(client.world, client.script, n);
      var reply := Call(GetSelf, Starting);
      if !reply.GotCr? {
        result := if reply.NotFound? then Quiet else Failure;
      } else {
        var cluster := new ClusterObject(n, reply.cr);
        result := ReconcileFetched(cluster);
      }
      assert client.Final() == client.world && client.Record() == client.announced;
      assert (old(events) + announced)[|old(events) + announced| - 1] == announced[|announced| - 1];
    }

    method ReconcileFetched(cluster: ClusterObject) returns (result: Result)
      requires cluster.n == n && cluster.status == cluster.base.status
      requires InStep(ClusterFetched(n, cluster.base, client.world.now))
      modifies this, client, cluster
      ensures OnCourse() && InStep(ClusterStop(n, result))
    {
      hide Drive, Announced, ClusterAnchored;
      if cluster.base.deleting {
        result := HandleDeletion(cluster);
        return;
      }
      if OJS_FINALIZER !in cluster.base.finalizers {
        var reply := Call(PutFinalizers(cluster.base, cluster.base.finalizers + {OJS_FINALIZER}),
                          Active(ClusterPc.AddFinalizer, cluster.base, cluster.status));
        if !reply.GotCr? {
          return Failure;
        }
        cluster.Refresh(reply.cr);
      }
      result := ReconcileAnchored(cluster);
    }
  }

  /** Where the coroutine goes once the Service is done, and once the disruption budget is. */
  function AfterService(base: Cr<ClusterSpec>, status: Status): ClusterTurn {
    ClusterGo(if Wanted(Budget, base.spec) then ClusterPc.Read(Budget)
              else if Wanted(Monitor, base.spec) then ClusterPc.Read(Monitor) else ClusterPc.ReadServer, base, status)
  }

  function AfterBudget(base: Cr<ClusterSpec>, status: Status): ClusterTurn {
    ClusterGo(if Wanted(Monitor, base.spec) then ClusterPc.Read(Monitor) else ClusterPc.ReadServer, base, status)
  }
}
