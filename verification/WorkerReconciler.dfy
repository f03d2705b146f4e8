/** OJSWorkerReconciler as the object it is; see ClusterReconciler. */
module WorkerReconciler {
  import opened OjsTypes
  import opened Payloads
  import opened ApiServer
  import opened Events
  import opened Observation
  import opened WorkerMachine
  import opened Operator
  import opened Interleaving
  import opened ResultLaws
  import opened JoinedLists

  class WorkerObject {
    const n: Name
    var base: Cr<WorkerSpec>
    var status: Status

    constructor (n: Name, cr: Cr<WorkerSpec>)
      ensures this.n == n && base == cr && status == cr.status
    {
      this.n := n;
      base, status := cr, cr.status;
    }

    /** A reply to a write refreshes the object. */
    method Refresh(cr: Cr<WorkerSpec>)
      modifies this
      ensures base == cr && status == cr.status
    {
      base, status := cr, cr.status;
    }

    method SetCondition(t: ConditionType, value: bool, now: nat)
      modifies this`status
      ensures status == old(status).(conditions := OjsTypes.SetCondition(old(status).conditions, t, value, base.gen, now))
      ensures Find(status.conditions, t).Some? && Find(status.conditions, t).value.status == value
      ensures Find(status.conditions, t).value.observed == base.gen
      ensures forall u :: u != t ==> Find(status.conditions, u) == Find(old(status).conditions, u)
    {
      status := status.(conditions := OjsTypes.SetCondition(status.conditions, t, value, base.gen, now));
    }
  }

  /** The API server, with everybody else's moves and the fate of each call scripted. */
  class WorkerClient {
    const n: Name
    var world: World
    var script: seq<Turn>
    ghost var announced: seq<Event>

    constructor (n: Name, world: World, script: seq<Turn>)
      ensures this.n == n && this.world == world && this.script == script && announced == []
    {
      this.n := n;
      this.world := world;
      this.script := script;
      announced := [];
    }

    ghost predicate Stands(turn: WorkerTurn)
      reads this
    {
      if turn.next.None? then n !in world.workerProcs
      else n in world.workerProcs && world.workerProcs[n] == turn.next.value
    }

    ghost function Final(): World
      reads this
    {
      DriveWorker(world, script, n)
    }

    ghost function Record(): seq<Event>
      reads this
    {
      announced + WorkerAnnounced(world, script, n)
    }

    method Start()
      requires n !in world.workerProcs
      modifies this
      ensures Stands(WorkerTurn(Some(Starting), [])) && script == old(script) && announced == old(announced)
      ensures world == Apply(old(world), StartWorker(n))
    {
      world := Apply(world, StartWorker(n));
    }

    /** One call.  It must be the one the coroutine makes next. */
    method Call(request: Request<WorkerSpec>, ghost p: WorkerProc) returns (reply: Reply<WorkerSpec>)
      requires Stands(WorkerTurn(Some(p), [])) && request == WorkerRequest(n, p)
      modifies this
      ensures Stands(WorkerResume(n, p, reply, world.now))
      ensures announced == old(announced) + WorkerResume(n, p, reply, world.now).events
      ensures Final() == old(Final()) && Record() == old(Record())
    {
      hide WorkerResume, WorkerRequest, AdvanceWorker, WorkerReplyTo, WorkerDisturbed;
      AdvanceWorkerFollowsReply(world, script, n);
      reply := WorkerReplyTo(world, script, n);
      announced := announced + WorkerAnswered(world, script, n).events;
      world := AdvanceWorker(world, script, n);
      script := Rest(script);
    }
  }

  class Reconciler {
    const n: Name
    const client: WorkerClient
    var events: seq<Event>

    constructor (client: WorkerClient)
      ensures this.client == client && n == client.n && events == []
    {
      this.client := client;
      n := client.n;
      events := [];
    }

    /** The code is where the coroutine is, but for the events of `turn`, which it has yet to record. */
    ghost predicate InStep(turn: WorkerTurn)
      reads this, client
    {
      client.n == n && client.Stands(turn) && client.announced == events + turn.events
    }

    twostate predicate OnCourse()
      reads this, client
    {
      client.Final() == old(client.Final()) && client.Record() == old(client.Record())
    }

    method RecordEvent(e: Event)
      modifies this`events
      ensures events == old(events) + [e]
    {
      events := events + [e];
    }

    method Call(request: Request<WorkerSpec>, ghost p: WorkerProc) returns (reply: Reply<WorkerSpec>)
      requires InStep(WorkerTurn(Some(p), [])) && request == WorkerRequest(n, p)
      modifies client
      ensures InStep(WorkerResume(n, p, reply, client.world.now))
      ensures OnCourse()
    {
      hide WorkerResume, WorkerRequest, DriveWorker, WorkerAnnounced;
      reply := client.Call(request, p);
    }

    // -------------------------------------------------------------- children

    method CreateOrUpdate(worker: WorkerObject, slot: WorkerSlot, managed: Managed) returns (ok: bool)
      requires worker.n == n && managed == WorkerChild(slot, n, worker.base.spec)
      requires InStep(WorkerGo(WorkerPc.Read(slot), worker.base, worker.status))
      modifies client
      ensures OnCourse()
      ensures InStep(if ok then WorkerSlotDone(worker.base, worker.status, slot) else WorkerStop(n, Failure))
    {
      hide WorkerChild, WorkerSlotDone, DriveWorker, WorkerAnnounced;
      var base, status := worker.base, worker.status;
      var key, controller := WorkerChildKey(slot, n), WorkerController(n, base.uid);
      var reply := Call(GetChild(key), Active(WorkerPc.Read(slot), base, status));
      if reply.NotFound? {
        reply := Call(CreateChild(key, controller, managed), Active(WorkerPc.Write(slot, None), base, status));
        return reply.GotChild?;
      }
      if !reply.GotChild? {
        return false;
      }
      var child := reply.child;
      if ControlledByOther(child, ByWorker, n.name) {
        return false;
      }
      if Settled(child, controller, managed) {
        return true;
      }
      reply := Call(UpdateChild(key, child, controller, managed), Active(WorkerPc.Write(slot, Some(child)), base, status));
      return reply.GotChild?;
    }

    method BuildWorkerEnv(worker: WorkerObject) returns (envVars: seq<EnvVar>)
      requires worker.n == n
      ensures envVars == WorkerEnv(n, worker.base.spec)
    {
      hide JoinStrings, Decimal, OjsUrl;
      var spec := worker.base.spec;
      var queues := Join(spec.queues);
      var jobTypes := Join(spec.jobTypes);
      envVars := [EnvVar("OJS_URL", Literal(OjsUrl(Name(n.ns, spec.clusterRef)))),
                  EnvVar("OJS_QUEUES", Literal(queues)),
                  EnvVar("OJS_JOB_TYPES", Literal(jobTypes))];
      if spec.concurrency > 0 {
        envVars := envVars + [EnvVar("OJS_CONCURRENCY", Literal(Decimal(spec.concurrency)))];
      }
      envVars := envVars + spec.env;
    }

    method ReconcileWorkerDeployment(worker: WorkerObject) returns (ok: bool)
      requires worker.n == n && InStep(WorkerGo(WorkerPc.Read(WorkerDeployment), worker.base, worker.status))
      modifies client
      ensures OnCourse()
      ensures InStep(if ok then WorkerSlotDone(worker.base, worker.status, WorkerDeployment) else WorkerStop(n, Failure))
    {
      hide WorkerEnv, LabelsForWorker, WorkerSlotDone, DriveWorker, WorkerAnnounced;
      var spec := worker.base.spec;
      var replicas := 1;
      if spec.replicas.Some? {
        replicas := spec.replicas.value;
      }
      var labels := LabelsForWorker(n.name, spec.clusterRef);
      var envVars := BuildWorkerEnv(worker);
      var container := Container("ojs-worker", spec.image, [], envVars, [], None, None);
      if |spec.command| > 0 {
        container := container.(command := spec.command);
      }
      if spec.resources.limits.Some? || spec.resources.requests.Some? {
        container := container.(resources := Some(spec.resources));
      }
      var grace := 30;
      if spec.gracefulTimeout.Some? && spec.gracefulTimeout.value > 0 {
        grace := spec.gracefulTimeout.value;
      }
      var pod := PodSpec(container, None, "", None, Some(grace), [], None);
      ok := CreateOrUpdate(worker, WorkerDeployment, DeploymentFields(labels, replicas, labels, labels, pod));
    }

    method ReconcileWorkerHPA(worker: WorkerObject) returns (ok: bool)
      requires worker.n == n && InStep(WorkerSlotDone(worker.base, worker.status, WorkerDeployment))
      modifies client
      ensures OnCourse()
      ensures InStep(if ok then WorkerGo(WorkerPc.ReadServer, worker.base, worker.status) else WorkerStop(n, Failure))
    {
      hide LabelsForWorker, DriveWorker, WorkerAnnounced;
      var spec := worker.base.spec;
      if spec.autoScaling.None? || !spec.autoScaling.value.enabled {
        var key := WorkerChildKey(Autoscaler, n);
        var reply := Call(GetChild(key), Active(WorkerPc.ReadStale, worker.base, worker.status));
        if reply.GotChild? {
          reply := Call(DeleteChild(key), Active(WorkerPc.DropStale, worker.base, worker.status));
          return reply.Accepted?;
        }
        return true;
      }
      var scaling := spec.autoScaling.value;
      var labels := LabelsForWorker(n.name, spec.clusterRef);
      ok := CreateOrUpdate(worker, Autoscaler, AutoscalerFields(labels, n.name, scaling.minReplicas, scaling.maxReplicas, 80));
    }

    // -------------------------------------------------------------- status

    method SetConditions(worker: WorkerObject, phase: Phase, available: bool, degraded: bool)
      modifies worker`status
      ensures worker.status == Conclude(old(worker.status), phase, available, degraded, worker.base.gen, client.world.now)
    {
      hide OjsTypes.SetCondition;
      var now := client.world.now;
      worker.status := worker.status.(phase := phase);
      worker.SetCondition(Ready, phase == Running, now);
      worker.SetCondition(Available, available, now);
      worker.SetCondition(Progressing, phase != Running, now);
      worker.SetCondition(Degraded, degraded, now);
    }

    method Observe(worker: WorkerObject, pods: Option<Unmanaged>)
      modifies worker`status
      ensures worker.status == Observation.Observe(old(worker.status), pods, worker.base.gen, client.world.now)
    {
      hide Conclude;
      if pods.None? {
        SetConditions(worker, Pending, false, false);
      } else {
        var dep := pods.value;
        worker.status := worker.status.(replicas := dep.replicas, readyReplicas := dep.readyReplicas);
        if dep.readyReplicas == dep.replicas && dep.replicas > 0 {
          SetConditions(worker, Running, true, false);
        } else if dep.readyReplicas > 0 {
          SetConditions(worker, Scaling, true, true);
        } else {
          SetConditions(worker, Pending, false, false);
        }
      }
    }

    method UpdateWorkerStatus(worker: WorkerObject) returns (ok: bool)
      requires worker.n == n && InStep(WorkerGo(WorkerPc.ReadServer, worker.base, worker.status))
      modifies this, client, worker
      ensures OnCourse() && InStep(WorkerStop(n, if ok then Requeue(worker.base.spec) else Failure))
    {
      hide Observation.Observe, DriveWorker, WorkerAnnounced;
      var previousPhase := worker.status.phase;
      var reply := Call(GetChild(WorkerChildKey(WorkerDeployment, n)), Active(WorkerPc.ReadServer, worker.base, worker.status));
      if reply.GotChild? {
        Observe(worker, Some(reply.child.rest));
      } else if reply.NotFound? {
        Observe(worker, None);
      } else {
        return false;
      }
      if previousPhase != Unset && previousPhase != worker.status.phase {
        RecordEvent(PhaseChanged(ByWorker, n, worker.base.uid, previousPhase, worker.status.phase));
      }
      reply := Call(PutStatus(worker.base, worker.status), Active(WorkerPc.WriteStatus, worker.base, worker.status));
      if reply.GotCr? {
        worker.Refresh(reply.cr);
        return true;
      }
      return false;
    }

    // -------------------------------------------------------------- Reconcile

    method HandleDeletion(worker: WorkerObject) returns (result: Result)
      requires worker.n == n && worker.base.deleting && worker.status == worker.base.status
      requires InStep(WorkerFetched(n, worker.base))
      modifies this, client
      ensures OnCourse() && InStep(WorkerStop(n, result))
    {
      hide DriveWorker, WorkerAnnounced;
      if WORKER_FINALIZER in worker.base.finalizers {
        RecordEvent(Deleting(ByWorker, n));
        var reply := Call(PutFinalizers(worker.base, worker.base.finalizers - {WORKER_FINALIZER}),
                          Active(WorkerPc.DropFinalizer, worker.base, worker.status));
        if !reply.GotCr? {
          return Failure;
        }
      }
      return Quiet;
    }

    /** From a worker with its finalizer in place to the end. */
    method ReconcileAnchored(worker: WorkerObject) returns (result: Result)
      requires worker.n == n && InStep(WorkerGo(WorkerPc.ReadParent, worker.base, worker.status))
      modifies this, client, worker
      ensures OnCourse() && InStep(WorkerStop(n, result))
    {
      hide DriveWorker, WorkerAnnounced, OjsTypes.SetCondition, WorkerSlotDone;
      var parent := Name(n.ns, worker.base.spec.clusterRef);
      var reply := Call(GetCluster(parent), Active(WorkerPc.ReadParent, worker.base, worker.status));
      if reply.NotFound? {
        worker.SetCondition(Ready, false, client.world.now);
        worker.SetCondition(Degraded, true, client.world.now);
        worker.status := worker.status.(phase := Error);
        var _ := Call(PutStatus(worker.base, worker.status), Active(WorkerPc.ReportOrphan, worker.base, worker.status));
        RecordEvent(ClusterNotFound(n));
        return RetryIn30s;
      }
      if !reply.Accepted? {
        return Failure;
      }
      var ok := ReconcileWorkerDeployment(worker);
      if !ok {
        return Failure;
      }
      ok := ReconcileWorkerHPA(worker);
      if !ok {
        return Failure;
      }
      ok := UpdateWorkerStatus(worker);
      if !ok {
        return Failure;
      }
      result := Quiet;
      if worker.base.spec.autoScaling.Some? && worker.base.spec.autoScaling.value.enabled {
        result := Polling(worker.base.spec.autoScaling.value.pollingInterval);
      }
    }

    method ReconcileFetched(worker: WorkerObject) returns (result: Result)
      requires worker.n == n && worker.status == worker.base.status
      requires InStep(WorkerFetched(n, worker.base))
      modifies this, client, worker
      ensures OnCourse() && InStep(WorkerStop(n, result))
    {
      hide DriveWorker, WorkerAnnounced;
      if worker.base.deleting {
        result := HandleDeletion(worker);
        return;
      }
      if WORKER_FINALIZER !in worker.base.finalizers {
        var reply := Call(PutFinalizers(worker.base, worker.base.finalizers + {WORKER_FINALIZER}),
                          Active(WorkerPc.AddFinalizer, worker.base, worker.status));
        if !reply.GotCr? {
          return Failure;
        }
        worker.Refresh(reply.cr);
      }
      result := ReconcileAnchored(worker);
    }

    /**
     Reconcile, however the API server is shared and whichever of its calls fail: it leaves the world
     a driven reconcile leaves, and records and returns what that one does.
     */
    method Reconcile() returns (result: Result)
      requires client.n == n && n !in client.world.workerProcs && client.announced == events
      modifies this, client
      ensures var start := Apply(old(client.world), StartWorker(n));
        && client.world == DriveWorker(start, old(client.script), n)
        && events + [Finished(ByWorker, n, result)] == old(events) + WorkerAnnounced(start, old(client.script), n)
        && WorkerLawful(WorkerTranscript(start, old(client.script), n), result)
    {
      hide WorkerFetched, Apply, WorkerLawful, WorkerTold;
      client.Start();
      WorkerResultIsLawful(client.world, client.script, n);
      ghost var announced := WorkerAnnounced(client.world, client.script, n);
      var reply := Call(GetSelf, Starting);
      if !reply.GotCr? {
        result := if reply.NotFound? then Quiet else Failure;
      } else {
        var worker := new WorkerObject(n, reply.cr);
        result := ReconcileFetched(worker);
      }
      assert client.Final() == client.world && client.Record() == client.announced;
      assert (old(events) + announced)[|old(events) + announced| - 1] == announced[|announced| - 1];
    }
  }

  /** What a reconcile that went through returns. */
  function Requeue(spec: WorkerSpec): Result {
    if Autoscaled(spec) then Polling(spec.autoScaling.value.pollingInterval) else Quiet
  }
}
