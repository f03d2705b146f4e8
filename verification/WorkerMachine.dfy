/** OJSWorkerReconciler.Reconcile as a coroutine over API calls; see ClusterMachine. */
module WorkerMachine {
  import opened OjsTypes
  import opened Payloads
  import opened ApiServer
  import opened Events
  import opened Observation

  const WORKER_FINALIZER := "ojs.openjobspec.dev/worker-finalizer"

  datatype WorkerPc =
    | DropFinalizer
    | AddFinalizer
    | ReadParent
    | ReportOrphan
    | Read(slot: WorkerSlot)
    | Write(slot: WorkerSlot, found: Option<Child>)
    | ReadStale
    | DropStale
    | ReadServer
    | WriteStatus

  datatype WorkerProc = Starting | Active(pc: WorkerPc, base: Cr<WorkerSpec>, status: Status)

  datatype WorkerTurn = WorkerTurn(next: Option<WorkerProc>, events: seq<Event>)

  function WorkerController(n: Name, uid: nat): Controller {
    Controller(ByWorker, n.name, uid)
  }

  function WorkerRequest(n: Name, p: WorkerProc): Request<WorkerSpec> {
    match p
    case Starting => GetSelf
    case Active(pc, base, status) =>
      match pc
      case DropFinalizer => PutFinalizers(base, base.finalizers - {WORKER_FINALIZER})
      case AddFinalizer => PutFinalizers(base, base.finalizers + {WORKER_FINALIZER})
      case ReadParent => GetCluster(Name(n.ns, base.spec.clusterRef))
      case ReportOrphan => PutStatus(base, status)
      case Read(slot) => GetChild(WorkerChildKey(slot, n))
      case Write(slot, None) =>
        CreateChild(WorkerChildKey(slot, n), WorkerController(n, base.uid), WorkerChild(slot, n, base.spec))
      case Write(slot, Some(child)) =>
        UpdateChild(WorkerChildKey(slot, n), child, WorkerController(n, base.uid), WorkerChild(slot, n, base.spec))
      case ReadStale => GetChild(WorkerChildKey(Autoscaler, n))
      case DropStale => DeleteChild(WorkerChildKey(Autoscaler, n))
      case ReadServer => GetChild(WorkerChildKey(WorkerDeployment, n))
      case WriteStatus => PutStatus(base, status)
  }

  function WorkerStop(n: Name, result: Result): WorkerTurn {
    WorkerTurn(None, [Finished(ByWorker, n, result)])
  }

  function WorkerGo(pc: WorkerPc, base: Cr<WorkerSpec>, status: Status): WorkerTurn {
    WorkerTurn(Some(Active(pc, base, status)), [])
  }

  function WorkerNoting(e: Event, t: WorkerTurn): WorkerTurn {
    t.(events := [e] + t.events)
  }

  function WorkerResume(n: Name, p: WorkerProc, reply: Reply<WorkerSpec>, now: nat): WorkerTurn {
    match p
    case Starting =>
      if reply.GotCr? then WorkerFetched(n, reply.cr)
      else WorkerStop(n, if reply.NotFound? then Quiet else Failure)
    case Active(pc, base, status) =>
      match pc
      case DropFinalizer => WorkerStop(n, if reply.GotCr? then Quiet else Failure)
      case AddFinalizer =>
        if reply.GotCr? then WorkerGo(ReadParent, reply.cr, reply.cr.status) else WorkerStop(n, Failure)
      case ReadParent =>
        if reply.Accepted? then WorkerGo(Read(WorkerDeployment), base, status)
        else if reply.NotFound? then
          var notReady := SetCondition(status.conditions, Ready, false, base.gen, now);
          WorkerGo(ReportOrphan, base,
            status.(phase := Error, conditions := SetCondition(notReady, Degraded, true, base.gen, now)))
        else WorkerStop(n, Failure)
      case ReportOrphan => WorkerNoting(ClusterNotFound(n), WorkerStop(n, RetryIn30s))
      case Read(slot) =>
        if reply.GotChild? then
          if ControlledByOther(reply.child, ByWorker, n.name) then WorkerStop(n, Failure)
          else if Settled(reply.child, WorkerController(n, base.uid), WorkerChild(slot, n, base.spec)) then
            WorkerSlotDone(base, status, slot)
          else WorkerGo(Write(slot, Some(reply.child)), base, status)
        else if reply.NotFound? then WorkerGo(Write(slot, None), base, status)
        else WorkerStop(n, Failure)
      case Write(slot, _) => if reply.GotChild? then WorkerSlotDone(base, status, slot) else WorkerStop(n, Failure)
      // A failed read of the autoscaler to delete is taken for its absence.
      case ReadStale => WorkerGo(if reply.GotChild? then DropStale else ReadServer, base, status)
      case DropStale => if reply.Accepted? then WorkerGo(ReadServer, base, status) else WorkerStop(n, Failure)
      case ReadServer =>
        if reply.GotChild? then WorkerObserved(n, base, status, Some(reply.child.rest), now)
        else if reply.NotFound? then WorkerObserved(n, base, status, None, now)
        else WorkerStop(n, Failure)
      case WriteStatus =>
        WorkerStop(n,
          if !reply.GotCr? then Failure
          else if Autoscaled(reply.cr.spec) then Polling(reply.cr.spec.autoScaling.value.pollingInterval)
          else Quiet)
  }

  function WorkerFetched(n: Name, cr: Cr<WorkerSpec>): WorkerTurn {
    if cr.deleting then
      if WORKER_FINALIZER in cr.finalizers then
        WorkerNoting(Deleting(ByWorker, n), WorkerGo(DropFinalizer, cr, cr.status))
      else WorkerStop(n, Quiet)
    else if WORKER_FINALIZER !in cr.finalizers then WorkerGo(AddFinalizer, cr, cr.status)
    else WorkerGo(ReadParent, cr, cr.status)
  }

  /** After the Deployment the autoscaler is made or, when it is not wanted, looked for and deleted. */
  function WorkerSlotDone(base: Cr<WorkerSpec>, status: Status, slot: WorkerSlot): WorkerTurn {
    match slot
    case WorkerDeployment => WorkerGo(if Autoscaled(base.spec) then Read(Autoscaler) else ReadStale, base, status)
    case Autoscaler => WorkerGo(ReadServer, base, status)
  }

  function WorkerObserved(n: Name, base: Cr<WorkerSpec>, status: Status, server: Option<Unmanaged>, now: nat): WorkerTurn {
    var observed := Observe(status, server, base.gen, now);
    var turn := WorkerGo(WriteStatus, base, observed);
    if status.phase != Unset && status.phase != observed.phase then
      WorkerNoting(PhaseChanged(ByWorker, n, base.uid, status.phase, observed.phase), turn)
    else turn
  }
}
