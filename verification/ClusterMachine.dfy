/**
 OJSClusterReconciler.Reconcile as a coroutine over API calls: `ClusterRequest` is the call an
 in-flight reconcile is about to make, `ClusterResume` is everything the Go code computes
 between the reply to that call and the next one.
 */
module ClusterMachine {
  import opened OjsTypes
  import opened Payloads
  import opened ApiServer
  import opened Events
  import opened Observation

  const OJS_FINALIZER := "ojs.openjobspec.dev/finalizer"

  /** Where a reconcile stands: the API call it makes next. */
  datatype ClusterPc =
    | DropFinalizer
    | AddFinalizer
    | Initialize
    | Read(slot: ClusterSlot)
    | Write(slot: ClusterSlot, found: Option<Child>)
    | ReportBackend
    | ReadServer
    | WriteStatus

  /**
   An in-flight reconcile.  `base` is the cluster as the API server last returned it, `status` is
   the in-memory status, which runs ahead of `base.status` until it is written.
   */
  datatype ClusterProc = Starting | Active(pc: ClusterPc, base: Cr<ClusterSpec>, status: Status)

  /** The next call, or None when the reconcile has returned, and the events recorded on the way. */
  datatype ClusterTurn = ClusterTurn(next: Option<ClusterProc>, events: seq<Event>)

  function ClusterController(n: Name, uid: nat): Controller {
    Controller(ByCluster, n.name, uid)
  }

  function ClusterRequest(n: Name, p: ClusterProc): Request<ClusterSpec> {
    match p
    case Starting => GetSelf
    case Active(pc, base, status) =>
      match pc
      case DropFinalizer => PutFinalizers(base, base.finalizers - {OJS_FINALIZER})
      case AddFinalizer => PutFinalizers(base, base.finalizers + {OJS_FINALIZER})
      case Initialize => PutStatus(base, status)
      case Read(slot) => GetChild(ClusterChildKey(slot, n))
      case Write(slot, None) =>
        CreateChild(ClusterChildKey(slot, n), ClusterController(n, base.uid), ClusterChild(slot, n, base.spec))
      case Write(slot, Some(child)) =>
        UpdateChild(ClusterChildKey(slot, n), child, ClusterController(n, base.uid), ClusterChild(slot, n, base.spec))
      case ReportBackend => PutStatus(base, status)
      case ReadServer => GetChild(ClusterChildKey(ServerDeployment, n))
      case WriteStatus => PutStatus(base, status)
  }

  function ClusterStop(n: Name, result: Result): ClusterTurn {
    ClusterTurn(None, [Finished(ByCluster, n, result)])
  }

  function ClusterGo(pc: ClusterPc, base: Cr<ClusterSpec>, status: Status): ClusterTurn {
    ClusterTurn(Some(Active(pc, base, status)), [])
  }

  function Noting(e: Event, t: ClusterTurn): ClusterTurn {
    t.(events := [e] + t.events)
  }

  function ClusterResume(n: Name, p: ClusterProc, reply: Reply<ClusterSpec>, now: nat): ClusterTurn {
    match p
    case Starting =>
      if reply.GotCr? then ClusterFetched(n, reply.cr, now)
      else ClusterStop(n, if reply.NotFound? then Quiet else Failure)
    case Active(pc, base, status) =>
      match pc
      case DropFinalizer => ClusterStop(n, if reply.GotCr? then Quiet else Failure)
      case AddFinalizer => if reply.GotCr? then ClusterAnchored(n, reply.cr, now) else ClusterStop(n, Failure)
      case Initialize =>
        if reply.GotCr? then Noting(Reconciling(n), ClusterInitialized(n, reply.cr, now)) else ClusterStop(n, Failure)
      case Read(slot) =>
        if reply.GotChild? then
          if ControlledByOther(reply.child, ByCluster, n.name) then ClusterSlotFailed(n, base, status, slot, now)
          else if Settled(reply.child, ClusterController(n, base.uid), ClusterChild(slot, n, base.spec)) then
            ClusterSlotDone(base, status, slot, now)
          else ClusterGo(Write(slot, Some(reply.child)), base, status)
        else if reply.NotFound? then ClusterGo(Write(slot, None), base, status)
        else ClusterSlotFailed(n, base, status, slot, now)
      case Write(slot, _) =>
        if reply.GotChild? then ClusterSlotDone(base, status, slot, now)
        else ClusterSlotFailed(n, base, status, slot, now)
      case ReportBackend => Noting(BackendFailed(n), ClusterStop(n, FailureAfterDelay))
      case ReadServer =>
        if reply.GotChild? then ClusterObserved(n, base, status, Some(reply.child.rest), now)
        else if reply.NotFound? then ClusterObserved(n, base, status, None, now)
        else ClusterStop(n, FailureAfterDelay)
      case WriteStatus => ClusterStop(n, if reply.GotCr? then Quiet else FailureAfterDelay)
  }

  /** The cluster has been read: deletion, finalizer, or straight on. */
  function ClusterFetched(n: Name, cr: Cr<ClusterSpec>, now: nat): ClusterTurn {
    if cr.deleting then
      if OJS_FINALIZER in cr.finalizers then Noting(Deleting(ByCluster, n), ClusterGo(DropFinalizer, cr, cr.status))
      else ClusterStop(n, Quiet)
    else if OJS_FINALIZER !in cr.finalizers then ClusterGo(AddFinalizer, cr, cr.status)
    else ClusterAnchored(n, cr, now)
  }

  /** The finalizer is in place. */
  function ClusterAnchored(n: Name, cr: Cr<ClusterSpec>, now: nat): ClusterTurn {
    if cr.status.phase == Unset then
      ClusterGo(Initialize, cr,
        cr.status.(phase := Pending, conditions := SetCondition(cr.status.conditions, Progressing, true, cr.gen, now)))
    else ClusterInitialized(n, cr, now)
  }

  /** The first child: the embedded backend if one is asked for, and only redis can be embedded. */
  function ClusterInitialized(n: Name, cr: Cr<ClusterSpec>, now: nat): ClusterTurn {
    if !cr.spec.backend.embedded then ClusterGo(Read(Config), cr, cr.status)
    else if cr.spec.backend.engine == "redis" then ClusterGo(Read(RedisDeployment), cr, cr.status)
    else ClusterBackendFailed(cr, cr.status, now)
  }

  function ClusterBackendFailed(base: Cr<ClusterSpec>, status: Status, now: nat): ClusterTurn {
    var backend := SetCondition(status.conditions, BackendReady, false, base.gen, now);
    ClusterGo(ReportBackend, base, status.(conditions := SetCondition(backend, Degraded, true, base.gen, now)))
  }

  /** A failed child ends the reconcile, except that a ServiceMonitor failure is only reported. */
  function ClusterSlotFailed(n: Name, base: Cr<ClusterSpec>, status: Status, slot: ClusterSlot, now: nat): ClusterTurn {
    match slot
    case RedisDeployment | RedisService => ClusterBackendFailed(base, status, now)
    case Monitor => Noting(MonitorFailed(n), ClusterSlotDone(base, status, slot, now))
    case _ => ClusterStop(n, FailureAfterDelay)
  }

  /** The child after `slot` that the spec asks for. */
  function ClusterNext(slot: ClusterSlot, spec: ClusterSpec): Option<ClusterSlot> {
    match slot
    case RedisDeployment => Some(RedisService)
    case RedisService => Some(Config)
    case Config => Some(ServerDeployment)
    case ServerDeployment => Some(ServerService)
    case ServerService =>
      if Wanted(Budget, spec) then Some(Budget) else if Wanted(Monitor, spec) then Some(Monitor) else None
    case Budget => if Wanted(Monitor, spec) then Some(Monitor) else None
    case Monitor => None
  }

  function ClusterSlotDone(base: Cr<ClusterSpec>, status: Status, slot: ClusterSlot, now: nat): ClusterTurn {
    var status' :=
      if slot == RedisService then
        status.(conditions := SetCondition(status.conditions, BackendReady, true, base.gen, now))
      else status;
    var next := ClusterNext(slot, base.spec);
    ClusterGo(if next.Some? then Read(next.value) else ReadServer, base, status')
  }

  /** updateStatus, between reading the Deployment and writing the status. */
  function ClusterObserved(n: Name, base: Cr<ClusterSpec>, status: Status, server: Option<Unmanaged>, now: nat): ClusterTurn {
    var observed := Observe(status, server, base.gen, now);
    var turn := ClusterGo(WriteStatus, base, observed);
    if status.phase != Unset && status.phase != observed.phase then
      Noting(PhaseChanged(ByCluster, n, base.uid, status.phase, observed.phase), turn)
    else turn
  }

  /**
   Where a reconcile can be for a given spec: it only visits children the spec asks for, and gets
   to any child only if the backend is not embedded or is redis.
   */
  predicate OnTrack(p: ClusterProc) {
    p.Active? ==>
      && (p.pc.Read? || p.pc.Write? ==> Wanted(p.pc.slot, p.base.spec))
      && (p.pc.Read? || p.pc.Write? || p.pc.ReadServer? || p.pc.WriteStatus? ==>
            p.base.spec.backend.embedded ==> p.base.spec.backend.engine == "redis")
  }

  lemma ResumeOnTrack(n: Name, p: ClusterProc, reply: Reply<ClusterSpec>, now: nat)
    requires OnTrack(p)
    ensures var turn := ClusterResume(n, p, reply, now); turn.next.Some? ==> OnTrack(turn.next.value)
  {
    hide Observe, SetCondition, ClusterChild;
  }
}
