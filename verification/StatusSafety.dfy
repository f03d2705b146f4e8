/**
 What every stored status says, in every reachable store: phase, counts and conditions agree, and
 each condition carries the generation it was derived from.
 */
module StatusSafety {
  import opened OjsTypes
  import opened Payloads
  import opened ApiServer
  import opened Observation
  import opened ClusterMachine
  import opened WorkerMachine
  import opened Operator

  // ---------------------------------------------------------------- phase, counts, conditions

  predicate ClusterStatusOk(st: Status) {
    var cs := st.conditions;
    && Unique(cs)
    && st.phase != Error
    && (st.phase == Running <==> IsTrue(cs, Ready))
    && (st.phase == Running || st.phase == Scaling <==> IsTrue(cs, Available))
    && (st.phase == Pending || st.phase == Scaling <==> IsTrue(cs, Progressing))
    && (st.phase == Running ==> st.readyReplicas == st.replicas > 0)
    && (st.phase == Scaling ==> st.readyReplicas > 0 && st.readyReplicas != st.replicas && IsTrue(cs, Degraded))
  }

  predicate WorkerStatusOk(st: Status) {
    var cs := st.conditions;
    && Unique(cs)
    && (st.phase == Running <==> IsTrue(cs, Ready))
    && (st.phase == Scaling || st.phase == Error <==> IsTrue(cs, Degraded))
    && (st.phase == Running ==> st.readyReplicas == st.replicas > 0)
  }

  predicate StatusOk(kind: ControllerKind, st: Status) {
    match kind
    case ByCluster => ClusterStatusOk(st)
    case ByWorker => WorkerStatusOk(st)
    case ByOther => true
  }

  lemma ConcludeOk(st: Status, phase: Phase, available: bool, degraded: bool, gen: nat, now: nat)
    requires Unique(st.conditions)
    ensures var r := Conclude(st, phase, available, degraded, gen, now);
      && r.phase == phase && r.replicas == st.replicas && r.readyReplicas == st.readyReplicas && Unique(r.conditions)
      && IsTrue(r.conditions, Ready) == (phase == Running) && IsTrue(r.conditions, Available) == available
      && IsTrue(r.conditions, Progressing) == (phase != Running) && IsTrue(r.conditions, Degraded) == degraded
  {
    var c1 := SetCondition(st.conditions, Ready, phase == Running, gen, now);
    var c2 := SetCondition(c1, Available, available, gen, now);
    var c3 := SetCondition(c2, Progressing, phase != Running, gen, now);
    SetConditionKeepsUnique(st.conditions, Ready, phase == Running, gen, now);
    SetConditionKeepsUnique(c1, Available, available, gen, now);
    SetConditionKeepsUnique(c2, Progressing, phase != Running, gen, now);
    SetConditionKeepsUnique(c3, Degraded, degraded, gen, now);
  }

  /** Whatever the Deployment says, the derived status is coherent, for clusters and for workers. */
  lemma ObserveOk(st: Status, server: Option<Unmanaged>, gen: nat, now: nat)
    requires ClusterStatusOk(st) || WorkerStatusOk(st)
    ensures ClusterStatusOk(Observe(st, server, gen, now)) && WorkerStatusOk(Observe(st, server, gen, now))
    ensures Observe(st, server, gen, now).phase !in {Unset, Error}
  {
    match server
    case None => ConcludeOk(st, Pending, false, false, gen, now);
    case Some(d) =>
      var counted := st.(replicas := d.replicas, readyReplicas := d.readyReplicas);
      if d.readyReplicas == d.replicas && d.replicas > 0 {
        ConcludeOk(counted, Running, true, false, gen, now);
      } else if d.readyReplicas > 0 {
        ConcludeOk(counted, Scaling, true, true, gen, now);
      } else {
        ConcludeOk(counted, Pending, false, false, gen, now);
      }
  }

  predicate ClusterProcStatusOk(p: ClusterProc) {
    p.Active? ==> ClusterStatusOk(p.base.status) && ClusterStatusOk(p.status)
  }

  predicate ClusterTurnStatusOk(turn: ClusterTurn) {
    turn.next.Some? ==> ClusterProcStatusOk(turn.next.value)
  }

  predicate WorkerProcStatusOk(p: WorkerProc) {
    p.Active? ==> WorkerStatusOk(p.base.status) && WorkerStatusOk(p.status)
  }

  predicate WorkerTurnStatusOk(turn: WorkerTurn) {
    turn.next.Some? ==> WorkerProcStatusOk(turn.next.value)
  }

  /** The backend's conditions are written over any coherent status. */
  lemma BackendUpOk(st: Status, gen: nat, now: nat)
    requires ClusterStatusOk(st)
    ensures ClusterStatusOk(st.(conditions := SetCondition(st.conditions, BackendReady, true, gen, now)))
  {
    SetConditionKeepsUnique(st.conditions, BackendReady, true, gen, now);
  }

  lemma BackendDownOk(base: Cr<ClusterSpec>, st: Status, now: nat)
    requires ClusterStatusOk(st) && ClusterStatusOk(base.status)
    ensures ClusterTurnStatusOk(ClusterBackendFailed(base, st, now))
  {
    SetConditionKeepsUnique(st.conditions, BackendReady, false, base.gen, now);
    SetConditionKeepsUnique(SetCondition(st.conditions, BackendReady, false, base.gen, now), Degraded, true, base.gen, now);
  }

  /** The first status of a new cluster. */
  lemma FirstStatusOk(cr: Cr<ClusterSpec>, now: nat)
    requires ClusterStatusOk(cr.status) && cr.status.phase == Unset
    ensures ClusterStatusOk(
      cr.status.(phase := Pending, conditions := SetCondition(cr.status.conditions, Progressing, true, cr.gen, now)))
  {
    SetConditionKeepsUnique(cr.status.conditions, Progressing, true, cr.gen, now);
  }

  lemma ClusterFetchedStatusOk(n: Name, cr: Cr<ClusterSpec>, now: nat)
    requires ClusterStatusOk(cr.status)
    ensures ClusterTurnStatusOk(ClusterFetched(n, cr, now))
    ensures ClusterTurnStatusOk(ClusterAnchored(n, cr, now))
    ensures ClusterTurnStatusOk(ClusterInitialized(n, cr, now))
  {
    hide SetCondition, ClusterStatusOk, ClusterBackendFailed;
    BackendDownOk(cr, cr.status, now);
    if cr.status.phase == Unset { FirstStatusOk(cr, now); }
  }

  lemma ClusterSlotStatusOk(n: Name, base: Cr<ClusterSpec>, st: Status, slot: ClusterSlot, now: nat)
    requires ClusterStatusOk(st) && ClusterStatusOk(base.status)
    ensures ClusterTurnStatusOk(ClusterSlotDone(base, st, slot, now))
    ensures ClusterTurnStatusOk(ClusterSlotFailed(n, base, st, slot, now))
  {
    BackendUpOk(st, base.gen, now);
    BackendDownOk(base, st, now);
  }

  lemma ClusterResumeStatusOk(n: Name, p: ClusterProc, reply: Reply<ClusterSpec>, now: nat)
    requires ClusterProcStatusOk(p) && (reply.GotCr? ==> ClusterStatusOk(reply.cr.status))
    ensures ClusterTurnStatusOk(ClusterResume(n, p, reply, now))
  {
    hide Observe, SetCondition, ClusterStatusOk;
    if reply.GotCr? { ClusterFetchedStatusOk(n, reply.cr, now); }
    if p.Active? {
      if p.pc.Read? || p.pc.Write? {
        ClusterSlotStatusOk(n, p.base, p.status, p.pc.slot, now);
      } else if p.pc.ReadServer? {
        ObserveOk(p.status, if reply.GotChild? then Some(reply.child.rest) else None, p.base.gen, now);
      }
    }
  }

  lemma WorkerOrphanStatusOk(st: Status, gen: nat, now: nat)
    requires WorkerStatusOk(st)
    ensures WorkerStatusOk(st.(phase := Error,
      conditions := SetCondition(SetCondition(st.conditions, Ready, false, gen, now), Degraded, true, gen, now)))
  {
    SetConditionKeepsUnique(st.conditions, Ready, false, gen, now);
    SetConditionKeepsUnique(SetCondition(st.conditions, Ready, false, gen, now), Degraded, true, gen, now);
  }

  lemma WorkerResumeStatusOk(n: Name, p: WorkerProc, reply: Reply<WorkerSpec>, now: nat)
    requires WorkerProcStatusOk(p) && (reply.GotCr? ==> WorkerStatusOk(reply.cr.status))
    ensures WorkerTurnStatusOk(WorkerResume(n, p, reply, now))
  {
    hide Observe, SetCondition, WorkerStatusOk;
    if p.Active? {
      if p.pc.ReadParent? {
        WorkerOrphanStatusOk(p.status, p.base.gen, now);
      } else if p.pc.ReadServer? {
        ObserveOk(p.status, if reply.GotChild? then Some(reply.child.rest) else None, p.base.gen, now);
      }
    }
  }

  ghost predicate StatusesOk(w: World) {
    && (forall n :: n in w.store.clusters ==> ClusterStatusOk(w.store.clusters[n].status))
    && (forall n :: n in w.store.workers ==> WorkerStatusOk(w.store.workers[n].status))
    && (forall n :: n in w.clusterProcs ==> ClusterProcStatusOk(w.clusterProcs[n]))
    && (forall n :: n in w.workerProcs ==> WorkerProcStatusOk(w.workerProcs[n]))
  }

  ghost predicate ViewStatusesOk<S>(v: View<S>, kind: ControllerKind) {
    forall n :: n in v.crs ==> StatusOk(kind, v.crs[n].status)
  }

  lemma ServeKeepsStatusesOk<S>(v: View<S>, n: Name, req: Request<S>, admitted: bool, kind: ControllerKind)
    requires ViewStatusesOk(v, kind) && (req.PutStatus? ==> StatusOk(kind, req.status))
    ensures var served := Serve(v, n, req, admitted);
      ViewStatusesOk(served.view, kind) && (served.reply.GotCr? ==> StatusOk(kind, served.reply.cr.status))
  {
  }

  lemma ClusterCallKeepsStatusesOk(w: World, n: Name, outcome: Outcome)
    requires StatusesOk(w) && n in w.clusterProcs
    ensures StatusesOk(ClusterStep(w, n, outcome))
  {
    var p, served := w.clusterProcs[n], ClusterServed(w, n);
    assert ViewStatusesOk(ClusterView(w.store), ByCluster);
    ServeKeepsStatusesOk(ClusterView(w.store), n, ClusterRequest(n, p), ClusterAdmits(w, p), ByCluster);
    ClusterResumeStatusOk(n, p, if outcome.Delivered? then served.reply else Failed, w.now);
  }

  lemma WorkerCallKeepsStatusesOk(w: World, n: Name, outcome: Outcome)
    requires StatusesOk(w) && n in w.workerProcs
    ensures StatusesOk(WorkerStep(w, n, outcome))
  {
    var p, served := w.workerProcs[n], WorkerServed(w, n);
    assert ViewStatusesOk(WorkerView(w.store), ByWorker);
    if !WorkerRequest(n, p).GetCluster? {
      ServeKeepsStatusesOk(WorkerView(w.store), n, WorkerRequest(n, p), WorkerAdmits(w, p), ByWorker);
    }
    WorkerResumeStatusOk(n, p, if outcome.Delivered? then served.reply else Failed, w.now);
  }

  lemma UserKeepsStatusesOk<S>(v: View<S>, n: Name, deed: Deed<S>, finalizer: string, kind: ControllerKind)
    requires ViewStatusesOk(v, kind)
    ensures ViewStatusesOk(UserDoes(v, n, deed, finalizer), kind)
  {
  }

  lemma StepKeepsStatusesOk(w: World, a: Action)
    requires StatusesOk(w)
    ensures StatusesOk(Apply(w, a))
  {
    if a.ClusterCall? {
      if a.n in w.clusterProcs { ClusterCallKeepsStatusesOk(w, a.n, a.outcome); }
    } else if a.WorkerCall? {
      if a.n in w.workerProcs { WorkerCallKeepsStatusesOk(w, a.n, a.outcome); }
    } else if a.OnCluster? {
      assert ViewStatusesOk(ClusterView(w.store), ByCluster);
      UserKeepsStatusesOk(ClusterView(w.store), a.n, a.cdeed, OJS_FINALIZER, ByCluster);
    } else if a.OnWorker? {
      assert ViewStatusesOk(WorkerView(w.store), ByWorker);
      UserKeepsStatusesOk(WorkerView(w.store), a.n, a.wdeed, WORKER_FINALIZER, ByWorker);
    }
  }

  lemma {:induction false} RunKeepsStatusesOk(w: World, actions: seq<Action>)
    requires StatusesOk(w)
    ensures StatusesOk(Run(w, actions))
    decreases |actions|
  {
    if actions != [] {
      StepKeepsStatusesOk(w, actions[0]);
      RunKeepsStatusesOk(Apply(w, actions[0]), actions[1..]);
    }
  }

  /** In every reachable store, after any failed write or backend failure, every cluster status is coherent. */
  lemma ClusterStatusInvariant(w: World, n: Name)
    requires Reachable(w) && n in w.store.clusters
    ensures ClusterStatusOk(w.store.clusters[n].status)
  {
    var admission, actions :| w == Run(Initial(admission), actions);
    RunKeepsStatusesOk(Initial(admission), actions);
  }

  /** And every worker status; a worker is never both Ready and Degraded. */
  lemma WorkerStatusInvariant(w: World, n: Name)
    requires Reachable(w) && n in w.store.workers
    ensures var st := w.store.workers[n].status;
      WorkerStatusOk(st) && !(IsTrue(st.conditions, Ready) && IsTrue(st.conditions, Degraded))
  {
    var admission, actions :| w == Run(Initial(admission), actions);
    RunKeepsStatusesOk(Initial(admission), actions);
  }
}
