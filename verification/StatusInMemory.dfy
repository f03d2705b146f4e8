/**
 What an in-flight reconcile has made of its status in memory before it writes it, in every reachable
 world: the backend's verdict, and the counts until the Deployment is read.
 */
module StatusInMemory {
  import opened OjsTypes
  import opened Payloads
  import opened ApiServer
  import opened Observation
  import opened ClusterMachine
  import opened WorkerMachine
  import opened Operator

  /** A reconcile visits the ConfigMap and everything after it only once the embedded backend is done. */
  predicate PastBackend(pc: ClusterPc) {
    || ((pc.Read? || pc.Write?) && pc.slot != RedisDeployment && pc.slot != RedisService)
    || pc.ReadServer? || pc.WriteStatus?
  }

  /** A failed backend is reported as not ready and degraded; an embedded one that is done as ready. */
  predicate BackendTold(p: ClusterProc) {
    p.Active? ==>
      && (p.pc.ReportBackend? ==> Says(p.status.conditions, BackendReady, false) && Says(p.status.conditions, Degraded, true))
      && (PastBackend(p.pc) && p.base.spec.backend.embedded ==> Says(p.status.conditions, BackendReady, true))
      && (!p.pc.WriteStatus? ==> p.status.replicas == p.base.status.replicas && p.status.readyReplicas == p.base.status.readyReplicas)
  }

  predicate TurnTold(turn: ClusterTurn) {
    turn.next.Some? ==> BackendTold(turn.next.value)
  }

  lemma FailureIsTold(base: Cr<ClusterSpec>, status: Status, now: nat)
    requires status.replicas == base.status.replicas && status.readyReplicas == base.status.readyReplicas
    ensures TurnTold(ClusterBackendFailed(base, status, now))
  {
    hide SetCondition;
  }

  lemma SlotDoneIsTold(base: Cr<ClusterSpec>, status: Status, slot: ClusterSlot, now: nat)
    requires BackendTold(ClusterProc.Active(ClusterPc.Read(slot), base, status))
    ensures TurnTold(ClusterSlotDone(base, status, slot, now))
  {
    hide SetCondition, Wanted;
  }

  lemma FetchedIsTold(n: Name, cr: Cr<ClusterSpec>, now: nat)
    ensures TurnTold(ClusterFetched(n, cr, now)) && TurnTold(ClusterAnchored(n, cr, now)) && TurnTold(ClusterInitialized(n, cr, now))
  {
    hide SetCondition, ClusterBackendFailed;
    FailureIsTold(cr, cr.status, now);
  }

  lemma SlotIsTold(n: Name, p: ClusterProc, reply: Reply<ClusterSpec>, now: nat)
    requires BackendTold(p) && p.Active? && (p.pc.Read? || p.pc.Write?)
    ensures TurnTold(ClusterResume(n, p, reply, now))
  {
    hide SetCondition, ClusterChild, ClusterBackendFailed, ClusterSlotDone, Says;
    SlotDoneIsTold(p.base, p.status, p.pc.slot, now);
    FailureIsTold(p.base, p.status, now);
  }

  lemma ObservedIsTold(n: Name, base: Cr<ClusterSpec>, status: Status, server: Option<Unmanaged>, now: nat)
    requires base.spec.backend.embedded ==> Says(status.conditions, BackendReady, true)
    ensures TurnTold(ClusterObserved(n, base, status, server, now))
  {
    hide Observe, SetCondition;
    ObserveTells(status, server, base.gen, now);
  }

  lemma ReadServerIsTold(n: Name, p: ClusterProc, reply: Reply<ClusterSpec>, now: nat)
    requires BackendTold(p) && p.Active? && p.pc.ReadServer?
    ensures TurnTold(ClusterResume(n, p, reply, now))
  {
    hide Says, ClusterObserved;
    ObservedIsTold(n, p.base, p.status, None, now);
    if reply.GotChild? { ObservedIsTold(n, p.base, p.status, Some(reply.child.rest), now); }
  }

  lemma SelfIsTold(n: Name, p: ClusterProc, reply: Reply<ClusterSpec>, now: nat)
    requires p.Starting? || !(p.pc.Read? || p.pc.Write? || p.pc.ReadServer?)
    ensures TurnTold(ClusterResume(n, p, reply, now))
  {
    hide BackendTold, ClusterFetched, ClusterAnchored, ClusterInitialized;
    if reply.GotCr? { FetchedIsTold(n, reply.cr, now); }
  }

  lemma ResumeIsTold(n: Name, p: ClusterProc, reply: Reply<ClusterSpec>, now: nat)
    requires BackendTold(p)
    ensures TurnTold(ClusterResume(n, p, reply, now))
  {
    hide BackendTold, ClusterResume, TurnTold;
    if p.Active? && (p.pc.Read? || p.pc.Write?) {
      SlotIsTold(n, p, reply, now);
    } else if p.Active? && p.pc.ReadServer? {
      ReadServerIsTold(n, p, reply, now);
    } else {
      SelfIsTold(n, p, reply, now);
    }
  }

  /** The reconcile of `n`, if one is in flight, has told the truth about its backend. */
  predicate Told(w: World, n: Name) {
    n in w.clusterProcs ==> BackendTold(w.clusterProcs[n])
  }

  lemma StepIsTold(w: World, n: Name, outcome: Outcome)
    requires n in w.clusterProcs && Told(w, n)
    ensures Told(ClusterStep(w, n, outcome), n)
  {
    hide ClusterServed, ClusterResume, BackendTold;
    ResumeIsTold(n, w.clusterProcs[n], if outcome.Delivered? then ClusterServed(w, n).reply else Failed, w.now);
  }

  lemma ApplyIsTold(w: World, a: Action, n: Name)
    requires Told(w, n)
    ensures Told(Apply(w, a), n)
  {
    if a.ClusterCall? && a.n == n {
      hide ClusterStep;
      if n in w.clusterProcs { StepIsTold(w, n, a.outcome); }
    } else {
      hide Serve, ServeWorker, ClusterResume, WorkerResume, ForeignWrite, UserDoes;
    }
  }

  lemma {:induction false} RunIsTold(w: World, actions: seq<Action>, n: Name)
    requires Told(w, n)
    ensures Told(Run(w, actions), n)
    decreases |actions|
  {
    hide Apply, Told;
    if actions != [] {
      ApplyIsTold(w, actions[0], n);
      RunIsTold(Apply(w, actions[0]), actions[1..], n);
    }
  }

  /**
   In every reachable world: a reconcile about to report its backend says BackendReady false and
   Degraded true, and one of an embedded cluster that is past its backend says BackendReady true.
   */
  lemma BackendIsTold(w: World, n: Name)
    requires Reachable(w) && n in w.clusterProcs && w.clusterProcs[n].Active?
    ensures var p := w.clusterProcs[n];
      && (p.pc.ReportBackend? ==> Says(p.status.conditions, BackendReady, false) && Says(p.status.conditions, Degraded, true))
      && (PastBackend(p.pc) && p.base.spec.backend.embedded ==> Says(p.status.conditions, BackendReady, true))
  {
    var admission, actions :| w == Run(Initial(admission), actions);
    RunIsTold(Initial(admission), actions, n);
    assert Told(w, n);
  }
}
