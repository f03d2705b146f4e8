/**
 What admission buys: with the webhooks on, no finalizer write of the operator is ever refused by
 them, and the numbers the reconcilers write into children are in range.
 */
module Admission {
  import opened OjsTypes
  import opened Payloads
  import opened ApiServer
  import opened Observation
  import opened ClusterMachine
  import opened WorkerMachine
  import opened Webhook
  import opened Operator
  import opened Invariants
  import opened Ownership

  ghost predicate Admitted(w: World) {
    && (forall n :: n in w.store.clusters ==> ClusterAdmissible(w.store.clusters[n].spec))
    && (forall n :: n in w.store.workers ==> WorkerAdmissible(w.store.workers[n].spec))
    && (forall n :: n in w.clusterProcs && w.clusterProcs[n].Active? ==> ClusterAdmissible(w.clusterProcs[n].base.spec))
    && (forall n :: n in w.workerProcs && w.workerProcs[n].Active? ==> WorkerAdmissible(w.workerProcs[n].base.spec))
  }

  /** The specs a request can bring into the world: those of the store, and of the resource it writes back. */
  lemma ServeKeepsSpecs<S>(v: View<S>, n: Name, req: Request<S>, admitted: bool)
    ensures var served := Serve(v, n, req, admitted);
      && (forall m :: m in served.view.crs ==> m in v.crs && served.view.crs[m].spec == v.crs[m].spec)
      && (served.reply.GotCr? ==> n in v.crs && served.reply.cr.spec == v.crs[n].spec)
  {
  }

  lemma ClusterResumeKeepsSpec(n: Name, p: ClusterProc, reply: Reply<ClusterSpec>, now: nat)
    ensures var turn := ClusterResume(n, p, reply, now);
      turn.next.Some? && turn.next.value.Active? ==>
        (p.Active? && turn.next.value.base == p.base) || (reply.GotCr? && turn.next.value.base == reply.cr)
  {
    hide Observe, SetCondition, ClusterChild;
  }

  lemma WorkerResumeKeepsSpec(n: Name, p: WorkerProc, reply: Reply<WorkerSpec>, now: nat)
    ensures var turn := WorkerResume(n, p, reply, now);
      turn.next.Some? && turn.next.value.Active? ==>
        (p.Active? && turn.next.value.base == p.base) || (reply.GotCr? && turn.next.value.base == reply.cr)
  {
    hide Observe, SetCondition, WorkerChild;
  }

  lemma UserKeepsSpecs<S>(v: View<S>, n: Name, deed: Deed<S>, finalizer: string)
    ensures var v' := UserDoes(v, n, deed, finalizer);
      forall m :: m in v'.crs ==>
        (m in v.crs && v'.crs[m].spec == v.crs[m].spec) || ((deed.Create? || deed.Edit?) && v'.crs[m].spec == deed.spec)
  {
  }

  lemma StepKeepsAdmitted(w: World, a: Action)
    requires w.admission && Admitted(w)
    ensures Apply(w, a).admission && Admitted(Apply(w, a))
  {
    hide Serve, UserDoes, ClusterResume, WorkerResume, ForeignWrite, ClusterRequest, ClusterAdmissible, WorkerAdmissible;
    if a.ClusterCall? && a.n in w.clusterProcs {
      var p, served := w.clusterProcs[a.n], ClusterServed(w, a.n);
      ServeKeepsSpecs(ClusterView(w.store), a.n, ClusterRequest(a.n, p), ClusterAdmits(w, p));
      ClusterResumeKeepsSpec(a.n, p, if a.outcome.Delivered? then served.reply else Failed, w.now);
    } else if a.WorkerCall? && a.n in w.workerProcs {
      var p, served := w.workerProcs[a.n], WorkerServed(w, a.n);
      ServeKeepsSpecs(WorkerView(w.store), a.n, WorkerRequest(a.n, p), WorkerAdmits(w, p));
      WorkerResumeKeepsSpec(a.n, p, if a.outcome.Delivered? then served.reply else Failed, w.now);
    } else if a.OnCluster? {
      UserKeepsSpecs(ClusterView(w.store), a.n, a.cdeed, OJS_FINALIZER);
    } else if a.OnWorker? {
      UserKeepsSpecs(WorkerView(w.store), a.n, a.wdeed, WORKER_FINALIZER);
    } else {
      assert Apply(w, a).store.clusters == w.store.clusters && Apply(w, a).store.workers == w.store.workers by {
        ForeignKeepsCrs(w.store, a);
      }
    }
  }

  lemma ForeignKeepsCrs(s: Store, a: Action)
    ensures a.ForeignCreatesChild? || a.ForeignEditsChild? || a.ForeignDeletesChild? || a.Collect? ==>
      ForeignWrite(s, a).clusters == s.clusters && ForeignWrite(s, a).workers == s.workers
  {
  }

  lemma {:induction false} RunKeepsAdmitted(w: World, actions: seq<Action>)
    requires w.admission && Admitted(w)
    ensures Run(w, actions).admission && Admitted(Run(w, actions))
    decreases |actions|
  {
    hide Apply, Admitted;
    if actions != [] {
      StepKeepsAdmitted(w, actions[0]);
      RunKeepsAdmitted(Apply(w, actions[0]), actions[1..]);
    }
  }

  lemma {:induction false} AdmissionIsConstant(w: World, actions: seq<Action>)
    ensures Run(w, actions).admission == w.admission
    decreases |actions|
  {
    if actions != [] { AdmissionIsConstant(Apply(w, actions[0]), actions[1..]); }
  }

  lemma ReachableAdmitted(w: World)
    requires Reachable(w) && w.admission
    ensures Admitted(w)
  {
    var admission, actions :| w == Run(Initial(admission), actions);
    AdmissionIsConstant(Initial(admission), actions);
    RunKeepsAdmitted(Initial(admission), actions);
  }

  // ---------------------------------------------------------------- finalizer writes

  /**
   Whether the webhook lets the operator put on or take off its finalizer depends on nothing but
   the stored spec: over an up-to-date copy the write goes through exactly if that spec is admissible.
   */
  lemma ClusterFinalizerWriteExactly(w: World, n: Name)
    requires Inv(w) && n in w.clusterProcs && ClusterRequest(n, w.clusterProcs[n]).PutFinalizers?
    requires Current(w.store.clusters, n, w.clusterProcs[n].base)
    ensures ClusterServed(w, n).reply.GotCr? <==> (w.admission ==> ClusterAdmissible(w.store.clusters[n].spec))
  {
    hide ClusterAdmissible;
    assert ClusterProcOk(ClusterView(w.store), n, w.clusterProcs[n]);
  }

  lemma WorkerFinalizerWriteExactly(w: World, n: Name)
    requires Inv(w) && n in w.workerProcs && WorkerRequest(n, w.workerProcs[n]).PutFinalizers?
    requires Current(w.store.workers, n, w.workerProcs[n].base)
    ensures WorkerServed(w, n).reply.GotCr? <==> (w.admission ==> WorkerAdmissible(w.store.workers[n].spec))
  {
    hide WorkerAdmissible;
    assert WorkerProcOk(WorkerView(w.store), n, w.workerProcs[n]);
  }

  /** So in a reachable world validation never blocks deletion: the finalizer comes off at the first up-to-date try. */
  lemma ClusterDeletionIsNeverBlocked(w: World, n: Name, outcome: Outcome)
    requires Reachable(w) && n in w.clusterProcs && w.clusterProcs[n].Active? && w.clusterProcs[n].pc.DropFinalizer?
    requires Current(w.store.clusters, n, w.clusterProcs[n].base) && !outcome.Dropped?
    ensures var s' := Apply(w, ClusterCall(n, outcome)).store;
      n in s'.clusters ==> OJS_FINALIZER !in s'.clusters[n].finalizers
  {
    ReachableInv(w);
    if w.admission { ReachableAdmitted(w); }
    ClusterFinalizerWriteExactly(w, n);
    hide ClusterAdmissible, ClusterResume;
  }

  lemma WorkerDeletionIsNeverBlocked(w: World, n: Name, outcome: Outcome)
    requires Reachable(w) && n in w.workerProcs && w.workerProcs[n].Active? && w.workerProcs[n].pc.DropFinalizer?
    requires Current(w.store.workers, n, w.workerProcs[n].base) && !outcome.Dropped?
    ensures var s' := Apply(w, WorkerCall(n, outcome)).store;
      n in s'.workers ==> WORKER_FINALIZER !in s'.workers[n].finalizers
  {
    ReachableInv(w);
    if w.admission { ReachableAdmitted(w); }
    WorkerFinalizerWriteExactly(w, n);
    hide WorkerAdmissible, WorkerResume;
  }

  // ---------------------------------------------------------------- what is written into children

  /** Every server Deployment written asks for at least one replica. */
  lemma ServerReplicasArePositive(w: World, n: Name)
    requires Reachable(w) && w.admission && n in w.clusterProcs
    requires var req := ClusterRequest(n, w.clusterProcs[n]);
      (req.CreateChild? || req.UpdateChild?) && req.key == ClusterChildKey(ServerDeployment, n)
    ensures var managed := ClusterRequest(n, w.clusterProcs[n]).managed;
      managed.DeploymentFields? && 1 <= managed.replicas
  {
    ReachableAdmitted(w);
    var p := w.clusterProcs[n];
    hide ServerPod, LabelsForCluster, LabelsForRedis;
  }

  /** Every autoscaler written has 1 <= min <= max. */
  lemma AutoscalerBoundsAreOrdered(w: World, n: Name)
    requires Reachable(w) && w.admission && n in w.workerProcs
    requires var req := WorkerRequest(n, w.workerProcs[n]);
      (req.CreateChild? || req.UpdateChild?) && req.key == WorkerChildKey(Autoscaler, n)
    ensures var managed := WorkerRequest(n, w.workerProcs[n]).managed;
      managed.AutoscalerFields? && 1 <= managed.minReplicas <= managed.maxReplicas
  {
    ReachableAdmitted(w);
    ReachableAutoscales(w, n);
    hide WorkerPod, LabelsForWorker;
  }
}
