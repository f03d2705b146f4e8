/**
 Children are written only for a resource that is in the store under its finalizer, and once a
 resource has lost its finalizer its children can only go.
 */
module FinalizerSafety {
  import opened OjsTypes
  import opened Payloads
  import opened ApiServer
  import opened ClusterMachine
  import opened WorkerMachine
  import opened Operator
  import opened Invariants

  predicate WritesChild<S>(req: Request<S>) {
    req.CreateChild? || req.UpdateChild? || req.DeleteChild?
  }

  /** Every child write of a cluster reconcile is made for a stored, finalizer-holding cluster. */
  lemma ClusterWritesAreAnchored(w: World, n: Name)
    requires Reachable(w) && n in w.clusterProcs && WritesChild(ClusterRequest(n, w.clusterProcs[n]))
    ensures var req := ClusterRequest(n, w.clusterProcs[n]);
      && n in w.store.clusters
      && OJS_FINALIZER in w.store.clusters[n].finalizers
      && (req.CreateChild? || req.UpdateChild?)
      && req.controller == ClusterController(n, w.store.clusters[n].uid)
  {
    ReachableInv(w);
    assert ClusterProcOk(ClusterView(w.store), n, w.clusterProcs[n]);
  }

  /** The same for workers, whose reconcile also deletes a child. */
  lemma WorkerWritesAreAnchored(w: World, n: Name)
    requires Reachable(w) && n in w.workerProcs && WritesChild(WorkerRequest(n, w.workerProcs[n]))
    ensures var req := WorkerRequest(n, w.workerProcs[n]);
      && n in w.store.workers
      && WORKER_FINALIZER in w.store.workers[n].finalizers
      && (req.CreateChild? || req.UpdateChild? ==> req.controller == WorkerController(n, w.store.workers[n].uid))
  {
    ReachableInv(w);
    assert WorkerProcOk(WorkerView(w.store), n, w.workerProcs[n]);
  }

  // ---------------------------------------------------------------- after the finalizer

  /** Whoever still bears this uid is being deleted and has lost the operator's finalizer. */
  ghost predicate ReleasedIn<S>(v: View<S>, uid: nat, finalizer: string) {
    && uid < v.nextUid
    && (forall n :: n in v.crs && v.crs[n].uid == uid ==> v.crs[n].deleting && finalizer !in v.crs[n].finalizers)
  }

  ghost predicate Released(w: World, kind: ControllerKind, uid: nat) {
    match kind
    case ByCluster => ReleasedIn(ClusterView(w.store), uid, OJS_FINALIZER)
    case ByWorker => ReleasedIn(WorkerView(w.store), uid, WORKER_FINALIZER)
    case ByOther => false
  }

  predicate ControlledByUid(c: Child, kind: ControllerKind, uid: nat) {
    c.controller.Some? && c.controller.value.kind == kind && c.controller.value.uid == uid
  }

  /** The children one incarnation of a resource controls. */
  function ChildrenOf(s: Store, kind: ControllerKind, uid: nat): set<ChildKey> {
    set k | k in s.children && ControlledByUid(s.children[k], kind, uid)
  }

  lemma ServeKeepsReleased<S>(v: View<S>, n: Name, req: Request<S>, admitted: bool, uid: nat, finalizer: string)
    requires ViewOk(v) && ReleasedIn(v, uid, finalizer)
    // the only finalizer write that adds the finalizer is made over a resource not being deleted
    requires req.PutFinalizers? ==> HeldCr(v, n, req.held) && (req.held.deleting ==> finalizer !in req.finalizers)
    ensures ReleasedIn(Serve(v, n, req, admitted).view, uid, finalizer)
  {
  }

  lemma UserKeepsReleased<S>(v: View<S>, n: Name, deed: Deed<S>, uid: nat, finalizer: string)
    requires ReleasedIn(v, uid, finalizer)
    ensures ReleasedIn(UserDoes(v, n, deed, finalizer), uid, finalizer)
  {
  }

  lemma ServeAddsNoChild<S>(v: View<S>, n: Name, req: Request<S>, admitted: bool, kind: ControllerKind, uid: nat)
    requires req.CreateChild? || req.UpdateChild? ==> !(req.controller.kind == kind && req.controller.uid == uid)
    ensures var now := Serve(v, n, req, admitted).view.children;
      forall k | k in now && ControlledByUid(now[k], kind, uid) :: k in v.children && ControlledByUid(v.children[k], kind, uid)
  {
  }

  lemma ClusterCallKeepsReleased(w: World, n: Name, outcome: Outcome, kind: ControllerKind, uid: nat)
    requires Inv(w) && Released(w, kind, uid) && n in w.clusterProcs
    ensures var w' := ClusterStep(w, n, outcome);
      Released(w', kind, uid) && ChildrenOf(w'.store, kind, uid) <= ChildrenOf(w.store, kind, uid)
  {
    var v, p := ClusterView(w.store), w.clusterProcs[n];
    assert ClusterProcOk(v, n, p);
    if kind.ByCluster? { ServeKeepsReleased(v, n, ClusterRequest(n, p), ClusterAdmits(w, p), uid, OJS_FINALIZER); }
    ServeAddsNoChild(v, n, ClusterRequest(n, p), ClusterAdmits(w, p), kind, uid);
  }

  lemma WorkerCallKeepsReleased(w: World, n: Name, outcome: Outcome, kind: ControllerKind, uid: nat)
    requires Inv(w) && Released(w, kind, uid) && n in w.workerProcs
    ensures var w' := WorkerStep(w, n, outcome);
      Released(w', kind, uid) && ChildrenOf(w'.store, kind, uid) <= ChildrenOf(w.store, kind, uid)
  {
    var v, p := WorkerView(w.store), w.workerProcs[n];
    assert WorkerProcOk(v, n, p);
    if !WorkerRequest(n, p).GetCluster? {
      if kind.ByWorker? { ServeKeepsReleased(v, n, WorkerRequest(n, p), WorkerAdmits(w, p), uid, WORKER_FINALIZER); }
      ServeAddsNoChild(v, n, WorkerRequest(n, p), WorkerAdmits(w, p), kind, uid);
    }
  }

  lemma UserStepKeepsReleased(w: World, a: Action, kind: ControllerKind, uid: nat)
    requires Released(w, kind, uid) && (a.OnCluster? || a.OnWorker?)
    ensures Released(Apply(w, a), kind, uid) && Apply(w, a).store.children == w.store.children
  {
    hide UserDoes;
    if a.OnCluster? {
      UserKeepsChildren(ClusterView(w.store), a.n, a.cdeed, OJS_FINALIZER);
      if kind.ByCluster? { UserKeepsReleased(ClusterView(w.store), a.n, a.cdeed, uid, OJS_FINALIZER); }
    } else {
      UserKeepsChildren(WorkerView(w.store), a.n, a.wdeed, WORKER_FINALIZER);
      if kind.ByWorker? { UserKeepsReleased(WorkerView(w.store), a.n, a.wdeed, uid, WORKER_FINALIZER); }
    }
  }

  lemma ForeignStepKeepsReleased(w: World, a: Action, kind: ControllerKind, uid: nat)
    requires Released(w, kind, uid)
    requires a.ForeignCreatesChild? || a.ForeignEditsChild? || a.ForeignDeletesChild? || a.Collect?
    ensures var w' := Apply(w, a);
      Released(w', kind, uid) && ChildrenOf(w'.store, kind, uid) <= ChildrenOf(w.store, kind, uid)
  {
    var s, s' := w.store, ForeignWrite(w.store, a);
    assert s'.clusters == s.clusters && s'.workers == s.workers && s.nextUid <= s'.nextUid;
  }

  lemma StepKeepsReleased(w: World, a: Action, kind: ControllerKind, uid: nat)
    requires Inv(w) && Released(w, kind, uid)
    ensures var w' := Apply(w, a);
      Released(w', kind, uid) && ChildrenOf(w'.store, kind, uid) <= ChildrenOf(w.store, kind, uid)
  {
    if a.ClusterCall? {
      if a.n in w.clusterProcs { ClusterCallKeepsReleased(w, a.n, a.outcome, kind, uid); }
    } else if a.WorkerCall? {
      if a.n in w.workerProcs { WorkerCallKeepsReleased(w, a.n, a.outcome, kind, uid); }
    } else if a.OnCluster? || a.OnWorker? {
      UserStepKeepsReleased(w, a, kind, uid);
    } else if a.ForeignCreatesChild? || a.ForeignEditsChild? || a.ForeignDeletesChild? || a.Collect? {
      ForeignStepKeepsReleased(w, a, kind, uid);
    }
  }

  /**
   Once released, released for good: the finalizer never comes back, and the set of children of
   that incarnation only shrinks, whatever users, failures, crashes and reconciles do.
   */
  lemma {:induction false} ReleasedForGood(w: World, actions: seq<Action>, kind: ControllerKind, uid: nat)
    requires Inv(w) && Released(w, kind, uid)
    ensures var w' := Run(w, actions);
      Released(w', kind, uid) && ChildrenOf(w'.store, kind, uid) <= ChildrenOf(w.store, kind, uid)
    decreases |actions|
  {
    if actions != [] {
      var w1 := Apply(w, actions[0]);
      StepKeepsInv(w, actions[0]);
      StepKeepsReleased(w, actions[0], kind, uid);
      ReleasedForGood(w1, actions[1..], kind, uid);
    }
  }

  // ---------------------------------------------------------------- losing the finalizer

  /** The resource is still there, under the same uid and the operator's finalizer. */
  predicate KeepsFinalizer<S(==)>(v: View<S>, v': View<S>, n: Name, finalizer: string)
    requires n in v.crs
  {
    n in v'.crs && v'.crs[n].uid == v.crs[n].uid && finalizer in v'.crs[n].finalizers
  }

  lemma ServeKeepsFinalizer<S>(v: View<S>, n: Name, req: Request<S>, admitted: bool, finalizer: string)
    requires ViewOk(v) && n in v.crs && finalizer in v.crs[n].finalizers
    requires req.PutFinalizers? ==> HeldCr(v, n, req.held) && (finalizer in req.finalizers || req.held.deleting)
    ensures KeepsFinalizer(v, Serve(v, n, req, admitted).view, n, finalizer) || v.crs[n].deleting
  {
  }

  /** A cluster loses the finalizer only by its own reconcile's call, and only while it is being deleted. */
  lemma ClusterFinalizerGoesOnlyOnDeletion(w: World, a: Action, n: Name)
    requires Inv(w) && n in w.store.clusters && OJS_FINALIZER in w.store.clusters[n].finalizers
    ensures KeepsFinalizer(ClusterView(w.store), ClusterView(Apply(w, a).store), n, OJS_FINALIZER)
      || (a.ClusterCall? && a.n == n && w.store.clusters[n].deleting)
  {
    if a.ClusterCall? && a.n == n {
      if n in w.clusterProcs {
        var p := w.clusterProcs[n];
        assert ClusterProcOk(ClusterView(w.store), n, p);
        ServeKeepsFinalizer(ClusterView(w.store), n, ClusterRequest(n, p), ClusterAdmits(w, p), OJS_FINALIZER);
      }
    } else {
      OthersLeaveCluster(w, a, n);
    }
  }

  /** The same for workers. */
  lemma WorkerFinalizerGoesOnlyOnDeletion(w: World, a: Action, n: Name)
    requires Inv(w) && n in w.store.workers && WORKER_FINALIZER in w.store.workers[n].finalizers
    ensures KeepsFinalizer(WorkerView(w.store), WorkerView(Apply(w, a).store), n, WORKER_FINALIZER)
      || (a.WorkerCall? && a.n == n && w.store.workers[n].deleting)
  {
    if a.WorkerCall? && a.n == n {
      if n in w.workerProcs {
        var p := w.workerProcs[n];
        assert WorkerProcOk(WorkerView(w.store), n, p);
        if !WorkerRequest(n, p).GetCluster? {
          ServeKeepsFinalizer(WorkerView(w.store), n, WorkerRequest(n, p), WorkerAdmits(w, p), WORKER_FINALIZER);
        }
      }
    } else {
      OthersLeaveWorker(w, a, n);
    }
  }

  /** Nobody else's finalizer is touched: not while the resource stays, and it goes only with none of them left. */
  predicate SparesOtherFinalizers<S(==)>(v: View<S>, v': View<S>, n: Name, finalizer: string) {
    n in v.crs ==>
      if n in v'.crs then v'.crs[n].finalizers - {finalizer} == v.crs[n].finalizers - {finalizer}
      else v.crs[n].finalizers <= {finalizer}
  }

  lemma ServeSparesFinalizers<S>(v: View<S>, n: Name, req: Request<S>, admitted: bool, finalizer: string)
    requires ViewOk(v)
    requires req.PutFinalizers? ==> HeldCr(v, n, req.held) && req.finalizers - {finalizer} == req.held.finalizers - {finalizer}
    ensures SparesOtherFinalizers(v, Serve(v, n, req, admitted).view, n, finalizer)
  {
    if req.PutFinalizers? && req.finalizers == {} {
      assert forall f <- req.held.finalizers :: f != finalizer ==> f in req.held.finalizers - {finalizer};
    }
  }

  lemma NothingSparesFinalizers<S>(v: View<S>, n: Name, finalizer: string)
    ensures SparesOtherFinalizers(v, v, n, finalizer)
  {
  }

  /** No call of a cluster reconcile touches anybody else's finalizer. */
  lemma ClusterSparesFinalizers(w: World, n: Name, outcome: Outcome)
    requires Reachable(w) && n in w.clusterProcs
    ensures SparesOtherFinalizers(ClusterView(w.store), ClusterView(Apply(w, ClusterCall(n, outcome)).store), n, OJS_FINALIZER)
  {
    ReachableInv(w);
    hide Serve, ClusterResume, ClusterChild, Reachable;
    var p := w.clusterProcs[n];
    assert ClusterProcOk(ClusterView(w.store), n, p);
    ServeSparesFinalizers(ClusterView(w.store), n, ClusterRequest(n, p), ClusterAdmits(w, p), OJS_FINALIZER);
  }

  /** Nor does one of a worker reconcile. */
  lemma WorkerSparesFinalizers(w: World, n: Name, outcome: Outcome)
    requires Reachable(w) && n in w.workerProcs
    ensures SparesOtherFinalizers(WorkerView(w.store), WorkerView(Apply(w, WorkerCall(n, outcome)).store), n, WORKER_FINALIZER)
  {
    ReachableInv(w);
    WorkerStepSparesFinalizers(w, n, outcome);
  }

  lemma WorkerStepSparesFinalizers(w: World, n: Name, outcome: Outcome)
    requires Inv(w) && n in w.workerProcs
    ensures SparesOtherFinalizers(WorkerView(w.store), WorkerView(WorkerStep(w, n, outcome).store), n, WORKER_FINALIZER)
  {
    hide Serve, WorkerResume, WorkerChild, SparesOtherFinalizers;
    var p := w.workerProcs[n];
    assert WorkerProcOk(WorkerView(w.store), n, p);
    NothingSparesFinalizers(WorkerView(w.store), n, WORKER_FINALIZER);
    if !WorkerRequest(n, p).GetCluster? {
      ServeSparesFinalizers(WorkerView(w.store), n, WorkerRequest(n, p), WorkerAdmits(w, p), WORKER_FINALIZER);
    }
  }

  // ---------------------------------------------------------------- and then for good

  /** A uid belongs to one resource of its kind. */
  ghost predicate Distinct<S>(crs: map<Name, Cr<S>>) {
    forall m, n :: m in crs && n in crs && crs[m].uid == crs[n].uid ==> m == n
  }

  ghost predicate UidsDistinct(s: Store) {
    Distinct(s.clusters) && Distinct(s.workers)
  }

  lemma ServeKeepsDistinct<S>(v: View<S>, n: Name, req: Request<S>, admitted: bool)
    requires Distinct(v.crs)
    ensures Distinct(Serve(v, n, req, admitted).view.crs)
  {
  }

  lemma UserKeepsDistinct<S>(v: View<S>, n: Name, deed: Deed<S>, finalizer: string)
    requires ViewOk(v) && Distinct(v.crs)
    ensures Distinct(UserDoes(v, n, deed, finalizer).crs)
  {
  }

  lemma StepKeepsDistinct(w: World, a: Action)
    requires Inv(w) && UidsDistinct(w.store)
    ensures UidsDistinct(Apply(w, a).store)
  {
    hide Serve, UserDoes, ClusterResume, WorkerResume, ClusterRequest, WorkerRequest, Distinct;
    if a.OnCluster? {
      UserKeepsDistinct(ClusterView(w.store), a.n, a.cdeed, OJS_FINALIZER);
    } else if a.OnWorker? {
      UserKeepsDistinct(WorkerView(w.store), a.n, a.wdeed, WORKER_FINALIZER);
    } else if a.ClusterCall? {
      if a.n in w.clusterProcs {
        var p := w.clusterProcs[a.n];
        ServeKeepsDistinct(ClusterView(w.store), a.n, ClusterRequest(a.n, p), ClusterAdmits(w, p));
      }
    } else if a.WorkerCall? {
      if a.n in w.workerProcs {
        var p := w.workerProcs[a.n];
        ServeKeepsDistinct(WorkerView(w.store), a.n, WorkerRequest(a.n, p), WorkerAdmits(w, p));
      }
    }
  }

  lemma {:induction false} RunKeepsDistinct(w: World, actions: seq<Action>)
    requires Inv(w) && UidsDistinct(w.store)
    ensures UidsDistinct(Run(w, actions).store)
    decreases |actions|
  {
    hide Apply, UidsDistinct, Inv;
    if actions != [] {
      StepKeepsInv(w, actions[0]);
      StepKeepsDistinct(w, actions[0]);
      RunKeepsDistinct(Apply(w, actions[0]), actions[1..]);
    }
  }

  lemma ReachableUidsDistinct(w: World)
    requires Reachable(w)
    ensures UidsDistinct(w.store)
  {
    var admission, actions :| w == Run(Initial(admission), actions);
    RunKeepsDistinct(Initial(admission), actions);
  }

  lemma ServeReleases<S>(v: View<S>, n: Name, req: Request<S>, admitted: bool, finalizer: string)
    requires ViewOk(v) && Distinct(v.crs) && n in v.crs && finalizer in v.crs[n].finalizers
    requires req.PutFinalizers? ==> HeldCr(v, n, req.held) && (finalizer in req.finalizers || req.held.deleting)
    requires !KeepsFinalizer(v, Serve(v, n, req, admitted).view, n, finalizer)
    ensures ReleasedIn(Serve(v, n, req, admitted).view, v.crs[n].uid, finalizer)
  {
  }

  /** The step that takes a cluster's finalizer off releases that incarnation. */
  lemma ClusterFinalizerLossReleases(w: World, a: Action, n: Name)
    requires Inv(w) && UidsDistinct(w.store)
    requires n in w.store.clusters && OJS_FINALIZER in w.store.clusters[n].finalizers
    requires !KeepsFinalizer(ClusterView(w.store), ClusterView(Apply(w, a).store), n, OJS_FINALIZER)
    ensures Released(Apply(w, a), ByCluster, w.store.clusters[n].uid)
  {
    hide Serve, ClusterResume, ClusterChild, Distinct;
    ClusterFinalizerGoesOnlyOnDeletion(w, a, n);
    if n in w.clusterProcs {
      var p := w.clusterProcs[n];
      assert ClusterProcOk(ClusterView(w.store), n, p);
      ServeReleases(ClusterView(w.store), n, ClusterRequest(n, p), ClusterAdmits(w, p), OJS_FINALIZER);
    }
  }

  lemma WorkerFinalizerLossReleases(w: World, a: Action, n: Name)
    requires Inv(w) && UidsDistinct(w.store)
    requires n in w.store.workers && WORKER_FINALIZER in w.store.workers[n].finalizers
    requires !KeepsFinalizer(WorkerView(w.store), WorkerView(Apply(w, a).store), n, WORKER_FINALIZER)
    ensures Released(Apply(w, a), ByWorker, w.store.workers[n].uid)
  {
    hide Serve, WorkerResume, WorkerChild, Distinct;
    WorkerFinalizerGoesOnlyOnDeletion(w, a, n);
    if n in w.workerProcs {
      var p := w.workerProcs[n];
      assert WorkerProcOk(WorkerView(w.store), n, p);
      if !WorkerRequest(n, p).GetCluster? {
        ServeReleases(WorkerView(w.store), n, WorkerRequest(n, p), WorkerAdmits(w, p), WORKER_FINALIZER);
      }
    }
  }

  /**
   From the step that takes a cluster's finalizer off - in any reachable world, whatever step it is -
   the finalizer never comes back to that incarnation and its set of children only shrinks.
   */
  lemma ClusterReleasedForGood(w: World, a: Action, n: Name, later: seq<Action>)
    requires Reachable(w) && n in w.store.clusters && OJS_FINALIZER in w.store.clusters[n].finalizers
    requires !KeepsFinalizer(ClusterView(w.store), ClusterView(Apply(w, a).store), n, OJS_FINALIZER)
    ensures var uid, w1 := w.store.clusters[n].uid, Apply(w, a); var w2 := Run(w1, later);
      Released(w2, ByCluster, uid) && ChildrenOf(w2.store, ByCluster, uid) <= ChildrenOf(w1.store, ByCluster, uid)
  {
    ReachableInv(w);
    ReachableUidsDistinct(w);
    hide Apply, Inv, UidsDistinct, Released, ChildrenOf, Reachable;
    ClusterFinalizerLossReleases(w, a, n);
    StepKeepsInv(w, a);
    ReleasedForGood(Apply(w, a), later, ByCluster, w.store.clusters[n].uid);
  }

  /** The same for workers. */
  lemma WorkerReleasedForGood(w: World, a: Action, n: Name, later: seq<Action>)
    requires Reachable(w) && n in w.store.workers && WORKER_FINALIZER in w.store.workers[n].finalizers
    requires !KeepsFinalizer(WorkerView(w.store), WorkerView(Apply(w, a).store), n, WORKER_FINALIZER)
    ensures var uid, w1 := w.store.workers[n].uid, Apply(w, a); var w2 := Run(w1, later);
      Released(w2, ByWorker, uid) && ChildrenOf(w2.store, ByWorker, uid) <= ChildrenOf(w1.store, ByWorker, uid)
  {
    ReachableInv(w);
    ReachableUidsDistinct(w);
    hide Apply, Inv, UidsDistinct, Released, ChildrenOf, Reachable;
    WorkerFinalizerLossReleases(w, a, n);
    StepKeepsInv(w, a);
    ReleasedForGood(Apply(w, a), later, ByWorker, w.store.workers[n].uid);
  }

  // ---------------------------------------------------------------- garbage collection

  /** No resource of this kind bears the uid any more. */
  ghost predicate Gone(w: World, kind: ControllerKind, uid: nat) {
    match kind
    case ByCluster => GoneIn(ClusterView(w.store), uid)
    case ByWorker => GoneIn(WorkerView(w.store), uid)
    case ByOther => false
  }

  ghost predicate GoneIn<S>(v: View<S>, uid: nat) {
    uid < v.nextUid && forall n :: n in v.crs ==> v.crs[n].uid != uid
  }

  /** A uid is never used again. */
  lemma StepKeepsGone(w: World, a: Action, kind: ControllerKind, uid: nat)
    requires Inv(w) && Gone(w, kind, uid)
    ensures Gone(Apply(w, a), kind, uid)
  {
    hide Apply, Respects;
    StepEvolves(w, a);
    if kind.ByCluster? {
      forall n | n in Apply(w, a).store.clusters ensures Apply(w, a).store.clusters[n].uid != uid {
        if a.ClusterCall? && a.n == n { OwnClusterCallKeepsUid(w, n, a.outcome); } else { OthersLeaveCluster(w, a, n); }
      }
    } else {
      forall n | n in Apply(w, a).store.workers ensures Apply(w, a).store.workers[n].uid != uid {
        if a.WorkerCall? && a.n == n { OwnWorkerCallKeepsUid(w, n, a.outcome); } else { OthersLeaveWorker(w, a, n); }
      }
    }
  }

  lemma OwnClusterCallKeepsUid(w: World, n: Name, outcome: Outcome)
    ensures var s' := Apply(w, ClusterCall(n, outcome)).store;
      n in s'.clusters ==> n in w.store.clusters && s'.clusters[n].uid == w.store.clusters[n].uid
  {
    hide ClusterResume, ClusterChild;
  }

  lemma OwnWorkerCallKeepsUid(w: World, n: Name, outcome: Outcome)
    ensures var s' := Apply(w, WorkerCall(n, outcome)).store;
      n in s'.workers ==> n in w.store.workers && s'.workers[n].uid == w.store.workers[n].uid
  {
    hide WorkerResume, WorkerChild;
  }

  lemma CollectTakes(w: World, key: ChildKey, kind: ControllerKind, uid: nat)
    requires Gone(w, kind, uid)
    ensures key !in ChildrenOf(Apply(w, Collect(key)).store, kind, uid)
  {
  }

  /**
   After the resource is gone: on every run in which the collector gets round to each child it left -
   in any order, with anything in between and after - none is left at the end.
   */
  lemma {:induction false} CollectedForGood(w: World, actions: seq<Action>, kind: ControllerKind, uid: nat)
    requires Inv(w) && Gone(w, kind, uid)
    requires forall k :: k in ChildrenOf(w.store, kind, uid) ==> Collect(k) in actions
    ensures ChildrenOf(Run(w, actions).store, kind, uid) == {}
    decreases |actions|
  {
    hide Apply, ChildrenOf;
    if actions == [] {
      assert forall k :: k !in ChildrenOf(w.store, kind, uid);
    } else {
      var a, w1 := actions[0], Apply(w, actions[0]);
      StepKeepsInv(w, a);
      StepKeepsGone(w, a, kind, uid);
      GoneIsReleased(w, kind, uid);
      StepKeepsReleased(w, a, kind, uid);
      forall k | k in ChildrenOf(w1.store, kind, uid) ensures Collect(k) in actions[1..] {
        if a == Collect(k) { CollectTakes(w, k, kind, uid); }
        assert actions == [a] + actions[1..];
      }
      CollectedForGood(w1, actions[1..], kind, uid);
    }
  }

  lemma GoneIsReleased(w: World, kind: ControllerKind, uid: nat)
    requires Gone(w, kind, uid)
    ensures Released(w, kind, uid)
  {
  }
}
