/**
 Workers over whole histories: what a fixed clusterRef guarantees, what editing it does, and what a
 worker without a parent does while everybody else carries on.
 */
module WorkerHistories {
  import opened OjsTypes
  import opened Payloads
  import opened ApiServer
  import opened ClusterMachine
  import opened WorkerMachine
  import opened Webhook
  import opened Operator
  import opened Invariants
  import opened FinalizerSafety
  import opened Ownership
  import opened CreationOrder
  import opened Admission
  import opened ClusterConvergence
  import opened WorkerConvergence
  import opened Interleaving

  // ---------------------------------------------------------------- the clusterRef a history gives a worker

  const CLUSTER_LABEL := "ojs.openjobspec.dev/cluster"

  /** Users give worker `n` no other clusterRef than `only`, if one is fixed. */
  predicate KeepsRef(a: Action, n: Name, only: Option<string>) {
    only.Some? && a.OnWorker? && a.n == n && (a.wdeed.Create? || a.wdeed.Edit?) ==> a.wdeed.spec.clusterRef == only.value
  }

  predicate RefIs(w: World, n: Name, only: Option<string>) {
    only.Some? ==>
      && (n in w.store.workers ==> w.store.workers[n].spec.clusterRef == only.value)
      && (n in w.workerProcs && w.workerProcs[n].Active? ==> w.workerProcs[n].base.spec.clusterRef == only.value)
  }

  lemma StepKeepsRef(w: World, a: Action, n: Name, only: Option<string>)
    requires RefIs(w, n, only) && KeepsRef(a, n, only)
    ensures RefIs(Apply(w, a), n, only)
  {
    hide Serve, ServeWorker, UserDoes, ClusterResume, WorkerResume, ForeignWrite, WorkerRequest, ClusterRequest;
    if a.WorkerCall? && a.n in w.workerProcs {
      var p, served := w.workerProcs[a.n], WorkerServed(w, a.n);
      WorkerServedKeepsSpecs(w, a.n);
      WorkerResumeKeepsSpec(a.n, p, if a.outcome.Delivered? then served.reply else Failed, w.now);
    } else if a.OnWorker? {
      UserEditsOnly(WorkerView(w.store), a.n, a.wdeed, n);
    } else {
      assert Apply(w, a).store.workers == w.store.workers by { ForeignKeepsCrs(w.store, a); }
    }
  }

  lemma WorkerServedKeepsSpecs(w: World, m: Name)
    requires m in w.workerProcs
    ensures var served := WorkerServed(w, m);
      && (forall k :: k in served.view.crs ==> k in w.store.workers && served.view.crs[k].spec == w.store.workers[k].spec)
      && (served.reply.GotCr? ==> m in w.store.workers && served.reply.cr.spec == w.store.workers[m].spec)
  {
    hide Serve, WorkerRequest;
    if !WorkerRequest(m, w.workerProcs[m]).GetCluster? {
      ServeKeepsSpecs(WorkerView(w.store), m, WorkerRequest(m, w.workerProcs[m]), WorkerAdmits(w, w.workerProcs[m]));
    }
  }

  lemma UserEditsOnly<S>(v: View<S>, m: Name, deed: Deed<S>, n: Name)
    ensures var v' := UserDoes(v, m, deed, WORKER_FINALIZER);
      n in v'.crs ==>
        (n in v.crs && v'.crs[n].spec == v.crs[n].spec) || (m == n && (deed.Create? || deed.Edit?) && v'.crs[n].spec == deed.spec)
  {
  }

  // ---------------------------------------------------------------- a worker's own Deployment

  /** The selector is one this worker writes, and for `only` if that is fixed. */
  predicate MadeFor(m: Managed, n: Name, only: Option<string>) {
    && m.DeploymentFields? && CLUSTER_LABEL in m.selector
    && m.selector == LabelsForWorker(n.name, m.selector[CLUSTER_LABEL])
    && (only.Some? ==> m.selector[CLUSTER_LABEL] == only.value)
  }

  predicate Mine(c: Child, n: Name) {
    c.controller.Some? && !ControlledByOther(c, ByWorker, n.name)
  }

  predicate OwnDeployment(key: ChildKey, c: Child, n: Name, only: Option<string>) {
    Fits(key.kind, c.managed) && (key == WorkerChildKey(WorkerDeployment, n) && Mine(c, n) ==> MadeFor(c.managed, n, only))
  }

  ghost predicate OwnDeployments(children: Children, n: Name, only: Option<string>) {
    forall key :: key in children ==> OwnDeployment(key, children[key], n, only)
  }

  lemma ServeKeepsOwnDeployments<S>(v: View<S>, m: Name, req: Request<S>, admitted: bool, n: Name, only: Option<string>)
    requires OwnDeployments(v.children, n, only)
    requires req.CreateChild? || req.UpdateChild? ==> Fits(req.key.kind, req.managed)
    requires req.CreateChild? || req.UpdateChild? ==>
      req.key == WorkerChildKey(WorkerDeployment, n) && req.controller.kind == ByWorker && req.controller.name == n.name ==>
        MadeFor(req.managed, n, only)
    ensures OwnDeployments(Serve(v, m, req, admitted).view.children, n, only)
  {
    hide MadeFor, WorkerChildKey, Fits;
  }

  lemma PayloadMadeFor(n: Name, spec: WorkerSpec, only: Option<string>)
    requires only.Some? ==> spec.clusterRef == only.value
    ensures MadeFor(WorkerChild(WorkerDeployment, n, spec), n, only)
  {
    hide WorkerPod;
  }

  lemma WorkerCallKeepsOwnDeployments(w: World, m: Name, outcome: Outcome, n: Name, only: Option<string>)
    requires m in w.workerProcs && RefIs(w, n, only) && OwnDeployments(w.store.children, n, only)
    ensures OwnDeployments(WorkerStep(w, m, outcome).store.children, n, only)
  {
    hide WorkerResume, WorkerChild, WorkerChildKey, OwnDeployments, Fits, MadeFor;
    var p := w.workerProcs[m];
    if p.Active? && p.pc.Write? {
      WorkerPayloadFits(m, p.pc.slot, p.base.spec);
      WorkerChildNamesNeverCollide(p.pc.slot, m, WorkerDeployment, n);
      if m == n { PayloadMadeFor(n, p.base.spec, only); }
    }
    if !WorkerRequest(m, p).GetCluster? {
      ServeKeepsOwnDeployments(WorkerView(w.store), m, WorkerRequest(m, p), WorkerAdmits(w, p), n, only);
    }
  }

  lemma ClusterCallKeepsOwnDeployments(w: World, m: Name, outcome: Outcome, n: Name, only: Option<string>)
    requires m in w.clusterProcs && OwnDeployments(w.store.children, n, only)
    ensures OwnDeployments(ClusterStep(w, m, outcome).store.children, n, only)
  {
    hide ClusterResume, ClusterChild, ClusterChildKey, WorkerChildKey, OwnDeployments, Fits, MadeFor;
    var p := w.clusterProcs[m];
    if p.Active? && p.pc.Write? { PayloadFits(m, p.pc.slot, p.base.spec); }
    ServeKeepsOwnDeployments(ClusterView(w.store), m, ClusterRequest(m, p), ClusterAdmits(w, p), n, only);
  }

  lemma ForeignKeepsOwnDeployments(s: Store, a: Action, n: Name, only: Option<string>)
    requires a.ForeignCreatesChild? || a.ForeignEditsChild? || a.ForeignDeletesChild? || a.Collect?
    requires OwnDeployments(s.children, n, only)
    ensures OwnDeployments(ForeignWrite(s, a).children, n, only)
  {
    hide LabelsForWorker;
  }

  lemma StepKeepsOwnDeployments(w: World, a: Action, n: Name, only: Option<string>)
    requires RefIs(w, n, only) && OwnDeployments(w.store.children, n, only)
    ensures OwnDeployments(Apply(w, a).store.children, n, only)
  {
    hide OwnDeployments, ClusterStep, WorkerStep, ForeignWrite, UserDoes, RefIs;
    if a.ClusterCall? {
      if a.n in w.clusterProcs { ClusterCallKeepsOwnDeployments(w, a.n, a.outcome, n, only); }
    } else if a.WorkerCall? {
      if a.n in w.workerProcs { WorkerCallKeepsOwnDeployments(w, a.n, a.outcome, n, only); }
    } else if a.ForeignCreatesChild? || a.ForeignEditsChild? || a.ForeignDeletesChild? || a.Collect? {
      ForeignKeepsOwnDeployments(w.store, a, n, only);
    } else {
      UsersLeaveChildren(w, a);
    }
  }

  lemma {:induction false} RunKeepsOwnDeployments(w: World, actions: seq<Action>, n: Name, only: Option<string>)
    requires RefIs(w, n, only) && OwnDeployments(w.store.children, n, only) && forall a <- actions :: KeepsRef(a, n, only)
    ensures RefIs(Run(w, actions), n, only) && OwnDeployments(Run(w, actions).store.children, n, only)
    decreases |actions|
  {
    hide OwnDeployments, RefIs, KeepsRef, Apply;
    if actions != [] {
      StepKeepsRef(w, actions[0], n, only);
      StepKeepsOwnDeployments(w, actions[0], n, only);
      RunKeepsOwnDeployments(Apply(w, actions[0]), actions[1..], n, only);
    }
  }

  lemma FreeMeansSameRef(s: Store, n: Name, spec: WorkerSpec)
    requires var key := WorkerChildKey(WorkerDeployment, n);
      key in s.children && Mine(s.children[key], n) && MadeFor(s.children[key].managed, n, None)
    ensures WorkerFree(s, n, WorkerDeployment, spec)
      <==> s.children[WorkerChildKey(WorkerDeployment, n)].managed.selector[CLUSTER_LABEL] == spec.clusterRef
  {
    hide WorkerPod;
    var selector := s.children[WorkerChildKey(WorkerDeployment, n)].managed.selector;
    assert WorkerChild(WorkerDeployment, n, spec).selector[CLUSTER_LABEL] == spec.clusterRef;
  }

  /** In every reachable world a worker's own Deployment can be written exactly for the clusterRef it was made for. */
  lemma OwnDeploymentFreeExactly(w: World, n: Name, spec: WorkerSpec)
    requires Reachable(w)
    requires var key := WorkerChildKey(WorkerDeployment, n); key in w.store.children && Mine(w.store.children[key], n)
    ensures var made := w.store.children[WorkerChildKey(WorkerDeployment, n)].managed;
      && made.DeploymentFields? && CLUSTER_LABEL in made.selector
      && (WorkerFree(w.store, n, WorkerDeployment, spec) <==> made.selector[CLUSTER_LABEL] == spec.clusterRef)
  {
    var admission, actions :| w == Run(Initial(admission), actions);
    RunKeepsOwnDeployments(Initial(admission), actions, n, None);
    assert OwnDeployment(WorkerChildKey(WorkerDeployment, n), w.store.children[WorkerChildKey(WorkerDeployment, n)], n, None);
    hide WorkerFree, LabelsForWorker, OwnDeployments, Reachable;
    FreeMeansSameRef(w.store, n, spec);
  }

  /** A worker's own autoscaler is always free. */
  lemma OwnAutoscalerIsFree(s: Store, n: Name, spec: WorkerSpec)
    requires var key := WorkerChildKey(Autoscaler, n); key in s.children ==> Mine(s.children[key], n)
    ensures WorkerFree(s, n, Autoscaler, spec)
  {
  }

  /** Whatever is at a name the worker needs is the worker's own. */
  predicate NothingForeign(s: Store, n: Name, spec: WorkerSpec) {
    forall slot: WorkerSlot :: slot == WorkerDeployment || Autoscaled(spec) ==>
      WorkerChildKey(slot, n) in s.children ==> Mine(s.children[WorkerChildKey(slot, n)], n)
  }

  /**
   Crash convergence with a fixed clusterRef.  After any history - edits of everything else, failures,
   crashes, concurrent reconciles - in which users give the worker one clusterRef only, and with nothing
   of anybody else's at the names it needs, one uninterrupted reconcile converges.
   */
  lemma FixedRefConverges(admission: bool, actions: seq<Action>, n: Name, ref: string)
    requires forall a <- actions :: KeepsRef(a, n, Some(ref))
    requires var w := Run(Initial(admission), actions);
      && n in w.store.workers && n !in w.workerProcs && !w.store.workers[n].deleting
      && Name(n.ns, ref) in w.store.clusters && NothingForeign(w.store, n, w.store.workers[n].spec)
    ensures var w := Run(Initial(admission), actions); var cr := w.store.workers[n];
      cr.spec.clusterRef == ref && Converged(ReconcileWorker(w, n).store, n, cr.uid, cr.spec)
  {
    var w := Run(Initial(admission), actions);
    var spec, key := w.store.workers[n].spec, WorkerChildKey(WorkerDeployment, n);
    RunKeepsOwnDeployments(Initial(admission), actions, n, Some(ref));
    assert RefIs(w, n, Some(ref));
    assert Reachable(w);
    hide Reachable, ReconcileWorker, WorkerFree, Converged, LabelsForWorker, RefIs, Autoscaled;
    if key in w.store.children {
      assert Mine(w.store.children[key], n);
      assert OwnDeployment(key, w.store.children[key], n, Some(ref));
      FreeMeansSameRef(w.store, n, spec);
    } else {
      AbsentIsFree(w.store, n, WorkerDeployment, spec);
    }
    if Autoscaled(spec) { OwnAutoscalerIsFree(w.store, n, spec); }
    WorkerConverges(w, n);
  }

  lemma AbsentIsFree(s: Store, n: Name, slot: WorkerSlot, spec: WorkerSpec)
    requires WorkerChildKey(slot, n) !in s.children
    ensures WorkerFree(s, n, slot, spec)
  {
  }

  // ---------------------------------------------------------------- editing clusterRef

  /** What a step may do to the Deployment of uid `c.uid` at `key`. */
  predicate SelectorKept(now: Children, key: ChildKey, c: Child, nextUid: nat)
    requires c.managed.DeploymentFields?
  {
    key in now ==>
      || (now[key].uid == c.uid && now[key].managed.DeploymentFields? && now[key].managed.selector == c.managed.selector)
      || now[key].uid >= nextUid
  }

  /** A Deployment in the store. */
  predicate Deployed(children: Children, key: ChildKey) {
    key.kind == DeploymentKind && key in children && children[key].managed.DeploymentFields?
  }

  lemma ServeKeepsSelector<S>(v: View<S>, n: Name, req: Request<S>, admitted: bool, key: ChildKey)
    requires req.CreateChild? || req.UpdateChild? ==> Fits(req.key.kind, req.managed)
    requires Deployed(v.children, key)
    ensures SelectorKept(Serve(v, n, req, admitted).view.children, key, v.children[key], v.nextUid)
  {
  }

  lemma ForeignKeepsSelector(s: Store, a: Action, key: ChildKey)
    requires a.ForeignCreatesChild? || a.ForeignEditsChild? || a.ForeignDeletesChild? || a.Collect?
    requires Deployed(s.children, key)
    ensures SelectorKept(ForeignWrite(s, a).children, key, s.children[key], s.nextUid)
  {
  }

  lemma StepKeepsSelector(w: World, a: Action, key: ChildKey)
    requires Deployed(w.store.children, key)
    ensures SelectorKept(Apply(w, a).store.children, key, w.store.children[key], w.store.nextUid)
  {
    hide Serve, ClusterResume, WorkerResume, ClusterChild, WorkerChild, ForeignWrite, UserDoes, Fits;
    if a.ClusterCall? {
      if a.n in w.clusterProcs {
        var p := w.clusterProcs[a.n];
        if p.Active? && p.pc.Write? { PayloadFits(a.n, p.pc.slot, p.base.spec); }
        ServeKeepsSelector(ClusterView(w.store), a.n, ClusterRequest(a.n, p), ClusterAdmits(w, p), key);
      }
    } else if a.WorkerCall? {
      if a.n in w.workerProcs {
        var p := w.workerProcs[a.n];
        if p.Active? && p.pc.Write? { WorkerPayloadFits(a.n, p.pc.slot, p.base.spec); }
        if !WorkerRequest(a.n, p).GetCluster? {
          ServeKeepsSelector(WorkerView(w.store), a.n, WorkerRequest(a.n, p), WorkerAdmits(w, p), key);
        }
      }
    } else if a.ForeignCreatesChild? || a.ForeignEditsChild? || a.ForeignDeletesChild? || a.Collect? {
      ForeignKeepsSelector(w.store, a, key);
    } else {
      UsersLeaveChildren(w, a);
    }
  }

  /** No child at `key` bears the uid, nor ever will. */
  predicate UidSpent(w: World, key: ChildKey, uid: nat) {
    uid < w.store.nextUid && (key in w.store.children ==> w.store.children[key].uid != uid)
  }

  lemma StepKeepsSpent(w: World, a: Action, key: ChildKey, uid: nat)
    requires Inv(w) && UidSpent(w, key, uid)
    ensures UidSpent(Apply(w, a), key, uid)
  {
    hide Apply;
    StepEvolves(w, a);
  }

  /** As long as a Deployment stands, under every history, its selector is the one it was made with. */
  lemma {:induction false} SelectorForLife(w: World, actions: seq<Action>, key: ChildKey, uid: nat, selector: Labels)
    requires Inv(w)
    requires UidSpent(w, key, uid) || (uid < w.store.nextUid && Deployed(w.store.children, key) && w.store.children[key].uid == uid
      && w.store.children[key].managed.selector == selector)
    ensures var now := Run(w, actions).store.children;
      key in now && now[key].uid == uid ==> now[key].managed.DeploymentFields? && now[key].managed.selector == selector
    decreases |actions|
  {
    hide Apply;
    if actions != [] {
      var a := actions[0];
      StepKeepsInv(w, a);
      StepEvolves(w, a);
      if UidSpent(w, key, uid) {
        StepKeepsSpent(w, a, key, uid);
      } else {
        StepKeepsSelector(w, a, key);
      }
      SelectorForLife(Apply(w, a), actions[1..], key, uid, selector);
    }
  }

  /**
   The failing input: a worker whose Deployment was made for one cluster and whose clusterRef names
   another.  However long the history, as long as that Deployment stands and the clusterRef is not put
   back, every uninterrupted reconcile of the worker changes no child and so never converges.
   */
  lemma RetargetedWorkerIsStuck(w: World, actions: seq<Action>, n: Name)
    requires Reachable(w)
    requires var key := WorkerChildKey(WorkerDeployment, n); key in w.store.children && Mine(w.store.children[key], n)
    requires var w', key := Run(w, actions), WorkerChildKey(WorkerDeployment, n);
      && key in w'.store.children && w'.store.children[key].uid == w.store.children[key].uid
      && n in w'.store.workers && n !in w'.workerProcs && !w'.store.workers[n].deleting
      && HasParent(w', n, w'.store.workers[n].spec)
    ensures var w', made := Run(w, actions), w.store.children[WorkerChildKey(WorkerDeployment, n)].managed;
      var cr, after := w'.store.workers[n], ReconcileWorker(w', n).store;
      && made.DeploymentFields? && CLUSTER_LABEL in made.selector
      && (made.selector[CLUSTER_LABEL] != cr.spec.clusterRef ==>
            after.children == w'.store.children && !Converged(after, n, cr.uid, cr.spec))
  {
    var key, w' := WorkerChildKey(WorkerDeployment, n), Run(w, actions);
    var c, spec := w.store.children[key], w'.store.workers[n].spec;
    ReachableInv(w);
    assert c.uid < w.store.nextUid by { assert ChildOk(ClusterView(w.store), c); }
    OwnDeploymentFreeExactly(w, n, spec);
    SelectorForLife(w, actions, key, c.uid, c.managed.selector);
    ReachableRun(w, actions);
    hide ReconcileWorker, Converged, LabelsForWorker, Reachable, Inv;
    if c.managed.selector[CLUSTER_LABEL] != spec.clusterRef {
      OtherRefIsNotFree(w'.store, n, spec);
      BlockedWorkerWritesNoChild(w', n);
      WorkerConverges(w', n);
    }
  }

  lemma EditIsStored(w: World, n: Name, spec: WorkerSpec)
    requires n in w.store.workers && !w.store.workers[n].deleting && ValidateWorker(spec).None?
    ensures var edited := Apply(w, OnWorker(n, Edit(spec)));
      && n in edited.store.workers && edited.store.workers[n].spec == spec && !edited.store.workers[n].deleting
      && edited.store.workers[n].uid == w.store.workers[n].uid
      && edited.store.clusters == w.store.clusters && edited.store.children == w.store.children
      && edited.workerProcs == w.workerProcs
  {
    hide ValidateWorker;
  }

  lemma SettledLabel(s: Store, n: Name, uid: nat, spec: WorkerSpec)
    requires WorkerSettledAt(s, n, uid, WorkerDeployment, spec)
    ensures var c := s.children[WorkerChildKey(WorkerDeployment, n)];
      c.managed.DeploymentFields? && CLUSTER_LABEL in c.managed.selector && c.managed.selector[CLUSTER_LABEL] == spec.clusterRef
  {
    hide WorkerPod;
  }

  /** So every converged worker that an admitted edit gives another, existing cluster is stuck. */
  lemma EditedWorkerIsStuck(w: World, n: Name, ref: string)
    requires Reachable(w) && n in w.store.workers && n !in w.workerProcs && !w.store.workers[n].deleting
    requires Converged(w.store, n, w.store.workers[n].uid, w.store.workers[n].spec)
    requires ref != w.store.workers[n].spec.clusterRef && Name(n.ns, ref) in w.store.clusters
    requires ValidateWorker(w.store.workers[n].spec.(clusterRef := ref)).None?
    ensures var edited := Apply(w, OnWorker(n, Edit(w.store.workers[n].spec.(clusterRef := ref))));
      && Reachable(edited) && n in edited.store.workers && edited.store.workers[n].spec.clusterRef == ref
      && var cr, after := edited.store.workers[n], ReconcileWorker(edited, n).store;
      && after.children == edited.store.children && !Converged(after, n, cr.uid, cr.spec)
  {
    var spec, spec' := w.store.workers[n].spec, w.store.workers[n].spec.(clusterRef := ref);
    var edited := Apply(w, OnWorker(n, Edit(spec')));
    SettledLabel(w.store, n, w.store.workers[n].uid, spec);
    hide WorkerSettledAt, Apply, Reachable, ReconcileWorker, WorkerFree, ValidateWorker;
    EditIsStored(w, n, spec');
    OneAction(w, OnWorker(n, Edit(spec')));
    ReachableRun(w, [OnWorker(n, Edit(spec'))]);
    OtherRefIsNotFree(edited.store, n, spec');
    BlockedWorkerWritesNoChild(edited, n);
    WorkerConverges(edited, n);
  }

  lemma OtherRefIsNotFree(s: Store, n: Name, spec: WorkerSpec)
    requires var key := WorkerChildKey(WorkerDeployment, n);
      && key in s.children && s.children[key].managed.DeploymentFields?
      && CLUSTER_LABEL in s.children[key].managed.selector && s.children[key].managed.selector[CLUSTER_LABEL] != spec.clusterRef
    ensures !WorkerFree(s, n, WorkerDeployment, spec)
  {
    hide WorkerPod;
    assert WorkerChild(WorkerDeployment, n, spec).selector[CLUSTER_LABEL] == spec.clusterRef;
  }

  lemma ReachableRun(w: World, actions: seq<Action>)
    requires Reachable(w)
    ensures Reachable(Run(w, actions))
  {
    var admission, before :| w == Run(Initial(admission), before);
    RunAppend(Initial(admission), before, actions);
  }

  // ---------------------------------------------------------------- a missing parent

  /** Nobody creates the parent, and users do not give the worker another. */
  predicate LeavesOrphaned(a: Action, n: Name, parent: string) {
    && !(a.OnCluster? && a.n == Name(n.ns, parent) && a.cdeed.Create?)
    && KeepsRef(a, n, Some(parent))
  }

  lemma UserCreatesOnly<S>(v: View<S>, m: Name, deed: Deed<S>, n: Name, finalizer: string)
    requires n !in v.crs && !(m == n && deed.Create?)
    ensures n !in UserDoes(v, m, deed, finalizer).crs
  {
  }

  lemma StepLeavesNoParent(w: World, a: Action, n: Name, parent: string)
    requires Name(n.ns, parent) !in w.store.clusters && LeavesOrphaned(a, n, parent)
    ensures Name(n.ns, parent) !in Apply(w, a).store.clusters
  {
    hide Serve, ServeWorker, UserDoes, ClusterResume, WorkerResume, ForeignWrite, ClusterRequest;
    if a.OnCluster? {
      UserCreatesOnly(ClusterView(w.store), a.n, a.cdeed, Name(n.ns, parent), OJS_FINALIZER);
    } else if a.ClusterCall? {
      if a.n in w.clusterProcs {
        var p := w.clusterProcs[a.n];
        ServeKeepsSpecs(ClusterView(w.store), a.n, ClusterRequest(a.n, p), ClusterAdmits(w, p));
      }
    } else {
      assert Apply(w, a).store.clusters == w.store.clusters by { ForeignKeepsCrs(w.store, a); }
    }
  }

  /** The worker's reconcile, if one is in flight, is not past looking for its parent. */
  predicate BeforeChildren(w: World, n: Name) {
    n in w.workerProcs && w.workerProcs[n].Active? ==>
      var pc := w.workerProcs[n].pc; pc.DropFinalizer? || pc.AddFinalizer? || pc.ReadParent? || pc.ReportOrphan?
  }

  lemma StepStaysBeforeChildren(w: World, a: Action, n: Name, parent: string)
    requires Orphaned(w, n, parent)
    ensures BeforeChildren(Apply(w, a), n)
  {
    if a.WorkerCall? && a.n == n {
      if n in w.workerProcs { OrphanStep(w, n, a.outcome, parent); }
    } else if n in w.workerProcs && n in Apply(w, a).workerProcs {
      OthersLeaveWorkerProc(w, a, n);
    } else {
      hide Serve, ServeWorker, ClusterResume, WorkerResume, ForeignWrite, UserDoes;
    }
  }

  lemma OthersLeaveWorkerProc(w: World, a: Action, n: Name)
    requires n in w.workerProcs && n in Apply(w, a).workerProcs && !(a.WorkerCall? && a.n == n)
    ensures Apply(w, a).workerProcs[n] == w.workerProcs[n]
  {
    hide Serve, ServeWorker, ClusterResume, WorkerResume, ForeignWrite, UserDoes;
  }

  lemma {:induction false} RunStaysOrphaned(w: World, actions: seq<Action>, n: Name, parent: string)
    requires Orphaned(w, n, parent) && forall a <- actions :: LeavesOrphaned(a, n, parent)
    ensures Orphaned(Run(w, actions), n, parent)
    decreases |actions|
  {
    hide Apply, LeavesOrphaned;
    if actions != [] {
      StepStaysOrphaned(w, actions[0], n, parent);
      RunStaysOrphaned(Apply(w, actions[0]), actions[1..], n, parent);
    }
  }

  lemma StepStaysOrphaned(w: World, a: Action, n: Name, parent: string)
    requires Orphaned(w, n, parent) && LeavesOrphaned(a, n, parent)
    ensures Orphaned(Apply(w, a), n, parent)
  {
    hide Apply;
    StepLeavesNoParent(w, a, n, parent);
    StepKeepsRef(w, a, n, Some(parent));
    StepStaysBeforeChildren(w, a, n, parent);
  }

  /**
   While the parent stays away a worker's reconciles write no child at all: at every moment of every
   history the call in flight is no child write, and however it ends it changes no child.
   */
  lemma OrphansWriteNoChild(w: World, actions: seq<Action>, n: Name, outcome: Outcome)
    requires n in w.store.workers && n !in w.workerProcs && !HasParent(w, n, w.store.workers[n].spec)
    requires forall a <- actions :: LeavesOrphaned(a, n, w.store.workers[n].spec.clusterRef)
    ensures var w' := Run(w, actions);
      n in w'.workerProcs ==>
        && !WritesChild(WorkerRequest(n, w'.workerProcs[n]))
        && Apply(w', WorkerCall(n, outcome)).store.children == w'.store.children
  {
    var parent, w' := w.store.workers[n].spec.clusterRef, Run(w, actions);
    RunStaysOrphaned(w, actions, n, parent);
    if n in w'.workerProcs {
      OrphanStep(w', n, outcome, parent);
      hide WorkerChild, WorkerStep;
    }
  }

  // ---------------------------------------------------------------- two witnesses

  const EAST := Name("jobs", "east")
  const WEST := Name("jobs", "west")
  const MAILER := Name("jobs", "mailer")
  const CLUSTER_SPEC := ClusterSpec(
    Backend("redis", "redis://there:6379", None, false), None, "", None, Resources(None, None), None, None, None, [], "")
  const WORKER_SPEC := WorkerSpec("east", ["mail.send"], [], 0, None, "mailer:1", [], [], Resources(None, None), None, None)

  /** Two clusters, and a worker that has not been reconciled yet, all admitted. */
  function Beginnings(): World {
    Apply(Apply(Apply(Initial(true), OnCluster(EAST, Deed.Create(CLUSTER_SPEC, {}))),
                OnCluster(WEST, Deed.Create(CLUSTER_SPEC, {}))),
          OnWorker(MAILER, Deed.Create(WORKER_SPEC, {})))
  }

  lemma SpecsAreAdmitted()
    ensures ValidateCluster(CLUSTER_SPEC).None? && ValidateWorker(WORKER_SPEC).None?
    ensures ValidateWorker(WORKER_SPEC.(clusterRef := "west")).None?
  {
    assert "mail.send"[0] == 'm' && "" !in ["mail.send"];
  }

  lemma StepIsReachable(w: World, a: Action)
    requires Reachable(w)
    ensures Reachable(Apply(w, a))
  {
    hide Apply, Reachable;
    OneAction(w, a);
    ReachableRun(w, [a]);
  }

  lemma BeginningsReached()
    ensures Reachable(Beginnings())
  {
    assert Reachable(Initial(true)) by { assert Initial(true) == Run(Initial(true), []); }
    hide Apply, Reachable;
    var w1 := Apply(Initial(true), OnCluster(EAST, Deed.Create(CLUSTER_SPEC, {})));
    StepIsReachable(Initial(true), OnCluster(EAST, Deed.Create(CLUSTER_SPEC, {})));
    StepIsReachable(w1, OnCluster(WEST, Deed.Create(CLUSTER_SPEC, {})));
    StepIsReachable(Apply(w1, OnCluster(WEST, Deed.Create(CLUSTER_SPEC, {}))), OnWorker(MAILER, Deed.Create(WORKER_SPEC, {})));
  }

  lemma BeginningsStore()
    ensures var w := Beginnings();
      && EAST in w.store.clusters && WEST in w.store.clusters && w.store.workers.Keys == {MAILER}
      && w.store.workers[MAILER].spec == WORKER_SPEC && !w.store.workers[MAILER].deleting
      && w.store.children == map[] && w.workerProcs == map[]
  {
    hide ValidateCluster, ValidateWorker;
    SpecsAreAdmitted();
    assert "east"[0] == 'e' && "west"[0] == 'w';
  }

  const FOREIGN := Controller(ByOther, "somebody", 0)

  /** A reachable world in which a reconcile deletes an autoscaler somebody else controls. */
  lemma ForeignAutoscalerIsDeleted() returns (w: World)
    ensures Reachable(w) && MAILER in w.store.workers && MAILER !in w.workerProcs
    ensures var key := WorkerChildKey(Autoscaler, MAILER);
      && key in w.store.children && w.store.children[key].controller == Some(FOREIGN)
      && key !in ReconcileWorker(w, MAILER).store.children
  {
    var key := WorkerChildKey(Autoscaler, MAILER);
    var create := ForeignCreatesChild(key, Some(FOREIGN), AutoscalerFields(map[], "web", 1, 3, 50), Unmanaged(0, 0, 0));
    BeginningsReached();
    BeginningsStore();
    StepIsReachable(Beginnings(), create);
    w := Apply(Beginnings(), create);
    hide Beginnings, Reachable, ReconcileWorker, WorkerFree;
    WorkerChildNamesNeverCollide(WorkerDeployment, MAILER, Autoscaler, MAILER);
    AbsentIsFree(w.store, MAILER, WorkerDeployment, WORKER_SPEC);
    ForeignAutoscalerFate(w, MAILER);
  }

  /** A reachable world with a worker that an admitted edit of clusterRef would leave stuck. */
  lemma RetargetableWorker() returns (w: World)
    ensures Reachable(w) && MAILER in w.store.workers && MAILER !in w.workerProcs && !w.store.workers[MAILER].deleting
    ensures Converged(w.store, MAILER, w.store.workers[MAILER].uid, w.store.workers[MAILER].spec)
    ensures "west" != w.store.workers[MAILER].spec.clusterRef && Name(MAILER.ns, "west") in w.store.clusters
    ensures ValidateWorker(w.store.workers[MAILER].spec.(clusterRef := "west")).None?
  {
    var start := Beginnings();
    BeginningsReached();
    BeginningsStore();
    SpecsAreAdmitted();
    hide Beginnings, Reachable, WorkerFree, Converged, FinishWorker, DriveWorker;
    UndisturbedDriveWorkerFinishes(Apply(start, StartWorker(MAILER)), MAILER);
    DrivenWorkerReconcileIsReachable(start, [], MAILER);
    w := ReconcileWorker(start, MAILER);
    AbsentIsFree(start.store, MAILER, WorkerDeployment, WORKER_SPEC);
    ConvergedWorkerStaysConverged(start, MAILER);
    WorkerConverges(start, MAILER);
    assert "west"[0] == 'w' && "east"[0] == 'e';
  }
}
