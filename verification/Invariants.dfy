/**
 The inductive invariant of the whole system.  Everything an in-flight reconcile remembers about
 the store is either still true or recognisably out of date by its resource version, and from the
 moment the finalizer is in place the resource stays in the store under the same uid.
 */
module Invariants {
  import opened OjsTypes
  import opened Payloads
  import opened ApiServer
  import opened ClusterMachine
  import opened WorkerMachine
  import opened Observation
  import opened Webhook
  import opened Operator

  // ---------------------------------------------------------------- the store

  predicate CrOk<S>(v: View<S>, cr: Cr<S>) {
    cr.uid < v.nextUid && cr.rv < v.nextRv && (cr.deleting ==> cr.finalizers != {})
  }

  predicate ChildOk<S>(v: View<S>, c: Child) {
    c.uid < v.nextUid && c.rv < v.nextRv
    && (c.controller.Some? && !c.controller.value.kind.ByOther? ==> c.controller.value.uid < v.nextUid)
  }

  ghost predicate ViewOk<S>(v: View<S>) {
    && (forall n :: n in v.crs ==> CrOk(v, v.crs[n]))
    && (forall k :: k in v.children ==> ChildOk(v, v.children[k]))
  }

  ghost predicate StoreOk(s: Store) {
    ViewOk(ClusterView(s)) && ViewOk(WorkerView(s))
  }

  // ---------------------------------------------------------------- what a reconcile remembers

  /** A remembered resource: if its version is still the stored one, so is everything else. */
  predicate HeldCr<S(==)>(v: View<S>, n: Name, cr: Cr<S>) {
    cr.uid < v.nextUid && cr.rv < v.nextRv && (n in v.crs && v.crs[n].rv == cr.rv ==> v.crs[n] == cr)
  }

  predicate HeldChild<S>(v: View<S>, key: ChildKey, c: Child) {
    c.uid < v.nextUid && c.rv < v.nextRv && (key in v.children && v.children[key].rv == c.rv ==> v.children[key] == c)
  }

  /** The resource is in the store, is the one remembered, and holds the operator's finalizer. */
  predicate Anchored<S(==)>(v: View<S>, n: Name, base: Cr<S>, finalizer: string) {
    && n in v.crs
    && v.crs[n].uid == base.uid
    && finalizer in v.crs[n].finalizers
    && v.crs[n].status == base.status
    && base.gen <= v.crs[n].gen
    && finalizer in base.finalizers
    && !base.deleting
  }

  /** Past the finalizer, and before the reconcile lets go of it. */
  predicate ClusterGuarded(pc: ClusterPc) { !pc.DropFinalizer? && !pc.AddFinalizer? }

  predicate WorkerGuarded(pc: WorkerPc) { !pc.DropFinalizer? && !pc.AddFinalizer? }

  predicate ClusterProcOk(v: View<ClusterSpec>, n: Name, p: ClusterProc) {
    p.Active? ==>
      && HeldCr(v, n, p.base)
      && (p.pc.DropFinalizer? ==> p.base.deleting)
      && (p.pc.AddFinalizer? ==> !p.base.deleting)
      && (ClusterGuarded(p.pc) ==> Anchored(v, n, p.base, OJS_FINALIZER))
      && (p.pc.Write? && p.pc.found.Some? ==>
            && HeldChild(v, ClusterChildKey(p.pc.slot, n), p.pc.found.value)
            && !ControlledByOther(p.pc.found.value, ByCluster, n.name))
  }

  predicate WorkerProcOk(v: View<WorkerSpec>, n: Name, p: WorkerProc) {
    p.Active? ==>
      && HeldCr(v, n, p.base)
      && (p.pc.DropFinalizer? ==> p.base.deleting)
      && (p.pc.AddFinalizer? ==> !p.base.deleting)
      && (WorkerGuarded(p.pc) ==> Anchored(v, n, p.base, WORKER_FINALIZER))
      && (p.pc.Write? && p.pc.found.Some? ==>
            && HeldChild(v, WorkerChildKey(p.pc.slot, n), p.pc.found.value)
            && !ControlledByOther(p.pc.found.value, ByWorker, n.name))
  }

  ghost predicate Inv(w: World) {
    && StoreOk(w.store)
    && (forall n :: n in w.clusterProcs ==> ClusterProcOk(ClusterView(w.store), n, w.clusterProcs[n]))
    && (forall n :: n in w.workerProcs ==> WorkerProcOk(WorkerView(w.store), n, w.workerProcs[n]))
  }

  // ---------------------------------------------------------------- how a step may change the store

  /** Whatever is new or different carries a fresh resource version. */
  ghost predicate Evolves<S>(v: View<S>, v': View<S>) {
    && v.nextUid <= v'.nextUid && v.nextRv <= v'.nextRv
    && (forall n :: n in v'.crs ==> v'.crs[n].rv >= v.nextRv || (n in v.crs && v'.crs[n] == v.crs[n]))
    && (forall k :: k in v'.children ==>
          v'.children[k].rv >= v.nextRv || (k in v.children && v'.children[k] == v.children[k]))
    && (forall k :: k in v'.children ==>
          v'.children[k].uid >= v.nextUid || (k in v.children && v'.children[k].uid == v.children[k].uid))
  }

  /** Only the operator takes its finalizer away or writes the status; generations only grow. */
  predicate Respects<S(==)>(v: View<S>, v': View<S>, n: Name, finalizer: string) {
    n in v.crs && finalizer in v.crs[n].finalizers ==>
      && n in v'.crs
      && v'.crs[n].uid == v.crs[n].uid
      && finalizer in v'.crs[n].finalizers
      && v'.crs[n].status == v.crs[n].status
      && v.crs[n].gen <= v'.crs[n].gen
  }

  /** Nobody but its own reconcile writes a resource's status; a uid is never used twice. */
  predicate Untouched<S(==)>(v: View<S>, v': View<S>, n: Name) {
    n in v'.crs ==>
      || (v'.crs[n].uid >= v.nextUid && v'.crs[n].status == NO_STATUS)
      || (&& n in v.crs && v'.crs[n].uid == v.crs[n].uid && v'.crs[n].status == v.crs[n].status
          && v.crs[n].gen <= v'.crs[n].gen)
  }

  lemma ClusterMemoryKept(v: View<ClusterSpec>, v': View<ClusterSpec>, n: Name, p: ClusterProc)
    requires ClusterProcOk(v, n, p) && Evolves(v, v') && Respects(v, v', n, OJS_FINALIZER)
    ensures ClusterProcOk(v', n, p)
  {
  }

  lemma WorkerMemoryKept(v: View<WorkerSpec>, v': View<WorkerSpec>, n: Name, p: WorkerProc)
    requires WorkerProcOk(v, n, p) && Evolves(v, v') && Respects(v, v', n, WORKER_FINALIZER)
    ensures WorkerProcOk(v', n, p)
  {
  }

  // ---------------------------------------------------------------- requests

  lemma ServeKeepsView<S>(v: View<S>, n: Name, req: Request<S>, admitted: bool)
    requires ViewOk(v)
    requires req.CreateChild? || req.UpdateChild? ==> req.controller.uid < v.nextUid
    ensures ViewOk(Serve(v, n, req, admitted).view) && Evolves(v, Serve(v, n, req, admitted).view)
  {
  }

  lemma ServeLeavesOthers<S>(v: View<S>, n: Name, req: Request<S>, admitted: bool, finalizer: string)
    ensures var v' := Serve(v, n, req, admitted).view;
      && (forall m :: m != n ==> Respects(v, v', m, finalizer) && Untouched(v, v', m))
      && (req.GetChild? || req.CreateChild? || req.UpdateChild? || req.DeleteChild? || req.GetSelf? ==> v'.crs == v.crs)
  {
  }

  lemma ServeEvolves<S>(v: View<S>, n: Name, req: Request<S>, admitted: bool, finalizer: string)
    requires ViewOk(v)
    requires req.CreateChild? || req.UpdateChild? ==> req.controller.uid < v.nextUid
    ensures var v' := Serve(v, n, req, admitted).view;
      && ViewOk(v') && Evolves(v, v')
      && (forall m :: m != n ==> Respects(v, v', m, finalizer) && Untouched(v, v', m))
      && (req.GetChild? || req.CreateChild? || req.UpdateChild? || req.DeleteChild? || req.GetSelf? ==> v'.crs == v.crs)
  {
    hide Serve, ViewOk, Evolves, Respects, Untouched;
    ServeKeepsView(v, n, req, admitted);
    ServeLeavesOthers(v, n, req, admitted, finalizer);
  }

  /** What a user may do to the resources of one kind. */
  ghost predicate UserChange<S>(v: View<S>, v': View<S>, finalizer: string) {
    && ViewOk(v') && Evolves(v, v') && v'.children == v.children
    && (forall m :: Respects(v, v', m, finalizer) && Untouched(v, v', m))
  }

  lemma UserSaves<S>(v: View<S>, n: Name, saved: Cr<S>, finalizer: string)
    requires ViewOk(v) && n in v.crs
    requires saved.uid == v.crs[n].uid && saved.rv == v.crs[n].rv && saved.status == v.crs[n].status
    requires v.crs[n].gen <= saved.gen
    requires finalizer in v.crs[n].finalizers ==> finalizer in saved.finalizers
    ensures UserChange(v, SaveCr(v, n, saved).view, finalizer)
  {
  }

  lemma UserActs<S>(v: View<S>, n: Name, deed: Deed<S>, finalizer: string)
    requires ViewOk(v)
    ensures UserChange(v, UserDoes(v, n, deed, finalizer), finalizer)
  {
    if n in v.crs {
      var cr := v.crs[n];
      match deed
      case Create(_, _) =>
      case Edit(spec) => UserSaves(v, n, cr.(spec := spec, gen := cr.gen + 1), finalizer);
      case Delete => UserSaves(v, n, cr.(deleting := true, gen := cr.gen + 1), finalizer);
      case SetFinalizers(finalizers) =>
        if (finalizer in finalizers) == (finalizer in cr.finalizers) {
          UserSaves(v, n, cr.(finalizers := finalizers), finalizer);
        }
    }
  }

  lemma ForeignKeepsStore(s: Store, a: Action)
    requires StoreOk(s)
    requires a.ForeignCreatesChild? || a.ForeignEditsChild? || a.ForeignDeletesChild? || a.Collect?
    ensures var s' := ForeignWrite(s, a); StoreOk(s') && s'.clusters == s.clusters && s'.workers == s.workers
  {
  }

  lemma ForeignEvolves(s: Store, a: Action)
    requires StoreOk(s)
    requires a.ForeignCreatesChild? || a.ForeignEditsChild? || a.ForeignDeletesChild? || a.Collect?
    ensures var s' := ForeignWrite(s, a);
      && StoreOk(s') && s'.clusters == s.clusters && s'.workers == s.workers
      && Evolves(ClusterView(s), ClusterView(s')) && Evolves(WorkerView(s), WorkerView(s'))
  {
    ForeignKeepsStore(s, a);
    hide StoreOk;
  }

  // ---------------------------------------------------------------- a cluster reconcile's own step

  predicate ClusterTurnOk(v: View<ClusterSpec>, n: Name, turn: ClusterTurn) {
    turn.next.Some? ==> ClusterProcOk(v, n, turn.next.value)
  }

  lemma ClusterFetchedOk(v: View<ClusterSpec>, n: Name, now: nat)
    requires ViewOk(v) && n in v.crs
    ensures ClusterTurnOk(v, n, ClusterFetched(n, v.crs[n], now))
  {
  }

  lemma ClusterChildTurnOk(v: View<ClusterSpec>, n: Name, base: Cr<ClusterSpec>, status: Status, slot: ClusterSlot, now: nat)
    requires HeldCr(v, n, base) && Anchored(v, n, base, OJS_FINALIZER)
    ensures ClusterTurnOk(v, n, ClusterSlotDone(base, status, slot, now))
    ensures ClusterTurnOk(v, n, ClusterSlotFailed(n, base, status, slot, now))
  {
  }

  /** The resource is untouched while a reconcile talks about its children. */
  lemma ClusterChildCallOk(v: View<ClusterSpec>, n: Name, p: ClusterProc, admitted: bool, v': View<ClusterSpec>,
                           reply: Reply<ClusterSpec>, now: nat)
    requires ViewOk(v) && ClusterProcOk(v, n, p)
    requires p.Active? && (p.pc.Read? || p.pc.Write? || p.pc.ReadServer?)
    requires var served := Serve(v, n, ClusterRequest(n, p), admitted);
      (v' == v || v' == served.view) && (reply == Failed || (v' == served.view && reply == served.reply))
    ensures ClusterTurnOk(v', n, ClusterResume(n, p, reply, now))
  {
    hide ClusterChild, SetCondition, Observe, ClusterSlotDone, ClusterSlotFailed;
    ServeEvolves(v, n, ClusterRequest(n, p), admitted, OJS_FINALIZER);
    if !p.pc.ReadServer? {
      ClusterChildTurnOk(v', n, p.base, p.status, p.pc.slot, now);
    }
  }

  /** Reading or writing the resource itself. */
  lemma ClusterSelfCallOk(v: View<ClusterSpec>, n: Name, p: ClusterProc, admitted: bool, v': View<ClusterSpec>,
                          reply: Reply<ClusterSpec>, now: nat)
    requires ViewOk(v) && ClusterProcOk(v, n, p)
    requires p.Starting? || !(p.pc.Read? || p.pc.Write? || p.pc.ReadServer?)
    requires var served := Serve(v, n, ClusterRequest(n, p), admitted);
      (v' == v || v' == served.view) && (reply == Failed || (v' == served.view && reply == served.reply))
    ensures ClusterTurnOk(v', n, ClusterResume(n, p, reply, now))
  {
    hide ClusterChild, SetCondition, Observe;
    ServeEvolves(v, n, ClusterRequest(n, p), admitted, OJS_FINALIZER);
    if reply.GotCr? && !(p.Active? && p.pc.DropFinalizer?) {
      assert n in v'.crs && reply.cr == v'.crs[n];
      ClusterFetchedOk(v', n, now);
    }
  }

  lemma ClusterOwnStep(w: World, n: Name, outcome: Outcome)
    requires Inv(w) && n in w.clusterProcs
    ensures var w' := ClusterStep(w, n, outcome);
      n in w'.clusterProcs ==> ClusterProcOk(ClusterView(w'.store), n, w'.clusterProcs[n])
  {
    var p, v := w.clusterProcs[n], ClusterView(w.store);
    var served := ClusterServed(w, n);
    var v' := if outcome.Dropped? then v else served.view;
    var reply := if outcome.Delivered? then served.reply else Failed;
    if p.Starting? || !(p.pc.Read? || p.pc.Write? || p.pc.ReadServer?) {
      ClusterSelfCallOk(v, n, p, ClusterAdmits(w, p), v', reply, w.now);
    } else {
      ClusterChildCallOk(v, n, p, ClusterAdmits(w, p), v', reply, w.now);
    }
  }

  // ---------------------------------------------------------------- a worker reconcile's own step

  predicate WorkerTurnOk(v: View<WorkerSpec>, n: Name, turn: WorkerTurn) {
    turn.next.Some? ==> WorkerProcOk(v, n, turn.next.value)
  }

  /** The answers a worker reconcile can get: to its own requests, or about its parent. */
  predicate WorkerAnswer(v: View<WorkerSpec>, n: Name, p: WorkerProc, admitted: bool, v': View<WorkerSpec>,
                         reply: Reply<WorkerSpec>) {
    var req := WorkerRequest(n, p);
    if req.GetCluster? then v' == v && reply in {Accepted, NotFound, Failed}
    else
      var served := Serve(v, n, req, admitted);
      (v' == v || v' == served.view) && (reply == Failed || (v' == served.view && reply == served.reply))
  }

  lemma WorkerChildCallOk(v: View<WorkerSpec>, n: Name, p: WorkerProc, admitted: bool, v': View<WorkerSpec>,
                          reply: Reply<WorkerSpec>, now: nat)
    requires ViewOk(v) && WorkerProcOk(v, n, p)
    requires p.Active? && WorkerGuarded(p.pc) && !p.pc.ReportOrphan? && !p.pc.WriteStatus?
    requires WorkerAnswer(v, n, p, admitted, v', reply)
    ensures WorkerTurnOk(v', n, WorkerResume(n, p, reply, now))
  {
    hide WorkerChild, Observe, SetCondition;
    if !p.pc.ReadParent? {
      ServeEvolves(v, n, WorkerRequest(n, p), admitted, WORKER_FINALIZER);
    }
  }

  lemma WorkerSelfCallOk(v: View<WorkerSpec>, n: Name, p: WorkerProc, admitted: bool, v': View<WorkerSpec>,
                         reply: Reply<WorkerSpec>, now: nat)
    requires ViewOk(v) && WorkerProcOk(v, n, p)
    requires p.Starting? || !WorkerGuarded(p.pc) || p.pc.ReportOrphan? || p.pc.WriteStatus?
    requires WorkerAnswer(v, n, p, admitted, v', reply)
    ensures WorkerTurnOk(v', n, WorkerResume(n, p, reply, now))
  {
    ServeEvolves(v, n, WorkerRequest(n, p), admitted, WORKER_FINALIZER);
  }

  lemma WorkerOwnStep(w: World, n: Name, outcome: Outcome)
    requires Inv(w) && n in w.workerProcs
    ensures var w' := WorkerStep(w, n, outcome);
      n in w'.workerProcs ==> WorkerProcOk(WorkerView(w'.store), n, w'.workerProcs[n])
  {
    var p, v := w.workerProcs[n], WorkerView(w.store);
    var served := WorkerServed(w, n);
    var v' := if outcome.Dropped? then v else served.view;
    var reply := if outcome.Delivered? then served.reply else Failed;
    if p.Starting? || !WorkerGuarded(p.pc) || p.pc.ReportOrphan? || p.pc.WriteStatus? {
      WorkerSelfCallOk(v, n, p, WorkerAdmits(w, p), v', reply, w.now);
    } else {
      WorkerChildCallOk(v, n, p, WorkerAdmits(w, p), v', reply, w.now);
    }
  }

  // ---------------------------------------------------------------- every step

  /** A step of somebody else leaves what the reconciles remember in order. */
  lemma StoreChangeKeepsInv(w: World, s': Store)
    requires Inv(w) && StoreOk(s')
    requires Evolves(ClusterView(w.store), ClusterView(s')) && Evolves(WorkerView(w.store), WorkerView(s'))
    requires forall m :: Respects(ClusterView(w.store), ClusterView(s'), m, OJS_FINALIZER)
    requires forall m :: Respects(WorkerView(w.store), WorkerView(s'), m, WORKER_FINALIZER)
    ensures Inv(w.(store := s'))
  {
    forall n | n in w.clusterProcs ensures ClusterProcOk(ClusterView(s'), n, w.clusterProcs[n]) {
      ClusterMemoryKept(ClusterView(w.store), ClusterView(s'), n, w.clusterProcs[n]);
    }
    forall n | n in w.workerProcs ensures WorkerProcOk(WorkerView(s'), n, w.workerProcs[n]) {
      WorkerMemoryKept(WorkerView(w.store), WorkerView(s'), n, w.workerProcs[n]);
    }
  }

  lemma ClusterStepKeepsInv(w: World, n: Name, outcome: Outcome)
    requires Inv(w) && n in w.clusterProcs
    ensures Inv(ClusterStep(w, n, outcome))
  {
    var w', v, p := ClusterStep(w, n, outcome), ClusterView(w.store), w.clusterProcs[n];
    var v' := ClusterView(w'.store);
    assert ClusterProcOk(v, n, p);
    ServeEvolves(v, n, ClusterRequest(n, p), ClusterAdmits(w, p), OJS_FINALIZER);
    ClusterOwnStep(w, n, outcome);
    forall m | m in w'.clusterProcs ensures ClusterProcOk(v', m, w'.clusterProcs[m]) {
      if m != n { ClusterMemoryKept(v, v', m, w.clusterProcs[m]); }
    }
    forall m | m in w'.workerProcs ensures WorkerProcOk(WorkerView(w'.store), m, w'.workerProcs[m]) {
      WorkerMemoryKept(WorkerView(w.store), WorkerView(w'.store), m, w.workerProcs[m]);
    }
  }

  lemma WorkerStepKeepsInv(w: World, n: Name, outcome: Outcome)
    requires Inv(w) && n in w.workerProcs
    ensures Inv(WorkerStep(w, n, outcome))
  {
    var w', v, p := WorkerStep(w, n, outcome), WorkerView(w.store), w.workerProcs[n];
    var v' := WorkerView(w'.store);
    assert WorkerProcOk(v, n, p);
    if !WorkerRequest(n, p).GetCluster? {
      ServeEvolves(v, n, WorkerRequest(n, p), WorkerAdmits(w, p), WORKER_FINALIZER);
    }
    WorkerOwnStep(w, n, outcome);
    forall m | m in w'.workerProcs ensures WorkerProcOk(v', m, w'.workerProcs[m]) {
      if m != n { WorkerMemoryKept(v, v', m, w.workerProcs[m]); }
    }
    forall m | m in w'.clusterProcs ensures ClusterProcOk(ClusterView(w'.store), m, w'.clusterProcs[m]) {
      ClusterMemoryKept(ClusterView(w.store), ClusterView(w'.store), m, w.clusterProcs[m]);
    }
  }

  lemma UserStepKeepsInv(w: World, a: Action)
    requires Inv(w) && (a.OnCluster? || a.OnWorker?)
    ensures Inv(Apply(w, a))
  {
    hide UserDoes, ValidateCluster, ValidateWorker;
    if a.OnCluster? {
      UserActs(ClusterView(w.store), a.n, a.cdeed, OJS_FINALIZER);
    } else {
      UserActs(WorkerView(w.store), a.n, a.wdeed, WORKER_FINALIZER);
    }
    if Apply(w, a) != w { StoreChangeKeepsInv(w, Apply(w, a).store); }
  }

  lemma ForeignStepKeepsInv(w: World, a: Action)
    requires Inv(w) && (a.ForeignCreatesChild? || a.ForeignEditsChild? || a.ForeignDeletesChild? || a.Collect?)
    ensures Inv(Apply(w, a))
  {
    hide ForeignWrite;
    ForeignEvolves(w.store, a);
    StoreChangeKeepsInv(w, Apply(w, a).store);
  }

  lemma StepKeepsInv(w: World, a: Action)
    requires Inv(w)
    ensures Inv(Apply(w, a))
  {
    hide ClusterStep, WorkerStep, ClusterProcOk, WorkerProcOk, StoreOk;
    match a
    case OnCluster(_, _) => UserStepKeepsInv(w, a);
    case OnWorker(_, _) => UserStepKeepsInv(w, a);
    case ForeignCreatesChild(_, _, _, _) => ForeignStepKeepsInv(w, a);
    case ForeignEditsChild(_, _, _) => ForeignStepKeepsInv(w, a);
    case ForeignDeletesChild(_) => ForeignStepKeepsInv(w, a);
    case Collect(_) => ForeignStepKeepsInv(w, a);
    case ClusterCall(n, outcome) => if n in w.clusterProcs { ClusterStepKeepsInv(w, n, outcome); }
    case WorkerCall(n, outcome) => if n in w.workerProcs { WorkerStepKeepsInv(w, n, outcome); }
    case StartCluster(n) => StartingIsOk(w, n);
    case StartWorker(n) => StartingIsOk(w, n);
    case Tick(_) =>
    case Crash =>
  }

  /** A reconcile that has not read anything remembers nothing. */
  lemma StartingIsOk(w: World, n: Name)
    ensures ClusterProcOk(ClusterView(w.store), n, ClusterProc.Starting)
    ensures WorkerProcOk(WorkerView(w.store), n, WorkerProc.Starting)
  {
  }

  lemma {:induction false} RunKeepsInv(w: World, actions: seq<Action>)
    requires Inv(w)
    ensures Inv(Run(w, actions))
    decreases |actions|
  {
    if actions != [] {
      StepKeepsInv(w, actions[0]);
      RunKeepsInv(Apply(w, actions[0]), actions[1..]);
    }
  }

  /** Every reachable world satisfies the invariant. */
  lemma ReachableInv(w: World)
    requires Reachable(w)
    ensures Inv(w)
  {
    var admission, actions :| w == Run(Initial(admission), actions);
    RunKeepsInv(Initial(admission), actions);
  }

  lemma CallEvolves(w: World, a: Action)
    requires Inv(w) && (a.ClusterCall? || a.WorkerCall?)
    ensures Evolves(ClusterView(w.store), ClusterView(Apply(w, a).store))
  {
    hide Serve, ClusterResume, WorkerResume, ClusterChild, WorkerChild;
    if a.ClusterCall? && a.n in w.clusterProcs {
      var p := w.clusterProcs[a.n];
      assert ClusterProcOk(ClusterView(w.store), a.n, p);
      ServeEvolves(ClusterView(w.store), a.n, ClusterRequest(a.n, p), ClusterAdmits(w, p), OJS_FINALIZER);
    } else if a.WorkerCall? && a.n in w.workerProcs {
      var p := w.workerProcs[a.n];
      assert WorkerProcOk(WorkerView(w.store), a.n, p);
      if !WorkerRequest(a.n, p).GetCluster? {
        ServeEvolves(WorkerView(w.store), a.n, WorkerRequest(a.n, p), WorkerAdmits(w, p), WORKER_FINALIZER);
      }
    }
  }

  /** Every step, whoever takes it. */
  lemma StepEvolves(w: World, a: Action)
    requires Inv(w)
    ensures Evolves(ClusterView(w.store), ClusterView(Apply(w, a).store))
  {
    hide UserDoes, ForeignWrite, ClusterStep, WorkerStep, ValidateCluster, ValidateWorker;
    if a.OnCluster? {
      UserActs(ClusterView(w.store), a.n, a.cdeed, OJS_FINALIZER);
    } else if a.OnWorker? {
      UserActs(WorkerView(w.store), a.n, a.wdeed, WORKER_FINALIZER);
    } else if a.ClusterCall? || a.WorkerCall? {
      CallEvolves(w, a);
    } else if a.ForeignCreatesChild? || a.ForeignEditsChild? || a.ForeignDeletesChild? || a.Collect? {
      ForeignEvolves(w.store, a);
    }
  }

  /** A step that is not a call of cluster `n`'s own reconcile leaves the cluster as `Respects` and `Untouched` say. */
  lemma OthersLeaveCluster(w: World, a: Action, n: Name)
    requires Inv(w) && !(a.ClusterCall? && a.n == n)
    ensures var v, v' := ClusterView(w.store), ClusterView(Apply(w, a).store);
      Respects(v, v', n, OJS_FINALIZER) && Untouched(v, v', n)
  {
    if a.OnCluster? {
      UserActs(ClusterView(w.store), a.n, a.cdeed, OJS_FINALIZER);
    } else if a.ClusterCall? {
      if a.n in w.clusterProcs {
        var p := w.clusterProcs[a.n];
        assert ClusterProcOk(ClusterView(w.store), a.n, p);
        ServeEvolves(ClusterView(w.store), a.n, ClusterRequest(a.n, p), ClusterAdmits(w, p), OJS_FINALIZER);
      }
    } else {
      assert Apply(w, a).store.clusters == w.store.clusters;
    }
  }

  lemma OthersLeaveWorker(w: World, a: Action, n: Name)
    requires Inv(w) && !(a.WorkerCall? && a.n == n)
    ensures var v, v' := WorkerView(w.store), WorkerView(Apply(w, a).store);
      Respects(v, v', n, WORKER_FINALIZER) && Untouched(v, v', n)
  {
    if a.OnWorker? {
      UserActs(WorkerView(w.store), a.n, a.wdeed, WORKER_FINALIZER);
    } else if a.WorkerCall? {
      if a.n in w.workerProcs {
        var p := w.workerProcs[a.n];
        assert WorkerProcOk(WorkerView(w.store), a.n, p);
        if !WorkerRequest(a.n, p).GetCluster? {
          ServeEvolves(WorkerView(w.store), a.n, WorkerRequest(a.n, p), WorkerAdmits(w, p), WORKER_FINALIZER);
        }
      }
    } else {
      assert Apply(w, a).store.workers == w.store.workers;
    }
  }
}
