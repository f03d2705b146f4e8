/**
 Crash convergence of the worker controller, and what a reconcile does while the parent cluster is
 missing.
 */
module WorkerConvergence {
  import opened OjsTypes
  import opened Payloads
  import opened ApiServer
  import opened Events
  import opened Observation
  import opened WorkerMachine
  import opened Webhook
  import opened Operator
  import opened FinalizerSafety
  import opened Admission
  import opened ClusterConvergence

  // ---------------------------------------------------------------- an uninterrupted reconcile

  function WorkerRank(p: WorkerProc): nat {
    match p
    case Starting => 12
    case Active(pc, _, _) =>
      match pc
      case DropFinalizer => 1
      case AddFinalizer => 11
      case ReadParent => 10
      case ReportOrphan => 1
      case Read(slot) => if slot.WorkerDeployment? then 9 else 7
      case Write(slot, _) => if slot.WorkerDeployment? then 8 else 6
      case ReadStale => 5
      case DropStale => 4
      case ReadServer => 3
      case WriteStatus => 2
  }

  lemma WorkerResumeDescends(n: Name, p: WorkerProc, reply: Reply<WorkerSpec>, now: nat)
    ensures var turn := WorkerResume(n, p, reply, now); turn.next.Some? ==> WorkerRank(turn.next.value) < WorkerRank(p)
  {
    hide Observe, SetCondition, WorkerChild;
  }

  function NextWorker(w: World, n: Name): World
    requires n in w.workerProcs
  {
    WorkerStep(w, n, Delivered)
  }

  function FinishWorker(w: World, n: Name): World
    decreases if n in w.workerProcs then 1 + WorkerRank(w.workerProcs[n]) else 0
  {
    if n !in w.workerProcs then w
    else
      WorkerResumeDescends(n, w.workerProcs[n], WorkerServed(w, n).reply, w.now);
      FinishWorker(NextWorker(w, n), n)
  }

  function ReconcileWorker(w: World, n: Name): World {
    FinishWorker(Apply(w, StartWorker(n)), n)
  }

  lemma FinishWorkerNext(w: World, n: Name)
    requires n in w.workerProcs
    ensures FinishWorker(w, n) == FinishWorker(NextWorker(w, n), n)
  {
    hide NextWorker;
  }

  /** The uninterrupted reconcile sends no request that writes or deletes a child, not even one that would change nothing. */
  predicate WorkerSendsNoWrite(w: World, n: Name)
    decreases if n in w.workerProcs then 1 + WorkerRank(w.workerProcs[n]) else 0
  {
    n in w.workerProcs ==>
      && !WritesChild(WorkerRequest(n, w.workerProcs[n]))
      && (WorkerResumeDescends(n, w.workerProcs[n], WorkerServed(w, n).reply, w.now); WorkerSendsNoWrite(NextWorker(w, n), n))
  }

  lemma WorkerSendsNext(w: World, n: Name)
    requires n in w.workerProcs && !WritesChild(WorkerRequest(n, w.workerProcs[n]))
    ensures WorkerSendsNoWrite(NextWorker(w, n), n) ==> WorkerSendsNoWrite(w, n)
  {
    hide NextWorker;
  }

  // ---------------------------------------------------------------- what a child can be found like

  predicate WorkerFree(s: Store, n: Name, slot: WorkerSlot, spec: WorkerSpec) {
    var key := WorkerChildKey(slot, n);
    key in s.children ==>
      && !ControlledByOther(s.children[key], ByWorker, n.name)
      && SelectorAccepted(s.children[key].managed, WorkerChild(slot, n, spec))
  }

  predicate WorkerSettledAt(s: Store, n: Name, uid: nat, slot: WorkerSlot, spec: WorkerSpec) {
    var key := WorkerChildKey(slot, n);
    key in s.children && Settled(s.children[key], WorkerController(n, uid), WorkerChild(slot, n, spec))
  }

  predicate WorkerAt(w: World, n: Name, pc: WorkerPc, base: Cr<WorkerSpec>) {
    && n in w.workerProcs && w.workerProcs[n].Active?
    && w.workerProcs[n].pc == pc && w.workerProcs[n].base == base
    && n in w.store.workers && w.store.workers[n] == base
  }

  function WorkerPcAfter(slot: WorkerSlot, spec: WorkerSpec): WorkerPc {
    match slot
    case WorkerDeployment => if Autoscaled(spec) then WorkerPc.Read(Autoscaler) else WorkerPc.ReadStale
    case Autoscaler => WorkerPc.ReadServer
  }

  /** What no child call touches. */
  predicate SameButChildren(w: World, w': World) {
    w'.store.workers == w.store.workers && w'.store.clusters == w.store.clusters && w'.admission == w.admission
  }

  // ---------------------------------------------------------------- one child

  predicate WorkerWriting(w: World, n: Name) {
    n in w.workerProcs && w.workerProcs[n].Active? && w.workerProcs[n].pc.Write?
  }

  function VisitWorker(w: World, n: Name): World
    requires n in w.workerProcs
  {
    var w1 := NextWorker(w, n);
    if WorkerWriting(w1, n) then NextWorker(w1, n) else w1
  }

  lemma FinishWorkerVisits(w: World, n: Name)
    requires n in w.workerProcs
    ensures FinishWorker(w, n) == FinishWorker(VisitWorker(w, n), n)
  {
    hide NextWorker;
  }

  lemma WorkerReadCall(w: World, n: Name, base: Cr<WorkerSpec>, slot: WorkerSlot)
    requires WorkerAt(w, n, WorkerPc.Read(slot), base)
    ensures var w1, key := NextWorker(w, n), WorkerChildKey(slot, n);
      && w1.store == w.store && w1.admission == w.admission
      && if key !in w.store.children then WorkerAt(w1, n, WorkerPc.Write(slot, None), base)
         else if ControlledByOther(w.store.children[key], ByWorker, n.name) then n !in w1.workerProcs
         else if WorkerSettledAt(w.store, n, base.uid, slot, base.spec) then WorkerAt(w1, n, WorkerPcAfter(slot, base.spec), base)
         else WorkerAt(w1, n, WorkerPc.Write(slot, Some(w.store.children[key])), base)
  {
    hide WorkerChild, SetCondition;
  }

  lemma WorkerWriteCall(w: World, n: Name, base: Cr<WorkerSpec>, slot: WorkerSlot, found: Option<Child>)
    requires WorkerAt(w, n, WorkerPc.Write(slot, found), base)
    requires var key := WorkerChildKey(slot, n);
      if found.Some? then
        key in w.store.children && w.store.children[key] == found.value && !ControlledByOther(found.value, ByWorker, n.name)
      else key !in w.store.children
    ensures var w1, key := NextWorker(w, n), WorkerChildKey(slot, n);
      && SameButChildren(w, w1) && OnlyTouches(w.store.children, w1.store.children, key)
      && if WorkerFree(w.store, n, slot, base.spec) then
           WorkerSettledAt(w1.store, n, base.uid, slot, base.spec) && WorkerAt(w1, n, WorkerPcAfter(slot, base.spec), base)
         else w1.store.children == w.store.children && n !in w1.workerProcs
  {
    hide WorkerChild, SetCondition;
  }

  lemma VisitWorkerSettles(w: World, n: Name, base: Cr<WorkerSpec>, slot: WorkerSlot)
    requires WorkerAt(w, n, WorkerPc.Read(slot), base)
    ensures var w1, key := VisitWorker(w, n), WorkerChildKey(slot, n);
      && SameButChildren(w, w1) && OnlyTouches(w.store.children, w1.store.children, key)
      && (WorkerSettledAt(w.store, n, base.uid, slot, base.spec) ==> w1.store.children == w.store.children)
      && if WorkerFree(w.store, n, slot, base.spec) then
           WorkerSettledAt(w1.store, n, base.uid, slot, base.spec) && WorkerAt(w1, n, WorkerPcAfter(slot, base.spec), base)
         else w1.store.children == w.store.children && n !in w1.workerProcs
  {
    hide NextWorker, WorkerChild;
    WorkerReadCall(w, n, base, slot);
    var w1 := NextWorker(w, n);
    if WorkerWriting(w1, n) {
      var key := WorkerChildKey(slot, n);
      WorkerWriteCall(w1, n, base, slot, if key in w.store.children then Some(w.store.children[key]) else None);
    }
  }

  lemma StaleCall(w: World, n: Name, base: Cr<WorkerSpec>)
    requires WorkerAt(w, n, WorkerPc.ReadStale, base)
    ensures var w1 := NextWorker(w, n);
      && w1.store == w.store && w1.admission == w.admission
      && WorkerAt(w1, n, if WorkerChildKey(Autoscaler, n) in w.store.children then WorkerPc.DropStale else WorkerPc.ReadServer, base)
  {
    hide SetCondition, WorkerChild, Autoscaled;
  }

  lemma DropCall(w: World, n: Name, base: Cr<WorkerSpec>)
    requires WorkerAt(w, n, WorkerPc.DropStale, base) && WorkerChildKey(Autoscaler, n) in w.store.children
    ensures var w1 := NextWorker(w, n);
      && w1.store == w.store.(children := w.store.children - {WorkerChildKey(Autoscaler, n)}) && w1.admission == w.admission
      && WorkerAt(w1, n, WorkerPc.ReadServer, base)
  {
    hide SetCondition, WorkerChild, Autoscaled;
  }

  /** The autoscaler that is not wanted: looked up, and deleted if it is there, whoever controls it. */
  lemma PruneCalls(w: World, n: Name, base: Cr<WorkerSpec>) returns (w1: World)
    requires WorkerAt(w, n, WorkerPc.ReadStale, base)
    ensures FinishWorker(w, n) == FinishWorker(w1, n) && Pruned(w, w1, n, base)
  {
    hide NextWorker, FinishWorker;
    FinishWorkerNext(w, n);
    StaleCall(w, n, base);
    w1 := NextWorker(w, n);
    if WorkerChildKey(Autoscaler, n) in w.store.children {
      FinishWorkerNext(w1, n);
      DropCall(w1, n, base);
      w1 := NextWorker(w1, n);
    }
  }

  predicate Pruned(w: World, w1: World, n: Name, base: Cr<WorkerSpec>) {
    && WorkerAt(w1, n, WorkerPc.ReadServer, base) && SameButChildren(w, w1)
    && w1.store.children == w.store.children - {WorkerChildKey(Autoscaler, n)}
  }

  // ---------------------------------------------------------------- before and after the children

  predicate WorkerAdmissibleAt(w: World, n: Name) {
    n in w.store.workers && (w.admission ==> ValidateWorker(w.store.workers[n].spec).None?)
  }

  predicate WorkerBegun(w0: World, w: World, n: Name) {
    && n in w0.store.workers && n in w.store.workers
    && WorkerAt(w, n, WorkerPc.ReadParent, w.store.workers[n])
    && w.store.workers[n].spec == w0.store.workers[n].spec
    && w.store.workers[n].uid == w0.store.workers[n].uid
    && !w.store.workers[n].deleting
    && WORKER_FINALIZER in w.store.workers[n].finalizers
    && w.store.children == w0.store.children && w.store.clusters == w0.store.clusters && w.admission == w0.admission
  }

  lemma WorkerFetchCall(w: World, n: Name)
    requires n in w.workerProcs && w.workerProcs[n] == WorkerProc.Starting
    requires n in w.store.workers && !w.store.workers[n].deleting
    ensures var w1, cr := NextWorker(w, n), w.store.workers[n];
      && w1.store == w.store && w1.admission == w.admission
      && WorkerAt(w1, n, if WORKER_FINALIZER in cr.finalizers then WorkerPc.ReadParent else WorkerPc.AddFinalizer, cr)
  {
  }

  lemma WorkerFinalizerCall(w: World, n: Name, cr: Cr<WorkerSpec>)
    requires WorkerAt(w, n, WorkerPc.AddFinalizer, cr) && WorkerAdmissibleAt(w, n) && !cr.deleting
    ensures WorkerBegun(w, NextWorker(w, n), n)
  {
    hide ValidateWorker;
  }

  lemma WorkerBeginning(w: World, n: Name) returns (w': World)
    requires WorkerAdmissibleAt(w, n) && !w.store.workers[n].deleting && n !in w.workerProcs
    ensures WorkerBegun(w, w', n) && ReconcileWorker(w, n) == FinishWorker(w', n)
    ensures WorkerSendsNoWrite(w', n) ==> WorkerSendsNoWrite(Apply(w, StartWorker(n)), n)
  {
    hide NextWorker, ValidateWorker, WorkerSendsNoWrite;
    w' := Apply(w, StartWorker(n));
    WorkerFetchCall(w', n);
    FinishWorkerNext(w', n);
    WorkerSendsNext(w', n);
    w' := NextWorker(w', n);
    if WORKER_FINALIZER !in w'.store.workers[n].finalizers {
      WorkerFinalizerCall(w', n, w'.store.workers[n]);
      FinishWorkerNext(w', n);
      WorkerSendsNext(w', n);
      w' := NextWorker(w', n);
    }
  }

  predicate HasParent(w: World, n: Name, spec: WorkerSpec) {
    Name(n.ns, spec.clusterRef) in w.store.clusters
  }

  lemma ParentCall(w: World, n: Name, base: Cr<WorkerSpec>)
    requires WorkerAt(w, n, WorkerPc.ReadParent, base)
    ensures var w1 := NextWorker(w, n);
      && w1.store == w.store && w1.admission == w.admission
      && if HasParent(w, n, base.spec) then WorkerAt(w1, n, WorkerPc.Read(WorkerDeployment), base)
         else WorkerAt(w1, n, WorkerPc.ReportOrphan, base) && w1.workerProcs[n].status.phase == Error
  {
    hide SetCondition;
  }

  function WorkerPods(s: Store, n: Name): Option<Unmanaged> {
    var key := WorkerChildKey(WorkerDeployment, n);
    if key in s.children then Some(s.children[key].rest) else None
  }

  predicate WorkerEnded(w: World, w': World, n: Name, base: Cr<WorkerSpec>) {
    && n !in w'.workerProcs && n in w'.store.workers
    && w'.store.workers[n].spec == base.spec && w'.store.workers[n].uid == base.uid
    && w'.store.workers[n].deleting == base.deleting
    && w'.store.clusters == w.store.clusters && w'.store.children == w.store.children && w'.admission == w.admission
  }

  lemma WorkerStatusCall(w: World, n: Name, base: Cr<WorkerSpec>)
    requires WorkerAt(w, n, WorkerPc.WriteStatus, base) || WorkerAt(w, n, WorkerPc.ReportOrphan, base)
    requires WORKER_FINALIZER in base.finalizers
    ensures WorkerEnded(w, NextWorker(w, n), n, base) && NextWorker(w, n).store.workers[n].status == w.workerProcs[n].status
  {
    hide SetCondition;
  }

  lemma WorkerReadServerCall(w: World, n: Name, base: Cr<WorkerSpec>)
    requires WorkerAt(w, n, WorkerPc.ReadServer, base)
    ensures var w1 := NextWorker(w, n);
      && w1.store == w.store && w1.admission == w.admission && WorkerAt(w1, n, WorkerPc.WriteStatus, base)
      && Tells(w1.workerProcs[n].status, WorkerPods(w.store, n))
  {
    hide WorkerChild, Autoscaled, Observe;
    ObserveTells(w.workerProcs[n].status, WorkerPods(w.store, n), base.gen, w.now);
  }

  lemma WorkerEnding(w: World, n: Name, base: Cr<WorkerSpec>)
    requires WorkerAt(w, n, WorkerPc.ReadServer, base) && WORKER_FINALIZER in base.finalizers
    ensures WorkerEnded(w, FinishWorker(w, n), n, base) && Tells(FinishWorker(w, n).store.workers[n].status, WorkerPods(w.store, n))
    ensures WorkerSendsNoWrite(w, n)
  {
    hide NextWorker;
    WorkerReadServerCall(w, n, base);
    FinishWorkerNext(w, n);
    WorkerSendsNext(w, n);
    WorkerStatusCall(NextWorker(w, n), n, base);
    FinishWorkerNext(NextWorker(w, n), n);
    WorkerSendsNext(NextWorker(w, n), n);
  }

  // ---------------------------------------------------------------- convergence

  /** Nothing stands in the way of the children the spec asks for. */
  predicate Clear(s: Store, n: Name, spec: WorkerSpec) {
    WorkerFree(s, n, WorkerDeployment, spec) && (Autoscaled(spec) ==> WorkerFree(s, n, Autoscaler, spec))
  }

  /** The Deployment is as the spec says, and there is an autoscaler, as the spec says, exactly when it is enabled. */
  predicate Converged(s: Store, n: Name, uid: nat, spec: WorkerSpec) {
    && WorkerSettledAt(s, n, uid, WorkerDeployment, spec)
    && if Autoscaled(spec) then WorkerSettledAt(s, n, uid, Autoscaler, spec)
       else WorkerChildKey(Autoscaler, n) !in s.children
  }

  /** Only the worker's own two child names can have changed. */
  ghost predicate OnlyOwnNames(before: Children, after: Children, n: Name) {
    forall key | key != WorkerChildKey(WorkerDeployment, n) && key != WorkerChildKey(Autoscaler, n) :: SameAt(before, after, key)
  }

  lemma TouchingOtherName(s: Store, s': Store, n: Name, uid: nat, spec: WorkerSpec)
    requires OnlyTouches(s.children, s'.children, WorkerChildKey(WorkerDeployment, n))
    ensures WorkerFree(s, n, Autoscaler, spec) == WorkerFree(s', n, Autoscaler, spec)
    ensures WorkerSettledAt(s, n, uid, Autoscaler, spec) == WorkerSettledAt(s', n, uid, Autoscaler, spec)
    ensures SameAt(s.children, s'.children, WorkerChildKey(Autoscaler, n))
  {
    hide WorkerChild;
  }

  lemma TouchingAutoscaler(s: Store, s': Store, n: Name, uid: nat, spec: WorkerSpec)
    requires OnlyTouches(s.children, s'.children, WorkerChildKey(Autoscaler, n))
      || s'.children == s.children - {WorkerChildKey(Autoscaler, n)}
    ensures WorkerSettledAt(s, n, uid, WorkerDeployment, spec) == WorkerSettledAt(s', n, uid, WorkerDeployment, spec)
    ensures WorkerFree(s, n, WorkerDeployment, spec) == WorkerFree(s', n, WorkerDeployment, spec)
    ensures OnlyOwnNames(s.children, s'.children, n)
  {
    hide WorkerChild;
  }

  lemma SettledWorkerIsFree(s: Store, n: Name, uid: nat, slot: WorkerSlot, spec: WorkerSpec)
    ensures WorkerSettledAt(s, n, uid, slot, spec) ==> WorkerFree(s, n, slot, spec)
  {
    hide WorkerChild;
  }

  /** The rest of the reconcile once the Deployment is done. */
  lemma WalkAutoscaler(w: World, n: Name, base: Cr<WorkerSpec>) returns (w1: World)
    requires WorkerAt(w, n, WorkerPcAfter(WorkerDeployment, base.spec), base) && WORKER_FINALIZER in base.finalizers
    ensures SameButChildren(w, w1) && FinishWorker(w, n).store.children == w1.store.children
    ensures OnlyTouches(w.store.children, w1.store.children, WorkerChildKey(Autoscaler, n))
      || w1.store.children == w.store.children - {WorkerChildKey(Autoscaler, n)}
    ensures if !Autoscaled(base.spec) then WorkerChildKey(Autoscaler, n) !in w1.store.children
            else if WorkerFree(w.store, n, Autoscaler, base.spec) then WorkerSettledAt(w1.store, n, base.uid, Autoscaler, base.spec)
            else w1.store.children == w.store.children
    ensures Autoscaled(base.spec) && WorkerSettledAt(w.store, n, base.uid, Autoscaler, base.spec) ==>
      w1.store.children == w.store.children
    ensures !Autoscaled(base.spec) || WorkerFree(w.store, n, Autoscaler, base.spec) ==>
      WorkerEnded(w1, FinishWorker(w, n), n, base) && Tells(FinishWorker(w, n).store.workers[n].status, WorkerPods(w1.store, n))
  {
    hide WorkerChild, WorkerSettledAt, WorkerFree, FinishWorker, VisitWorker;
    if Autoscaled(base.spec) {
      FinishWorkerVisits(w, n);
      VisitWorkerSettles(w, n, base, Autoscaler);
      w1 := VisitWorker(w, n);
      if WorkerFree(w.store, n, Autoscaler, base.spec) {
        WorkerEnding(w1, n, base);
      } else {
        NoReconcileNoStep(w1, n);
      }
    } else {
      w1 := PruneCalls(w, n, base);
      WorkerEnding(w1, n, base);
    }
  }

  lemma NoReconcileNoStep(w: World, n: Name)
    requires n !in w.workerProcs
    ensures FinishWorker(w, n) == w
  {
  }

  lemma WorkerWalk(w: World, n: Name, base: Cr<WorkerSpec>)
    requires WorkerAt(w, n, WorkerPc.Read(WorkerDeployment), base) && WORKER_FINALIZER in base.finalizers
    ensures var w' := FinishWorker(w, n);
      && OnlyOwnNames(w.store.children, w'.store.children, n)
      && (Clear(w.store, n, base.spec) <==> Converged(w'.store, n, base.uid, base.spec))
      && (Converged(w.store, n, base.uid, base.spec) ==> w'.store.children == w.store.children)
      && (Clear(w.store, n, base.spec) ==>
            && n in w'.store.workers && w'.store.workers[n].spec == base.spec && w'.store.workers[n].uid == base.uid
            && w'.store.workers[n].deleting == base.deleting && w'.store.clusters == w.store.clusters
            && w'.admission == w.admission && n !in w'.workerProcs
            && Tells(w'.store.workers[n].status, WorkerPods(w'.store, n)))
  {
    hide WorkerChild, FinishWorker, VisitWorker, WorkerFree, WorkerSettledAt, Autoscaled;
    var spec, w1, w' := base.spec, VisitWorker(w, n), FinishWorker(w, n);
    FinishWorkerVisits(w, n);
    VisitWorkerSettles(w, n, base, WorkerDeployment);
    TouchingOtherName(w.store, w1.store, n, base.uid, spec);
    SettledWorkerIsFree(w'.store, n, base.uid, WorkerDeployment, spec);
    SettledWorkerIsFree(w'.store, n, base.uid, Autoscaler, spec);
    SettledWorkerIsFree(w.store, n, base.uid, WorkerDeployment, spec);
    SettledWorkerIsFree(w.store, n, base.uid, Autoscaler, spec);
    SameChildrenSameWorkerFreedom(w.store, w'.store, n, base.uid, spec);
    if WorkerFree(w.store, n, WorkerDeployment, spec) {
      var w2 := WalkAutoscaler(w1, n, base);
      TouchingAutoscaler(w1.store, w'.store, n, base.uid, spec);
      SameChildrenSameWorkerFreedom(w1.store, w'.store, n, base.uid, spec);
      SameChildrenSameWorkerFreedom(w2.store, w'.store, n, base.uid, spec);
    } else {
      NoReconcileNoStep(w1, n);
    }
  }

  lemma SameChildrenSameWorkerFreedom(s: Store, s': Store, n: Name, uid: nat, spec: WorkerSpec)
    ensures s'.children == s.children ==> forall slot: WorkerSlot ::
      WorkerFree(s, n, slot, spec) == WorkerFree(s', n, slot, spec)
      && WorkerSettledAt(s, n, uid, slot, spec) == WorkerSettledAt(s', n, uid, slot, spec)
  {
    hide WorkerChild;
  }

  lemma FromTheStart(w: World, n: Name) returns (w1: World)
    requires WorkerAdmissibleAt(w, n) && !w.store.workers[n].deleting && n !in w.workerProcs
    requires HasParent(w, n, w.store.workers[n].spec)
    ensures ReconcileWorker(w, n) == FinishWorker(w1, n)
    ensures n in w1.store.workers && WorkerAt(w1, n, WorkerPc.Read(WorkerDeployment), w1.store.workers[n])
    ensures var cr, cr1 := w.store.workers[n], w1.store.workers[n];
      cr1.spec == cr.spec && cr1.uid == cr.uid && cr1.deleting == cr.deleting && WORKER_FINALIZER in cr1.finalizers
    ensures w1.store.children == w.store.children && w1.store.clusters == w.store.clusters && w1.admission == w.admission
    ensures WorkerSendsNoWrite(w1, n) ==> WorkerSendsNoWrite(Apply(w, StartWorker(n)), n)
  {
    hide ValidateWorker, FinishWorker, NextWorker, WorkerSendsNoWrite;
    var w0 := WorkerBeginning(w, n);
    ParentCall(w0, n, w0.store.workers[n]);
    FinishWorkerNext(w0, n);
    WorkerSendsNext(w0, n);
    w1 := NextWorker(w0, n);
  }

  /** From a converged store the children are read and none is written or deleted. */
  lemma QuietWorkerWalk(w: World, n: Name, base: Cr<WorkerSpec>)
    requires WorkerAt(w, n, WorkerPc.Read(WorkerDeployment), base) && WORKER_FINALIZER in base.finalizers
    requires Converged(w.store, n, base.uid, base.spec)
    ensures WorkerSendsNoWrite(w, n)
  {
    hide NextWorker, WorkerSendsNoWrite, WorkerChild, Autoscaled;
    WorkerReadCall(w, n, base, WorkerDeployment);
    WorkerSendsNext(w, n);
    var w1 := NextWorker(w, n);
    if Autoscaled(base.spec) {
      WorkerReadCall(w1, n, base, Autoscaler);
    } else {
      StaleCall(w1, n, base);
    }
    WorkerSendsNext(w1, n);
    WorkerEnding(NextWorker(w1, n), n, base);
  }

  /**
   Crash convergence of a live worker whose parent cluster is there.  From every reachable world one
   uninterrupted reconcile leaves its Deployment with exactly the managed fields of the current spec,
   and its autoscaler present exactly when enabled, if and only if beforehand neither name it needs
   was controlled by someone else and the Deployment there, if any, had the selector the current
   clusterRef gives.
   */
  lemma WorkerConverges(w: World, n: Name)
    requires Reachable(w) && n in w.store.workers && n !in w.workerProcs
    requires !w.store.workers[n].deleting && HasParent(w, n, w.store.workers[n].spec)
    ensures var cr, w' := w.store.workers[n], ReconcileWorker(w, n);
      && (Clear(w.store, n, cr.spec) <==> Converged(w'.store, n, cr.uid, cr.spec))
      && OnlyOwnNames(w.store.children, w'.store.children, n)
  {
    if w.admission { ReachableAdmitted(w); }
    hide WorkerChild, WorkerFree, WorkerSettledAt, Autoscaled, ValidateWorker, WorkerAdmissible;
    var w1 := FromTheStart(w, n);
    WorkerWalk(w1, n, w1.store.workers[n]);
    SameChildrenSameWorkerFreedom(w.store, w1.store, n, w.store.workers[n].uid, w.store.workers[n].spec);
  }

  /** After that the phase is the one the Deployment's counts give, never Error, and a further reconcile writes no child. */
  lemma ConvergedWorkerStaysConverged(w: World, n: Name)
    requires Reachable(w) && n in w.store.workers && n !in w.workerProcs
    requires !w.store.workers[n].deleting && HasParent(w, n, w.store.workers[n].spec)
    requires Clear(w.store, n, w.store.workers[n].spec)
    ensures var w' := ReconcileWorker(w, n);
      && n !in w'.workerProcs && w'.store.clusters == w.store.clusters
      && n in w'.store.workers && w'.store.workers[n].spec == w.store.workers[n].spec
      && w'.store.workers[n].uid == w.store.workers[n].uid && !w'.store.workers[n].deleting
      && Tells(w'.store.workers[n].status, WorkerPods(w'.store, n)) && w'.store.workers[n].status.phase != Error
      && ReconcileWorker(w', n).store.children == w'.store.children && WorkerSendsNoWrite(Apply(w', StartWorker(n)), n)
  {
    if w.admission { ReachableAdmitted(w); }
    hide WorkerChild, WorkerFree, WorkerSettledAt, Autoscaled, ValidateWorker, WorkerAdmissible, ReconcileWorker, WorkerSendsNoWrite;
    var w1 := FromTheStart(w, n);
    WorkerWalk(w1, n, w1.store.workers[n]);
    SameChildrenSameWorkerFreedom(w.store, w1.store, n, w.store.workers[n].uid, w.store.workers[n].spec);
    var w' := ReconcileWorker(w, n);
    var w2 := FromTheStart(w', n);
    WorkerWalk(w2, n, w2.store.workers[n]);
    SameChildrenSameWorkerFreedom(w'.store, w2.store, n, w.store.workers[n].uid, w.store.workers[n].spec);
    QuietWorkerWalk(w2, n, w2.store.workers[n]);
  }

  /**
   Somebody else's autoscaler under the worker's name: one uninterrupted reconcile deletes it exactly
   when it gets past its Deployment and the spec does not enable autoscaling, and otherwise leaves it
   as it is.
   */
  lemma ForeignAutoscalerFate(w: World, n: Name)
    requires Reachable(w) && n in w.store.workers && n !in w.workerProcs
    requires !w.store.workers[n].deleting && HasParent(w, n, w.store.workers[n].spec)
    requires var key := WorkerChildKey(Autoscaler, n);
      key in w.store.children && ControlledByOther(w.store.children[key], ByWorker, n.name)
    ensures var key, spec, after := WorkerChildKey(Autoscaler, n), w.store.workers[n].spec, ReconcileWorker(w, n).store.children;
      if WorkerFree(w.store, n, WorkerDeployment, spec) && !Autoscaled(spec) then key !in after
      else key in after && after[key] == w.store.children[key]
  {
    if w.admission { ReachableAdmitted(w); }
    hide WorkerChild, WorkerFree, WorkerSettledAt, Autoscaled, ValidateWorker, WorkerAdmissible, FinishWorker, VisitWorker, Reachable;
    var w1 := FromTheStart(w, n);
    var base := w1.store.workers[n];
    SameChildrenSameWorkerFreedom(w.store, w1.store, n, base.uid, base.spec);
    FinishWorkerVisits(w1, n);
    VisitWorkerSettles(w1, n, base, WorkerDeployment);
    var w2 := VisitWorker(w1, n);
    TouchingOtherName(w1.store, w2.store, n, base.uid, base.spec);
    if WorkerFree(w.store, n, WorkerDeployment, base.spec) {
      var w3 := WalkAutoscaler(w2, n, base);
      ForeignIsNotFree(w2.store, n, Autoscaler, base.spec);
    } else {
      NoReconcileNoStep(w2, n);
    }
  }

  lemma ForeignIsNotFree(s: Store, n: Name, slot: WorkerSlot, spec: WorkerSpec)
    requires var key := WorkerChildKey(slot, n); key in s.children && ControlledByOther(s.children[key], ByWorker, n.name)
    ensures !WorkerFree(s, n, slot, spec)
  {
  }

  /** A reconcile that cannot write its Deployment changes no child. */
  lemma BlockedWorkerWritesNoChild(w: World, n: Name)
    requires Reachable(w) && n in w.store.workers && n !in w.workerProcs
    requires !w.store.workers[n].deleting && HasParent(w, n, w.store.workers[n].spec)
    requires !WorkerFree(w.store, n, WorkerDeployment, w.store.workers[n].spec)
    ensures ReconcileWorker(w, n).store.children == w.store.children
  {
    if w.admission { ReachableAdmitted(w); }
    hide WorkerChild, WorkerFree, WorkerSettledAt, Autoscaled, ValidateWorker, WorkerAdmissible, FinishWorker, VisitWorker, Reachable;
    var w1 := FromTheStart(w, n);
    var base := w1.store.workers[n];
    SameChildrenSameWorkerFreedom(w.store, w1.store, n, base.uid, base.spec);
    FinishWorkerVisits(w1, n);
    VisitWorkerSettles(w1, n, base, WorkerDeployment);
    NoReconcileNoStep(VisitWorker(w1, n), n);
  }

  // ---------------------------------------------------------------- without a parent

  /** One reconcile, whose calls end as the list says; an exhausted list stands for delivered calls. */
  function Attempt(w: World, n: Name, outcomes: seq<Outcome>): World
    decreases if n in w.workerProcs then 1 + WorkerRank(w.workerProcs[n]) else 0
  {
    if n !in w.workerProcs then w
    else
      var outcome := if outcomes == [] then Delivered else outcomes[0];
      WorkerResumeDescends(n, w.workerProcs[n], if outcome.Delivered? then WorkerServed(w, n).reply else Failed, w.now);
      Attempt(WorkerStep(w, n, outcome), n, if outcomes == [] then [] else outcomes[1..])
  }

  /** A reconcile that has not found a parent, and will not. */
  predicate Orphaned(w: World, n: Name, parent: string) {
    && Name(n.ns, parent) !in w.store.clusters
    && (n in w.store.workers ==> w.store.workers[n].spec.clusterRef == parent)
    && (n in w.workerProcs && w.workerProcs[n].Active? ==>
          && w.workerProcs[n].base.spec.clusterRef == parent
          && var pc := w.workerProcs[n].pc; pc.DropFinalizer? || pc.AddFinalizer? || pc.ReadParent? || pc.ReportOrphan?)
  }

  lemma OrphanStep(w: World, n: Name, outcome: Outcome, parent: string)
    requires n in w.workerProcs && Orphaned(w, n, parent)
    ensures var w' := WorkerStep(w, n, outcome); Orphaned(w', n, parent) && w'.store.children == w.store.children
  {
    hide SetCondition, Observe, WorkerChild, WorkerAdmissible;
  }

  lemma {:induction false} OrphanWritesNoChild(w: World, n: Name, outcomes: seq<Outcome>, parent: string)
    requires Orphaned(w, n, parent)
    ensures Attempt(w, n, outcomes).store.children == w.store.children
    decreases if n in w.workerProcs then 1 + WorkerRank(w.workerProcs[n]) else 0
  {
    hide WorkerStep, Orphaned;
    if n in w.workerProcs {
      var outcome := if outcomes == [] then Delivered else outcomes[0];
      OrphanStep(w, n, outcome, parent);
      AttemptDescends(w, n, outcome);
      OrphanWritesNoChild(WorkerStep(w, n, outcome), n, if outcomes == [] then [] else outcomes[1..], parent);
    }
  }

  lemma AttemptDescends(w: World, n: Name, outcome: Outcome)
    requires n in w.workerProcs
    ensures var w' := WorkerStep(w, n, outcome);
      n in w'.workerProcs ==> WorkerRank(w'.workerProcs[n]) < WorkerRank(w.workerProcs[n])
  {
    hide WorkerResume, ServeWorker;
    WorkerResumeDescends(n, w.workerProcs[n], if outcome.Delivered? then WorkerServed(w, n).reply else Failed, w.now);
  }

  lemma OrphanReport(w: World, n: Name, base: Cr<WorkerSpec>)
    requires WorkerAt(w, n, WorkerPc.ReportOrphan, base)
    ensures NextWorker(w, n).events == w.events + [ClusterNotFound(n), Finished(ByWorker, n, RetryIn30s)]
  {
    hide ServeWorker;
  }

  /**
   While its parent cluster is missing, a reconcile of a worker changes no child, however its calls
   end; and if they are all delivered to a live worker, its phase becomes Error and it asks to be
   looked at again in 30 seconds.
   */
  lemma NoParentNoChildWrites(w: World, n: Name, outcomes: seq<Outcome>)
    requires Reachable(w) && n in w.store.workers && n !in w.workerProcs && !HasParent(w, n, w.store.workers[n].spec)
    ensures Attempt(Apply(w, StartWorker(n)), n, outcomes).store.children == w.store.children
    ensures !w.store.workers[n].deleting ==>
      var w' := ReconcileWorker(w, n);
      && w'.store.children == w.store.children
      && n in w'.store.workers && w'.store.workers[n].status.phase == Error
      && w'.events != [] && w'.events[|w'.events| - 1] == Finished(ByWorker, n, RetryIn30s)
  {
    assert Attempt(Apply(w, StartWorker(n)), n, outcomes).store.children == w.store.children by {
      OrphanWritesNoChild(Apply(w, StartWorker(n)), n, outcomes, w.store.workers[n].spec.clusterRef);
    }
    hide Attempt, Orphaned;
    if !w.store.workers[n].deleting {
      if w.admission { ReachableAdmitted(w); }
      hide Reachable, ValidateWorker, WorkerAdmissible, NextWorker, FinishWorker, WorkerSendsNoWrite;
      var w0 := WorkerBeginning(w, n);
      var base := w0.store.workers[n];
      ParentCall(w0, n, base);
      FinishWorkerNext(w0, n);
      WorkerStatusCall(NextWorker(w0, n), n, base);
      OrphanReport(NextWorker(w0, n), n, base);
      FinishWorkerNext(NextWorker(w0, n), n);
      NoReconcileNoStep(NextWorker(NextWorker(w0, n), n), n);
    }
  }
}
