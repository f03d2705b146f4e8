/**
 Crash convergence of the cluster controller: whatever history left behind, one reconcile that is
 not interrupted makes the wanted children what the current spec says, and the next one writes
 no child.
 */
module ClusterConvergence {
  import opened OjsTypes
  import opened Payloads
  import opened ApiServer
  import opened Observation
  import opened ClusterMachine
  import opened WorkerMachine
  import opened Webhook
  import opened Operator
  import opened StatusInMemory
  import opened Invariants
  import opened FinalizerSafety
  import opened ObservedGeneration
  import opened Ownership
  import opened CreationOrder
  import opened Admission

  // ---------------------------------------------------------------- an uninterrupted reconcile

  /** How many calls a reconcile can still make. */
  function ClusterRank(p: ClusterProc): nat {
    match p
    case Starting => 24
    case Active(pc, _, _) =>
      match pc
      case DropFinalizer => 1
      case AddFinalizer => 23
      case Initialize => 22
      case Read(slot) => 21 - 2 * Order(slot)
      case Write(slot, _) => 20 - 2 * Order(slot)
      case ReportBackend => 1
      case ReadServer => 3
      case WriteStatus => 2
  }

  lemma ResumeDescends(n: Name, p: ClusterProc, reply: Reply<ClusterSpec>, now: nat)
    ensures var turn := ClusterResume(n, p, reply, now); turn.next.Some? ==> ClusterRank(turn.next.value) < ClusterRank(p)
  {
    hide Observe, SetCondition, ClusterChild;
  }

  /** The reconcile of `n` runs to its end with every call delivered and nobody else moving. */
  function Finish(w: World, n: Name): World
    decreases if n in w.clusterProcs then 1 + ClusterRank(w.clusterProcs[n]) else 0
  {
    if n !in w.clusterProcs then w
    else
      ResumeDescends(n, w.clusterProcs[n], ClusterServed(w, n).reply, w.now);
      Finish(Next(w, n), n)
  }

  function Next(w: World, n: Name): World
    requires n in w.clusterProcs
  {
    ClusterStep(w, n, Delivered)
  }

  function Reconcile(w: World, n: Name): World {
    Finish(Apply(w, StartCluster(n)), n)
  }

  // ---------------------------------------------------------------- what a child can be found like

  /** Nothing stands in the way of writing this child: no other controller, no other selector. */
  predicate Free(s: Store, n: Name, slot: ClusterSlot, spec: ClusterSpec) {
    var key := ClusterChildKey(slot, n);
    key in s.children ==>
      && !ControlledByOther(s.children[key], ByCluster, n.name)
      && SelectorAccepted(s.children[key].managed, ClusterChild(slot, n, spec))
  }

  /** The child is this cluster's and every managed field is the one the spec asks for. */
  predicate SettledAt(s: Store, n: Name, uid: nat, slot: ClusterSlot, spec: ClusterSpec) {
    var key := ClusterChildKey(slot, n);
    key in s.children && Settled(s.children[key], ClusterController(n, uid), ClusterChild(slot, n, spec))
  }

  predicate At(w: World, n: Name, pc: ClusterPc, base: Cr<ClusterSpec>) {
    && n in w.clusterProcs && w.clusterProcs[n].Active?
    && w.clusterProcs[n].pc == pc && w.clusterProcs[n].base == base
    && n in w.store.clusters && w.store.clusters[n] == base
  }

  function PcAfter(slot: ClusterSlot, spec: ClusterSpec): ClusterPc {
    var next := ClusterNext(slot, spec);
    if next.Some? then ClusterPc.Read(next.value) else ClusterPc.ReadServer
  }

  /** The children other than `slot` are untouched. */
  predicate OnlyTouches(before: Children, after: Children, key: ChildKey) {
    after == before || (key in after && after == before[key := after[key]])
  }

  // ---------------------------------------------------------------- one child

  predicate Writing(w: World, n: Name) {
    n in w.clusterProcs && w.clusterProcs[n].Active? && w.clusterProcs[n].pc.Write?
  }

  /** Visiting one child: read it and, if need be, write it. */
  function Visit(w: World, n: Name): World
    requires n in w.clusterProcs
  {
    var w1 := Next(w, n);
    if Writing(w1, n) then Next(w1, n) else w1
  }

  lemma FinishNext(w: World, n: Name)
    requires n in w.clusterProcs
    ensures Finish(w, n) == Finish(Next(w, n), n)
  {
    hide Next;
  }

  /** The uninterrupted reconcile sends no request that writes a child, not even one that would change nothing. */
  predicate SendsNoWrite(w: World, n: Name)
    decreases if n in w.clusterProcs then 1 + ClusterRank(w.clusterProcs[n]) else 0
  {
    n in w.clusterProcs ==>
      && !WritesChild(ClusterRequest(n, w.clusterProcs[n]))
      && (ResumeDescends(n, w.clusterProcs[n], ClusterServed(w, n).reply, w.now); SendsNoWrite(Next(w, n), n))
  }

  lemma SendsNext(w: World, n: Name)
    requires n in w.clusterProcs && !WritesChild(ClusterRequest(n, w.clusterProcs[n]))
    ensures SendsNoWrite(Next(w, n), n) ==> SendsNoWrite(w, n)
  {
    hide Next;
  }

  lemma FinishVisits(w: World, n: Name)
    requires n in w.clusterProcs
    ensures Finish(w, n) == Finish(Visit(w, n), n)
  {
    hide Next;
  }

  lemma ReadCall(w: World, n: Name, base: Cr<ClusterSpec>, slot: ClusterSlot)
    requires At(w, n, ClusterPc.Read(slot), base)
    ensures var w1, key := Next(w, n), ClusterChildKey(slot, n);
      && w1.store == w.store && w1.admission == w.admission
      && if key !in w.store.children then At(w1, n, ClusterPc.Write(slot, None), base)
         else if ControlledByOther(w.store.children[key], ByCluster, n.name) then
           !Writing(w1, n) && (slot == Monitor ==> At(w1, n, ClusterPc.ReadServer, base))
         else if SettledAt(w.store, n, base.uid, slot, base.spec) then At(w1, n, PcAfter(slot, base.spec), base)
         else At(w1, n, ClusterPc.Write(slot, Some(w.store.children[key])), base)
  {
    hide ClusterChild, SetCondition;
  }

  lemma WriteCall(w: World, n: Name, base: Cr<ClusterSpec>, slot: ClusterSlot, found: Option<Child>)
    requires At(w, n, ClusterPc.Write(slot, found), base)
    requires var key := ClusterChildKey(slot, n);
      if found.Some? then
        key in w.store.children && w.store.children[key] == found.value && !ControlledByOther(found.value, ByCluster, n.name)
      else key !in w.store.children
    ensures var w1, key := Next(w, n), ClusterChildKey(slot, n);
      && w1.store.clusters == w.store.clusters && w1.admission == w.admission
      && OnlyTouches(w.store.children, w1.store.children, key)
      && (Free(w.store, n, slot, base.spec) ==>
            SettledAt(w1.store, n, base.uid, slot, base.spec) && At(w1, n, PcAfter(slot, base.spec), base))
      && (!Free(w.store, n, slot, base.spec) ==> w1.store.children == w.store.children)
      && (slot == Monitor ==> At(w1, n, ClusterPc.ReadServer, base))
  {
    hide ClusterChild, SetCondition;
  }

  lemma VisitSettles(w: World, n: Name, base: Cr<ClusterSpec>, slot: ClusterSlot)
    requires At(w, n, ClusterPc.Read(slot), base)
    ensures var w1, key := Visit(w, n), ClusterChildKey(slot, n);
      && w1.store.clusters == w.store.clusters && w1.admission == w.admission
      && OnlyTouches(w.store.children, w1.store.children, key)
      && (Free(w.store, n, slot, base.spec) ==>
            SettledAt(w1.store, n, base.uid, slot, base.spec) && At(w1, n, PcAfter(slot, base.spec), base))
      && (!Free(w.store, n, slot, base.spec) ==> w1.store.children == w.store.children)
      && (SettledAt(w.store, n, base.uid, slot, base.spec) ==> w1.store.children == w.store.children)
      && (slot == Monitor ==> At(w1, n, ClusterPc.ReadServer, base))
  {
    hide Next, ClusterChild;
    ReadCall(w, n, base, slot);
    var w1 := Next(w, n);
    if Writing(w1, n) {
      var key := ClusterChildKey(slot, n);
      WriteCall(w1, n, base, slot, if key in w.store.children then Some(w.store.children[key]) else None);
    }
  }

  // ---------------------------------------------------------------- before the children

  function FirstPc(spec: ClusterSpec): ClusterPc {
    if !spec.backend.embedded then ClusterPc.Read(Config)
    else if spec.backend.engine == "redis" then ClusterPc.Read(RedisDeployment)
    else ClusterPc.ReportBackend
  }

  /** The reconcile is about to visit its first child, with nothing about children changed. */
  predicate Begun(w0: World, w: World, n: Name) {
    && n in w0.store.clusters && n in w.store.clusters
    && At(w, n, FirstPc(w0.store.clusters[n].spec), w.store.clusters[n])
    && w.store.clusters[n].spec == w0.store.clusters[n].spec
    && w.store.clusters[n].uid == w0.store.clusters[n].uid
    && w.store.clusters[n].deleting == w0.store.clusters[n].deleting
    && OJS_FINALIZER in w.store.clusters[n].finalizers
    && w.store.children == w0.store.children && w.admission == w0.admission
  }

  predicate Admissible(w: World, n: Name) {
    n in w.store.clusters && (w.admission ==> ValidateCluster(w.store.clusters[n].spec).None?)
  }

  /** The calls before the first child: read, then finalizer and first status if they are missing. */
  lemma FetchCall(w: World, n: Name)
    requires n in w.clusterProcs && w.clusterProcs[n] == ClusterProc.Starting
    requires Admissible(w, n) && !w.store.clusters[n].deleting
    ensures var w1, cr := Next(w, n), w.store.clusters[n];
      && w1.store == w.store && w1.admission == w.admission
      && if OJS_FINALIZER !in cr.finalizers then At(w1, n, ClusterPc.AddFinalizer, cr)
         else if cr.status.phase == Unset then At(w1, n, ClusterPc.Initialize, cr) && w1.clusterProcs[n].status.phase == Pending
         else At(w1, n, FirstPc(cr.spec), cr)
  {
    hide SetCondition, ValidateCluster;
  }

  lemma FinalizerCall(w: World, n: Name, cr: Cr<ClusterSpec>)
    requires At(w, n, ClusterPc.AddFinalizer, cr) && Admissible(w, n)
    requires OJS_FINALIZER !in cr.finalizers && !cr.deleting
    ensures var w1 := Next(w, n);
      && n in w1.store.clusters && w1.store.children == w.store.children && w1.admission == w.admission
      && var cr1 := w1.store.clusters[n];
      && cr1.spec == cr.spec && cr1.uid == cr.uid && cr1.deleting == cr.deleting && OJS_FINALIZER in cr1.finalizers && cr1.status == cr.status
      && if cr.status.phase == Unset then At(w1, n, ClusterPc.Initialize, cr1) && w1.clusterProcs[n].status.phase == Pending
         else At(w1, n, FirstPc(cr.spec), cr1)
  {
    hide SetCondition, ValidateCluster;
  }

  lemma InitializeCall(w: World, n: Name, cr: Cr<ClusterSpec>)
    requires At(w, n, ClusterPc.Initialize, cr) && w.clusterProcs[n].status.phase == Pending && cr.status.phase == Unset
    requires OJS_FINALIZER in cr.finalizers
    ensures var w1 := Next(w, n);
      && n in w1.store.clusters && w1.store.children == w.store.children && w1.admission == w.admission
      && var cr1 := w1.store.clusters[n];
      && cr1.spec == cr.spec && cr1.uid == cr.uid && cr1.deleting == cr.deleting && cr1.finalizers == cr.finalizers
      && At(w1, n, FirstPc(cr.spec), cr1)
  {
    hide SetCondition;
  }

  lemma NextIsTold(w: World, n: Name)
    requires n in w.clusterProcs
    ensures Told(w, n) ==> Told(Next(w, n), n)
  {
    hide ClusterStep, Told;
    if Told(w, n) { StepIsTold(w, n, Delivered); }
  }

  lemma VisitIsTold(w: World, n: Name)
    requires n in w.clusterProcs && Told(w, n)
    ensures Told(Visit(w, n), n)
  {
    hide Next, Told;
    NextIsTold(w, n);
    if Writing(Next(w, n), n) { NextIsTold(Next(w, n), n); }
  }

  /** One call that writes no child: what it keeps. */
  lemma Onward(w: World, n: Name)
    requires n in w.clusterProcs && Told(w, n) && !WritesChild(ClusterRequest(n, w.clusterProcs[n]))
    ensures Finish(w, n) == Finish(Next(w, n), n) && Told(Next(w, n), n)
    ensures SendsNoWrite(Next(w, n), n) ==> SendsNoWrite(w, n)
  {
    hide Next, Finish, SendsNoWrite, Told;
    FinishNext(w, n);
    SendsNext(w, n);
    NextIsTold(w, n);
  }

  /** The first status, if it is missing. */
  lemma Initializing(w: World, n: Name) returns (w': World)
    requires n in w.store.clusters
    requires var cr := w.store.clusters[n];
      && OJS_FINALIZER in cr.finalizers && Told(w, n)
      && if cr.status.phase == Unset then At(w, n, ClusterPc.Initialize, cr) && w.clusterProcs[n].status.phase == Pending
         else At(w, n, FirstPc(cr.spec), cr)
    ensures Begun(w, w', n) && Finish(w, n) == Finish(w', n) && Told(w', n)
    ensures SendsNoWrite(w', n) ==> SendsNoWrite(w, n)
  {
    hide Next, FirstPc, SendsNoWrite, Told, Finish;
    w' := w;
    if w.store.clusters[n].status.phase == Unset {
      InitializeCall(w, n, w.store.clusters[n]);
      Onward(w, n);
      w' := Next(w, n);
    }
  }

  lemma Beginning(w: World, n: Name) returns (w': World)
    requires Admissible(w, n) && !w.store.clusters[n].deleting && n !in w.clusterProcs
    ensures Begun(w, w', n) && Reconcile(w, n) == Finish(w', n)
    ensures SendsNoWrite(w', n) ==> SendsNoWrite(Apply(w, StartCluster(n)), n)
    ensures Told(w', n)
  {
    var w0 := Apply(w, StartCluster(n));
    assert Told(w0, n);
    hide Next, ValidateCluster, FirstPc, SendsNoWrite, Told, Finish;
    FetchCall(w0, n);
    Onward(w0, n);
    var w1 := Next(w0, n);
    if OJS_FINALIZER !in w1.store.clusters[n].finalizers {
      FinalizerCall(w1, n, w1.store.clusters[n]);
      Onward(w1, n);
      w1 := Next(w1, n);
    }
    w' := Initializing(w1, n);
  }

  // ---------------------------------------------------------------- after the children

  function ServerOf(s: Store, n: Name): Option<Unmanaged> {
    var key := ClusterChildKey(ServerDeployment, n);
    if key in s.children then Some(s.children[key].rest) else None
  }

  lemma ReadServerCall(w: World, n: Name, base: Cr<ClusterSpec>)
    requires At(w, n, ClusterPc.ReadServer, base)
    ensures var w1 := Next(w, n);
      && w1.store == w.store && w1.admission == w.admission && At(w1, n, ClusterPc.WriteStatus, base)
      && Tells(w1.clusterProcs[n].status, ServerOf(w.store, n))
  {
    hide ClusterChild, Observe;
    ObserveTells(w.clusterProcs[n].status, ServerOf(w.store, n), base.gen, w.now);
  }

  lemma StatusCall(w: World, n: Name, base: Cr<ClusterSpec>)
    requires At(w, n, ClusterPc.WriteStatus, base) || At(w, n, ClusterPc.ReportBackend, base)
    requires OJS_FINALIZER in base.finalizers
    ensures var w1 := Next(w, n);
      && n !in w1.clusterProcs && n in w1.store.clusters && w1.store.children == w.store.children
      && w1.store.clusters[n].spec == base.spec && w1.store.clusters[n].uid == base.uid
      && w1.store.clusters[n].deleting == base.deleting && w1.admission == w.admission
      && w1.store.clusters[n].status == w.clusterProcs[n].status
  {
    hide SetCondition;
  }

  /** The end of every reconcile that gets past its children: the derived phase is persisted. */
  lemma Ending(w: World, n: Name, base: Cr<ClusterSpec>)
    requires At(w, n, ClusterPc.ReadServer, base) && OJS_FINALIZER in base.finalizers && Told(w, n)
    ensures Ended(w, Finish(w, n), n, base) && Finish(w, n).store.children == w.store.children
    ensures SendsNoWrite(w, n)
  {
    hide Next;
    ReadServerCall(w, n, base);
    NextIsTold(w, n);
    FinishNext(w, n);
    SendsNext(w, n);
    StatusCall(Next(w, n), n, base);
    FinishNext(Next(w, n), n);
    SendsNext(Next(w, n), n);
  }

  predicate Ended(w: World, w': World, n: Name, base: Cr<ClusterSpec>) {
    && n !in w'.clusterProcs && n in w'.store.clusters
    && w'.store.clusters[n].spec == base.spec && w'.store.clusters[n].uid == base.uid
    && w'.store.clusters[n].deleting == base.deleting && w'.admission == w.admission
    && Tells(w'.store.clusters[n].status, ServerOf(w'.store, n))
    && (base.spec.backend.embedded ==> Says(w'.store.clusters[n].status.conditions, BackendReady, true))
  }

  // ---------------------------------------------------------------- the children in turn

  predicate SameAt(before: Children, after: Children, key: ChildKey) {
    (key in before <==> key in after) && (key in before ==> before[key] == after[key])
  }

  /** Children at or after `slot` that the spec asks for, the best-effort ServiceMonitor aside. */
  predicate Due(t: ClusterSlot, slot: ClusterSlot, spec: ClusterSpec) {
    Wanted(t, spec) && Order(t) >= Order(slot) && t != Monitor
  }

  ghost predicate Elsewhere(key: ChildKey, n: Name, slot: ClusterSlot, spec: ClusterSpec) {
    forall t: ClusterSlot :: Wanted(t, spec) && Order(t) >= Order(slot) ==> key != ClusterChildKey(t, n)
  }

  lemma TouchingOneSlot(s: Store, s': Store, n: Name, uid: nat, slot: ClusterSlot, t: ClusterSlot, spec: ClusterSpec)
    requires OnlyTouches(s.children, s'.children, ClusterChildKey(slot, n)) && t != slot
    ensures Free(s, n, t, spec) == Free(s', n, t, spec) && SettledAt(s, n, uid, t, spec) == SettledAt(s', n, uid, t, spec)
    ensures SameAt(s.children, s'.children, ClusterChildKey(t, n))
  {
    hide ClusterChildKey, ClusterChild;
    ClusterChildNamesNeverCollide(slot, n, t, n);
  }

  /** What follows `slot` is exactly what the spec asks for beyond it. */
  lemma NextIsNext(slot: ClusterSlot, t: ClusterSlot, spec: ClusterSpec)
    requires Wanted(slot, spec) && t != slot && Wanted(t, spec) && Order(t) >= Order(slot)
    ensures ClusterNext(slot, spec).Some? && Wanted(ClusterNext(slot, spec).value, spec)
    ensures Order(slot) < Order(ClusterNext(slot, spec).value) <= Order(t)
  {
  }

  lemma NextIsWanted(slot: ClusterSlot, spec: ClusterSpec)
    requires Wanted(slot, spec) && ClusterNext(slot, spec).Some?
    ensures Wanted(ClusterNext(slot, spec).value, spec) && Order(slot) < Order(ClusterNext(slot, spec).value)
  {
  }

  /** The reconcile from `slot` on, if nothing stands in its way. */
  ghost predicate Walked(w: World, w': World, n: Name, base: Cr<ClusterSpec>, slot: ClusterSlot) {
    && Ended(w, w', n, base)
    && (forall t | Due(t, slot, base.spec) :: SettledAt(w'.store, n, base.uid, t, base.spec))
    && (forall key | Elsewhere(key, n, slot, base.spec) :: SameAt(w.store.children, w'.store.children, key))
    && (Wanted(Monitor, base.spec) ==>
          SettledAt(w'.store, n, base.uid, Monitor, base.spec) || !Free(w'.store, n, Monitor, base.spec))
  }

  lemma Walk(w: World, n: Name, base: Cr<ClusterSpec>, slot: ClusterSlot)
    requires At(w, n, ClusterPc.Read(slot), base) && Wanted(slot, base.spec) && OJS_FINALIZER in base.finalizers && Told(w, n)
    requires forall t | Due(t, slot, base.spec) :: Free(w.store, n, t, base.spec)
    ensures Walked(w, Finish(w, n), n, base, slot)
    decreases 7 - Order(slot)
  {
    hide Finish, Visit, Wanted, Free, SettledAt, ClusterChild, ClusterChildKey, ClusterNext, Walked, OnlyTouches, Told;
    var spec, w1, next := base.spec, Visit(w, n), ClusterNext(slot, base.spec);
    FinishVisits(w, n);
    VisitIsTold(w, n);
    VisitSettles(w, n, base, slot);
    if slot == Monitor || next.None? {
      Ending(w1, n, base);
      assert slot == Monitor && !Free(w.store, n, slot, spec) ==> !Free(w1.store, n, slot, spec) by {
        SameChildrenSameFreedom(w.store, w1.store, n, slot, spec);
      }
      WalkedLast(w, w1, Finish(w1, n), n, base, slot);
    } else {
      NextIsWanted(slot, spec);
      forall t | Due(t, next.value, spec) ensures Free(w1.store, n, t, spec) {
        assert Due(t, slot, spec);
        TouchingOneSlot(w.store, w1.store, n, base.uid, slot, t, spec);
      }
      Walk(w1, n, base, next.value);
      WalkedOn(w, w1, Finish(w1, n), n, base, slot, next.value);
    }
  }

  lemma SameChildrenSameFreedom(s: Store, s': Store, n: Name, slot: ClusterSlot, spec: ClusterSpec)
    ensures s'.children == s.children ==> Free(s, n, slot, spec) == Free(s', n, slot, spec)
  {
  }

  lemma WalkedLast(w: World, w1: World, w': World, n: Name, base: Cr<ClusterSpec>, slot: ClusterSlot)
    requires Wanted(slot, base.spec) && (slot == Monitor || ClusterNext(slot, base.spec).None?)
    requires OnlyTouches(w.store.children, w1.store.children, ClusterChildKey(slot, n))
    requires slot != Monitor ==> SettledAt(w1.store, n, base.uid, slot, base.spec)
    requires slot == Monitor ==>
      SettledAt(w1.store, n, base.uid, Monitor, base.spec) || !Free(w1.store, n, Monitor, base.spec)
    requires Ended(w1, w', n, base) && w'.store.children == w1.store.children && w1.admission == w.admission
    ensures Walked(w, w', n, base, slot)
  {
    hide Wanted, ClusterChild, ClusterChildKey, ClusterNext, Free;
    forall t | Wanted(t, base.spec) && Order(t) >= Order(slot) ensures t == slot {
      if t != slot { NextIsNext(slot, t, base.spec); NothingAfterMonitor(base.spec); }
    }
    forall key | Elsewhere(key, n, slot, base.spec) ensures SameAt(w.store.children, w'.store.children, key) {
      assert key != ClusterChildKey(slot, n);
    }
    assert forall t | Due(t, slot, base.spec) :: SettledAt(w'.store, n, base.uid, t, base.spec);
    SameChildrenSameFreedom(w1.store, w'.store, n, Monitor, base.spec);
  }

  lemma NothingAfterMonitor(spec: ClusterSpec)
    ensures ClusterNext(Monitor, spec).None?
  {
  }

  lemma WalkedOn(w: World, w1: World, w': World, n: Name, base: Cr<ClusterSpec>, slot: ClusterSlot, next: ClusterSlot)
    requires Wanted(slot, base.spec) && ClusterNext(slot, base.spec) == Some(next) && Order(slot) < Order(next)
    requires OnlyTouches(w.store.children, w1.store.children, ClusterChildKey(slot, n))
    requires slot != Monitor ==> SettledAt(w1.store, n, base.uid, slot, base.spec)
    requires Walked(w1, w', n, base, next) && w1.admission == w.admission
    ensures Walked(w, w', n, base, slot)
  {
    hide Wanted, ClusterChild, ClusterChildKey, ClusterNext;
    forall t | Due(t, slot, base.spec) ensures SettledAt(w'.store, n, base.uid, t, base.spec) {
      if t != slot {
        NextIsNext(slot, t, base.spec);
      } else {
        assert Elsewhere(ClusterChildKey(slot, n), n, next, base.spec) by {
          forall u: ClusterSlot | Order(u) >= Order(next) ensures ClusterChildKey(u, n) != ClusterChildKey(slot, n) {
            ClusterChildNamesNeverCollide(u, n, slot, n);
          }
        }
      }
    }
    forall key | Elsewhere(key, n, slot, base.spec) ensures SameAt(w.store.children, w'.store.children, key) {
      assert Elsewhere(key, n, next, base.spec);
    }
  }

  // ---------------------------------------------------------------- convergence

  /** Only redis can be embedded. */
  predicate Supported(spec: ClusterSpec) {
    spec.backend.embedded ==> spec.backend.engine == "redis"
  }

  function FirstSlot(spec: ClusterSpec): ClusterSlot {
    if spec.backend.embedded then RedisDeployment else Config
  }

  predicate Required(slot: ClusterSlot, spec: ClusterSpec) {
    Wanted(slot, spec) && slot != Monitor
  }

  /** From any world with nothing in its way. */
  lemma FreeReconcileSettles(w: World, n: Name) returns (w1: World)
    requires Admissible(w, n) && !w.store.clusters[n].deleting && n !in w.clusterProcs
    requires Supported(w.store.clusters[n].spec)
    requires forall t | Required(t, w.store.clusters[n].spec) :: Free(w.store, n, t, w.store.clusters[n].spec)
    ensures Begun(w, w1, n)
    ensures Walked(w1, Reconcile(w, n), n, w1.store.clusters[n], FirstSlot(w.store.clusters[n].spec))
  {
    hide ValidateCluster, Free, ClusterChild, Finish, Walked;
    w1 := Beginning(w, n);
    var spec := w.store.clusters[n].spec;
    forall t | Due(t, FirstSlot(spec), spec) ensures Free(w1.store, n, t, spec) {
      SameChildrenSameFreedom(w.store, w1.store, n, t, spec);
      assert Required(t, spec);
    }
    Walk(w1, n, w1.store.clusters[n], FirstSlot(spec));
  }

  lemma ServeSparesOtherSelectors<S>(v: View<S>, n: Name, req: Request<S>, admitted: bool, key: ChildKey)
    requires key in v.children && !req.DeleteChild?
    requires req.UpdateChild? && req.key == key ==> !SelectorAccepted(v.children[key].managed, req.managed)
    ensures SameAt(v.children, Serve(v, n, req, admitted).view.children, key)
  {
  }

  lemma OwnRequestOn(n: Name, p: ClusterProc, slot: ClusterSlot)
    requires var req := ClusterRequest(n, p); req.UpdateChild? && req.key == ClusterChildKey(slot, n)
    ensures ClusterRequest(n, p).managed == ClusterChild(slot, n, p.base.spec)
  {
    hide ClusterChild, ClusterChildKey;
    ClusterChildNamesNeverCollide(slot, n, p.pc.slot, n);
  }

  /** A child something stands in the way of is left alone by every call of this reconcile. */
  lemma NextSparesBlocked(w: World, n: Name, slot: ClusterSlot, spec: ClusterSpec)
    requires Inv(w) && n in w.clusterProcs && !Free(w.store, n, slot, spec)
    ensures SameAt(w.store.children, Next(w, n).store.children, ClusterChildKey(slot, n))
  {
    hide ClusterResume, ClusterChild, ClusterChildKey;
    var v, p, key := ClusterView(w.store), w.clusterProcs[n], ClusterChildKey(slot, n);
    assert ClusterProcOk(v, n, p);
    if ControlledByOther(w.store.children[key], ByCluster, n.name) {
      assert BelongsElsewhere(key, w.store.children[key], ByCluster, n);
      ServeSparesOthers(v, n, ClusterRequest(n, p), ClusterAdmits(w, p), ByCluster, key) by { KeysAreLocal(n); }
    } else {
      if ClusterRequest(n, p).UpdateChild? && ClusterRequest(n, p).key == key {
        OwnRequestOn(n, p, slot);
        SelectorIgnoresSpec(slot, n, spec, p.base.spec);
      }
      ServeSparesOtherSelectors(v, n, ClusterRequest(n, p), ClusterAdmits(w, p), key);
    }
  }

  lemma KeysAreLocal(n: Name)
    ensures forall slot: ClusterSlot :: ClusterChildKey(slot, n).ns == n.ns
  {
  }

  lemma SelectorIgnoresSpec(slot: ClusterSlot, n: Name, spec: ClusterSpec, spec': ClusterSpec)
    ensures forall m: Managed :: SelectorAccepted(m, ClusterChild(slot, n, spec)) == SelectorAccepted(m, ClusterChild(slot, n, spec'))
  {
    hide ServerPod, RedisPod, LabelsForCluster, LabelsForRedis, ResolveBackendUrl;
  }

  lemma {:induction false} FinishSparesBlocked(w: World, n: Name, slot: ClusterSlot, spec: ClusterSpec)
    requires Inv(w) && !Free(w.store, n, slot, spec)
    ensures var key := ClusterChildKey(slot, n); SameAt(w.store.children, Finish(w, n).store.children, key)
    decreases if n in w.clusterProcs then 1 + ClusterRank(w.clusterProcs[n]) else 0
  {
    hide ClusterChild, ClusterChildKey, Inv;
    if n in w.clusterProcs {
      StepKeepsInv(w, ClusterCall(n, Delivered));
      NextSparesBlocked(w, n, slot, spec);
      ResumeDescends(n, w.clusterProcs[n], ClusterServed(w, n).reply, w.now);
      FinishSparesBlocked(Next(w, n), n, slot, spec);
    }
  }

  /**
   Crash convergence.  From every reachable world - after any edits, failures and crashes - one
   uninterrupted reconcile of a live cluster with a supported backend leaves every required child
   under its control with exactly the managed fields its current spec computes, if and only if
   beforehand none of them was controlled by someone else or had another selector.
   */
  lemma ClusterConverges(w: World, n: Name)
    requires Reachable(w) && n in w.store.clusters && n !in w.clusterProcs
    requires !w.store.clusters[n].deleting && Supported(w.store.clusters[n].spec)
    ensures var cr, s' := w.store.clusters[n], Reconcile(w, n).store;
      (forall t | Required(t, cr.spec) :: Free(w.store, n, t, cr.spec))
        <==> (forall t | Required(t, cr.spec) :: SettledAt(s', n, cr.uid, t, cr.spec))
  {
    ReachableInv(w);
    if w.admission { ReachableAdmitted(w); }
    var cr, s' := w.store.clusters[n], Reconcile(w, n).store;
    if forall t | Required(t, cr.spec) :: Free(w.store, n, t, cr.spec) {
      var w1 := FreeReconcileSettles(w, n);
      hide Wanted, SettledAt, Reconcile;
      forall t | Required(t, cr.spec) ensures SettledAt(s', n, cr.uid, t, cr.spec) {
        assert Due(t, FirstSlot(cr.spec), cr.spec) by { FirstSlotIsFirst(t, cr.spec); }
      }
    } else {
      var t: ClusterSlot :| Required(t, cr.spec) && !Free(w.store, n, t, cr.spec);
      StepKeepsInv(w, StartCluster(n));
      FinishSparesBlocked(Apply(w, StartCluster(n)), n, t, cr.spec);
      assert !SettledAt(s', n, cr.uid, t, cr.spec);
    }
  }

  lemma FirstSlotIsFirst(t: ClusterSlot, spec: ClusterSpec)
    requires Wanted(t, spec)
    ensures Order(FirstSlot(spec)) <= Order(t)
  {
  }

  /**
   The reconcile touches nothing but wanted children, persists the phase the Deployment's counts
   give, and a further reconcile writes no child at all.
   */
  lemma ConvergedStaysConverged(w: World, n: Name)
    requires Reachable(w) && n in w.store.clusters && n !in w.clusterProcs
    requires !w.store.clusters[n].deleting && Supported(w.store.clusters[n].spec)
    requires forall t | Required(t, w.store.clusters[n].spec) :: Free(w.store, n, t, w.store.clusters[n].spec)
    ensures forall key | forall t: ClusterSlot :: Wanted(t, w.store.clusters[n].spec) ==> key != ClusterChildKey(t, n) ::
      SameAt(w.store.children, Reconcile(w, n).store.children, key)
    ensures var cr, w' := w.store.clusters[n], Reconcile(w, n);
      && n in w'.store.clusters && w'.store.clusters[n].spec == cr.spec
      && Tells(w'.store.clusters[n].status, ServerOf(w'.store, n))
      && (cr.spec.backend.embedded ==> Says(w'.store.clusters[n].status.conditions, BackendReady, true))
      && Reconcile(w', n).store.children == w'.store.children && SendsNoWrite(Apply(w', StartCluster(n)), n)
  {
    if w.admission { ReachableAdmitted(w); }
    var cr, w' := w.store.clusters[n], Reconcile(w, n);
    var w1 := FreeReconcileSettles(w, n);
    hide Wanted, SettledAt, Free, Reconcile, ValidateCluster, ClusterChildKey, SendsNoWrite;
    forall key | forall t: ClusterSlot :: Wanted(t, cr.spec) ==> key != ClusterChildKey(t, n)
      ensures SameAt(w.store.children, w'.store.children, key)
    {
      assert Elsewhere(key, n, FirstSlot(cr.spec), cr.spec);
    }
    forall t | Due(t, FirstSlot(cr.spec), cr.spec) ensures SettledAt(w'.store, n, cr.uid, t, cr.spec) {}
    QuietReconcile(w', n);
  }

  /** Everything wanted is settled, or is a ServiceMonitor that cannot be written. */
  ghost predicate Content(w: World, n: Name, cr: Cr<ClusterSpec>, slot: ClusterSlot) {
    && (forall t | Due(t, slot, cr.spec) :: SettledAt(w.store, n, cr.uid, t, cr.spec))
    && (Wanted(Monitor, cr.spec) ==>
          SettledAt(w.store, n, cr.uid, Monitor, cr.spec) || !Free(w.store, n, Monitor, cr.spec))
  }

  /** Reading a settled child, or a ServiceMonitor of somebody else's, leads on without a write. */
  lemma QuietRead(w: World, n: Name, base: Cr<ClusterSpec>, slot: ClusterSlot)
    requires At(w, n, ClusterPc.Read(slot), base)
    requires SettledAt(w.store, n, base.uid, slot, base.spec) || (slot == Monitor && !Free(w.store, n, Monitor, base.spec))
    ensures var w1 := Next(w, n);
      && w1.store == w.store && w1.admission == w.admission && At(w1, n, PcAfter(slot, base.spec), base)
      && !WritesChild(ClusterRequest(n, w.clusterProcs[n]))
  {
    hide Next, LabelsForCluster;
    ReadCall(w, n, base, slot);
  }

  lemma QuietWalk(w: World, n: Name, base: Cr<ClusterSpec>, slot: ClusterSlot)
    requires At(w, n, ClusterPc.Read(slot), base) && Wanted(slot, base.spec) && OJS_FINALIZER in base.finalizers && Told(w, n)
    requires Content(w, n, base, slot)
    ensures Finish(w, n).store.children == w.store.children && SendsNoWrite(w, n)
    decreases 7 - Order(slot)
  {
    hide Finish, Next, SendsNoWrite, Wanted, Free, SettledAt, ClusterChild, ClusterChildKey, ClusterNext, Told;
    var spec, w1, next := base.spec, Next(w, n), ClusterNext(slot, base.spec);
    NextIsTold(w, n);
    if slot != Monitor { assert Due(slot, slot, spec); }
    FinishNext(w, n);
    QuietRead(w, n, base, slot);
    SendsNext(w, n);
    if slot == Monitor || next.None? {
      NothingAfterMonitor(spec);
      Ending(w1, n, base);
    } else {
      NextIsWanted(slot, spec);
      assert Content(w1, n, base, next.value) by { SameChildrenContent(w, w1, n, base, slot, next.value); }
      QuietWalk(w1, n, base, next.value);
    }
  }

  lemma SameChildrenContent(w: World, w1: World, n: Name, cr: Cr<ClusterSpec>, slot: ClusterSlot, next: ClusterSlot)
    requires Content(w, n, cr, slot) && w1.store.children == w.store.children && Order(slot) <= Order(next)
    ensures Content(w1, n, cr, next)
  {
    hide ClusterChild, Wanted, ClusterChildKey;
    forall t | Due(t, next, cr.spec) ensures SettledAt(w1.store, n, cr.uid, t, cr.spec) {
      assert Due(t, slot, cr.spec);
    }
  }

  lemma QuietReconcile(w: World, n: Name)
    requires Admissible(w, n) && !w.store.clusters[n].deleting && n !in w.clusterProcs
    requires Supported(w.store.clusters[n].spec)
    requires Content(w, n, w.store.clusters[n], FirstSlot(w.store.clusters[n].spec))
    ensures Reconcile(w, n).store.children == w.store.children && SendsNoWrite(Apply(w, StartCluster(n)), n)
  {
    hide ValidateCluster, Finish, ClusterChild, Content, SendsNoWrite;
    var slot := FirstSlot(w.store.clusters[n].spec);
    var w1 := Beginning(w, n);
    assert Content(w1, n, w1.store.clusters[n], slot) by {
      SameChildrenContent(w, w1, n, w.store.clusters[n], slot, slot);
      ContentIgnoresStatus(w1, n, w.store.clusters[n], w1.store.clusters[n], slot);
    }
    QuietWalk(w1, n, w1.store.clusters[n], slot);
  }

  lemma ContentIgnoresStatus(w: World, n: Name, cr: Cr<ClusterSpec>, cr1: Cr<ClusterSpec>, slot: ClusterSlot)
    requires cr.spec == cr1.spec && cr.uid == cr1.uid && Content(w, n, cr, slot)
    ensures Content(w, n, cr1, slot)
  {
  }

  /** A backend that cannot be embedded stops every reconcile before its first child. */
  lemma UnsupportedBackendWritesNoChild(w: World, n: Name)
    requires Reachable(w) && n in w.store.clusters && n !in w.clusterProcs
    requires !w.store.clusters[n].deleting && !Supported(w.store.clusters[n].spec)
    ensures Reconcile(w, n).store.children == w.store.children
  {
    if w.admission { ReachableAdmitted(w); }
    hide ValidateCluster, Next;
    var w1 := Beginning(w, n);
    FinishNext(w1, n);
    StatusCall(w1, n, w1.store.clusters[n]);
  }

  /** And every other reconcile too: whatever its calls do, none gets to write a child without a supported backend. */
  lemma OnlySupportedBackendsWriteChildren(w: World, n: Name)
    requires Reachable(w) && n in w.clusterProcs && WritesChild(ClusterRequest(n, w.clusterProcs[n]))
    ensures Supported(w.clusterProcs[n].base.spec)
  {
    hide Reachable, MemoryOk;
    ReachableMemory(w);
    MemoryOfCluster(w, n);
  }

  // ---------------------------------------------------------------- a failed backend is stored as failed

  predicate RedisSlot(slot: ClusterSlot) {
    slot == RedisDeployment || slot == RedisService
  }

  lemma BlockedRedisRead(w: World, n: Name, base: Cr<ClusterSpec>, slot: ClusterSlot)
    requires At(w, n, ClusterPc.Read(slot), base) && RedisSlot(slot)
    requires var key := ClusterChildKey(slot, n);
      key in w.store.children && ControlledByOther(w.store.children[key], ByCluster, n.name)
    ensures At(Next(w, n), n, ClusterPc.ReportBackend, base)
  {
    hide ClusterChild, SetCondition;
  }

  lemma BlockedRedisWrite(w: World, n: Name, base: Cr<ClusterSpec>, slot: ClusterSlot, found: Child)
    requires At(w, n, ClusterPc.Write(slot, Some(found)), base) && RedisSlot(slot)
    requires ClusterChildKey(slot, n) in w.store.children && w.store.children[ClusterChildKey(slot, n)] == found
    requires !Free(w.store, n, slot, base.spec) && !ControlledByOther(found, ByCluster, n.name)
    ensures At(Next(w, n), n, ClusterPc.ReportBackend, base)
  {
    hide ClusterChild, SetCondition;
  }

  lemma SettledHasItsSelector(s: Store, n: Name, uid: nat, slot: ClusterSlot, spec: ClusterSpec)
    requires SettledAt(s, n, uid, slot, spec)
    ensures Free(s, n, slot, spec)
  {
    hide ClusterChild;
  }

  lemma BlockedRedisVisit(w: World, n: Name, base: Cr<ClusterSpec>, slot: ClusterSlot)
    requires At(w, n, ClusterPc.Read(slot), base) && RedisSlot(slot) && !Free(w.store, n, slot, base.spec)
    ensures At(Visit(w, n), n, ClusterPc.ReportBackend, base)
  {
    hide Next, ClusterChild, SelectorAccepted;
    var key := ClusterChildKey(slot, n);
    if ControlledByOther(w.store.children[key], ByCluster, n.name) {
      BlockedRedisRead(w, n, base, slot);
    } else {
      if SettledAt(w.store, n, base.uid, slot, base.spec) { SettledHasItsSelector(w.store, n, base.uid, slot, base.spec); }
      ReadCall(w, n, base, slot);
      BlockedRedisWrite(Next(w, n), n, base, slot, w.store.children[key]);
    }
  }

  lemma ReportIsStored(w: World, n: Name, base: Cr<ClusterSpec>)
    requires At(w, n, ClusterPc.ReportBackend, base) && OJS_FINALIZER in base.finalizers && Told(w, n)
    ensures var w' := Finish(w, n);
      && n in w'.store.clusters
      && Says(w'.store.clusters[n].status.conditions, BackendReady, false)
      && Says(w'.store.clusters[n].status.conditions, Degraded, true)
  {
    hide Next;
    FinishNext(w, n);
    StatusCall(w, n, base);
  }

  /** The embedded backend cannot be made: it is not redis, or one of redis's two children cannot be written. */
  predicate BackendBlocked(s: Store, n: Name, spec: ClusterSpec) {
    spec.backend.embedded
    && (spec.backend.engine != "redis" || !Free(s, n, RedisDeployment, spec) || !Free(s, n, RedisService, spec))
  }

  /** Then an uninterrupted reconcile of a live cluster stores BackendReady false and Degraded true. */
  lemma FailedBackendIsStored(w: World, n: Name)
    requires Reachable(w) && n in w.store.clusters && n !in w.clusterProcs && !w.store.clusters[n].deleting
    requires BackendBlocked(w.store, n, w.store.clusters[n].spec)
    ensures var w' := Reconcile(w, n);
      && n in w'.store.clusters
      && Says(w'.store.clusters[n].status.conditions, BackendReady, false)
      && Says(w'.store.clusters[n].status.conditions, Degraded, true)
  {
    if w.admission { ReachableAdmitted(w); }
    hide ValidateCluster, Next, Finish, Free, SettledAt, ClusterChild, Told, Visit, Reachable, SendsNoWrite, OnlyTouches;
    var w1 := Beginning(w, n);
    var base := w1.store.clusters[n];
    if base.spec.backend.engine != "redis" {
      ReportIsStored(w1, n, base);
    } else {
      SameChildrenSameFreedom(w.store, w1.store, n, RedisDeployment, base.spec);
      SameChildrenSameFreedom(w.store, w1.store, n, RedisService, base.spec);
      FinishVisits(w1, n);
      VisitIsTold(w1, n);
      var w2 := Visit(w1, n);
      if Free(w1.store, n, RedisDeployment, base.spec) {
        VisitSettles(w1, n, base, RedisDeployment);
        TouchingOneSlot(w1.store, w2.store, n, base.uid, RedisDeployment, RedisService, base.spec);
        FinishVisits(w2, n);
        VisitIsTold(w2, n);
        BlockedRedisVisit(w2, n, base, RedisService);
        ReportIsStored(Visit(w2, n), n, base);
      } else {
        BlockedRedisVisit(w1, n, base, RedisDeployment);
        ReportIsStored(w2, n, base);
      }
    }
  }

  // ---------------------------------------------------------------- its own children never stand in the way

  /** A child fits its kind, and a Deployment a cluster controls under its own name has the selector it is made with. */
  predicate OwnSelector(key: ChildKey, c: Child, n: Name, slot: ClusterSlot, spec: ClusterSpec) {
    && Fits(key.kind, c.managed)
    && (key == ClusterChildKey(slot, n) && c.controller.Some? && !ControlledByOther(c, ByCluster, n.name) ==>
          SelectorAccepted(c.managed, ClusterChild(slot, n, spec)))
  }

  ghost predicate OwnSelectors(children: Children, n: Name, slot: ClusterSlot, spec: ClusterSpec) {
    forall key :: key in children ==> OwnSelector(key, children[key], n, slot, spec)
  }

  lemma PayloadFits(m: Name, slot: ClusterSlot, spec: ClusterSpec)
    ensures Fits(ClusterChildKey(slot, m).kind, ClusterChild(slot, m, spec))
  {
    hide ServerPod, RedisPod, LabelsForCluster, LabelsForRedis, ResolveBackendUrl;
  }

  lemma WorkerPayloadFits(m: Name, slot: WorkerSlot, spec: WorkerSpec)
    ensures Fits(WorkerChildKey(slot, m).kind, WorkerChild(slot, m, spec))
  {
    hide WorkerPod, LabelsForWorker;
  }

  lemma ServeKeepsOwnSelectors<S>(v: View<S>, m: Name, req: Request<S>, admitted: bool,
                                  n: Name, slot: ClusterSlot, spec: ClusterSpec)
    requires OwnSelectors(v.children, n, slot, spec)
    requires req.CreateChild? || req.UpdateChild? ==> Fits(req.key.kind, req.managed)
    requires req.CreateChild? || req.UpdateChild? ==>
      req.key == ClusterChildKey(slot, n) && req.controller.kind == ByCluster && req.controller.name == n.name ==>
        SelectorAccepted(req.managed, ClusterChild(slot, n, spec))
    ensures OwnSelectors(Serve(v, m, req, admitted).view.children, n, slot, spec)
  {
    hide ClusterChild, ClusterChildKey;
  }

  lemma ClusterCallKeepsOwnSelectors(w: World, m: Name, outcome: Outcome, n: Name, slot: ClusterSlot, spec: ClusterSpec)
    requires m in w.clusterProcs && OwnSelectors(w.store.children, n, slot, spec)
    ensures OwnSelectors(ClusterStep(w, m, outcome).store.children, n, slot, spec)
  {
    hide ClusterResume, ClusterChild, ClusterChildKey, OwnSelectors, Fits, SelectorAccepted;
    var p := w.clusterProcs[m];
    if p.Active? && p.pc.Write? {
      PayloadFits(m, p.pc.slot, p.base.spec);
      if ClusterRequest(m, p).key == ClusterChildKey(slot, n) {
        ClusterChildNamesNeverCollide(p.pc.slot, m, slot, n);
        SelectorIgnoresSpec(slot, n, spec, p.base.spec);
        assert SelectorAccepted(ClusterRequest(m, p).managed, ClusterChild(slot, n, spec)) by {
          PayloadHasItsSelector(slot, n, p.base.spec, spec);
        }
      }
    }
    ServeKeepsOwnSelectors(ClusterView(w.store), m, ClusterRequest(m, p), ClusterAdmits(w, p), n, slot, spec);
  }

  lemma PayloadHasItsSelector(slot: ClusterSlot, n: Name, spec: ClusterSpec, spec': ClusterSpec)
    ensures SelectorAccepted(ClusterChild(slot, n, spec), ClusterChild(slot, n, spec'))
  {
    hide ServerPod, RedisPod, LabelsForCluster, LabelsForRedis, ResolveBackendUrl;
  }

  lemma WorkerCallKeepsOwnSelectors(w: World, m: Name, outcome: Outcome, n: Name, slot: ClusterSlot, spec: ClusterSpec)
    requires m in w.workerProcs && OwnSelectors(w.store.children, n, slot, spec)
    ensures OwnSelectors(WorkerStep(w, m, outcome).store.children, n, slot, spec)
  {
    hide WorkerResume, WorkerChild, ClusterChild, ClusterChildKey, WorkerChildKey, OwnSelectors, Fits, SelectorAccepted;
    var p := w.workerProcs[m];
    if p.Active? && p.pc.Write? { WorkerPayloadFits(m, p.pc.slot, p.base.spec); }
    if !WorkerRequest(m, p).GetCluster? {
      ServeKeepsOwnSelectors(WorkerView(w.store), m, WorkerRequest(m, p), WorkerAdmits(w, p), n, slot, spec);
    }
  }

  lemma ForeignKeepsOwnSelectors(s: Store, a: Action, n: Name, slot: ClusterSlot, spec: ClusterSpec)
    requires a.ForeignCreatesChild? || a.ForeignEditsChild? || a.ForeignDeletesChild? || a.Collect?
    requires OwnSelectors(s.children, n, slot, spec)
    ensures OwnSelectors(ForeignWrite(s, a).children, n, slot, spec)
  {
    hide ClusterChild, ClusterChildKey;
  }

  lemma {:induction false} RunKeepsOwnSelectors(w: World, actions: seq<Action>, n: Name, slot: ClusterSlot, spec: ClusterSpec)
    requires OwnSelectors(w.store.children, n, slot, spec)
    ensures OwnSelectors(Run(w, actions).store.children, n, slot, spec)
    decreases |actions|
  {
    hide OwnSelectors, ClusterStep, WorkerStep, ForeignWrite, UserDoes;
    if actions != [] {
      var a := actions[0];
      if a.ClusterCall? && a.n in w.clusterProcs {
        ClusterCallKeepsOwnSelectors(w, a.n, a.outcome, n, slot, spec);
      } else if a.WorkerCall? && a.n in w.workerProcs {
        WorkerCallKeepsOwnSelectors(w, a.n, a.outcome, n, slot, spec);
      } else if a.ForeignCreatesChild? || a.ForeignEditsChild? || a.ForeignDeletesChild? || a.Collect? {
        ForeignKeepsOwnSelectors(w.store, a, n, slot, spec);
      } else if !a.ClusterCall? && !a.WorkerCall? {
        UsersLeaveChildren(w, a);
      }
      RunKeepsOwnSelectors(Apply(w, a), actions[1..], n, slot, spec);
    }
  }

  /** In every reachable world a child this cluster controls is free to be written, so only others' objects can block it. */
  lemma OwnChildrenAreFree(w: World, n: Name, slot: ClusterSlot, spec: ClusterSpec)
    requires Reachable(w) && ClusterChildKey(slot, n) in w.store.children
    requires var c := w.store.children[ClusterChildKey(slot, n)];
      c.controller.Some? && c.controller.value.kind == ByCluster && c.controller.value.name == n.name
    ensures Free(w.store, n, slot, spec)
  {
    var admission, actions :| w == Run(Initial(admission), actions);
    RunKeepsOwnSelectors(Initial(admission), actions, n, slot, spec);
    hide ClusterChild, ClusterChildKey;
  }

  /** So a cluster with nothing foreign at the names it needs converges, whatever happened before. */
  lemma OwnClusterConverges(w: World, n: Name)
    requires Reachable(w) && n in w.store.clusters && n !in w.clusterProcs
    requires !w.store.clusters[n].deleting && Supported(w.store.clusters[n].spec)
    requires forall t | Required(t, w.store.clusters[n].spec) && ClusterChildKey(t, n) in w.store.children ::
      var c := w.store.children[ClusterChildKey(t, n)]; c.controller.Some? && !ControlledByOther(c, ByCluster, n.name)
    ensures var cr := w.store.clusters[n];
      forall t | Required(t, cr.spec) :: SettledAt(Reconcile(w, n).store, n, cr.uid, t, cr.spec)
  {
    var spec := w.store.clusters[n].spec;
    forall t | Required(t, spec) ensures Free(w.store, n, t, spec) {
      if ClusterChildKey(t, n) in w.store.children { OwnChildrenAreFree(w, n, t, spec); }
    }
    hide Free, SettledAt, Reconcile, Required, Reachable;
    ClusterConverges(w, n);
  }
}
