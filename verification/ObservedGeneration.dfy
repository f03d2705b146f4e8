/**
 Which conditions a status write sets, and with which generation.  `Drift` relates the status a
 reconcile holds in memory to the one it last read: the touched conditions carry the generation
 read, the others are as they were.
 */
module ObservedGeneration {
  import opened OjsTypes
  import opened Payloads
  import opened ApiServer
  import opened Observation
  import opened ClusterMachine
  import opened WorkerMachine
  import opened Operator
  import opened Invariants

  ghost predicate Drift(old_: seq<Condition>, new_: seq<Condition>, touched: set<ConditionType>, gen: nat) {
    forall t: ConditionType ::
      if t in touched then Find(new_, t).Some? && Find(new_, t).value.observed == gen
      else Find(new_, t) == Find(old_, t)
  }

  const OBSERVED := {Ready, Available, Progressing, Degraded}

  /** The conditions a cluster reconcile has set since it last read the cluster. */
  function ClusterTouched(pc: ClusterPc, spec: ClusterSpec): set<ConditionType> {
    var backend := if spec.backend.embedded then {BackendReady} else {};
    match pc
    case DropFinalizer | AddFinalizer => {}
    case Initialize => {Progressing}
    case Read(slot) => if slot.RedisDeployment? || slot.RedisService? then {} else backend
    case Write(slot, _) => if slot.RedisDeployment? || slot.RedisService? then {} else backend
    case ReportBackend => {BackendReady, Degraded}
    case ReadServer => backend
    case WriteStatus => backend + OBSERVED
  }

  function WorkerTouched(pc: WorkerPc): set<ConditionType> {
    match pc
    case ReportOrphan => {Ready, Degraded}
    case WriteStatus => OBSERVED
    case _ => {}
  }

  /** Phases in memory and last read: they differ only when a status write is due. */
  predicate ClusterPhases(pc: ClusterPc, read: Phase, held: Phase) {
    match pc
    case DropFinalizer | AddFinalizer => held == read
    case Initialize => read == Unset && held == Pending
    case WriteStatus => read != Unset && held !in {Unset, Error}
    case _ => held == read && read != Unset
  }

  ghost predicate ClusterDrift(p: ClusterProc) {
    p.Active? ==>
      && ClusterPhases(p.pc, p.base.status.phase, p.status.phase)
      && Drift(p.base.status.conditions, p.status.conditions, ClusterTouched(p.pc, p.base.spec), p.base.gen)
  }

  ghost predicate WorkerDrift(p: WorkerProc) {
    p.Active? ==>
      && (!p.pc.ReportOrphan? && !p.pc.WriteStatus? ==> p.status == p.base.status)
      && (p.pc.ReportOrphan? ==> p.status.phase == Error)
      && (p.pc.WriteStatus? ==> p.status.phase !in {Unset, Error})
      && Drift(p.base.status.conditions, p.status.conditions, WorkerTouched(p.pc), p.base.gen)
  }

  ghost predicate ClusterTurnDrift(turn: ClusterTurn) {
    turn.next.Some? ==> ClusterDrift(turn.next.value)
  }

  ghost predicate WorkerTurnDrift(turn: WorkerTurn) {
    turn.next.Some? ==> WorkerDrift(turn.next.value)
  }

  lemma DriftSet(old_: seq<Condition>, cs: seq<Condition>, touched: set<ConditionType>, gen: nat,
                 t: ConditionType, status: bool, now: nat)
    requires Drift(old_, cs, touched, gen)
    ensures Drift(old_, SetCondition(cs, t, status, gen, now), touched + {t}, gen)
  {
    hide SetCondition, Find;
  }

  lemma ObserveDrift(old_: seq<Condition>, st: Status, touched: set<ConditionType>, server: Option<Unmanaged>, gen: nat, now: nat)
    requires Drift(old_, st.conditions, touched, gen)
    ensures var r := Observe(st, server, gen, now);
      r.phase !in {Unset, Error} && Drift(old_, r.conditions, touched + OBSERVED, gen)
  {
    hide Drift, SetCondition;
    var r := Observe(st, server, gen, now);
    var available, degraded := r.phase != Pending, r.phase == Scaling;
    var c1 := SetCondition(st.conditions, Ready, r.phase == Running, gen, now);
    var c2 := SetCondition(c1, Available, available, gen, now);
    var c3 := SetCondition(c2, Progressing, r.phase != Running, gen, now);
    DriftSet(old_, st.conditions, touched, gen, Ready, r.phase == Running, now);
    DriftSet(old_, c1, touched + {Ready}, gen, Available, available, now);
    DriftSet(old_, c2, touched + {Ready} + {Available}, gen, Progressing, r.phase != Running, now);
    DriftSet(old_, c3, touched + {Ready} + {Available} + {Progressing}, gen, Degraded, degraded, now);
    assert touched + {Ready} + {Available} + {Progressing} + {Degraded} == touched + OBSERVED;
  }

  lemma NoDrift(cs: seq<Condition>, gen: nat)
    ensures Drift(cs, cs, {}, gen)
  {
  }

  lemma BackendDownDrift(base: Cr<ClusterSpec>, st: Status, touched: set<ConditionType>, now: nat)
    requires touched <= {BackendReady} && Drift(base.status.conditions, st.conditions, touched, base.gen)
    requires st.phase == base.status.phase != Unset
    ensures ClusterTurnDrift(ClusterBackendFailed(base, st, now))
  {
    hide Drift, SetCondition;
    var down := SetCondition(st.conditions, BackendReady, false, base.gen, now);
    DriftSet(base.status.conditions, st.conditions, touched, base.gen, BackendReady, false, now);
    DriftSet(base.status.conditions, down, touched + {BackendReady}, base.gen, Degraded, true, now);
    assert touched + {BackendReady} + {Degraded} == {BackendReady, Degraded};
  }

  lemma ClusterFetchedDrift(n: Name, cr: Cr<ClusterSpec>, now: nat)
    ensures ClusterTurnDrift(ClusterFetched(n, cr, now))
    ensures ClusterTurnDrift(ClusterAnchored(n, cr, now))
    ensures cr.status.phase != Unset ==> ClusterTurnDrift(ClusterInitialized(n, cr, now))
  {
    hide Drift, SetCondition, ClusterBackendFailed;
    NoDrift(cr.status.conditions, cr.gen);
    DriftSet(cr.status.conditions, cr.status.conditions, {}, cr.gen, Progressing, true, now);
    assert {} + {Progressing} == {Progressing};
    if cr.status.phase != Unset { BackendDownDrift(cr, cr.status, {}, now); }
  }

  lemma ClusterSlotDrift(n: Name, p: ClusterProc, now: nat)
    requires ClusterDrift(p) && OnTrack(p) && p.Active? && (p.pc.Read? || p.pc.Write?)
    ensures ClusterTurnDrift(ClusterSlotDone(p.base, p.status, p.pc.slot, now))
    ensures ClusterTurnDrift(ClusterSlotFailed(n, p.base, p.status, p.pc.slot, now))
  {
    hide Drift, SetCondition;
    var touched := ClusterTouched(p.pc, p.base.spec);
    BackendDownDrift(p.base, p.status, touched, now);
    DriftSet(p.base.status.conditions, p.status.conditions, touched, p.base.gen, BackendReady, true, now);
    assert {} + {BackendReady} == {BackendReady};
  }

  /** Memory of a cluster reconcile, call after call. */
  lemma ClusterResumeDrift(n: Name, p: ClusterProc, reply: Reply<ClusterSpec>, now: nat)
    requires ClusterDrift(p) && OnTrack(p)
    requires p.Active? && p.pc.Initialize? && reply.GotCr? ==> reply.cr.status.phase == Pending
    ensures ClusterTurnDrift(ClusterResume(n, p, reply, now))
  {
    hide Drift, SetCondition, Observe, ClusterChild;
    if reply.GotCr? { ClusterFetchedDrift(n, reply.cr, now); }
    if p.Active? {
      if p.pc.Read? || p.pc.Write? {
        ClusterSlotDrift(n, p, now);
      } else if p.pc.ReadServer? {
        ObserveDrift(p.base.status.conditions, p.status, ClusterTouched(p.pc, p.base.spec),
          if reply.GotChild? then Some(reply.child.rest) else None, p.base.gen, now);
      }
    }
  }

  lemma WorkerResumeDrift(n: Name, p: WorkerProc, reply: Reply<WorkerSpec>, now: nat)
    requires WorkerDrift(p)
    ensures WorkerTurnDrift(WorkerResume(n, p, reply, now))
  {
    hide Drift, SetCondition, Observe, WorkerChild;
    if reply.GotCr? { NoDrift(reply.cr.status.conditions, reply.cr.gen); }
    if p.Active? {
      if p.pc.ReadParent? {
        DriftSet(p.base.status.conditions, p.status.conditions, {}, p.base.gen, Ready, false, now);
        DriftSet(p.base.status.conditions, SetCondition(p.status.conditions, Ready, false, p.base.gen, now),
          {} + {Ready}, p.base.gen, Degraded, true, now);
        assert {} + {Ready} + {Degraded} == {Ready, Degraded};
      } else if p.pc.ReadServer? {
        ObserveDrift(p.base.status.conditions, p.status, {},
          if reply.GotChild? then Some(reply.child.rest) else None, p.base.gen, now);
        assert {} + OBSERVED == OBSERVED;
      }
    }
  }

  // ---------------------------------------------------------------- every reachable world

  /** The invariant, together with what reconciles hold in memory and what stored conditions observe. */
  ghost predicate MemoryOk(w: World) {
    && Inv(w)
    && (forall n :: n in w.clusterProcs ==> OnTrack(w.clusterProcs[n]) && ClusterDrift(w.clusterProcs[n]))
    && (forall n :: n in w.workerProcs ==> WorkerDrift(w.workerProcs[n]))
  }

  lemma ClusterCallKeepsMemory(w: World, n: Name, outcome: Outcome)
    requires MemoryOk(w) && n in w.clusterProcs
    ensures var w' := ClusterStep(w, n, outcome);
      n in w'.clusterProcs ==> OnTrack(w'.clusterProcs[n]) && ClusterDrift(w'.clusterProcs[n])
  {
    hide Inv, ClusterDrift, OnTrack, ClusterResume, ClusterChild, ClusterAdmits;
    var p, served := w.clusterProcs[n], ClusterServed(w, n);
    var reply := if outcome.Delivered? then served.reply else Failed;
    assert p.Active? && p.pc.Initialize? && reply.GotCr? ==> reply.cr.status.phase == Pending by {
      InitializeWritesPending(w, n);
    }
    ResumeOnTrack(n, p, reply, w.now);
    ClusterResumeDrift(n, p, reply, w.now);
  }

  lemma InitializeWritesPending(w: World, n: Name)
    requires n in w.clusterProcs && ClusterDrift(w.clusterProcs[n])
    ensures var p, reply := w.clusterProcs[n], ClusterServed(w, n).reply;
      p.Active? && p.pc.Initialize? && reply.GotCr? ==> reply.cr.status.phase == Pending
  {
    hide Drift;
  }

  lemma WorkerCallKeepsMemory(w: World, n: Name, outcome: Outcome)
    requires MemoryOk(w) && n in w.workerProcs
    ensures var w' := WorkerStep(w, n, outcome);
      n in w'.workerProcs ==> WorkerDrift(w'.workerProcs[n])
  {
    hide Inv, WorkerDrift, WorkerResume, WorkerAdmits;
    WorkerResumeDrift(n, w.workerProcs[n], if outcome.Delivered? then WorkerServed(w, n).reply else Failed, w.now);
  }

  lemma StepKeepsMemory(w: World, a: Action)
    requires MemoryOk(w)
    ensures MemoryOk(Apply(w, a))
  {
    hide Inv, WorkerDrift, ClusterDrift, OnTrack, Serve, ServeWorker, ClusterResume, WorkerResume, UserDoes, ForeignWrite;
    StepKeepsInv(w, a);
    if a.ClusterCall? {
      if a.n in w.clusterProcs { ClusterCallKeepsMemory(w, a.n, a.outcome); }
    } else if a.WorkerCall? {
      if a.n in w.workerProcs { WorkerCallKeepsMemory(w, a.n, a.outcome); }
    } else if a.StartCluster? {
      assert OnTrack(ClusterProc.Starting) && ClusterDrift(ClusterProc.Starting) by { StartingOk(); }
    } else if a.StartWorker? {
      assert WorkerDrift(WorkerProc.Starting) by { StartingOk(); }
    }
  }

  lemma StartingOk()
    ensures OnTrack(ClusterProc.Starting) && ClusterDrift(ClusterProc.Starting) && WorkerDrift(WorkerProc.Starting)
  {
  }

  lemma {:induction false} RunKeepsMemory(w: World, actions: seq<Action>)
    requires MemoryOk(w)
    ensures MemoryOk(Run(w, actions))
    decreases |actions|
  {
    hide MemoryOk, Apply;
    if actions != [] {
      StepKeepsMemory(w, actions[0]);
      RunKeepsMemory(Apply(w, actions[0]), actions[1..]);
    }
  }

  lemma ReachableMemory(w: World)
    requires Reachable(w)
    ensures MemoryOk(w)
  {
    var admission, actions :| w == Run(Initial(admission), actions);
    RunKeepsMemory(Initial(admission), actions);
  }

  // ---------------------------------------------------------------- a status write that succeeds

  /** The new status against the stored resource: touched conditions observe its generation, the rest are its own. */
  ghost predicate FreshStatus<S>(stored: Cr<S>, status: Status, touched: set<ConditionType>) {
    Drift(stored.status.conditions, status.conditions, touched, stored.gen)
  }

  /**
   When a cluster's status write goes through, every condition the reconcile touched carries the
   generation stored at that moment, and every other condition is the stored one.
   */
  lemma ClusterStatusWriteIsCurrent(w: World, n: Name, outcome: Outcome)
    requires MemoryOk(w) && n in w.clusterProcs && ClusterRequest(n, w.clusterProcs[n]).PutStatus?
    requires Current(w.store.clusters, n, w.clusterProcs[n].base) && !outcome.Dropped?
    ensures var p, before, s' := w.clusterProcs[n], w.store.clusters[n], Apply(w, ClusterCall(n, outcome)).store;
      && n in s'.clusters && s'.clusters[n].gen == before.gen && s'.clusters[n].status == p.status
      && FreshStatus(before, s'.clusters[n].status, ClusterTouched(p.pc, before.spec))
  {
    hide Drift, ClusterResume;
    var p := w.clusterProcs[n];
    MemoryOfCluster(w, n);
    assert ClusterProcOk(ClusterView(w.store), n, p);
  }

  lemma MemoryOfCluster(w: World, n: Name)
    requires MemoryOk(w) && n in w.clusterProcs
    ensures OnTrack(w.clusterProcs[n]) && ClusterDrift(w.clusterProcs[n])
  {
    hide ClusterDrift, Inv;
  }

  lemma MemoryOfWorker(w: World, n: Name)
    requires MemoryOk(w) && n in w.workerProcs
    ensures WorkerDrift(w.workerProcs[n])
  {
    hide WorkerDrift, Inv;
  }

  lemma WorkerStatusWriteIsCurrent(w: World, n: Name, outcome: Outcome)
    requires MemoryOk(w) && n in w.workerProcs && WorkerRequest(n, w.workerProcs[n]).PutStatus?
    requires Current(w.store.workers, n, w.workerProcs[n].base) && !outcome.Dropped?
    ensures var p, before, s' := w.workerProcs[n], w.store.workers[n], Apply(w, WorkerCall(n, outcome)).store;
      && n in s'.workers && s'.workers[n].gen == before.gen && s'.workers[n].status == p.status
      && FreshStatus(before, s'.workers[n].status, WorkerTouched(p.pc))
  {
    hide Drift, WorkerResume;
    var p := w.workerProcs[n];
    MemoryOfWorker(w, n);
    assert WorkerProcOk(WorkerView(w.store), n, p);
  }

  // ---------------------------------------------------------------- over a run

  /** Generations and observed generations only grow, and no condition disappears. */
  ghost predicate Later<S>(before: Cr<S>, after: Cr<S>) {
    && before.uid == after.uid
    && before.gen <= after.gen
    && forall t: ConditionType :: Find(before.status.conditions, t).Some? ==>
         && Find(after.status.conditions, t).Some?
         && Find(before.status.conditions, t).value.observed <= Find(after.status.conditions, t).value.observed
  }

  /** No condition observes a generation the resource has not had. */
  ghost predicate ObservesPast<S>(cr: Cr<S>) {
    forall t: ConditionType :: Find(cr.status.conditions, t).Some? ==>
      Find(cr.status.conditions, t).value.observed <= cr.gen
  }

  ghost predicate ViewObservesPast<S>(v: View<S>) {
    forall n :: n in v.crs ==> ObservesPast(v.crs[n])
  }

  /** Resource `n` afterwards: later than before, or newly created. */
  ghost predicate Advances<S>(v: View<S>, v': View<S>, n: Name) {
    n in v'.crs ==>
      && ObservesPast(v'.crs[n])
      && ((n in v.crs && Later(v.crs[n], v'.crs[n])) || v'.crs[n].uid >= v.nextUid)
  }

  lemma FreshStatusAdvances<S>(before: Cr<S>, after: Cr<S>, touched: set<ConditionType>)
    requires ObservesPast(before) && FreshStatus(before, after.status, touched)
    requires after.uid == before.uid && after.gen == before.gen
    ensures Later(before, after) && ObservesPast(after)
  {
  }

  lemma UntouchedAdvances<S>(v: View<S>, v': View<S>, n: Name)
    requires ViewObservesPast(v) && Untouched(v, v', n)
    ensures Advances(v, v', n)
  {
  }

  lemma ServeAdvances<S>(v: View<S>, n: Name, req: Request<S>, admitted: bool)
    requires ViewObservesPast(v) && !req.PutStatus?
    ensures Advances(v, Serve(v, n, req, admitted).view, n)
  {
  }

  lemma ClusterStepAdvances(w: World, a: Action, n: Name)
    requires MemoryOk(w) && ViewObservesPast(ClusterView(w.store))
    ensures Advances(ClusterView(w.store), ClusterView(Apply(w, a).store), n)
  {
    if a.ClusterCall? && a.n == n {
      if n in w.clusterProcs { ClusterCallAdvances(w, n, a.outcome); }
    } else {
      hide Apply, ObservesPast, Later;
      OthersLeaveCluster(w, a, n);
      UntouchedAdvances(ClusterView(w.store), ClusterView(Apply(w, a).store), n);
    }
  }

  lemma ClusterCallAdvances(w: World, n: Name, outcome: Outcome)
    requires MemoryOk(w) && ViewObservesPast(ClusterView(w.store)) && n in w.clusterProcs
    ensures Advances(ClusterView(w.store), ClusterView(Apply(w, ClusterCall(n, outcome)).store), n)
  {
    hide ClusterResume, Drift;
    var v, p := ClusterView(w.store), w.clusterProcs[n];
    if !ClusterRequest(n, p).PutStatus? {
      ServeAdvances(v, n, ClusterRequest(n, p), ClusterAdmits(w, p));
    } else if Current(v.crs, n, p.base) && !outcome.Dropped? {
      ClusterStatusWriteIsCurrent(w, n, outcome);
      FreshStatusAdvances(v.crs[n], Apply(w, ClusterCall(n, outcome)).store.clusters[n], ClusterTouched(p.pc, v.crs[n].spec));
    }
  }

  lemma WorkerStepAdvances(w: World, a: Action, n: Name)
    requires MemoryOk(w) && ViewObservesPast(WorkerView(w.store))
    ensures Advances(WorkerView(w.store), WorkerView(Apply(w, a).store), n)
  {
    if a.WorkerCall? && a.n == n {
      if n in w.workerProcs { WorkerCallAdvances(w, n, a.outcome); }
    } else {
      hide Apply, ObservesPast, Later;
      OthersLeaveWorker(w, a, n);
      UntouchedAdvances(WorkerView(w.store), WorkerView(Apply(w, a).store), n);
    }
  }

  lemma WorkerCallAdvances(w: World, n: Name, outcome: Outcome)
    requires MemoryOk(w) && ViewObservesPast(WorkerView(w.store)) && n in w.workerProcs
    ensures Advances(WorkerView(w.store), WorkerView(Apply(w, WorkerCall(n, outcome)).store), n)
  {
    hide WorkerResume, Drift;
    var v, p := WorkerView(w.store), w.workerProcs[n];
    if WorkerRequest(n, p).GetCluster? {
    } else if !WorkerRequest(n, p).PutStatus? {
      ServeAdvances(v, n, WorkerRequest(n, p), WorkerAdmits(w, p));
    } else if Current(v.crs, n, p.base) && !outcome.Dropped? {
      WorkerStatusWriteIsCurrent(w, n, outcome);
      FreshStatusAdvances(v.crs[n], Apply(w, WorkerCall(n, outcome)).store.workers[n], WorkerTouched(p.pc));
    }
  }

  /** The resource of that uid is not at `n`, and the uid is used up. */
  predicate CrAbsent<S>(v: View<S>, n: Name, uid: nat) {
    uid < v.nextUid && (n in v.crs ==> v.crs[n].uid != uid)
  }

  ghost predicate AllObservePast(w: World) {
    ViewObservesPast(ClusterView(w.store)) && ViewObservesPast(WorkerView(w.store))
  }

  lemma StepAdvances(w: World, a: Action)
    requires MemoryOk(w) && AllObservePast(w)
    ensures var w' := Apply(w, a);
      && MemoryOk(w') && AllObservePast(w') && w.store.nextUid <= w'.store.nextUid
      && (forall n :: Advances(ClusterView(w.store), ClusterView(w'.store), n))
      && (forall n :: Advances(WorkerView(w.store), WorkerView(w'.store), n))
  {
    hide MemoryOk, Apply, ObservesPast, Later;
    StepKeepsMemory(w, a);
    assert w.store.nextUid <= Apply(w, a).store.nextUid by { UidsGrow(w, a); }
    forall n ensures Advances(ClusterView(w.store), ClusterView(Apply(w, a).store), n) { ClusterStepAdvances(w, a, n); }
    var vc, vw := ClusterView(Apply(w, a).store), WorkerView(Apply(w, a).store);
    forall n ensures Advances(WorkerView(w.store), WorkerView(Apply(w, a).store), n) { WorkerStepAdvances(w, a, n); }
    forall n | n in vc.crs ensures ObservesPast(vc.crs[n]) { assert Advances(ClusterView(w.store), vc, n); }
    forall n | n in vw.crs ensures ObservesPast(vw.crs[n]) { assert Advances(WorkerView(w.store), vw, n); }
  }

  lemma UidsGrow(w: World, a: Action)
    requires MemoryOk(w)
    ensures w.store.nextUid <= Apply(w, a).store.nextUid
  {
    hide Apply;
    StepEvolves(w, a);
  }

  lemma {:induction false} RunKeepsCrsAbsent(w: World, actions: seq<Action>, n: Name, uid: nat)
    requires MemoryOk(w) && AllObservePast(w)
    ensures CrAbsent(ClusterView(w.store), n, uid) ==> CrAbsent(ClusterView(Run(w, actions).store), n, uid)
    ensures CrAbsent(WorkerView(w.store), n, uid) ==> CrAbsent(WorkerView(Run(w, actions).store), n, uid)
    decreases |actions|
  {
    hide MemoryOk, Apply, ObservesPast, AllObservePast;
    if actions != [] {
      var w1 := Apply(w, actions[0]);
      StepAdvances(w, actions[0]);
      assert Advances(ClusterView(w.store), ClusterView(w1.store), n);
      assert Advances(WorkerView(w.store), WorkerView(w1.store), n);
      RunKeepsCrsAbsent(w1, actions[1..], n, uid);
    }
  }

  lemma LaterIsTransitive<S>(a: Cr<S>, b: Cr<S>, c: Cr<S>)
    requires Later(a, b) && Later(b, c)
    ensures Later(a, c)
  {
    hide Find;
  }

  /**
   Over any run, as long as a cluster exists under its uid, none of its conditions disappears, no
   observed generation goes back, and none is ahead of the stored generation.
   */
  lemma {:induction false} ClusterObservedGenerationsGrow(w: World, actions: seq<Action>, n: Name)
    requires MemoryOk(w) && AllObservePast(w) && n in w.store.clusters
    ensures var s' := Run(w, actions).store;
      n in s'.clusters && s'.clusters[n].uid == w.store.clusters[n].uid ==>
        Later(w.store.clusters[n], s'.clusters[n]) && ObservesPast(s'.clusters[n])
    decreases |actions|
  {
    hide Apply, ObservesPast, Later;
    var cr := w.store.clusters[n];
    assert cr.uid < w.store.nextUid by { assert CrOk(ClusterView(w.store), ClusterView(w.store).crs[n]); }
    assert Later(cr, cr) by { LaterIsReflexive(cr); }
    if actions != [] {
      var w1 := Apply(w, actions[0]);
      StepAdvances(w, actions[0]);
      assert Advances(ClusterView(w.store), ClusterView(w1.store), n);
      if n in w1.store.clusters && w1.store.clusters[n].uid == cr.uid {
        ClusterObservedGenerationsGrow(w1, actions[1..], n);
        var s' := Run(w, actions).store;
        if n in s'.clusters && s'.clusters[n].uid == cr.uid {
          LaterIsTransitive(cr, w1.store.clusters[n], s'.clusters[n]);
        }
      } else {
        RunKeepsCrsAbsent(w1, actions[1..], n, cr.uid);
      }
    }
  }

  lemma LaterIsReflexive<S>(cr: Cr<S>)
    ensures Later(cr, cr)
  {
  }

  lemma {:induction false} WorkerObservedGenerationsGrow(w: World, actions: seq<Action>, n: Name)
    requires MemoryOk(w) && AllObservePast(w) && n in w.store.workers
    ensures var s' := Run(w, actions).store;
      n in s'.workers && s'.workers[n].uid == w.store.workers[n].uid ==>
        Later(w.store.workers[n], s'.workers[n]) && ObservesPast(s'.workers[n])
    decreases |actions|
  {
    hide Apply, ObservesPast, Later;
    var cr := w.store.workers[n];
    assert cr.uid < w.store.nextUid by { assert CrOk(WorkerView(w.store), WorkerView(w.store).crs[n]); }
    assert Later(cr, cr) by { LaterIsReflexive(cr); }
    if actions != [] {
      var w1 := Apply(w, actions[0]);
      StepAdvances(w, actions[0]);
      assert Advances(WorkerView(w.store), WorkerView(w1.store), n);
      if n in w1.store.workers && w1.store.workers[n].uid == cr.uid {
        WorkerObservedGenerationsGrow(w1, actions[1..], n);
        var s' := Run(w, actions).store;
        if n in s'.workers && s'.workers[n].uid == cr.uid {
          LaterIsTransitive(cr, w1.store.workers[n], s'.workers[n]);
        }
      } else {
        RunKeepsCrsAbsent(w1, actions[1..], n, cr.uid);
      }
    }
  }

  lemma ReachableObserves(w: World)
    requires Reachable(w)
    ensures MemoryOk(w) && AllObservePast(w)
  {
    var admission, actions :| w == Run(Initial(admission), actions);
    RunObserves(Initial(admission), actions);
  }

  lemma {:induction false} RunObserves(w: World, actions: seq<Action>)
    requires MemoryOk(w) && AllObservePast(w)
    ensures MemoryOk(Run(w, actions)) && AllObservePast(Run(w, actions))
    decreases |actions|
  {
    hide MemoryOk, Apply, AllObservePast;
    if actions != [] {
      StepAdvances(w, actions[0]);
      RunObserves(Apply(w, actions[0]), actions[1..]);
    }
  }
}
