/**
 Exclusive ownership of children across both controllers: a child that has a controller keeps it
 for life, and no create or update made for one resource touches a child of another.
 */
module Ownership {
  import opened OjsTypes
  import opened Payloads
  import opened ApiServer
  import opened ClusterMachine
  import opened WorkerMachine
  import opened Observation
  import opened Operator
  import opened Invariants

  /** The child at `key` has a controller that is not the resource `n` of that kind. */
  predicate BelongsElsewhere(key: ChildKey, c: Child, kind: ControllerKind, n: Name) {
    c.controller.Some? && !(c.controller.value.kind == kind && Name(key.ns, c.controller.value.name) == n)
  }

  lemma ServeSparesOthers<S>(v: View<S>, n: Name, req: Request<S>, admitted: bool, kind: ControllerKind, key: ChildKey)
    requires req.CreateChild? || req.UpdateChild? ==> req.key.ns == n.ns
    requires req.UpdateChild? ==> HeldChild(v, req.key, req.heldChild) && !ControlledByOther(req.heldChild, kind, n.name)
    requires key in v.children && BelongsElsewhere(key, v.children[key], kind, n)
    ensures var now := Serve(v, n, req, admitted).view.children;
      if req.DeleteChild? && req.key == key then key !in now
      else key in now && now[key] == v.children[key]
  {
  }

  /** A cluster reconcile leaves every child of anybody else exactly as it is. */
  lemma ClusterSparesOthers(w: World, n: Name, outcome: Outcome, key: ChildKey)
    requires Reachable(w) && n in w.clusterProcs
    requires key in w.store.children && BelongsElsewhere(key, w.store.children[key], ByCluster, n)
    ensures var s' := Apply(w, ClusterCall(n, outcome)).store;
      key in s'.children && s'.children[key] == w.store.children[key]
  {
    ReachableInv(w);
    ClusterStepSparesOthers(w, n, outcome, key);
  }

  lemma ClusterStepSparesOthers(w: World, n: Name, outcome: Outcome, key: ChildKey)
    requires Inv(w) && n in w.clusterProcs
    requires key in w.store.children && BelongsElsewhere(key, w.store.children[key], ByCluster, n)
    ensures var s' := ClusterStep(w, n, outcome).store;
      key in s'.children && s'.children[key] == w.store.children[key]
  {
    hide ClusterResume, ClusterChild, Serve;
    var p := w.clusterProcs[n];
    assert ClusterProcOk(ClusterView(w.store), n, p);
    ServeSparesOthers(ClusterView(w.store), n, ClusterRequest(n, p), ClusterAdmits(w, p), ByCluster, key);
  }

  /** A worker reconcile writes the autoscaler only when the spec it read enables it, and looks for one to delete only when not. */
  predicate Autoscales(p: WorkerProc) {
    p.Active? ==>
      && ((p.pc.Read? || p.pc.Write?) && p.pc.slot == Autoscaler ==> Autoscaled(p.base.spec))
      && (p.pc.ReadStale? || p.pc.DropStale? ==> !Autoscaled(p.base.spec))
  }

  lemma ResumeAutoscales(n: Name, p: WorkerProc, reply: Reply<WorkerSpec>, now: nat)
    requires Autoscales(p)
    ensures var turn := WorkerResume(n, p, reply, now); turn.next.Some? ==> Autoscales(turn.next.value)
  {
    hide WorkerChild, SetCondition, Observe;
  }

  lemma StepAutoscales(w: World, a: Action, n: Name)
    requires n in w.workerProcs ==> Autoscales(w.workerProcs[n])
    ensures n in Apply(w, a).workerProcs ==> Autoscales(Apply(w, a).workerProcs[n])
  {
    hide Serve, ServeWorker, ClusterResume, WorkerResume, UserDoes, ForeignWrite;
    if a.WorkerCall? && a.n == n && n in w.workerProcs {
      ResumeAutoscales(n, w.workerProcs[n], if a.outcome.Delivered? then WorkerServed(w, n).reply else Failed, w.now);
    }
  }

  lemma {:induction false} RunAutoscales(w: World, actions: seq<Action>, n: Name)
    requires n in w.workerProcs ==> Autoscales(w.workerProcs[n])
    ensures var w' := Run(w, actions); n in w'.workerProcs ==> Autoscales(w'.workerProcs[n])
    decreases |actions|
  {
    hide Apply, Autoscales;
    if actions != [] {
      StepAutoscales(w, actions[0], n);
      RunAutoscales(Apply(w, actions[0]), actions[1..], n);
    }
  }

  lemma ReachableAutoscales(w: World, n: Name)
    requires Reachable(w)
    ensures n in w.workerProcs ==> Autoscales(w.workerProcs[n])
  {
    var admission, actions :| w == Run(Initial(admission), actions);
    RunAutoscales(Initial(admission), actions, n);
  }

  /**
   So does a worker reconcile, with one exception that needs no owner: a reconcile whose spec does not
   enable autoscaling deletes whatever autoscaler bears the worker's name.
   */
  lemma WorkerSparesOthers(w: World, n: Name, outcome: Outcome, key: ChildKey)
    requires Reachable(w) && n in w.workerProcs
    requires key in w.store.children && BelongsElsewhere(key, w.store.children[key], ByWorker, n)
    ensures var s', p := Apply(w, WorkerCall(n, outcome)).store, w.workerProcs[n];
      if p.Active? && p.pc.DropStale? && key == WorkerChildKey(Autoscaler, n) && !outcome.Dropped? then
        key !in s'.children && !Autoscaled(p.base.spec)
      else key in s'.children && s'.children[key] == w.store.children[key]
  {
    ReachableInv(w);
    ReachableAutoscales(w, n);
    WorkerStepSparesOthers(w, n, outcome, key);
  }

  lemma WorkerStepSparesOthers(w: World, n: Name, outcome: Outcome, key: ChildKey)
    requires Inv(w) && n in w.workerProcs
    requires key in w.store.children && BelongsElsewhere(key, w.store.children[key], ByWorker, n)
    ensures var s', req := WorkerStep(w, n, outcome).store, WorkerRequest(n, w.workerProcs[n]);
      if req == DeleteChild(key) && !outcome.Dropped? then key !in s'.children
      else key in s'.children && s'.children[key] == w.store.children[key]
  {
    var p := w.workerProcs[n];
    assert WorkerProcOk(WorkerView(w.store), n, p);
    if !WorkerRequest(n, p).GetCluster? {
      ServeSparesOthers(WorkerView(w.store), n, WorkerRequest(n, p), WorkerAdmits(w, p), ByWorker, key);
    }
  }

  // ---------------------------------------------------------------- controllers are for life

  /** The identity SetControllerReference compares. */
  predicate SameController(a: Child, b: Child) {
    && a.controller.Some? && b.controller.Some?
    && a.controller.value.kind == b.controller.value.kind
    && a.controller.value.name == b.controller.value.name
  }

  /** What a step may do to the child of uid `uid` at `key`, controlled as `c` is. */
  predicate ControllerKept(now: Children, key: ChildKey, c: Child, nextUid: nat) {
    key in now ==> (now[key].uid == c.uid && SameController(now[key], c)) || now[key].uid >= nextUid
  }

  lemma ServeKeepsController<S>(v: View<S>, n: Name, req: Request<S>, admitted: bool, kind: ControllerKind, key: ChildKey)
    requires req.CreateChild? || req.UpdateChild? ==> req.controller.kind == kind && req.controller.name == n.name
    requires req.UpdateChild? ==> HeldChild(v, req.key, req.heldChild) && !ControlledByOther(req.heldChild, kind, n.name)
    requires key in v.children && v.children[key].controller.Some?
    ensures ControllerKept(Serve(v, n, req, admitted).view.children, key, v.children[key], v.nextUid)
  {
  }

  lemma ClusterCallKeepsController(w: World, n: Name, outcome: Outcome, key: ChildKey)
    requires Inv(w) && key in w.store.children && w.store.children[key].controller.Some? && n in w.clusterProcs
    ensures ControllerKept(ClusterStep(w, n, outcome).store.children, key, w.store.children[key], w.store.nextUid)
  {
    var p := w.clusterProcs[n];
    assert ClusterProcOk(ClusterView(w.store), n, p);
    ServeKeepsController(ClusterView(w.store), n, ClusterRequest(n, p), ClusterAdmits(w, p), ByCluster, key);
  }

  lemma WorkerCallKeepsController(w: World, n: Name, outcome: Outcome, key: ChildKey)
    requires Inv(w) && key in w.store.children && w.store.children[key].controller.Some? && n in w.workerProcs
    ensures ControllerKept(WorkerStep(w, n, outcome).store.children, key, w.store.children[key], w.store.nextUid)
  {
    var p := w.workerProcs[n];
    assert WorkerProcOk(WorkerView(w.store), n, p);
    if !WorkerRequest(n, p).GetCluster? {
      ServeKeepsController(WorkerView(w.store), n, WorkerRequest(n, p), WorkerAdmits(w, p), ByWorker, key);
    }
  }

  lemma StepKeepsController(w: World, a: Action, key: ChildKey)
    requires Inv(w) && key in w.store.children && w.store.children[key].controller.Some?
    ensures ControllerKept(Apply(w, a).store.children, key, w.store.children[key], w.store.nextUid)
  {
    hide ClusterStep, WorkerStep, UserDoes;
    if a.ClusterCall? {
      if a.n in w.clusterProcs { ClusterCallKeepsController(w, a.n, a.outcome, key); }
    } else if a.WorkerCall? {
      if a.n in w.workerProcs { WorkerCallKeepsController(w, a.n, a.outcome, key); }
    } else if a.OnCluster? {
      UserKeepsChildren(ClusterView(w.store), a.n, a.cdeed, OJS_FINALIZER);
    } else if a.OnWorker? {
      UserKeepsChildren(WorkerView(w.store), a.n, a.wdeed, WORKER_FINALIZER);
    }
  }

  /** A child uid that is not at `key` now will not be there later. */
  predicate UidAbsent(s: Store, key: ChildKey, uid: nat) {
    uid < s.nextUid && (key in s.children ==> s.children[key].uid != uid)
  }

  lemma {:induction false} RunKeepsUidAbsent(w: World, actions: seq<Action>, key: ChildKey, uid: nat)
    requires Inv(w) && UidAbsent(w.store, key, uid)
    ensures UidAbsent(Run(w, actions).store, key, uid)
    decreases |actions|
  {
    if actions != [] {
      StepEvolves(w, actions[0]);
      StepKeepsInv(w, actions[0]);
      RunKeepsUidAbsent(Apply(w, actions[0]), actions[1..], key, uid);
    }
  }

  /** As long as a controlled child exists, under every history, its controller is the same resource. */
  lemma {:induction false} ControllerForLife(w: World, actions: seq<Action>, key: ChildKey)
    requires Inv(w) && key in w.store.children && w.store.children[key].controller.Some?
    ensures var now, c := Run(w, actions).store.children, w.store.children[key];
      key in now && now[key].uid == c.uid ==> SameController(now[key], c)
    decreases |actions|
  {
    if actions != [] {
      var w1, c := Apply(w, actions[0]), w.store.children[key];
      StepKeepsInv(w, actions[0]);
      StepKeepsController(w, actions[0], key);
      assert ChildOk(ClusterView(w.store), c);
      if key in w1.store.children && w1.store.children[key].uid == c.uid {
        ControllerForLife(w1, actions[1..], key);
      } else {
        StepEvolves(w, actions[0]);
        RunKeepsUidAbsent(w1, actions[1..], key, c.uid);
      }
    }
  }

  // ---------------------------------------------------------------- names

  lemma SuffixesDiffer(a: string, b: string, s: string, t: string)
    requires |s| > 0 && |t| > 0 && a + s == b + t
    ensures s[|s| - 1] == t[|t| - 1]
  {
    assert (a + s)[|a + s| - 1] == s[|s| - 1];
    assert (b + t)[|b + t| - 1] == t[|t| - 1];
  }

  lemma SameSuffix(a: string, b: string, s: string)
    requires a + s == b + s
    ensures a == b
  {
    assert a == (a + s)[..|a|] && b == (b + s)[..|b|];
  }

  /** Among clusters no two children share a name, for all names whatever. */
  lemma ClusterChildNamesNeverCollide(s1: ClusterSlot, n1: Name, s2: ClusterSlot, n2: Name)
    ensures ClusterChildKey(s1, n1) == ClusterChildKey(s2, n2) <==> s1 == s2 && n1 == n2
  {
    if ClusterChildKey(s1, n1) == ClusterChildKey(s2, n2) {
      if s1 == s2 {
        match s1
        case RedisDeployment | RedisService => SameSuffix(n1.name, n2.name, "-redis");
        case Config => SameSuffix(n1.name, n2.name, "-config");
        case _ => SameSuffix(n1.name, n2.name, "-server");
      } else if s1.RedisDeployment? || s1.RedisService? {
        SuffixesDiffer(n1.name, n2.name, "-redis", "-server");
      } else {
        SuffixesDiffer(n1.name, n2.name, "-server", "-redis");
      }
    }
  }

  lemma WorkerChildNamesNeverCollide(s1: WorkerSlot, n1: Name, s2: WorkerSlot, n2: Name)
    ensures WorkerChildKey(s1, n1) == WorkerChildKey(s2, n2) <==> s1 == s2 && n1 == n2
  {
    if WorkerChildKey(s1, n1) == WorkerChildKey(s2, n2) && s1.Autoscaler? {
      SameSuffix(n1.name, n2.name, "-hpa");
    }
  }

  /** A worker and a cluster meet on a Deployment exactly when the worker is named after one of the cluster's. */
  lemma WorkerMeetsCluster(s: ClusterSlot, cluster: Name, t: WorkerSlot, worker: Name)
    ensures ClusterChildKey(s, cluster) == WorkerChildKey(t, worker) <==>
      && t == WorkerDeployment && worker.ns == cluster.ns
      && ((s == ServerDeployment && worker.name == cluster.name + "-server")
          || (s == RedisDeployment && worker.name == cluster.name + "-redis"))
  {
  }
}
