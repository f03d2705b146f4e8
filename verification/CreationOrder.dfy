/**
 The order in which a cluster's children come into being.  It holds after every crash, because
 each child is reached only past its predecessors, and nothing but deletion by others undoes them.
 */
module CreationOrder {
  import opened OjsTypes
  import opened Payloads
  import opened ApiServer
  import opened Observation
  import opened ClusterMachine
  import opened WorkerMachine
  import opened Operator
  import opened Invariants
  import opened Ownership
  import opened Admission

  /** The cluster `n` of that uid controls this child. */
  predicate Has(s: Store, n: Name, uid: nat, slot: ClusterSlot) {
    HasAt(s.children, ClusterChildKey(slot, n), n, uid)
  }

  predicate HasAt(children: Children, key: ChildKey, n: Name, uid: nat) {
    key in children && children[key].controller == Some(ClusterController(n, uid))
  }

  function Order(slot: ClusterSlot): nat {
    match slot
    case RedisDeployment => 0
    case RedisService => 1
    case Config => 2
    case ServerDeployment => 3
    case ServerService => 4
    case Budget => 5
    case Monitor => 6
  }

  /** Every child the spec asks for that comes before `slot` is there. */
  ghost predicate Before(s: Store, n: Name, cr: Cr<ClusterSpec>, slot: ClusterSlot) {
    forall t: ClusterSlot :: Wanted(t, cr.spec) && Order(t) < Order(slot) ==> Has(s, n, cr.uid, t)
  }

  /** A reconcile on its way has all the children it has passed. */
  ghost predicate Progress(s: Store, n: Name, p: ClusterProc) {
    p.Active? && (p.pc.Read? || p.pc.Write?) ==> Before(s, n, p.base, p.pc.slot)
  }

  /** Budget implies Service implies Deployment implies ConfigMap. */
  predicate Chain(s: Store, n: Name, uid: nat) {
    && (Has(s, n, uid, Budget) ==> Has(s, n, uid, ServerService))
    && (Has(s, n, uid, ServerService) ==> Has(s, n, uid, ServerDeployment))
    && (Has(s, n, uid, ServerDeployment) ==> Has(s, n, uid, Config))
  }

  /**
   The BACKEND_URL the ConfigMap of `n` holds is empty, or one a user supplied, or the URL of the
   embedded redis, and then redis is there.
   */
  predicate UrlIs(s: Store, n: Name, uid: nat, urls: set<string>) {
    var key := ClusterChildKey(Config, n);
    Has(s, n, uid, Config) ==>
      && s.children[key].managed.ConfigMapFields?
      && "BACKEND_URL" in s.children[key].managed.data
      && var url := s.children[key].managed.data["BACKEND_URL"];
         url == "" || url in urls
         || (url == RedisUrl(n) && Has(s, n, uid, RedisDeployment) && Has(s, n, uid, RedisService))
  }

  ghost predicate Orderly(w: World, urls: set<string>) {
    && Inv(w)
    && (forall n :: n in w.store.clusters ==>
          var cr := w.store.clusters[n];
          Chain(w.store, n, cr.uid) && UrlIs(w.store, n, cr.uid, urls) && (cr.spec.backend.url == "" || cr.spec.backend.url in urls))
    && (forall n :: n in w.clusterProcs ==>
          var p := w.clusterProcs[n];
          && OnTrack(p) && Progress(w.store, n, p)
          && (p.Active? ==> p.base.spec.backend.url == "" || p.base.spec.backend.url in urls))
  }

  /** Nobody else deletes children or edits ConfigMaps, and users supply only these URLs. */
  predicate Undisturbed(a: Action, urls: set<string>) {
    match a
    case ForeignDeletesChild(_) => false
    case ForeignEditsChild(key, _, _) => key.kind != ConfigMapKind
    case OnCluster(_, deed) => deed.Create? || deed.Edit? ==> deed.spec.backend.url == "" || deed.spec.backend.url in urls
    case _ => true
  }

  // ---------------------------------------------------------------- children stay

  /** Children of `n` under this uid stay, and so does what its ConfigMap holds. */
  ghost predicate Stays(s: Store, s': Store, n: Name, uid: nat) {
    && (forall slot: ClusterSlot :: Has(s, n, uid, slot) ==> Has(s', n, uid, slot))
    && (Has(s', n, uid, Config) ==>
          Has(s, n, uid, Config) && s'.children[ClusterChildKey(Config, n)].managed == s.children[ClusterChildKey(Config, n)].managed)
    && (forall slot: ClusterSlot :: Has(s', n, uid, slot) ==> Has(s, n, uid, slot))
  }

  lemma StayingKeepsOrder(s: Store, s': Store, n: Name, uid: nat, urls: set<string>)
    requires Stays(s, s', n, uid)
    ensures Chain(s, n, uid) ==> Chain(s', n, uid)
    ensures UrlIs(s, n, uid, urls) ==> UrlIs(s', n, uid, urls)
    ensures forall cr: Cr<ClusterSpec>, slot :: cr.uid == uid && Before(s, n, cr, slot) ==> Before(s', n, cr, slot)
  {
    hide Has, ClusterChildKey;
  }

  lemma ServeKeepsHas<S>(v: View<S>, m: Name, req: Request<S>, admitted: bool, kind: ControllerKind,
                         key: ChildKey, n: Name, uid: nat)
    requires !(kind == ByCluster && m == n) && key.ns == n.ns
    requires req.CreateChild? || req.UpdateChild? ==>
      req.key.ns == m.ns && req.controller.kind == kind && req.controller.name == m.name
    requires req.UpdateChild? ==> HeldChild(v, req.key, req.heldChild) && !ControlledByOther(req.heldChild, kind, m.name)
    requires !(req.DeleteChild? && req.key == key)
    ensures var now := Serve(v, m, req, admitted).view.children;
      && (HasAt(now, key, n, uid) <==> HasAt(v.children, key, n, uid))
      && (HasAt(now, key, n, uid) ==> now[key] == v.children[key])
  {
  }

  lemma OtherClusterStays(w: World, m: Name, outcome: Outcome, n: Name, uid: nat)
    requires Inv(w) && m in w.clusterProcs && m != n
    ensures Stays(w.store, ClusterStep(w, m, outcome).store, n, uid)
  {
    var v, p := ClusterView(w.store), w.clusterProcs[m];
    assert ClusterProcOk(v, m, p);
    var s' := ClusterStep(w, m, outcome).store;
    forall slot: ClusterSlot
      ensures Has(s', n, uid, slot) <==> Has(w.store, n, uid, slot)
      ensures Has(s', n, uid, slot) ==> s'.children[ClusterChildKey(slot, n)] == w.store.children[ClusterChildKey(slot, n)]
    {
      hide ClusterResume, ClusterChild;
      ServeKeepsHas(v, m, ClusterRequest(m, p), ClusterAdmits(w, p), ByCluster, ClusterChildKey(slot, n), n, uid);
    }
  }

  lemma WorkerStays(w: World, m: Name, outcome: Outcome, n: Name, uid: nat)
    requires Inv(w) && m in w.workerProcs
    ensures Stays(w.store, WorkerStep(w, m, outcome).store, n, uid)
  {
    var v, p := WorkerView(w.store), w.workerProcs[m];
    assert WorkerProcOk(v, m, p);
    var s' := WorkerStep(w, m, outcome).store;
    if !WorkerRequest(m, p).GetCluster? {
      forall slot: ClusterSlot
        ensures Has(s', n, uid, slot) <==> Has(w.store, n, uid, slot)
        ensures Has(s', n, uid, slot) ==> s'.children[ClusterChildKey(slot, n)] == w.store.children[ClusterChildKey(slot, n)]
      {
        hide WorkerResume, WorkerChild;
        ServeKeepsHas(v, m, WorkerRequest(m, p), WorkerAdmits(w, p), ByWorker, ClusterChildKey(slot, n), n, uid);
      }
    }
  }

  lemma ForeignStays(s: Store, a: Action, n: Name, uid: nat, urls: set<string>)
    requires a.ForeignCreatesChild? || a.ForeignEditsChild? || a.ForeignDeletesChild? || a.Collect?
    requires Undisturbed(a, urls) && n in s.clusters && s.clusters[n].uid == uid
    ensures Stays(s, ForeignWrite(s, a), n, uid)
  {
    var s' := ForeignWrite(s, a);
    forall slot: ClusterSlot
      ensures Has(s', n, uid, slot) <==> Has(s, n, uid, slot)
      ensures slot == Config && Has(s', n, uid, slot) ==>
        s'.children[ClusterChildKey(slot, n)].managed == s.children[ClusterChildKey(slot, n)].managed
    {
    }
  }

  /** A step that is not the cluster's own leaves a standing cluster its children. */
  lemma OthersStay(w: World, a: Action, n: Name, urls: set<string>)
    requires Inv(w) && Undisturbed(a, urls) && !(a.ClusterCall? && a.n == n) && n in w.store.clusters
    ensures Stays(w.store, Apply(w, a).store, n, w.store.clusters[n].uid)
  {
    var uid := w.store.clusters[n].uid;
    if a.ClusterCall? {
      if a.n in w.clusterProcs { OtherClusterStays(w, a.n, a.outcome, n, uid); }
    } else if a.WorkerCall? {
      if a.n in w.workerProcs { WorkerStays(w, a.n, a.outcome, n, uid); }
    } else if a.ForeignCreatesChild? || a.ForeignEditsChild? || a.ForeignDeletesChild? || a.Collect? {
      ForeignStays(w.store, a, n, uid, urls);
    } else {
      assert Apply(w, a).store.children == w.store.children by { UsersLeaveChildren(w, a); }
    }
  }

  lemma UsersLeaveChildren(w: World, a: Action)
    requires !a.ClusterCall? && !a.WorkerCall?
    requires !(a.ForeignCreatesChild? || a.ForeignEditsChild? || a.ForeignDeletesChild? || a.Collect?)
    ensures Apply(w, a).store.children == w.store.children
  {
  }

  // ---------------------------------------------------------------- the cluster's own step

  /** Past `slot` and on to the next child: nothing the spec asks for lies between. */
  lemma NothingBetween(slot: ClusterSlot, spec: ClusterSpec)
    requires Wanted(slot, spec)
    ensures ClusterNext(slot, spec).Some? ==>
      forall t :: Wanted(t, spec) && Order(t) < Order(ClusterNext(slot, spec).value) ==> Order(t) <= Order(slot)
  {
  }

  /** Own children after a reconcile's call: only the child it writes can differ, and then it is as computed. */
  ghost predicate Wrote(s: Store, s': Store, n: Name, uid: nat, slot: ClusterSlot, spec: ClusterSpec) {
    && (forall t: ClusterSlot :: t != slot ==>
          && (Has(s', n, uid, t) <==> Has(s, n, uid, t))
          && (Has(s, n, uid, t) ==> s'.children[ClusterChildKey(t, n)] == s.children[ClusterChildKey(t, n)]))
    && Has(s', n, uid, slot)
    && s'.children[ClusterChildKey(slot, n)].managed == ClusterChild(slot, n, spec)
  }

  /** What a child write does to the children: nothing, or exactly that child. */
  predicate PutAt(children: Children, now: Children, key: ChildKey, controller: Controller, managed: Managed) {
    key in now && now == children[key := now[key]] && now[key].controller == Some(controller) && now[key].managed == managed
  }

  lemma ServePuts<S>(v: View<S>, n: Name, req: Request<S>, admitted: bool)
    requires req.CreateChild? || req.UpdateChild?
    ensures var served := Serve(v, n, req, admitted);
      if served.reply.GotChild? then PutAt(v.children, served.view.children, req.key, req.controller, req.managed)
      else served.view.children == v.children
  {
  }

  lemma PuttingWrites(s: Store, s': Store, n: Name, uid: nat, slot: ClusterSlot, spec: ClusterSpec)
    requires PutAt(s.children, s'.children, ClusterChildKey(slot, n), ClusterController(n, uid), ClusterChild(slot, n, spec))
    ensures Wrote(s, s', n, uid, slot, spec)
  {
    hide ClusterChild, ClusterChildKey;
    forall t: ClusterSlot | t != slot ensures ClusterChildKey(t, n) != ClusterChildKey(slot, n) {
      ClusterChildNamesNeverCollide(t, n, slot, n);
    }
  }

  lemma OwnCallWrites(w: World, n: Name, outcome: Outcome)
    requires n in w.clusterProcs && w.clusterProcs[n].Active?
    ensures var p, s', served := w.clusterProcs[n], ClusterStep(w, n, outcome).store, ClusterServed(w, n);
      if p.pc.Write? && served.reply.GotChild? && !outcome.Dropped?
      then Wrote(w.store, s', n, p.base.uid, p.pc.slot, p.base.spec)
      else Stays(w.store, s', n, p.base.uid)
  {
    hide ClusterResume, ClusterChild, ClusterChildKey, Wrote, Stays;
    var p, s' := w.clusterProcs[n], ClusterStep(w, n, outcome).store;
    if p.pc.Write? {
      ServePuts(ClusterView(w.store), n, ClusterRequest(n, p), ClusterAdmits(w, p));
    }
    if s'.children == w.store.children {
      SameChildrenStay(w.store, s', n, p.base.uid);
    }
    if p.pc.Write? && ClusterServed(w, n).reply.GotChild? && !outcome.Dropped? {
      PuttingWrites(w.store, s', n, p.base.uid, p.pc.slot, p.base.spec);
    }
  }

  lemma WritingKeepsOrder(s: Store, s': Store, n: Name, base: Cr<ClusterSpec>, slot: ClusterSlot, urls: set<string>)
    requires Wrote(s, s', n, base.uid, slot, base.spec) && Before(s, n, base, slot) && Wanted(slot, base.spec)
    requires Chain(s, n, base.uid) && UrlIs(s, n, base.uid, urls)
    requires base.spec.backend.embedded ==> base.spec.backend.engine == "redis"
    requires base.spec.backend.url == "" || base.spec.backend.url in urls
    ensures Chain(s', n, base.uid) && UrlIs(s', n, base.uid, urls)
    ensures forall t :: Wanted(t, base.spec) && Order(t) <= Order(slot) ==> Has(s', n, base.uid, t)
  {
    hide HasAt, ClusterChildKey, RedisUrl;
    var uid := base.uid;
    assert slot == Budget ==> Has(s, n, uid, ServerService);
    assert slot == ServerService ==> Has(s, n, uid, ServerDeployment);
    assert slot == ServerDeployment ==> Has(s, n, uid, Config);
    assert slot == Config && base.spec.backend.embedded ==> Has(s, n, uid, RedisDeployment) && Has(s, n, uid, RedisService);
    assert forall t: ClusterSlot :: Has(s, n, uid, t) ==> Has(s', n, uid, t);
  }

  lemma OwnCallKeepsOrder(w: World, n: Name, outcome: Outcome, urls: set<string>)
    requires Orderly(w, urls) && n in w.clusterProcs && n in w.store.clusters
    ensures var s', uid := ClusterStep(w, n, outcome).store, w.store.clusters[n].uid;
      Chain(s', n, uid) && UrlIs(s', n, uid, urls)
  {
    hide ClusterResume, ClusterChild, Chain, UrlIs, Wrote, Before, Stays;
    var p, s', uid := w.clusterProcs[n], ClusterStep(w, n, outcome).store, w.store.clusters[n].uid;
    if !p.Active? || !p.pc.Write? {
      assert s'.children == w.store.children by { hide Orderly; }
      assert Stays(w.store, s', n, uid) by { SameChildrenStay(w.store, s', n, uid); }
      StayingKeepsOrder(w.store, s', n, uid, urls);
    } else {
      assert ClusterProcOk(ClusterView(w.store), n, p);
      OwnCallWrites(w, n, outcome);
      if Stays(w.store, s', n, uid) {
        StayingKeepsOrder(w.store, s', n, uid, urls);
      } else {
        WritingKeepsOrder(w.store, s', n, p.base, p.pc.slot, urls);
      }
    }
  }

  lemma SameChildrenStay(s: Store, s': Store, n: Name, uid: nat)
    requires s'.children == s.children
    ensures Stays(s, s', n, uid)
  {
  }

  /** The turn after a child call, given what is there now. */
  lemma TurnKeepsProgress(n: Name, p: ClusterProc, reply: Reply<ClusterSpec>, now: nat, s': Store)
    requires OnTrack(p)
    requires p.Active? && (p.pc.Read? || p.pc.Write?) ==> Before(s', n, p.base, p.pc.slot)
    requires p.Active? && reply.GotChild? && p.pc.Write? ==> Has(s', n, p.base.uid, p.pc.slot)
    requires p.Active? && reply.GotChild? && p.pc.Read? && reply.child.controller == Some(ClusterController(n, p.base.uid)) ==>
      Has(s', n, p.base.uid, p.pc.slot)
    ensures var turn := ClusterResume(n, p, reply, now); turn.next.Some? ==> Progress(s', n, turn.next.value)
  {
    hide Has, SetCondition, Observe, ClusterChild;
    if p.Active? && (p.pc.Read? || p.pc.Write?) { NothingBetween(p.pc.slot, p.base.spec); }
  }

  lemma WritingKeepsBefore(s: Store, s': Store, n: Name, p: ClusterProc)
    requires p.Active? && p.pc.Write? && Wrote(s, s', n, p.base.uid, p.pc.slot, p.base.spec) && Before(s, n, p.base, p.pc.slot)
    ensures Before(s', n, p.base, p.pc.slot)
  {
    hide ClusterChild;
  }

  lemma OwnCallKeepsProgress(w: World, n: Name, outcome: Outcome, urls: set<string>)
    requires Orderly(w, urls) && n in w.clusterProcs
    ensures var w' := ClusterStep(w, n, outcome);
      n in w'.clusterProcs ==> OnTrack(w'.clusterProcs[n]) && Progress(w'.store, n, w'.clusterProcs[n])
  {
    hide ClusterResume, ClusterChild, Before, Chain, UrlIs;
    var p, s' := w.clusterProcs[n], ClusterStep(w, n, outcome).store;
    var reply := if outcome.Delivered? then ClusterServed(w, n).reply else Failed;
    ResumeOnTrack(n, p, reply, w.now);
    if p.Active? {
      OwnCallWrites(w, n, outcome);
      if p.pc.Write? && Wrote(w.store, s', n, p.base.uid, p.pc.slot, p.base.spec) {
        assert Before(s', n, p.base, p.pc.slot) by { WritingKeepsBefore(w.store, s', n, p); }
      } else if Stays(w.store, s', n, p.base.uid) {
        StayingKeepsOrder(w.store, s', n, p.base.uid, urls);
      }
    }
    TurnKeepsProgress(n, p, reply, w.now, s');
  }

  // ---------------------------------------------------------------- every step, every run

  /** A uid nobody has used yet controls nothing. */
  lemma FreshHasNothing(w: World, s': Store, n: Name, uid: nat, urls: set<string>)
    requires Inv(w) && uid >= w.store.nextUid && s'.children == w.store.children
    ensures Chain(s', n, uid) && UrlIs(s', n, uid, urls)
  {
    assert forall slot: ClusterSlot :: !Has(s', n, uid, slot);
  }

  lemma ClustersKeepOrder(w: World, a: Action, n: Name, urls: set<string>)
    requires Orderly(w, urls) && Undisturbed(a, urls) && n in Apply(w, a).store.clusters
    ensures var s' := Apply(w, a).store; Chain(s', n, s'.clusters[n].uid) && UrlIs(s', n, s'.clusters[n].uid, urls)
  {
    hide Chain, UrlIs;
    var s' := Apply(w, a).store;
    if a.ClusterCall? && a.n == n {
      if n in w.clusterProcs {
        assert n in w.store.clusters && s'.clusters[n].uid == w.store.clusters[n].uid by { OwnCallKeepsUid(w, n, a.outcome); }
        OwnCallKeepsOrder(w, n, a.outcome, urls);
      }
    } else {
      hide Apply, Undisturbed;
      OthersLeaveCluster(w, a, n);
      if s'.clusters[n].uid >= w.store.nextUid {
        assert s'.children == w.store.children by { OnlyUsersCreate(w, a, n); }
        FreshHasNothing(w, s', n, s'.clusters[n].uid, urls);
      } else {
        OthersStay(w, a, n, urls);
        StayingKeepsOrder(w.store, s', n, s'.clusters[n].uid, urls);
      }
    }
  }

  lemma OwnCallKeepsUid(w: World, n: Name, outcome: Outcome)
    requires n in w.clusterProcs
    ensures var s' := ClusterStep(w, n, outcome).store;
      n in s'.clusters ==> n in w.store.clusters && s'.clusters[n].uid == w.store.clusters[n].uid
  {
    hide ClusterResume, ClusterChild;
  }

  lemma OnlyUsersCreate(w: World, a: Action, n: Name)
    requires Inv(w) && n in Apply(w, a).store.clusters && Apply(w, a).store.clusters[n].uid >= w.store.nextUid
    ensures Apply(w, a).store.children == w.store.children
  {
    assert n in w.store.clusters ==> CrOk(ClusterView(w.store), ClusterView(w.store).crs[n]);
    if a.ClusterCall? && a.n in w.clusterProcs {
      ServeKeepsClusterUids(w, a.n, n);
    }
    hide Serve, ServeWorker, ClusterResume, WorkerResume, ForeignWrite;
    if a.ForeignCreatesChild? || a.ForeignEditsChild? || a.ForeignDeletesChild? || a.Collect? {
      ForeignEvolves(w.store, a);
    }
  }

  lemma ServeKeepsClusterUids(w: World, m: Name, n: Name)
    requires m in w.clusterProcs
    ensures var crs := ClusterServed(w, m).view.crs; n in crs ==> n in w.store.clusters && crs[n].uid == w.store.clusters[n].uid
  {
    hide ClusterResume, ClusterChild;
  }

  lemma ProcsKeepProgress(w: World, a: Action, n: Name, urls: set<string>)
    requires Orderly(w, urls) && Undisturbed(a, urls) && n in Apply(w, a).clusterProcs
    ensures OnTrack(Apply(w, a).clusterProcs[n]) && Progress(Apply(w, a).store, n, Apply(w, a).clusterProcs[n])
  {
    hide Chain, UrlIs, Before;
    if a.ClusterCall? && a.n == n {
      if n in w.clusterProcs { OwnCallKeepsProgress(w, n, a.outcome, urls); }
    } else if n in w.clusterProcs && w.clusterProcs[n].Active? && (w.clusterProcs[n].pc.Read? || w.clusterProcs[n].pc.Write?) {
      var p := w.clusterProcs[n];
      assert Apply(w, a).clusterProcs[n] == p by { OthersLeaveProc(w, a, n); }
      assert ClusterProcOk(ClusterView(w.store), n, p);
      hide Apply, Undisturbed;
      OthersStay(w, a, n, urls);
      StayingKeepsOrder(w.store, Apply(w, a).store, n, p.base.uid, urls);
    } else {
      assert n in w.clusterProcs ==> Apply(w, a).clusterProcs[n] == w.clusterProcs[n] by {
        if n in w.clusterProcs { OthersLeaveProc(w, a, n); }
      }
      hide Serve, ServeWorker, ClusterResume, WorkerResume, ForeignWrite, UserDoes;
    }
  }

  lemma OthersLeaveProc(w: World, a: Action, n: Name)
    requires n in w.clusterProcs && n in Apply(w, a).clusterProcs && !(a.ClusterCall? && a.n == n)
    ensures Apply(w, a).clusterProcs[n] == w.clusterProcs[n]
  {
    hide Serve, ServeWorker, ClusterResume, WorkerResume, ForeignWrite, UserDoes;
  }

  /** The URLs in specs are those users supply. */
  ghost predicate UrlsIn(w: World, urls: set<string>) {
    && (forall n :: n in w.store.clusters ==>
          var url := w.store.clusters[n].spec.backend.url; url == "" || url in urls)
    && (forall n :: n in w.clusterProcs && w.clusterProcs[n].Active? ==>
          var url := w.clusterProcs[n].base.spec.backend.url; url == "" || url in urls)
  }

  lemma StepKeepsUrls(w: World, a: Action, urls: set<string>)
    requires UrlsIn(w, urls) && Undisturbed(a, urls)
    ensures UrlsIn(Apply(w, a), urls)
  {
    hide Serve, ServeWorker, UserDoes, ClusterResume, WorkerResume, ForeignWrite, ClusterRequest, ClusterChild, WorkerChild;
    if a.ClusterCall? && a.n in w.clusterProcs {
      var p, served := w.clusterProcs[a.n], ClusterServed(w, a.n);
      ServeKeepsSpecs(ClusterView(w.store), a.n, ClusterRequest(a.n, p), ClusterAdmits(w, p));
      ClusterResumeKeepsSpec(a.n, p, if a.outcome.Delivered? then served.reply else Failed, w.now);
    } else if a.OnCluster? {
      UserKeepsSpecs(ClusterView(w.store), a.n, a.cdeed, OJS_FINALIZER);
    } else {
      assert Apply(w, a).store.clusters == w.store.clusters by { ForeignKeepsCrs(w.store, a); }
    }
  }

  lemma StepKeepsOrderly(w: World, a: Action, urls: set<string>)
    requires Orderly(w, urls) && Undisturbed(a, urls)
    ensures Orderly(Apply(w, a), urls)
  {
    hide Apply, Undisturbed, Inv, Chain, UrlIs, Progress, OnTrack;
    var w' := Apply(w, a);
    StepKeepsInv(w, a);
    assert UrlsIn(w, urls);
    StepKeepsUrls(w, a, urls);
    forall n | n in w'.store.clusters
      ensures Chain(w'.store, n, w'.store.clusters[n].uid) && UrlIs(w'.store, n, w'.store.clusters[n].uid, urls)
    {
      ClustersKeepOrder(w, a, n, urls);
    }
    forall n | n in w'.clusterProcs ensures OnTrack(w'.clusterProcs[n]) && Progress(w'.store, n, w'.clusterProcs[n]) {
      ProcsKeepProgress(w, a, n, urls);
    }
  }

  lemma {:induction false} RunKeepsOrderly(w: World, actions: seq<Action>, urls: set<string>)
    requires Orderly(w, urls) && forall a :: a in actions ==> Undisturbed(a, urls)
    ensures Orderly(Run(w, actions), urls)
    decreases |actions|
  {
    hide Apply, Orderly, Undisturbed;
    if actions != [] {
      StepKeepsOrderly(w, actions[0], urls);
      RunKeepsOrderly(Apply(w, actions[0]), actions[1..], urls);
    }
  }

  /**
   From an empty store, through any history of edits, failures, crashes and concurrent reconciles in
   which nobody else deletes children or edits ConfigMaps: what a living cluster controls is in
   creation order, and a generated URL is always that of an embedded redis that is there.
   */
  lemma CreatedInOrder(admission: bool, actions: seq<Action>, urls: set<string>, n: Name)
    requires forall a :: a in actions ==> Undisturbed(a, urls)
    requires n in Run(Initial(admission), actions).store.clusters
    ensures var s := Run(Initial(admission), actions).store;
      Chain(s, n, s.clusters[n].uid) && UrlIs(s, n, s.clusters[n].uid, urls)
  {
    assert Orderly(Initial(admission), urls);
    RunKeepsOrderly(Initial(admission), actions, urls);
  }
}
