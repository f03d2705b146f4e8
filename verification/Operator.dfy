/**
 The whole system: the store, every in-flight reconcile of both controllers, and an environment
 of users, the garbage collector, other controllers, failing calls and operator crashes.  An
 `Action` holds all the nondeterminism of a step, so a run is a list of actions.
 */
module Operator {
  import opened OjsTypes
  import opened Payloads
  import opened ApiServer
  import opened Events
  import opened ClusterMachine
  import opened WorkerMachine
  import opened Webhook

  /** How an API call ends: the write and its reply can be lost separately. */
  datatype Outcome = Delivered | Dropped | ReplyLost

  /** At most one reconcile per resource is in flight.  `admission` says the webhooks are enabled. */
  datatype World = World(
    store: Store,
    clusterProcs: map<Name, ClusterProc>,
    workerProcs: map<Name, WorkerProc>,
    now: nat,
    events: seq<Event>,
    admission: bool)

  /** What a user does to a custom resource. */
  datatype Deed<S> = Create(spec: S, finalizers: set<string>) | Edit(spec: S) | Delete | SetFinalizers(finalizers: set<string>)

  datatype Action =
    | OnCluster(n: Name, cdeed: Deed<ClusterSpec>)
    | OnWorker(n: Name, wdeed: Deed<WorkerSpec>)
    | ForeignCreatesChild(key: ChildKey, controller: Option<Controller>, managed: Managed, rest: Unmanaged)
    | ForeignEditsChild(key: ChildKey, managed: Managed, rest: Unmanaged)
    | ForeignDeletesChild(key: ChildKey)
    | Collect(key: ChildKey)
    | Tick(elapsed: nat)
    | StartCluster(n: Name)
    | ClusterCall(n: Name, outcome: Outcome)
    | StartWorker(n: Name)
    | WorkerCall(n: Name, outcome: Outcome)
    | Crash

  function Initial(admission: bool): World {
    World(EMPTY_STORE, map[], map[], 0, [], admission)
  }

  // ---------------------------------------------------------------- users

  /**
   An edit moves the generation, and so does the deletion timestamp.  Users manage their own
   finalizers, not the operator's, and nobody adds a finalizer to a deleting object.
   */
  function UserDoes<S(==)>(v: View<S>, n: Name, deed: Deed<S>, operators: string): View<S> {
    if n !in v.crs then
      if !deed.Create? then v
      else
        v.(crs := v.crs[n := Cr(v.nextUid, v.nextRv, 1, false, deed.finalizers, deed.spec, NO_STATUS)],
           nextUid := v.nextUid + 1, nextRv := v.nextRv + 1)
    else
      var cr := v.crs[n];
      match deed
      case Create(_, _) => v
      case Edit(spec) => if cr.spec == spec then v else SaveCr(v, n, cr.(spec := spec, gen := cr.gen + 1)).view
      case Delete => if cr.deleting then v else SaveCr(v, n, cr.(deleting := true, gen := cr.gen + 1)).view
      case SetFinalizers(finalizers) =>
        if (operators in finalizers) != (operators in cr.finalizers) || (cr.deleting && !(finalizers <= cr.finalizers)) then v
        else SaveCr(v, n, cr.(finalizers := finalizers)).view
  }

  /** Users write custom resources only. */
  lemma UserKeepsChildren<S>(v: View<S>, n: Name, deed: Deed<S>, operators: string)
    ensures UserDoes(v, n, deed, operators).children == v.children && v.nextUid <= UserDoes(v, n, deed, operators).nextUid
  {
  }

  // ---------------------------------------------------------------- other writers of children

  /** The custom resource a controller reference names is not there any more. */
  predicate OwnerGone(s: Store, ns: string, c: Controller) {
    var n := Name(ns, c.name);
    match c.kind
    case ByCluster => !(n in s.clusters && s.clusters[n].uid == c.uid)
    case ByWorker => !(n in s.workers && s.workers[n].uid == c.uid)
    case ByOther => false
  }

  function ForeignWrite(s: Store, a: Action): Store
    requires a.ForeignCreatesChild? || a.ForeignEditsChild? || a.ForeignDeletesChild? || a.Collect?
  {
    match a
    case ForeignCreatesChild(key, controller, managed, rest) =>
      if key in s.children || !Fits(key.kind, managed) || (controller.Some? && !controller.value.kind.ByOther?) then s
      else s.(children := s.children[key := Child(s.nextUid, s.nextRv, controller, managed, rest)],
              nextUid := s.nextUid + 1, nextRv := s.nextRv + 1)
    case ForeignEditsChild(key, managed, rest) =>
      if key !in s.children || !Fits(key.kind, managed) || !SelectorAccepted(s.children[key].managed, managed) then s
      else s.(children := s.children[key := s.children[key].(managed := managed, rest := rest, rv := s.nextRv)],
              nextRv := s.nextRv + 1)
    case ForeignDeletesChild(key) => s.(children := s.children - {key})
    case Collect(key) =>
      if key in s.children && s.children[key].controller.Some?
         && OwnerGone(s, key.ns, s.children[key].controller.value)
      then s.(children := s.children - {key}) else s
  }

  // ---------------------------------------------------------------- reconciles

  predicate ClusterAdmits(w: World, p: ClusterProc) {
    w.admission && p.Active? ==> ValidateCluster(p.base.spec).None?
  }

  predicate WorkerAdmits(w: World, p: WorkerProc) {
    w.admission && p.Active? ==> ValidateWorker(p.base.spec).None?
  }

  function ServeWorker(s: Store, n: Name, req: Request<WorkerSpec>, admitted: bool): Served<WorkerSpec> {
    if req.GetCluster? then Served(WorkerView(s), if req.parent in s.clusters then Accepted else NotFound)
    else Serve(WorkerView(s), n, req, admitted)
  }

  function ClusterServed(w: World, n: Name): Served<ClusterSpec>
    requires n in w.clusterProcs
  {
    var p := w.clusterProcs[n];
    Serve(ClusterView(w.store), n, ClusterRequest(n, p), ClusterAdmits(w, p))
  }

  function WorkerServed(w: World, n: Name): Served<WorkerSpec>
    requires n in w.workerProcs
  {
    var p := w.workerProcs[n];
    ServeWorker(w.store, n, WorkerRequest(n, p), WorkerAdmits(w, p))
  }

  function ClusterStep(w: World, n: Name, outcome: Outcome): World
    requires n in w.clusterProcs
  {
    var served := ClusterServed(w, n);
    var turn := ClusterResume(n, w.clusterProcs[n], if outcome.Delivered? then served.reply else Failed, w.now);
    w.(store := if outcome.Dropped? then w.store else WithClusters(w.store, served.view),
       clusterProcs := if turn.next.Some? then w.clusterProcs[n := turn.next.value] else w.clusterProcs - {n},
       events := w.events + turn.events)
  }

  function WorkerStep(w: World, n: Name, outcome: Outcome): World
    requires n in w.workerProcs
  {
    var served := WorkerServed(w, n);
    var turn := WorkerResume(n, w.workerProcs[n], if outcome.Delivered? then served.reply else Failed, w.now);
    w.(store := if outcome.Dropped? then w.store else WithWorkers(w.store, served.view),
       workerProcs := if turn.next.Some? then w.workerProcs[n := turn.next.value] else w.workerProcs - {n},
       events := w.events + turn.events)
  }

  // ---------------------------------------------------------------- runs

  function Apply(w: World, a: Action): World {
    match a
    case OnCluster(n, deed) =>
      if w.admission && (deed.Create? || deed.Edit?) && ValidateCluster(deed.spec).Some? then w
      else w.(store := WithClusters(w.store, UserDoes(ClusterView(w.store), n, deed, OJS_FINALIZER)))
    case OnWorker(n, deed) =>
      if w.admission && (deed.Create? || deed.Edit?) && ValidateWorker(deed.spec).Some? then w
      else w.(store := WithWorkers(w.store, UserDoes(WorkerView(w.store), n, deed, WORKER_FINALIZER)))
    case ForeignCreatesChild(_, _, _, _) => w.(store := ForeignWrite(w.store, a))
    case ForeignEditsChild(_, _, _) => w.(store := ForeignWrite(w.store, a))
    case ForeignDeletesChild(_) => w.(store := ForeignWrite(w.store, a))
    case Collect(_) => w.(store := ForeignWrite(w.store, a))
    case Tick(elapsed) => w.(now := w.now + elapsed)
    case StartCluster(n) =>
      if n in w.clusterProcs then w else w.(clusterProcs := w.clusterProcs[n := ClusterProc.Starting])
    case ClusterCall(n, outcome) => if n in w.clusterProcs then ClusterStep(w, n, outcome) else w
    case StartWorker(n) =>
      if n in w.workerProcs then w else w.(workerProcs := w.workerProcs[n := WorkerProc.Starting])
    case WorkerCall(n, outcome) => if n in w.workerProcs then WorkerStep(w, n, outcome) else w
    case Crash => w.(clusterProcs := map[], workerProcs := map[])
  }

  function Run(w: World, actions: seq<Action>): World
    decreases |actions|
  {
    if actions == [] then w else Run(Apply(w, actions[0]), actions[1..])
  }

  lemma {:induction false} RunAppend(w: World, as1: seq<Action>, as2: seq<Action>)
    ensures Run(w, as1 + as2) == Run(Run(w, as1), as2)
    decreases |as1|
  {
    if as1 == [] {
      assert as1 + as2 == as2;
    } else {
      assert (as1 + as2)[1..] == as1[1..] + as2;
      RunAppend(Apply(w, as1[0]), as1[1..], as2);
    }
  }

  /** Every store the operator can ever leave behind, with the webhooks on or off. */
  ghost predicate Reachable(w: World) {
    exists admission: bool, actions: seq<Action> :: w == Run(Initial(admission), actions)
  }
}
