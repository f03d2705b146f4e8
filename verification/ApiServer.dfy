/**
 The API server as the operator sees it: a store of custom resources and child objects, and
 what it does with each request.  These are the assumptions about Kubernetes and
 controller-runtime; the operator's own code is in ClusterMachine and WorkerMachine.
 */
module ApiServer {
  import opened OjsTypes
  import opened Payloads

  /** A custom resource with spec type S.  `deleting` says the deletion timestamp is set. */
  datatype Cr<S> = Cr(
    uid: nat, rv: nat, gen: nat, deleting: bool, finalizers: set<string>, spec: S, status: Status)

  datatype ControllerKind = ByCluster | ByWorker | ByOther

  /** A controller owner reference. */
  datatype Controller = Controller(kind: ControllerKind, name: string, uid: nat)

  /** What no reconciler sets on a child: Deployment status, and every other field. */
  datatype Unmanaged = Unmanaged(replicas: int, readyReplicas: int, other: int)

  datatype Child = Child(uid: nat, rv: nat, controller: Option<Controller>, managed: Managed, rest: Unmanaged)

  type Children = map<ChildKey, Child>

  datatype Store = Store(
    clusters: map<Name, Cr<ClusterSpec>>,
    workers: map<Name, Cr<WorkerSpec>>,
    children: Children,
    nextUid: nat,
    nextRv: nat)

  const EMPTY_STORE := Store(map[], map[], map[], 1, 1)

  /**
   The requests a reconciler sends about its own custom resource (Self), its children, and, for
   workers, the parent cluster.
   */
  datatype Request<S> =
    | GetSelf
    | PutFinalizers(held: Cr<S>, finalizers: set<string>)
    | PutStatus(held: Cr<S>, status: Status)
    | GetChild(key: ChildKey)
    | CreateChild(key: ChildKey, controller: Controller, managed: Managed)
    | UpdateChild(key: ChildKey, heldChild: Child, controller: Controller, managed: Managed)
    | DeleteChild(key: ChildKey)
    | GetCluster(parent: Name)

  datatype Reply<S> = GotCr(cr: Cr<S>) | GotChild(child: Child) | Accepted | NotFound | Failed

  /** The part of the store one custom-resource kind and the children live in. */
  datatype View<S> = View(crs: map<Name, Cr<S>>, children: Children, nextUid: nat, nextRv: nat)

  datatype Served<S> = Served(view: View<S>, reply: Reply<S>)

  /** A write that changes nothing is not stored again and keeps its resource version. */
  function SaveCr<S(==)>(v: View<S>, n: Name, cr: Cr<S>): (r: Served<S>)
    requires n in v.crs
  {
    if cr == v.crs[n] then Served(v, GotCr(cr))
    else
      var saved := cr.(rv := v.nextRv);
      // A deleting object goes away with its last finalizer.
      if saved.deleting && saved.finalizers == {} then
        Served(v.(crs := v.crs - {n}, nextRv := v.nextRv + 1), GotCr(saved))
      else
        Served(v.(crs := v.crs[n := saved], nextRv := v.nextRv + 1), GotCr(saved))
  }

  /** Optimistic locking: the write goes through only over the version it was read at. */
  predicate Current<S(==)>(crs: map<Name, Cr<S>>, n: Name, held: Cr<S>) {
    n in crs && crs[n].rv == held.rv && crs[n].uid == held.uid
  }

  /** Deployment selectors are immutable. */
  predicate SelectorAccepted(stored: Managed, wanted: Managed) {
    stored.DeploymentFields? && wanted.DeploymentFields? ==> stored.selector == wanted.selector
  }

  predicate ChildCurrent(children: Children, key: ChildKey, held: Child) {
    key in children && children[key].rv == held.rv && children[key].uid == held.uid
  }

  function SaveChild<S>(v: View<S>, key: ChildKey, child: Child): Served<S>
    requires key in v.children
  {
    if child == v.children[key] then Served(v, GotChild(child))
    else
      var saved := child.(rv := v.nextRv);
      Served(v.(children := v.children[key := saved], nextRv := v.nextRv + 1), GotChild(saved))
  }

  /**
   One request of the reconciler of custom resource `n`.  `admitted` is the verdict of the
   validating webhook, which sees updates of the resource but not of its status subresource.
   */
  function Serve<S(==)>(v: View<S>, n: Name, req: Request<S>, admitted: bool): Served<S> {
    match req
    case GetSelf => Served(v, if n in v.crs then GotCr(v.crs[n]) else NotFound)
    case PutFinalizers(held, finalizers) =>
      if Current(v.crs, n, held) && admitted then SaveCr(v, n, v.crs[n].(finalizers := finalizers))
      else Served(v, Failed)
    case PutStatus(held, status) =>
      if Current(v.crs, n, held) then SaveCr(v, n, v.crs[n].(status := status)) else Served(v, Failed)
    case GetChild(key) => Served(v, if key in v.children then GotChild(v.children[key]) else NotFound)
    case CreateChild(key, controller, managed) =>
      if key in v.children then Served(v, Failed)
      else
        var child := Child(v.nextUid, v.nextRv, Some(controller), managed, Unmanaged(0, 0, 0));
        Served(v.(children := v.children[key := child], nextUid := v.nextUid + 1, nextRv := v.nextRv + 1), GotChild(child))
    case UpdateChild(key, held, controller, managed) =>
      if ChildCurrent(v.children, key, held) && SelectorAccepted(v.children[key].managed, managed) then
        SaveChild(v, key, v.children[key].(controller := Some(controller), managed := managed))
      else Served(v, Failed)
    case DeleteChild(key) =>
      if key in v.children then Served(v.(children := v.children - {key}), Accepted) else Served(v, NotFound)
    case GetCluster(_) => Served(v, Failed)
  }

  function ClusterView(s: Store): View<ClusterSpec> {
    View(s.clusters, s.children, s.nextUid, s.nextRv)
  }

  function WorkerView(s: Store): View<WorkerSpec> {
    View(s.workers, s.children, s.nextUid, s.nextRv)
  }

  function WithClusters(s: Store, v: View<ClusterSpec>): Store {
    Store(v.crs, s.workers, v.children, v.nextUid, v.nextRv)
  }

  function WithWorkers(s: Store, v: View<WorkerSpec>): Store {
    Store(s.clusters, v.crs, v.children, v.nextUid, v.nextRv)
  }

  /**
   SetControllerReference refuses a child whose controller is another resource.  It compares
   kind and name: a recreated resource takes over what its predecessor of that name left.
   */
  predicate ControlledByOther(child: Child, kind: ControllerKind, name: string) {
    child.controller.Some? && !(child.controller.value.kind == kind && child.controller.value.name == name)
  }

  /** Nothing to write: CreateOrUpdate skips the update when the closure changes nothing. */
  predicate Settled(child: Child, controller: Controller, managed: Managed) {
    child.controller == Some(controller) && child.managed == managed
  }
}
