/** What a reconcile leaves behind besides the store: recorded events, and its result. */
module Events {
  import opened OjsTypes
  import opened ApiServer

  datatype Result =
    | Quiet                          // no error, nothing to requeue
    | Failure                        // an error
    | FailureAfterDelay              // an error, with a ten second requeue
    | RetryIn30s                     // no error, a thirty second requeue
    | Polling(interval: string)      // no error, requeue at the worker's polling interval

  datatype Event =
    | Deleting(owner: ControllerKind, n: Name)
    | Reconciling(n: Name)
    | BackendFailed(n: Name)
    | MonitorFailed(n: Name)
    | ClusterNotFound(n: Name)
    | PhaseChanged(owner: ControllerKind, n: Name, uid: nat, source: Phase, target: Phase)
    | Finished(owner: ControllerKind, n: Name, result: Result)
}
