/**
 What a reconcile returns and which events it records, as a law on nothing but the calls it made and
 the replies it got, for every world and every script.
 */
module ResultLaws {
  import opened OjsTypes
  import opened Payloads
  import opened ApiServer
  import opened Events
  import opened Observation
  import opened ClusterMachine
  import opened WorkerMachine
  import opened Operator
  import opened Ownership
  import opened ClusterConvergence
  import opened WorkerConvergence
  import opened Interleaving

  function Last<S>(t: seq<Exchange<S>>): Exchange<S>
    requires t != []
  {
    t[|t| - 1]
  }

  /** The resource was not found. */
  predicate Absent<S>(t: seq<Exchange<S>>) {
    t != [] && t[0].reply.NotFound?
  }

  /** It is being deleted, and its finalizer was gone or its removal was accepted. */
  predicate LetGo<S>(t: seq<Exchange<S>>, finalizer: string) {
    && t != [] && t[0].reply.GotCr? && t[0].reply.cr.deleting
    && (finalizer !in t[0].reply.cr.finalizers || (Last(t).request.PutFinalizers? && Last(t).reply.GotCr?))
  }

  /** The removal of the finalizer was asked for. */
  predicate DropAsked<S>(t: seq<Exchange<S>>, finalizer: string) {
    t != [] && t[0].reply.GotCr? && t[0].reply.cr.deleting && finalizer in t[0].reply.cr.finalizers
  }

  // ---------------------------------------------------------------- workers

  predicate ParentMissing(t: seq<Exchange<WorkerSpec>>) {
    exists e <- t :: e.request.GetCluster? && e.reply.NotFound?
  }

  /** The final status was asked for; the report of a missing parent is not the final status. */
  predicate FinalAsked(t: seq<Exchange<WorkerSpec>>) {
    t != [] && Last(t).request.PutStatus? && !ParentMissing(t)
  }

  predicate ScalingOn(spec: WorkerSpec) {
    spec.autoScaling.Some? && spec.autoScaling.value.enabled
  }

  /** The result of a worker reconcile that made these calls. */
  ghost predicate WorkerLawful(t: seq<Exchange<WorkerSpec>>, result: Result) {
    var stored := FinalAsked(t) && Last(t).reply.GotCr?;
    && (result == RetryIn30s <==> ParentMissing(t))
    && (result == Quiet <==> Absent(t) || LetGo(t, WORKER_FINALIZER) || (stored && !ScalingOn(Last(t).reply.cr.spec)))
    && (forall interval :: result == Polling(interval) <==>
          stored && ScalingOn(Last(t).reply.cr.spec) && interval == Last(t).reply.cr.spec.autoScaling.value.pollingInterval)
    && result != FailureAfterDelay
  }

  /** The events it recorded, the result last. */
  ghost predicate WorkerTold(t: seq<Exchange<WorkerSpec>>, es: seq<Event>, n: Name) {
    && (Event.Deleting(ByWorker, n) in es <==> DropAsked(t, WORKER_FINALIZER))
    && (ClusterNotFound(n) in es <==> ParentMissing(t))
    && (forall uid, source, target :: PhaseChanged(ByWorker, n, uid, source, target) in es <==>
          && FinalAsked(t) && uid == Last(t).request.held.uid
          && source == Last(t).request.held.status.phase && target == Last(t).request.status.phase
          && source != Unset && source != target)
  }

  /** What the calls made so far say about where the reconcile is. */
  predicate WorkerReached(t: seq<Exchange<WorkerSpec>>, p: WorkerProc) {
    if p.Starting? then t == []
    else
      && t != [] && t[0].reply.GotCr?
      && (p.pc.DropFinalizer? <==> DropAsked(t, WORKER_FINALIZER))
      && (t[0].reply.cr.deleting ==> p.pc.DropFinalizer?)
      && (p.pc.ReportOrphan? <==> ParentMissing(t))
      && (!p.pc.ReportOrphan? && !p.pc.WriteStatus? ==> p.status.phase == p.base.status.phase)
  }

  /** And which events are recorded by then. */
  ghost predicate WorkerRecorded(es: seq<Event>, n: Name, p: WorkerProc) {
    && (Event.Deleting(ByWorker, n) in es <==> p.Active? && p.pc.DropFinalizer?)
    && ClusterNotFound(n) !in es
    && (forall uid, source, target :: PhaseChanged(ByWorker, n, uid, source, target) in es <==>
          && p.Active? && p.pc.WriteStatus? && uid == p.base.uid
          && source == p.base.status.phase && target == p.status.phase && source != Unset && source != target)
  }

  lemma MoreCallsKeepParent(t: seq<Exchange<WorkerSpec>>, e: Exchange<WorkerSpec>)
    ensures ParentMissing(t + [e]) <==> ParentMissing(t) || (e.request.GetCluster? && e.reply.NotFound?)
    ensures !ParentMissing([])
  {
    assert e in t + [e] && forall x <- t :: x in t + [e];
  }

  /** The result of the reconcile, recorded last, is the lawful one. */
  ghost predicate WorkerEnds(t: seq<Exchange<WorkerSpec>>, es: seq<Event>, n: Name) {
    && es != []
    && var last := es[|es| - 1];
    && last.Finished? && last == Finished(ByWorker, n, last.result) && WorkerLawful(t, last.result)
  }

  /** One call of a worker reconcile keeps the account, or ends it lawfully. */
  lemma WorkerCallAccounts(t: seq<Exchange<WorkerSpec>>, n: Name, p: WorkerProc, reply: Reply<WorkerSpec>, now: nat)
    requires WorkerReached(t, p)
    ensures var turn, t' := WorkerResume(n, p, reply, now), t + [Exchange(WorkerRequest(n, p), reply)];
      && (turn.next.Some? ==> WorkerReached(t', turn.next.value))
      && (turn.next.None? ==> WorkerEnds(t', turn.events, n))
  {
    hide WorkerChild, SetCondition, Observe, ParentMissing;
    MoreCallsKeepParent(t, Exchange(WorkerRequest(n, p), reply));
  }

  /** And the events recorded keep theirs. */
  lemma WorkerCallRecords(t: seq<Exchange<WorkerSpec>>, es: seq<Event>, n: Name, p: WorkerProc, reply: Reply<WorkerSpec>, now: nat)
    requires WorkerReached(t, p) && WorkerRecorded(es, n, p)
    ensures var turn, t' := WorkerResume(n, p, reply, now), t + [Exchange(WorkerRequest(n, p), reply)];
      && (turn.next.Some? ==> WorkerRecorded(es + turn.events, n, turn.next.value))
      && (turn.next.None? ==> WorkerTold(t', es + turn.events, n))
  {
    hide WorkerChild, SetCondition, Observe, ParentMissing;
    MoreCallsKeepParent(t, Exchange(WorkerRequest(n, p), reply));
  }

  /** Over the whole of a driven reconcile. */
  lemma {:induction false} WorkerDriveAccounts(w: World, script: seq<Turn>, n: Name, t: seq<Exchange<WorkerSpec>>, es: seq<Event>)
    requires n in w.workerProcs && WorkerReached(t, w.workerProcs[n]) && WorkerRecorded(es, n, w.workerProcs[n])
    ensures WorkerEnds(t + WorkerTranscript(w, script, n), es + WorkerAnnounced(w, script, n), n)
    ensures WorkerTold(t + WorkerTranscript(w, script, n), es + WorkerAnnounced(w, script, n), n)
    decreases WorkerRank(w.workerProcs[n])
  {
    hide WorkerReached, WorkerRecorded, WorkerLawful, WorkerTold, WorkerResume, WorkerRequest, WorkerRank, AdvanceWorker, WorkerReplyTo, WorkerDisturbed;
    var p, reply := w.workerProcs[n], WorkerReplyTo(w, script, n);
    var turn, call := WorkerAnswered(w, script, n), [Exchange(WorkerRequest(n, p), reply)];
    var w1, rest := AdvanceWorker(w, script, n), Rest(script);
    AdvanceWorkerFollowsReply(w, script, n);
    WorkerCallAccounts(t, n, p, reply, WorkerDisturbed(w, script, n).now);
    WorkerCallRecords(t, es, n, p, reply, WorkerDisturbed(w, script, n).now);
    assert t + (call + WorkerTranscript(w1, rest, n)) == (t + call) + WorkerTranscript(w1, rest, n);
    assert es + (turn.events + WorkerAnnounced(w1, rest, n)) == (es + turn.events) + WorkerAnnounced(w1, rest, n);
    if n in w1.workerProcs {
      WorkerDriveAccounts(w1, rest, n, t + call, es + turn.events);
    } else {
      assert WorkerTranscript(w, script, n) == call && WorkerAnnounced(w, script, n) == turn.events by {
        assert call + WorkerTranscript(w1, rest, n) == call && turn.events + WorkerAnnounced(w1, rest, n) == turn.events;
      }
    }
  }

  /**
   The law of worker results and events.  A reconcile returns a 30s requeue exactly when its parent
   look-up answered not found; nothing exactly when the worker was not found, was let go, or had its
   final status stored with autoscaling off; a polling requeue exactly when stored with it on; and an
   error otherwise.
   */
  lemma WorkerResultIsLawful(w: World, script: seq<Turn>, n: Name)
    requires n in w.workerProcs && w.workerProcs[n] == WorkerProc.Starting
    ensures WorkerEnds(WorkerTranscript(w, script, n), WorkerAnnounced(w, script, n), n)
    ensures WorkerTold(WorkerTranscript(w, script, n), WorkerAnnounced(w, script, n), n)
  {
    hide WorkerEnds, WorkerTold;
    WorkerDriveAccounts(w, script, n, [], []);
    assert [] + WorkerTranscript(w, script, n) == WorkerTranscript(w, script, n);
    assert [] + WorkerAnnounced(w, script, n) == WorkerAnnounced(w, script, n);
  }

  // ---------------------------------------------------------------- clusters

  /** The first status of a new cluster. */
  predicate Initializes(e: Exchange<ClusterSpec>) {
    e.request.PutStatus? && e.request.held.status.phase == Unset
  }

  /** The server Deployment was read and what came of it is being stored. */
  predicate StatusAsked(t: seq<Exchange<ClusterSpec>>, n: Name) {
    |t| >= 2 && Last(t).request.PutStatus? && t[|t| - 2].request == GetChild(ClusterChildKey(ServerDeployment, n))
  }

  /** Something went wrong before the first child: the read, a finalizer write, the first status. */
  predicate FailedEarly(t: seq<Exchange<ClusterSpec>>) {
    && t != []
    && ((Last(t).request.GetSelf? && !Last(t).reply.GotCr? && !Last(t).reply.NotFound?)
        || (Last(t).request.PutFinalizers? && !Last(t).reply.GotCr?)
        || (Initializes(Last(t)) && !Last(t).reply.GotCr?))
  }

  predicate InitializedIn(t: seq<Exchange<ClusterSpec>>) {
    exists e <- t :: Initializes(e) && e.reply.GotCr?
  }

  /** A call about the ServiceMonitor failed, or found it controlled by another. */
  predicate MonitorTrouble(e: Exchange<ClusterSpec>, n: Name) {
    match e.request
    case GetChild(key) =>
      key == ClusterChildKey(Monitor, n)
      && if e.reply.GotChild? then ControlledByOther(e.reply.child, ByCluster, n.name) else !e.reply.NotFound?
    case CreateChild(key, _, _) => key == ClusterChildKey(Monitor, n) && !e.reply.GotChild?
    case UpdateChild(key, _, _, _) => key == ClusterChildKey(Monitor, n) && !e.reply.GotChild?
    case _ => false
  }

  predicate MonitorTroubleIn(t: seq<Exchange<ClusterSpec>>, n: Name) {
    exists e <- t :: MonitorTrouble(e, n)
  }

  /** The result of a cluster reconcile that made these calls. */
  predicate ClusterLawful(t: seq<Exchange<ClusterSpec>>, n: Name, result: Result) {
    && (result == Quiet <==> Absent(t) || LetGo(t, OJS_FINALIZER) || (StatusAsked(t, n) && Last(t).reply.GotCr?))
    && (result == Failure <==> FailedEarly(t))
    && result in {Quiet, Failure, FailureAfterDelay}
  }

  /** The events it recorded. */
  ghost predicate ClusterTold(t: seq<Exchange<ClusterSpec>>, es: seq<Event>, n: Name) {
    && (Event.Deleting(ByCluster, n) in es <==> DropAsked(t, OJS_FINALIZER))
    && (Reconciling(n) in es <==> InitializedIn(t))
    && (BackendFailed(n) in es <==> t != [] && Last(t).request.PutStatus? && !Initializes(Last(t)) && !StatusAsked(t, n))
    && (MonitorFailed(n) in es <==> MonitorTroubleIn(t, n))
    && (forall uid, source, target :: PhaseChanged(ByCluster, n, uid, source, target) in es <==>
          && StatusAsked(t, n) && uid == Last(t).request.held.uid
          && source == Last(t).request.held.status.phase && target == Last(t).request.status.phase && source != target)
  }

  /** What the calls made so far say about where the reconcile is. */
  predicate ClusterReached(t: seq<Exchange<ClusterSpec>>, n: Name, p: ClusterProc) {
    if p.Starting? then t == []
    else
      && t != [] && t[0].reply.GotCr?
      && (p.pc.DropFinalizer? <==> DropAsked(t, OJS_FINALIZER))
      && (t[0].reply.cr.deleting ==> p.pc.DropFinalizer?)
      && (p.pc.Initialize? ==> p.base.status.phase == Unset && p.status.phase == Pending)
      && (p.pc.Initialize? ==> Last(t).request != GetChild(ClusterChildKey(ServerDeployment, n)))
      && (!p.pc.DropFinalizer? && !p.pc.AddFinalizer? && !p.pc.Initialize? ==> p.base.status.phase != Unset)
      && (!p.pc.Initialize? && !p.pc.WriteStatus? ==> p.status.phase == p.base.status.phase)
      && (p.pc.WriteStatus? || p.pc.ReportBackend? ==>
            (p.pc.WriteStatus? <==> Last(t).request == GetChild(ClusterChildKey(ServerDeployment, n))))
  }

  ghost predicate ClusterRecorded(t: seq<Exchange<ClusterSpec>>, es: seq<Event>, n: Name, p: ClusterProc) {
    && (Event.Deleting(ByCluster, n) in es <==> p.Active? && p.pc.DropFinalizer?)
    && (Reconciling(n) in es <==> InitializedIn(t))
    && BackendFailed(n) !in es
    && (MonitorFailed(n) in es <==> MonitorTroubleIn(t, n))
    && (forall uid, source, target :: PhaseChanged(ByCluster, n, uid, source, target) in es <==>
          && p.Active? && p.pc.WriteStatus? && uid == p.base.uid
          && source == p.base.status.phase && target == p.status.phase && source != target)
  }

  lemma MoreCallsAccountFor(t: seq<Exchange<ClusterSpec>>, e: Exchange<ClusterSpec>, n: Name)
    ensures InitializedIn(t + [e]) <==> InitializedIn(t) || (Initializes(e) && e.reply.GotCr?)
    ensures MonitorTroubleIn(t + [e], n) <==> MonitorTroubleIn(t, n) || MonitorTrouble(e, n)
    ensures !InitializedIn([]) && !MonitorTroubleIn([], n)
  {
    hide MonitorTrouble;
    assert e in t + [e] && forall x <- t :: x in t + [e];
  }

  ghost predicate ClusterEnds(t: seq<Exchange<ClusterSpec>>, es: seq<Event>, n: Name) {
    && es != []
    && var last := es[|es| - 1];
    && last.Finished? && last == Finished(ByCluster, n, last.result) && ClusterLawful(t, n, last.result)
  }

  /** An accepted status write returns the status written. */
  predicate Answers(e: Exchange<ClusterSpec>) {
    e.request.PutStatus? && e.reply.GotCr? ==> e.reply.cr.status == e.request.status
  }

  /** The account after a call: kept, or ended lawfully. */
  ghost predicate Accounted(t: seq<Exchange<ClusterSpec>>, n: Name, turn: ClusterTurn) {
    && (turn.next.Some? ==> ClusterReached(t, n, turn.next.value))
    && (turn.next.None? ==> ClusterEnds(t, turn.events, n))
  }

  /** A live cluster, and the last call was not about its server Deployment. */
  predicate Underway(t: seq<Exchange<ClusterSpec>>, n: Name) {
    t != [] && t[0].reply.GotCr? && !t[0].reply.cr.deleting && Last(t).request != GetChild(ClusterChildKey(ServerDeployment, n))
  }

  lemma InitializedAccounts(t: seq<Exchange<ClusterSpec>>, n: Name, cr: Cr<ClusterSpec>, now: nat)
    requires Underway(t, n) && cr.status.phase != Unset
    ensures Accounted(t, n, ClusterInitialized(n, cr, now))
  {
    hide SetCondition, ClusterEnds, ClusterChildKey;
  }

  lemma AnchoredAccounts(t: seq<Exchange<ClusterSpec>>, n: Name, cr: Cr<ClusterSpec>, now: nat)
    requires Underway(t, n)
    ensures Accounted(t, n, ClusterAnchored(n, cr, now))
  {
    hide SetCondition, ClusterEnds, ClusterChildKey, ClusterInitialized;
    if cr.status.phase != Unset { InitializedAccounts(t, n, cr, now); }
  }

  lemma FetchAccounts(n: Name, reply: Reply<ClusterSpec>, now: nat)
    ensures Accounted([Exchange(GetSelf, reply)], n, ClusterResume(n, ClusterProc.Starting, reply, now))
  {
    hide SetCondition, ClusterAnchored;
    if reply.GotCr? && !reply.cr.deleting { AnchoredAccounts([Exchange(GetSelf, reply)], n, reply.cr, now); }
  }

  lemma SlotDoneAccounts(t: seq<Exchange<ClusterSpec>>, n: Name, base: Cr<ClusterSpec>, status: Status, slot: ClusterSlot, now: nat)
    requires t != [] && t[0].reply.GotCr? && !t[0].reply.cr.deleting && base.status.phase != Unset && status.phase == base.status.phase
    ensures Accounted(t, n, ClusterSlotDone(base, status, slot, now))
  {
    hide SetCondition, ClusterNext;
  }

  /** A failed child: `t` ends with a call about it. */
  lemma SlotFailedAccounts(t: seq<Exchange<ClusterSpec>>, n: Name, base: Cr<ClusterSpec>, status: Status, slot: ClusterSlot, now: nat)
    requires t != [] && t[0].reply.GotCr? && !t[0].reply.cr.deleting && base.status.phase != Unset && status.phase == base.status.phase
    requires var r := Last(t).request;
      (r.GetChild? || r.CreateChild? || r.UpdateChild?) && r.key == ClusterChildKey(slot, n)
    ensures Accounted(t, n, ClusterSlotFailed(n, base, status, slot, now))
  {
    hide SetCondition, ClusterNext, ClusterChildKey;
    ClusterChildNamesNeverCollide(slot, n, ServerDeployment, n);
    SlotDoneAccounts(t, n, base, status, slot, now);
  }

  lemma ChildCallAccounts(t: seq<Exchange<ClusterSpec>>, n: Name, p: ClusterProc, reply: Reply<ClusterSpec>, now: nat)
    requires p.Active? && (p.pc.Read? || p.pc.Write?) && ClusterReached(t, n, p)
    ensures Accounted(t + [Exchange(ClusterRequest(n, p), reply)], n, ClusterResume(n, p, reply, now))
  {
    hide ClusterChild, SetCondition, ClusterSlotDone, ClusterSlotFailed, ClusterChildKey, ClusterEnds;
    var t' := t + [Exchange(ClusterRequest(n, p), reply)];
    SlotDoneAccounts(t', n, p.base, p.status, p.pc.slot, now);
    SlotFailedAccounts(t', n, p.base, p.status, p.pc.slot, now);
  }

  lemma StatusCallAccounts(t: seq<Exchange<ClusterSpec>>, n: Name, p: ClusterProc, reply: Reply<ClusterSpec>, now: nat)
    requires p.Active? && (p.pc.ReportBackend? || p.pc.ReadServer? || p.pc.WriteStatus? || p.pc.DropFinalizer?) && ClusterReached(t, n, p)
    ensures Accounted(t + [Exchange(ClusterRequest(n, p), reply)], n, ClusterResume(n, p, reply, now))
  {
    hide SetCondition, Observe, ClusterChildKey;
  }

  lemma EarlyCallAccounts(t: seq<Exchange<ClusterSpec>>, n: Name, p: ClusterProc, reply: Reply<ClusterSpec>, now: nat)
    requires p.Active? && (p.pc.AddFinalizer? || p.pc.Initialize?) && ClusterReached(t, n, p)
    requires Answers(Exchange(ClusterRequest(n, p), reply))
    ensures Accounted(t + [Exchange(ClusterRequest(n, p), reply)], n, ClusterResume(n, p, reply, now))
  {
    hide SetCondition, ClusterAnchored, ClusterInitialized, ClusterChildKey;
    var t' := t + [Exchange(ClusterRequest(n, p), reply)];
    if reply.GotCr? {
      if p.pc.AddFinalizer? { AnchoredAccounts(t', n, reply.cr, now); } else { InitializedAccounts(t', n, reply.cr, now); }
    }
  }

  /** One call of a cluster reconcile keeps the account, or ends it lawfully. */
  lemma ClusterCallAccounts(t: seq<Exchange<ClusterSpec>>, n: Name, p: ClusterProc, reply: Reply<ClusterSpec>, now: nat)
    requires ClusterReached(t, n, p) && Answers(Exchange(ClusterRequest(n, p), reply))
    ensures Accounted(t + [Exchange(ClusterRequest(n, p), reply)], n, ClusterResume(n, p, reply, now))
  {
    if p.Starting? {
      assert t == [];
      hide ClusterResume, Accounted;
      FetchAccounts(n, reply, now);
      assert [] + [Exchange(ClusterRequest(n, p), reply)] == [Exchange(GetSelf, reply)];
    } else {
      hide ClusterResume, Accounted, ClusterReached, ClusterRequest, Answers;
      match p.pc
      case Read(_) => ChildCallAccounts(t, n, p, reply, now);
      case Write(_, _) => ChildCallAccounts(t, n, p, reply, now);
      case AddFinalizer => EarlyCallAccounts(t, n, p, reply, now);
      case Initialize => EarlyCallAccounts(t, n, p, reply, now);
      case _ => StatusCallAccounts(t, n, p, reply, now);
    }
  }

  // ---------------------------------------------------------------- the events of a cluster reconcile

  ghost predicate Noted(t: seq<Exchange<ClusterSpec>>, es: seq<Event>, n: Name, turn: ClusterTurn) {
    && (turn.next.Some? ==> ClusterRecorded(t, es + turn.events, n, turn.next.value))
    && (turn.next.None? ==> ClusterTold(t, es + turn.events, n))
  }

  /** Nothing is recorded on the way to the first child, nor by the end of a slot. */
  predicate Hushed(turn: ClusterTurn) {
    turn.events == [] && turn.next.Some? && turn.next.value.Active?
    && !turn.next.value.pc.DropFinalizer? && !turn.next.value.pc.WriteStatus?
  }

  lemma EarlyTurnsAreHushed(n: Name, cr: Cr<ClusterSpec>, now: nat)
    ensures Hushed(ClusterAnchored(n, cr, now)) && Hushed(ClusterInitialized(n, cr, now))
  {
    hide SetCondition;
  }

  lemma SlotDoneIsHushed(base: Cr<ClusterSpec>, status: Status, slot: ClusterSlot, now: nat)
    ensures Hushed(ClusterSlotDone(base, status, slot, now))
  {
    hide SetCondition, ClusterNext;
  }

  /** So far: nothing but what the calls account for, apart from what is due in two places. */
  ghost predicate Plain(t: seq<Exchange<ClusterSpec>>, es: seq<Event>, n: Name) {
    && Event.Deleting(ByCluster, n) !in es && BackendFailed(n) !in es
    && (Reconciling(n) in es <==> InitializedIn(t))
    && (MonitorFailed(n) in es <==> MonitorTroubleIn(t, n))
    && forall uid, source, target :: PhaseChanged(ByCluster, n, uid, source, target) !in es
  }

  lemma RecordedIsPlain(t: seq<Exchange<ClusterSpec>>, es: seq<Event>, n: Name, p: ClusterProc)
    requires p.Active? ==> !p.pc.DropFinalizer? && !p.pc.WriteStatus?
    ensures ClusterRecorded(t, es, n, p) <==> Plain(t, es, n)
  {
    hide InitializedIn, MonitorTroubleIn;
  }

  lemma HushedIsNoted(t: seq<Exchange<ClusterSpec>>, es: seq<Event>, n: Name, turn: ClusterTurn)
    requires Plain(t, es, n) && Hushed(turn)
    ensures Noted(t, es, n, turn)
  {
    hide Plain, ClusterRecorded;
    assert es + [] == es;
    RecordedIsPlain(t, es, n, turn.next.value);
  }

  /** A reconcile of a live cluster that ends with nothing to tell. */
  lemma StopIsNoted(t: seq<Exchange<ClusterSpec>>, es: seq<Event>, n: Name, result: Result)
    requires Plain(t, es, n) && !DropAsked(t, OJS_FINALIZER)
    requires t != [] && (Last(t).request.PutStatus? ==> Initializes(Last(t)) && (|t| < 2 || t[|t| - 2].request != GetChild(ClusterChildKey(ServerDeployment, n))))
    ensures Noted(t, es, n, ClusterStop(n, result))
  {
    hide InitializedIn, MonitorTroubleIn, ClusterChildKey;
  }

  lemma FetchNotes(es: seq<Event>, n: Name, reply: Reply<ClusterSpec>, now: nat)
    requires es == []
    ensures Noted([Exchange(GetSelf, reply)], es, n, ClusterResume(n, ClusterProc.Starting, reply, now))
  {
    hide SetCondition, ClusterAnchored, InitializedIn, MonitorTroubleIn, ClusterRecorded, ClusterTold;
    var t := [Exchange(GetSelf, reply)];
    assert Plain(t, es, n) by { MoreCallsAccountFor([], t[0], n); assert [] + t == t; }
    if reply.GotCr? && reply.cr.deleting && OJS_FINALIZER in reply.cr.finalizers {
      DeletionNotes(t, es, n, reply.cr);
    } else if reply.GotCr? && !reply.cr.deleting && OJS_FINALIZER in reply.cr.finalizers {
      EarlyTurnsAreHushed(n, reply.cr, now);
      HushedIsNoted(t, es, n, ClusterAnchored(n, reply.cr, now));
    } else if reply.GotCr? && !reply.cr.deleting {
      HushedIsNoted(t, es, n, ClusterGo(ClusterPc.AddFinalizer, reply.cr, reply.cr.status));
    } else {
      StopIsNoted(t, es, n, if reply.GotCr? || reply.NotFound? then Quiet else Failure);
    }
  }

  lemma DeletionNotes(t: seq<Exchange<ClusterSpec>>, es: seq<Event>, n: Name, cr: Cr<ClusterSpec>)
    requires Plain(t, es, n)
    ensures Noted(t, es, n, Noting(Event.Deleting(ByCluster, n), ClusterGo(ClusterPc.DropFinalizer, cr, cr.status)))
  {
    hide InitializedIn, MonitorTroubleIn;
  }

  lemma MonitorNotes(t: seq<Exchange<ClusterSpec>>, es: seq<Event>, n: Name, turn: ClusterTurn)
    requires Event.Deleting(ByCluster, n) !in es && BackendFailed(n) !in es && (Reconciling(n) in es <==> InitializedIn(t))
    requires forall uid, source, target :: PhaseChanged(ByCluster, n, uid, source, target) !in es
    requires MonitorTroubleIn(t, n) && Hushed(turn)
    ensures Noted(t, es, n, Noting(MonitorFailed(n), turn))
  {
    hide InitializedIn, MonitorTroubleIn;
    assert [MonitorFailed(n)] + [] == [MonitorFailed(n)];
  }

  /** Calls about children: only trouble with the ServiceMonitor is recorded. */
  lemma ChildCallNotes(t: seq<Exchange<ClusterSpec>>, es: seq<Event>, n: Name, p: ClusterProc, reply: Reply<ClusterSpec>, now: nat)
    requires p.Active? && (p.pc.Read? || p.pc.Write?) && ClusterReached(t, n, p) && ClusterRecorded(t, es, n, p)
    ensures Noted(t + [Exchange(ClusterRequest(n, p), reply)], es, n, ClusterResume(n, p, reply, now))
  {
    hide ClusterChild, SetCondition, ClusterSlotDone, ClusterBackendFailed, ClusterChildKey, InitializedIn, MonitorTroubleIn, Noted, Plain, ClusterRecorded, ClusterTold;
    var e, slot := Exchange(ClusterRequest(n, p), reply), p.pc.slot;
    var t' := t + [e];
    MoreCallsAccountFor(t, e, n);
    ClusterChildNamesNeverCollide(slot, n, Monitor, n);
    RecordedIsPlain(t, es, n, p);
    SlotDoneIsHushed(p.base, p.status, slot, now);
    FailureIsHushed(p.base, p.status, now);
    if MonitorTrouble(e, n) {
      PlainParts(t, es, n);
      MonitorNotes(t', es, n, ClusterSlotDone(p.base, p.status, slot, now));
    } else {
      PlainMoves(t, t', es, n);
      if ClusterResume(n, p, reply, now).next.None? {
        StopIsNoted(t', es, n, FailureAfterDelay);
      } else {
        HushedIsNoted(t', es, n, ClusterResume(n, p, reply, now));
      }
    }
  }

  lemma FailureIsHushed(base: Cr<ClusterSpec>, status: Status, now: nat)
    ensures Hushed(ClusterBackendFailed(base, status, now))
  {
    hide SetCondition;
  }

  lemma PlainParts(t: seq<Exchange<ClusterSpec>>, es: seq<Event>, n: Name)
    requires Plain(t, es, n)
    ensures Event.Deleting(ByCluster, n) !in es && BackendFailed(n) !in es && (Reconciling(n) in es <==> InitializedIn(t))
    ensures forall uid, source, target :: PhaseChanged(ByCluster, n, uid, source, target) !in es
  {
  }

  lemma PlainMoves(t: seq<Exchange<ClusterSpec>>, t': seq<Exchange<ClusterSpec>>, es: seq<Event>, n: Name)
    requires Plain(t, es, n) && InitializedIn(t') == InitializedIn(t) && MonitorTroubleIn(t', n) == MonitorTroubleIn(t, n)
    ensures Plain(t', es, n)
  {
    hide InitializedIn, MonitorTroubleIn;
  }

  lemma EarlyCallNotes(t: seq<Exchange<ClusterSpec>>, es: seq<Event>, n: Name, p: ClusterProc, reply: Reply<ClusterSpec>, now: nat)
    requires p.Active? && (p.pc.AddFinalizer? || p.pc.Initialize?) && ClusterReached(t, n, p) && ClusterRecorded(t, es, n, p)
    ensures Noted(t + [Exchange(ClusterRequest(n, p), reply)], es, n, ClusterResume(n, p, reply, now))
  {
    hide SetCondition, ClusterAnchored, ClusterInitialized, ClusterChildKey, InitializedIn, MonitorTroubleIn, Noted, Plain, ClusterRecorded, ClusterTold;
    var e := Exchange(ClusterRequest(n, p), reply);
    var t' := t + [e];
    MoreCallsAccountFor(t, e, n);
    RecordedIsPlain(t, es, n, p);
    if !reply.GotCr? {
      PlainMoves(t, t', es, n);
      StopIsNoted(t', es, n, Failure);
    } else {
      EarlyTurnsAreHushed(n, reply.cr, now);
      if p.pc.AddFinalizer? {
        PlainMoves(t, t', es, n);
        HushedIsNoted(t', es, n, ClusterAnchored(n, reply.cr, now));
      } else {
        InitializedNotes(t, t', es, n, ClusterInitialized(n, reply.cr, now));
      }
    }
  }

  lemma InitializedNotes(t: seq<Exchange<ClusterSpec>>, t': seq<Exchange<ClusterSpec>>, es: seq<Event>, n: Name, turn: ClusterTurn)
    requires Plain(t, es, n) && InitializedIn(t') && MonitorTroubleIn(t', n) == MonitorTroubleIn(t, n) && Hushed(turn)
    ensures Noted(t', es, n, Noting(Reconciling(n), turn))
  {
    hide InitializedIn, MonitorTroubleIn;
    assert [Reconciling(n)] + [] == [Reconciling(n)];
  }

  lemma DropCallNotes(t: seq<Exchange<ClusterSpec>>, es: seq<Event>, n: Name, p: ClusterProc, reply: Reply<ClusterSpec>, now: nat)
    requires p.Active? && p.pc.DropFinalizer? && ClusterReached(t, n, p) && ClusterRecorded(t, es, n, p)
    ensures Noted(t + [Exchange(ClusterRequest(n, p), reply)], es, n, ClusterResume(n, p, reply, now))
  {
    hide InitializedIn, MonitorTroubleIn, ClusterChildKey;
    MoreCallsAccountFor(t, Exchange(ClusterRequest(n, p), reply), n);
  }

  lemma ReportCallNotes(t: seq<Exchange<ClusterSpec>>, es: seq<Event>, n: Name, p: ClusterProc, reply: Reply<ClusterSpec>, now: nat)
    requires p.Active? && p.pc.ReportBackend? && ClusterReached(t, n, p) && ClusterRecorded(t, es, n, p)
    ensures Noted(t + [Exchange(ClusterRequest(n, p), reply)], es, n, ClusterResume(n, p, reply, now))
  {
    hide InitializedIn, MonitorTroubleIn, ClusterChildKey;
    MoreCallsAccountFor(t, Exchange(ClusterRequest(n, p), reply), n);
  }

  lemma WriteStatusCallNotes(t: seq<Exchange<ClusterSpec>>, es: seq<Event>, n: Name, p: ClusterProc, reply: Reply<ClusterSpec>, now: nat)
    requires p.Active? && p.pc.WriteStatus? && ClusterReached(t, n, p) && ClusterRecorded(t, es, n, p)
    ensures Noted(t + [Exchange(ClusterRequest(n, p), reply)], es, n, ClusterResume(n, p, reply, now))
  {
    hide InitializedIn, MonitorTroubleIn, ClusterChildKey;
    MoreCallsAccountFor(t, Exchange(ClusterRequest(n, p), reply), n);
  }

  lemma ObservedNotes(t: seq<Exchange<ClusterSpec>>, es: seq<Event>, n: Name, base: Cr<ClusterSpec>, status: Status, server: Option<Unmanaged>, now: nat)
    requires Plain(t, es, n) && status.phase == base.status.phase != Unset
    ensures Noted(t, es, n, ClusterObserved(n, base, status, server, now))
  {
    hide InitializedIn, MonitorTroubleIn, Observe;
  }

  lemma ReadServerCallNotes(t: seq<Exchange<ClusterSpec>>, es: seq<Event>, n: Name, p: ClusterProc, reply: Reply<ClusterSpec>, now: nat)
    requires p.Active? && p.pc.ReadServer? && ClusterReached(t, n, p) && ClusterRecorded(t, es, n, p)
    ensures Noted(t + [Exchange(ClusterRequest(n, p), reply)], es, n, ClusterResume(n, p, reply, now))
  {
    hide InitializedIn, MonitorTroubleIn, ClusterChildKey, Observe, ClusterObserved, Noted, Plain, ClusterRecorded;
    var e := Exchange(ClusterRequest(n, p), reply);
    MoreCallsAccountFor(t, e, n);
    ServerIsNoMonitor(n, e);
    RecordedIsPlain(t, es, n, p);
    PlainMoves(t, t + [e], es, n);
    ObservedNotes(t + [e], es, n, p.base, p.status, None, now);
    if reply.GotChild? { ObservedNotes(t + [e], es, n, p.base, p.status, Some(reply.child.rest), now); }
    StopIsNoted(t + [e], es, n, FailureAfterDelay);
  }

  lemma ServerIsNoMonitor(n: Name, e: Exchange<ClusterSpec>)
    requires e.request == GetChild(ClusterChildKey(ServerDeployment, n))
    ensures !MonitorTrouble(e, n)
  {
  }

  lemma ClusterCallNotes(t: seq<Exchange<ClusterSpec>>, es: seq<Event>, n: Name, p: ClusterProc, reply: Reply<ClusterSpec>, now: nat)
    requires ClusterReached(t, n, p) && ClusterRecorded(t, es, n, p) && (p.Starting? ==> es == [])
    ensures Noted(t + [Exchange(ClusterRequest(n, p), reply)], es, n, ClusterResume(n, p, reply, now))
  {
    if p.Starting? {
      assert t == [];
      hide ClusterResume, Noted;
      FetchNotes(es, n, reply, now);
      assert [] + [Exchange(ClusterRequest(n, p), reply)] == [Exchange(GetSelf, reply)];
    } else {
      hide ClusterResume, Noted, ClusterRequest, ClusterRecorded;
      match p.pc
      case Read(_) => ChildCallNotes(t, es, n, p, reply, now);
      case Write(_, _) => ChildCallNotes(t, es, n, p, reply, now);
      case AddFinalizer => EarlyCallNotes(t, es, n, p, reply, now);
      case Initialize => EarlyCallNotes(t, es, n, p, reply, now);
      case DropFinalizer => DropCallNotes(t, es, n, p, reply, now);
      case ReportBackend => ReportCallNotes(t, es, n, p, reply, now);
      case ReadServer => ReadServerCallNotes(t, es, n, p, reply, now);
      case WriteStatus => WriteStatusCallNotes(t, es, n, p, reply, now);
    }
  }

  // ---------------------------------------------------------------- whole cluster reconciles

  lemma ServedAnswers(w: World, script: seq<Turn>, n: Name)
    requires n in w.clusterProcs
    ensures Answers(Exchange(ClusterRequest(n, w.clusterProcs[n]), ReplyTo(w, script, n)))
  {
    hide ClusterRequest;
  }

  lemma {:induction false} ClusterDriveAccounts(w: World, script: seq<Turn>, n: Name, t: seq<Exchange<ClusterSpec>>, es: seq<Event>)
    requires n in w.clusterProcs && ClusterReached(t, n, w.clusterProcs[n]) && ClusterRecorded(t, es, n, w.clusterProcs[n])
    requires w.clusterProcs[n].Starting? ==> es == []
    ensures ClusterEnds(t + Transcript(w, script, n), es + Announced(w, script, n), n)
    ensures ClusterTold(t + Transcript(w, script, n), es + Announced(w, script, n), n)
    decreases ClusterRank(w.clusterProcs[n])
  {
    hide ClusterReached, ClusterRecorded, ClusterLawful, ClusterTold, ClusterRequest, ClusterRank, Advance, ReplyTo, Disturbed, Answers, ClusterResume;
    var p, reply := w.clusterProcs[n], ReplyTo(w, script, n);
    var turn, call := Answered(w, script, n), [Exchange(ClusterRequest(n, p), reply)];
    var w1, rest := Advance(w, script, n), Rest(script);
    AdvanceFollowsReply(w, script, n);
    ServedAnswers(w, script, n);
    ClusterCallAccounts(t, n, p, reply, Disturbed(w, script, n).now);
    ClusterCallNotes(t, es, n, p, reply, Disturbed(w, script, n).now);
    assert t + (call + Transcript(w1, rest, n)) == (t + call) + Transcript(w1, rest, n);
    assert es + (turn.events + Announced(w1, rest, n)) == (es + turn.events) + Announced(w1, rest, n);
    if n in w1.clusterProcs {
      NeverStartsAgain(n, p, reply, Disturbed(w, script, n).now);
      ClusterDriveAccounts(w1, rest, n, t + call, es + turn.events);
    } else {
      assert Transcript(w, script, n) == call && Announced(w, script, n) == turn.events by {
        assert call + Transcript(w1, rest, n) == call && turn.events + Announced(w1, rest, n) == turn.events;
      }
    }
  }

  lemma NeverStartsAgain(n: Name, p: ClusterProc, reply: Reply<ClusterSpec>, now: nat)
    ensures var turn := ClusterResume(n, p, reply, now); turn.next.Some? ==> turn.next.value.Active?
  {
    hide SetCondition, Observe, ClusterChild;
  }

  /**
   The law of cluster results and events.  A reconcile returns nothing exactly when the cluster was not
   found, was let go, or had its final status stored; an error without delay exactly when the read, a
   finalizer write or the first status failed; and an error after ten seconds otherwise.
   */
  lemma ClusterResultIsLawful(w: World, script: seq<Turn>, n: Name)
    requires n in w.clusterProcs && w.clusterProcs[n] == ClusterProc.Starting
    ensures ClusterEnds(Transcript(w, script, n), Announced(w, script, n), n)
    ensures ClusterTold(Transcript(w, script, n), Announced(w, script, n), n)
  {
    MoreCallsAccountFor([], Exchange(GetSelf, Failed), n);
    assert ClusterRecorded([], [], n, ClusterProc.Starting) by { hide InitializedIn, MonitorTroubleIn; }
    hide ClusterEnds, ClusterTold, ClusterRecorded, Transcript, Announced;
    ClusterDriveAccounts(w, script, n, [], []);
    assert [] + Transcript(w, script, n) == Transcript(w, script, n);
    assert [] + Announced(w, script, n) == Announced(w, script, n);
  }
}
