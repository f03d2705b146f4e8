/**
 PhaseChanged events against the phases that were really persisted.  Every event names the
 persisted phase as its source; and when no status write is lost, the events of a cluster are its
 phase history, move by move.
 */
module PhaseHistory {
  import opened OjsTypes
  import opened Payloads
  import opened ApiServer
  import opened Events
  import opened Observation
  import opened ClusterMachine
  import opened WorkerMachine
  import opened Operator
  import opened Invariants
  import opened ObservedGeneration

  datatype Move = Move(source: Phase, target: Phase)

  /** The phase changes announced for one incarnation of a cluster, in order. */
  function Announced(events: seq<Event>, n: Name, uid: nat): seq<Move> {
    if events == [] then []
    else
      var e := events[0];
      (if e.PhaseChanged? && e.owner == ByCluster && e.n == n && e.uid == uid then [Move(e.source, e.target)] else [])
      + Announced(events[1..], n, uid)
  }

  lemma {:induction false} AnnouncedAppend(a: seq<Event>, b: seq<Event>, n: Name, uid: nat)
    ensures Announced(a + b, n, uid) == Announced(a, n, uid) + Announced(b, n, uid)
  {
    if a == [] {
      assert a + b == b;
    } else {
      assert (a + b)[1..] == a[1..] + b;
      AnnouncedAppend(a[1..], b, n, uid);
    }
  }

  predicate Stands(w: World, n: Name, uid: nat) {
    n in w.store.clusters && w.store.clusters[n].uid == uid
  }

  /** The phase change one step persists; the first move to Pending is not announced. */
  function Persisted(w: World, w': World, n: Name, uid: nat): seq<Move> {
    if Stands(w, n, uid) && Stands(w', n, uid) then
      var source, target := w.store.clusters[n].status.phase, w'.store.clusters[n].status.phase;
      if source != Unset && source != target then [Move(source, target)] else []
    else []
  }

  function PersistedOver(w: World, actions: seq<Action>, n: Name, uid: nat): seq<Move>
    decreases |actions|
  {
    if actions == [] then []
    else Persisted(w, Apply(w, actions[0]), n, uid) + PersistedOver(Apply(w, actions[0]), actions[1..], n, uid)
  }

  /** A reconcile of `n` is about to write the status it has announced. */
  predicate WritingStatus(w: World, n: Name) {
    n in w.clusterProcs && w.clusterProcs[n].Active? && w.clusterProcs[n].pc.WriteStatus?
  }

  /** Announced and not yet persisted. */
  function Due(w: World, n: Name, uid: nat): seq<Move> {
    if WritingStatus(w, n) && w.clusterProcs[n].base.uid == uid
       && w.clusterProcs[n].base.status.phase != w.clusterProcs[n].status.phase
    then [Move(w.clusterProcs[n].base.status.phase, w.clusterProcs[n].status.phase)]
    else []
  }

  /** This step does not lose a status write: a reconcile about to write its status gets it stored. */
  predicate Lands(w: World, a: Action, n: Name) {
    WritingStatus(w, n) && (a.Crash? || (a.ClusterCall? && a.n == n)) ==>
      && a.ClusterCall?
      && n in Apply(w, a).store.clusters
      && Apply(w, a).store.clusters[n].status == w.clusterProcs[n].status
  }

  predicate AllLand(w: World, actions: seq<Action>, n: Name)
    decreases |actions|
  {
    actions == [] || (Lands(w, actions[0], n) && AllLand(Apply(w, actions[0]), actions[1..], n))
  }

  function NewEvents(w: World, w': World): seq<Event> {
    if w.events <= w'.events then w'.events[|w.events|..] else []
  }

  // ---------------------------------------------------------------- one turn of a reconcile

  /** Announces nothing and is not about to write the status. */
  ghost predicate Silent(turn: ClusterTurn) {
    && (forall e :: e in turn.events ==> !e.PhaseChanged?)
    && (turn.next.Some? && turn.next.value.Active? ==> !turn.next.value.pc.WriteStatus?)
  }

  lemma {:induction false} SilenceAnnouncesNothing(events: seq<Event>, n: Name, uid: nat)
    requires forall e :: e in events ==> !(e.PhaseChanged? && e.owner == ByCluster && e.n == n)
    ensures Announced(events, n, uid) == []
  {
    if events != [] { SilenceAnnouncesNothing(events[1..], n, uid); }
  }

  lemma FetchingIsSilent(n: Name, cr: Cr<ClusterSpec>, now: nat)
    ensures Silent(ClusterFetched(n, cr, now)) && Silent(ClusterAnchored(n, cr, now)) && Silent(ClusterInitialized(n, cr, now))
  {
    hide SetCondition;
  }

  lemma SlotsAreSilent(n: Name, base: Cr<ClusterSpec>, st: Status, slot: ClusterSlot, now: nat)
    ensures Silent(ClusterSlotDone(base, st, slot, now)) && Silent(ClusterSlotFailed(n, base, st, slot, now))
  {
    hide SetCondition;
  }

  lemma OnlyReadServerSpeaks(n: Name, p: ClusterProc, reply: Reply<ClusterSpec>, now: nat)
    requires !(p.Active? && p.pc.ReadServer?)
    ensures Silent(ClusterResume(n, p, reply, now))
  {
    hide SetCondition, ClusterChild, ClusterFetched, ClusterAnchored, ClusterInitialized, ClusterSlotDone, ClusterSlotFailed;
    if reply.GotCr? { FetchingIsSilent(n, reply.cr, now); }
    if p.Active? && (p.pc.Read? || p.pc.Write?) { SlotsAreSilent(n, p.base, p.status, p.pc.slot, now); }
  }

  /** Reading the Deployment announces exactly the phase change the coming status write makes. */
  lemma ReadServerSpeaks(n: Name, p: ClusterProc, reply: Reply<ClusterSpec>, now: nat, uid: nat)
    requires p.Active? && p.pc.ReadServer? && p.status.phase == p.base.status.phase != Unset
    ensures var turn := ClusterResume(n, p, reply, now);
      && (turn.next.Some? ==>
            && turn.next.value.Active? && turn.next.value.pc.WriteStatus? && turn.next.value.base == p.base
            && Announced(turn.events, n, uid) ==
                 if p.base.uid == uid && p.base.status.phase != turn.next.value.status.phase
                 then [Move(p.base.status.phase, turn.next.value.status.phase)] else [])
      && (turn.next.None? ==> Announced(turn.events, n, uid) == [])
  {
    hide Observe;
  }

  // ---------------------------------------------------------------- one step of the world

  /** The reconcile's own step: what was due plus what is announced is what is persisted plus what is due. */
  lemma OwnStepBalances(w: World, n: Name, outcome: Outcome, uid: nat)
    requires MemoryOk(w) && n in w.clusterProcs && Lands(w, ClusterCall(n, outcome), n)
    ensures var w' := ClusterStep(w, n, outcome);
      Due(w, n, uid) + Announced(NewEvents(w, w'), n, uid) == Persisted(w, w', n, uid) + Due(w', n, uid)
  {
    hide ClusterResume, Drift, ClusterChild;
    var p, served, w' := w.clusterProcs[n], ClusterServed(w, n), ClusterStep(w, n, outcome);
    var reply := if outcome.Delivered? then served.reply else Failed;
    var turn := ClusterResume(n, p, reply, w.now);
    assert ClusterDrift(p) && ClusterProcOk(ClusterView(w.store), n, p);
    assert NewEvents(w, w') == turn.events;
    if p.Active? && p.pc.ReadServer? {
      ReadServerSpeaks(n, p, reply, w.now, uid);
      assert w'.store.clusters == w.store.clusters;
    } else {
      OnlyReadServerSpeaks(n, p, reply, w.now);
      SilenceAnnouncesNothing(turn.events, n, uid);
      assert Due(w', n, uid) == [];
      OwnWritePersists(w, n, outcome, uid);
    }
  }

  lemma OwnWritePersists(w: World, n: Name, outcome: Outcome, uid: nat)
    requires MemoryOk(w) && n in w.clusterProcs && Lands(w, ClusterCall(n, outcome), n)
    ensures Persisted(w, ClusterStep(w, n, outcome), n, uid) == Due(w, n, uid)
  {
    hide ClusterResume, Drift, ClusterChild;
    var p := w.clusterProcs[n];
    assert ClusterDrift(p) && ClusterProcOk(ClusterView(w.store), n, p);
  }

  /** Events are only appended, and only a cluster's own reconcile announces its phase changes. */
  lemma OthersAnnounceNothing(w: World, a: Action, n: Name, uid: nat)
    requires MemoryOk(w) && !(a.ClusterCall? && a.n == n)
    ensures w.events <= Apply(w, a).events && Announced(NewEvents(w, Apply(w, a)), n, uid) == []
  {
    hide ClusterProcOk, WorkerProcOk, Drift, Serve, ServeWorker, ClusterResume, WorkerResume, UserDoes, ForeignWrite;
    var w' := Apply(w, a);
    if a.ClusterCall? && a.n in w.clusterProcs {
      var reply := if a.outcome.Delivered? then ClusterServed(w, a.n).reply else Failed;
      var turn := ClusterResume(a.n, w.clusterProcs[a.n], reply, w.now);
      ClusterTurnNames(a.n, w.clusterProcs[a.n], reply, w.now);
      assert NewEvents(w, w') == turn.events;
      SilenceAnnouncesNothing(turn.events, n, uid);
    } else if a.WorkerCall? && a.n in w.workerProcs {
      var reply := if a.outcome.Delivered? then WorkerServed(w, a.n).reply else Failed;
      var turn := WorkerResume(a.n, w.workerProcs[a.n], reply, w.now);
      WorkerTurnNames(a.n, w.workerProcs[a.n], reply, w.now);
      assert NewEvents(w, w') == turn.events;
      SilenceAnnouncesNothing(turn.events, n, uid);
    } else {
      assert w'.events == w.events && NewEvents(w, w') == [];
    }
  }

  lemma ClusterTurnNames(n: Name, p: ClusterProc, reply: Reply<ClusterSpec>, now: nat)
    ensures forall e :: e in ClusterResume(n, p, reply, now).events && e.PhaseChanged? ==> e.n == n
  {
    hide SetCondition, Observe, ClusterChild, ClusterFetched, ClusterAnchored, ClusterInitialized, ClusterSlotDone, ClusterSlotFailed;
    if reply.GotCr? { FetchingIsSilent(n, reply.cr, now); }
    if p.Active? && (p.pc.Read? || p.pc.Write?) { SlotsAreSilent(n, p.base, p.status, p.pc.slot, now); }
  }

  lemma WorkerTurnNames(n: Name, p: WorkerProc, reply: Reply<WorkerSpec>, now: nat)
    ensures forall e :: e in WorkerResume(n, p, reply, now).events && e.PhaseChanged? ==> e.owner == ByWorker
  {
    hide SetCondition, Observe, WorkerChild;
  }

  lemma OthersPersistNothing(w: World, a: Action, n: Name, uid: nat)
    requires MemoryOk(w) && uid < w.store.nextUid && !(a.ClusterCall? && a.n == n)
    ensures Persisted(w, Apply(w, a), n, uid) == []
  {
    hide ClusterProcOk, WorkerProcOk, Drift, Apply;
    OthersLeaveCluster(w, a, n);
  }

  lemma OthersLeaveDue(w: World, a: Action, n: Name, uid: nat)
    requires !(a.ClusterCall? && a.n == n) && Lands(w, a, n)
    ensures Due(Apply(w, a), n, uid) == Due(w, n, uid)
  {
    hide Serve, ServeWorker, ClusterResume, WorkerResume, UserDoes, ForeignWrite;
  }

  lemma StepBalances(w: World, a: Action, n: Name, uid: nat)
    requires MemoryOk(w) && uid < w.store.nextUid && Lands(w, a, n)
    ensures var w' := Apply(w, a);
      && w.events <= w'.events
      && Due(w, n, uid) + Announced(NewEvents(w, w'), n, uid) == Persisted(w, w', n, uid) + Due(w', n, uid)
  {
    hide MemoryOk, Lands, Due, Announced, Persisted, ClusterResume, Serve;
    if a.ClusterCall? && a.n == n {
      if n in w.clusterProcs {
        OwnStepBalances(w, n, a.outcome, uid);
      } else {
        assert Apply(w, a) == w;
        assert NewEvents(w, w) == [];
        SilenceAnnouncesNothing([], n, uid);
        assert Persisted(w, w, n, uid) == [] by { NothingPersists(w, n, uid); }
      }
    } else {
      OthersAnnounceNothing(w, a, n, uid);
      OthersPersistNothing(w, a, n, uid);
      OthersLeaveDue(w, a, n, uid);
    }
  }

  lemma NothingPersists(w: World, n: Name, uid: nat)
    ensures Persisted(w, w, n, uid) == []
  {
  }

  // ---------------------------------------------------------------- whole runs

  /** For any run that loses no status write of `n`: announced so far = persisted so far, give or take the one due. */
  lemma {:induction false} AnnouncedIsPersisted(w: World, actions: seq<Action>, n: Name, uid: nat)
    requires MemoryOk(w) && uid < w.store.nextUid && AllLand(w, actions, n)
    ensures var w' := Run(w, actions);
      && w.events <= w'.events
      && Due(w, n, uid) + Announced(NewEvents(w, w'), n, uid) == PersistedOver(w, actions, n, uid) + Due(w', n, uid)
    decreases |actions|
  {
    hide MemoryOk, Lands, Due, Announced, Persisted, Apply;
    if actions == [] {
      assert NewEvents(w, w) == [];
      SilenceAnnouncesNothing([], n, uid);
    } else {
      var w1, w' := Apply(w, actions[0]), Run(w, actions);
      StepKeepsMemory(w, actions[0]);
      StepBalances(w, actions[0], n, uid);
      UidsGrow(w, actions[0]);
      AnnouncedIsPersisted(w1, actions[1..], n, uid);
      assert NewEvents(w, w') == NewEvents(w, w1) + NewEvents(w1, w');
      var e1, e2 := NewEvents(w, w1), NewEvents(w1, w');
      AnnouncedAppend(e1, e2, n, uid);
      var p1, p2 := Persisted(w, w1, n, uid), PersistedOver(w1, actions[1..], n, uid);
      calc {
        Due(w, n, uid) + Announced(e1 + e2, n, uid);
        (Due(w, n, uid) + Announced(e1, n, uid)) + Announced(e2, n, uid);
        p1 + (Due(w1, n, uid) + Announced(e2, n, uid));
        (p1 + p2) + Due(w', n, uid);
      }
    }
  }

  /** Moves that follow on from each other, from one phase to another. */
  predicate Linked(first: Phase, moves: seq<Move>, last: Phase)
    decreases |moves|
  {
    if moves == [] then first == last
    else moves[0].source == first && first != moves[0].target && Linked(moves[0].target, moves[1..], last)
  }

  lemma {:induction false} LinkedAppend(a: Phase, x: seq<Move>, b: Phase, y: seq<Move>, c: Phase)
    requires Linked(a, x, b) && Linked(b, y, c)
    ensures Linked(a, x + y, c)
    decreases |x|
  {
    if x == [] {
      assert x + y == y;
    } else {
      assert (x + y)[1..] == x[1..] + y;
      LinkedAppend(x[0].target, x[1..], b, y, c);
    }
  }

  /** A phase once set is never unset, whoever takes the step. */
  lemma StepLinks(w: World, a: Action, n: Name, uid: nat)
    requires MemoryOk(w) && Stands(w, n, uid) && Stands(Apply(w, a), n, uid) && w.store.clusters[n].status.phase != Unset
    ensures Apply(w, a).store.clusters[n].status.phase != Unset
    ensures Linked(w.store.clusters[n].status.phase, Persisted(w, Apply(w, a), n, uid), Apply(w, a).store.clusters[n].status.phase)
  {
    var w' := Apply(w, a);
    assert w'.store.clusters[n].status.phase != Unset by {
      if a.ClusterCall? && a.n == n {
        if n in w.clusterProcs { OwnStepKeepsPhaseSet(w, n, a.outcome); }
      } else {
        hide Apply;
        assert CrOk(ClusterView(w.store), w.store.clusters[n]) by { assert CrOk(ClusterView(w.store), ClusterView(w.store).crs[n]); }
        OthersLeaveCluster(w, a, n);
      }
    }
    hide Apply, MemoryOk;
  }

  lemma OwnStepKeepsPhaseSet(w: World, n: Name, outcome: Outcome)
    requires MemoryOk(w) && n in w.clusterProcs
    requires n in w.store.clusters && w.store.clusters[n].status.phase != Unset
    ensures var s' := ClusterStep(w, n, outcome).store; n in s'.clusters ==> s'.clusters[n].status.phase != Unset
  {
    hide ClusterResume, Drift, ClusterChild;
    assert ClusterDrift(w.clusterProcs[n]) && ClusterProcOk(ClusterView(w.store), n, w.clusterProcs[n]);
  }

  lemma {:induction false} PersistedMovesLink(w: World, actions: seq<Action>, n: Name, uid: nat)
    requires MemoryOk(w) && AllObservePast(w) && Stands(w, n, uid) && w.store.clusters[n].status.phase != Unset
    requires Stands(Run(w, actions), n, uid)
    ensures Linked(w.store.clusters[n].status.phase, PersistedOver(w, actions, n, uid), Run(w, actions).store.clusters[n].status.phase)
    decreases |actions|
  {
    hide MemoryOk, AllObservePast, Persisted, Apply;
    if actions != [] {
      var w1 := Apply(w, actions[0]);
      StepAdvances(w, actions[0]);
      assert uid < w.store.nextUid by { StandingUidIsUsed(w, n, uid); }
      if !Stands(w1, n, uid) {
        RunKeepsCrsAbsent(w1, actions[1..], n, uid);
        assert false;
      } else {
        StepLinks(w, actions[0], n, uid);
        PersistedMovesLink(w1, actions[1..], n, uid);
        LinkedAppend(w.store.clusters[n].status.phase, Persisted(w, w1, n, uid), w1.store.clusters[n].status.phase,
          PersistedOver(w1, actions[1..], n, uid), Run(w, actions).store.clusters[n].status.phase);
      }
    }
  }

  lemma StandingUidIsUsed(w: World, n: Name, uid: nat)
    requires MemoryOk(w) && Stands(w, n, uid)
    ensures uid < w.store.nextUid
  {
    assert CrOk(ClusterView(w.store), ClusterView(w.store).crs[n]);
  }

  /**
   Between two moments when no reconcile of `n` is about to write its status, on a run that loses no
   status write, the PhaseChanged events are exactly the persisted phase changes, and they form a
   connected chain from the phase stored at the first moment to the one stored at the second.
   */
  lemma EventsAreThePhaseHistory(w: World, actions: seq<Action>, n: Name, uid: nat)
    requires Reachable(w) && Stands(w, n, uid) && Stands(Run(w, actions), n, uid)
    requires w.store.clusters[n].status.phase != Unset
    requires !WritingStatus(w, n) && !WritingStatus(Run(w, actions), n) && AllLand(w, actions, n)
    ensures var w' := Run(w, actions); var announced := Announced(NewEvents(w, w'), n, uid);
      && w.events <= w'.events
      && announced == PersistedOver(w, actions, n, uid)
      && Linked(w.store.clusters[n].status.phase, announced, w'.store.clusters[n].status.phase)
  {
    hide MemoryOk, AllObservePast, Apply, Announced, Persisted, AllLand, Linked;
    ReachableObserves(w);
    StandingUidIsUsed(w, n, uid);
    AnnouncedIsPersisted(w, actions, n, uid);
    var announced, persisted := Announced(NewEvents(w, Run(w, actions)), n, uid), PersistedOver(w, actions, n, uid);
    assert [] + announced == announced && persisted + [] == persisted;
    PersistedMovesLink(w, actions, n, uid);
  }

  /** On any run whatever, lost writes included: an event names the phase stored when it is recorded as its source. */
  lemma EventsNameThePersistedPhase(w: World, n: Name, outcome: Outcome, e: Event)
    requires Reachable(w) && n in w.clusterProcs
    requires e in NewEvents(w, Apply(w, ClusterCall(n, outcome))) && e.PhaseChanged?
    ensures Stands(w, n, e.uid) && e.n == n && e.source == w.store.clusters[n].status.phase && e.source != e.target
  {
    ReachableMemory(w);
    var p := w.clusterProcs[n];
    var reply := if outcome.Delivered? then ClusterServed(w, n).reply else Failed;
    assert e in ClusterResume(n, p, reply, w.now).events;
    OnlyReadServerEventsSpeak(n, p, reply, w.now, e);
    MemoryOfCluster(w, n);
    hide ClusterResume, Drift, Serve;
    assert ClusterProcOk(ClusterView(w.store), n, p);
  }

  lemma OnlyReadServerEventsSpeak(n: Name, p: ClusterProc, reply: Reply<ClusterSpec>, now: nat, e: Event)
    requires e in ClusterResume(n, p, reply, now).events && e.PhaseChanged?
    ensures p.Active? && p.pc.ReadServer? && e.owner == ByCluster && e.n == n
    ensures e.uid == p.base.uid && e.source == p.status.phase && e.source != e.target
  {
    hide Observe, SetCondition;
    if !(p.Active? && p.pc.ReadServer?) {
      hide ClusterResume;
      OnlyReadServerSpeaks(n, p, reply, now);
    }
  }
}
