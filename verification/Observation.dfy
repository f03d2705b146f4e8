/** updateStatus and updateWorkerStatus: how a Deployment's counts become phase and conditions. */
module Observation {
  import opened OjsTypes
  import opened ApiServer

  /** The status both controllers derive from the Deployment they manage. */
  function Observe(status: Status, server: Option<Unmanaged>, gen: nat, now: nat): Status {
    match server
    case None => Conclude(status, Pending, false, false, gen, now)
    case Some(d) =>
      var counted := status.(replicas := d.replicas, readyReplicas := d.readyReplicas);
      if d.readyReplicas == d.replicas && d.replicas > 0 then Conclude(counted, Running, true, false, gen, now)
      else if d.readyReplicas > 0 then Conclude(counted, Scaling, true, true, gen, now)
      else Conclude(counted, Pending, false, false, gen, now)
  }

  /** The four conditions that go with a phase. */
  function Conclude(status: Status, phase: Phase, available: bool, degraded: bool, gen: nat, now: nat): Status {
    var c1 := SetCondition(status.conditions, Ready, phase == Running, gen, now);
    var c2 := SetCondition(c1, Available, available, gen, now);
    var c3 := SetCondition(c2, Progressing, phase != Running, gen, now);
    status.(phase := phase, conditions := SetCondition(c3, Degraded, degraded, gen, now))
  }

  // ---------------------------------------------------------------- what the derived status says

  /** The phase the counts of a Deployment stand for. */
  function DerivedPhase(server: Option<Unmanaged>): Phase {
    match server
    case None => Pending
    case Some(d) =>
      if d.readyReplicas == d.replicas && d.replicas > 0 then Running
      else if d.readyReplicas > 0 then Scaling
      else Pending
  }

  predicate Says(cs: seq<Condition>, t: ConditionType, value: bool) {
    Find(cs, t).Some? && Find(cs, t).value.status == value
  }

  /**
   The status tells the truth about the Deployment: its counts whatever the phase, the phase they
   stand for, and all four conditions, each present.
   */
  predicate Tells(status: Status, server: Option<Unmanaged>) {
    var phase, cs := DerivedPhase(server), status.conditions;
    && status.phase == phase
    && (server.Some? ==> status.replicas == server.value.replicas && status.readyReplicas == server.value.readyReplicas)
    && Says(cs, Ready, phase == Running)
    && Says(cs, Available, phase == Running || phase == Scaling)
    && Says(cs, Progressing, phase == Pending || phase == Scaling)
    && Says(cs, Degraded, phase == Scaling)
  }

  lemma ConcludeSays(status: Status, phase: Phase, available: bool, degraded: bool, gen: nat, now: nat)
    ensures var r := Conclude(status, phase, available, degraded, gen, now);
      && r.phase == phase && r.replicas == status.replicas && r.readyReplicas == status.readyReplicas
      && Says(r.conditions, Ready, phase == Running) && Says(r.conditions, Available, available)
      && Says(r.conditions, Progressing, phase != Running) && Says(r.conditions, Degraded, degraded)
      && Find(r.conditions, BackendReady) == Find(status.conditions, BackendReady)
  {
    hide SetCondition;
  }

  /** The derived status tells the truth, keeps the counts when there is no Deployment, and leaves BackendReady alone. */
  lemma ObserveTells(status: Status, server: Option<Unmanaged>, gen: nat, now: nat)
    ensures var r := Observe(status, server, gen, now);
      && Tells(r, server)
      && (server.None? ==> r.replicas == status.replicas && r.readyReplicas == status.readyReplicas)
      && Find(r.conditions, BackendReady) == Find(status.conditions, BackendReady)
  {
    hide Conclude;
    match server
    case None => ConcludeSays(status, Pending, false, false, gen, now);
    case Some(d) =>
      var counted := status.(replicas := d.replicas, readyReplicas := d.readyReplicas);
      ConcludeSays(counted, Running, true, false, gen, now);
      ConcludeSays(counted, Scaling, true, true, gen, now);
      ConcludeSays(counted, Pending, false, false, gen, now);
  }
}
