/**
 A reconcile in its surroundings: before each of its API calls anybody else may act, any number of
 times, and each call may fail or lose its reply.  A script fixes all of that for one reconcile;
 where it runs out nobody interferes any more.
 */
module Interleaving {
  import opened OjsTypes
  import opened ApiServer
  import opened Events
  import opened ClusterMachine
  import opened WorkerMachine
  import opened Operator
  import opened ClusterConvergence
  import opened WorkerConvergence

  datatype Turn = Turn(env: seq<Action>, outcome: Outcome)

  /** A call and its reply. */
  datatype Exchange<S> = Exchange(request: Request<S>, reply: Reply<S>)

  const UNDISTURBED := Turn([], Delivered)

  function First(script: seq<Turn>): Turn {
    if script == [] then UNDISTURBED else script[0]
  }

  function Rest(script: seq<Turn>): seq<Turn> {
    if script == [] then [] else script[1..]
  }

  /** What others do: not the calls of this reconcile itself, nor the crash that would end it. */
  predicate ByOthers(a: Action, kind: ControllerKind, n: Name) {
    && !a.Crash?
    && !(kind.ByCluster? && a.ClusterCall? && a.n == n)
    && !(kind.ByWorker? && a.WorkerCall? && a.n == n)
  }

  function Others(env: seq<Action>, kind: ControllerKind, n: Name): seq<Action> {
    if env == [] then []
    else (if ByOthers(env[0], kind, n) then [env[0]] else []) + Others(env[1..], kind, n)
  }

  lemma OthersStep(w: World, a: Action, kind: ControllerKind, n: Name)
    requires ByOthers(a, kind, n)
    ensures kind.ByCluster? && n in w.clusterProcs ==> n in Apply(w, a).clusterProcs && Apply(w, a).clusterProcs[n] == w.clusterProcs[n]
    ensures kind.ByWorker? && n in w.workerProcs ==> n in Apply(w, a).workerProcs && Apply(w, a).workerProcs[n] == w.workerProcs[n]
  {
    hide ClusterServed, WorkerServed, ClusterResume, WorkerResume, UserDoes, ForeignWrite;
  }

  lemma {:induction false} OthersLeaveReconcile(w: World, env: seq<Action>, kind: ControllerKind, n: Name)
    ensures var w' := Run(w, Others(env, kind, n));
      && (kind.ByCluster? && n in w.clusterProcs ==> n in w'.clusterProcs && w'.clusterProcs[n] == w.clusterProcs[n])
      && (kind.ByWorker? && n in w.workerProcs ==> n in w'.workerProcs && w'.workerProcs[n] == w.workerProcs[n])
    decreases |env|
  {
    hide Apply, ByOthers;
    if env != [] {
      var rest := Others(env[1..], kind, n);
      if ByOthers(env[0], kind, n) {
        assert ([env[0]] + rest)[1..] == rest;
        OthersStep(w, env[0], kind, n);
        OthersLeaveReconcile(Apply(w, env[0]), env[1..], kind, n);
      } else {
        assert [] + rest == rest;
        OthersLeaveReconcile(w, env[1..], kind, n);
      }
    }
  }

  // ---------------------------------------------------------------- the cluster controller

  function Disturbed(w: World, script: seq<Turn>, n: Name): (w': World)
    ensures n in w.clusterProcs ==> n in w'.clusterProcs && w'.clusterProcs[n] == w.clusterProcs[n]
  {
    OthersLeaveReconcile(w, First(script).env, ByCluster, n);
    Run(w, Others(First(script).env, ByCluster, n))
  }

  /** The next call of the reconcile of `n`, with what the script puts before it and makes of it. */
  function Advance(w: World, script: seq<Turn>, n: Name): World
    requires n in w.clusterProcs
  {
    ClusterStep(Disturbed(w, script, n), n, First(script).outcome)
  }

  function ReplyTo(w: World, script: seq<Turn>, n: Name): Reply<ClusterSpec>
    requires n in w.clusterProcs
  {
    if First(script).outcome.Delivered? then ClusterServed(Disturbed(w, script, n), n).reply else Failed
  }

  function Answered(w: World, script: seq<Turn>, n: Name): ClusterTurn
    requires n in w.clusterProcs
  {
    ClusterResume(n, w.clusterProcs[n], ReplyTo(w, script, n), Disturbed(w, script, n).now)
  }

  lemma AdvanceFollowsReply(w: World, script: seq<Turn>, n: Name)
    requires n in w.clusterProcs
    ensures var w', turn := Advance(w, script, n), Answered(w, script, n);
      && w'.now == Disturbed(w, script, n).now
      && (n in w'.clusterProcs <==> turn.next.Some?)
      && (turn.next.Some? ==> w'.clusterProcs[n] == turn.next.value && ClusterRank(w'.clusterProcs[n]) < ClusterRank(w.clusterProcs[n]))
  {
    hide ClusterServed, ClusterResume, ClusterRank;
    ResumeDescends(n, w.clusterProcs[n], ReplyTo(w, script, n), Disturbed(w, script, n).now);
  }

  /** The reconcile runs to its end. */
  function Drive(w: World, script: seq<Turn>, n: Name): World
    decreases if n in w.clusterProcs then 1 + ClusterRank(w.clusterProcs[n]) else 0
  {
    if n !in w.clusterProcs then w
    else
      AdvanceFollowsReply(w, script, n);
      Drive(Advance(w, script, n), Rest(script), n)
  }

  /** The events it records on the way, the result it returns last. */
  function Announced(w: World, script: seq<Turn>, n: Name): seq<Event>
    decreases if n in w.clusterProcs then 1 + ClusterRank(w.clusterProcs[n]) else 0
  {
    if n !in w.clusterProcs then []
    else
      AdvanceFollowsReply(w, script, n);
      Answered(w, script, n).events + Announced(Advance(w, script, n), Rest(script), n)
  }

  /** The calls it makes, with the replies it gets. */
  function Transcript(w: World, script: seq<Turn>, n: Name): seq<Exchange<ClusterSpec>>
    decreases if n in w.clusterProcs then 1 + ClusterRank(w.clusterProcs[n]) else 0
  {
    if n !in w.clusterProcs then []
    else
      AdvanceFollowsReply(w, script, n);
      [Exchange(ClusterRequest(n, w.clusterProcs[n]), ReplyTo(w, script, n))] + Transcript(Advance(w, script, n), Rest(script), n)
  }

  /** The actions a driven reconcile amounts to. */
  function DriveActions(w: World, script: seq<Turn>, n: Name): seq<Action>
    decreases if n in w.clusterProcs then 1 + ClusterRank(w.clusterProcs[n]) else 0
  {
    if n !in w.clusterProcs then []
    else
      AdvanceFollowsReply(w, script, n);
      Others(First(script).env, ByCluster, n) + [ClusterCall(n, First(script).outcome)]
      + DriveActions(Advance(w, script, n), Rest(script), n)
  }

  /** A driven reconcile is a run, so whatever holds of every run holds of it. */
  lemma {:induction false} DriveIsARun(w: World, script: seq<Turn>, n: Name)
    ensures Run(w, DriveActions(w, script, n)) == Drive(w, script, n)
    decreases if n in w.clusterProcs then 1 + ClusterRank(w.clusterProcs[n]) else 0
  {
    hide ClusterStep, Others, ClusterRank, ReplyTo, Answered;
    if n in w.clusterProcs {
      AdvanceFollowsReply(w, script, n);
      var env, call := Others(First(script).env, ByCluster, n), [ClusterCall(n, First(script).outcome)];
      var rest := DriveActions(Advance(w, script, n), Rest(script), n);
      RunAppend(w, env + call, rest);
      RunAppend(w, env, call);
      OneAction(Run(w, env), call[0]);
      DriveIsARun(Advance(w, script, n), Rest(script), n);
    }
  }

  lemma OneAction(w: World, a: Action)
    ensures Run(w, [a]) == Apply(w, a)
  {
    hide Apply;
    assert [a][1..] == [];
  }

  /** Undisturbed it is the reconcile that convergence is about, and its events are those of the run. */
  lemma {:induction false} UndisturbedDriveFinishes(w: World, n: Name)
    ensures Drive(w, [], n) == Finish(w, n)
    ensures Drive(w, [], n).events == w.events + Announced(w, [], n)
    decreases if n in w.clusterProcs then 1 + ClusterRank(w.clusterProcs[n]) else 0
  {
    hide ClusterRank, ClusterResume, ClusterServed;
    if n in w.clusterProcs {
      AdvanceFollowsReply(w, [], n);
      assert Advance(w, [], n) == Next(w, n);
      UndisturbedDriveFinishes(Next(w, n), n);
      FinishNext(w, n);
      assert Next(w, n).events == w.events + Answered(w, [], n).events;
    }
  }

  lemma DrivenReconcileIsReachable(w: World, script: seq<Turn>, n: Name)
    requires Reachable(w)
    ensures Reachable(Drive(Apply(w, StartCluster(n)), script, n))
  {
    hide Drive, DriveActions, Apply;
    var admission, actions :| w == Run(Initial(admission), actions);
    var start := Apply(w, StartCluster(n));
    DriveIsARun(start, script, n);
    OneAction(w, StartCluster(n));
    RunAppend(Initial(admission), actions, [StartCluster(n)]);
    RunAppend(Initial(admission), actions + [StartCluster(n)], DriveActions(start, script, n));
  }

  // ---------------------------------------------------------------- the worker controller

  function WorkerDisturbed(w: World, script: seq<Turn>, n: Name): (w': World)
    ensures n in w.workerProcs ==> n in w'.workerProcs && w'.workerProcs[n] == w.workerProcs[n]
  {
    OthersLeaveReconcile(w, First(script).env, ByWorker, n);
    Run(w, Others(First(script).env, ByWorker, n))
  }

  /** The next call of the reconcile of `n`, with what the script puts before it and makes of it. */
  function AdvanceWorker(w: World, script: seq<Turn>, n: Name): World
    requires n in w.workerProcs
  {
    WorkerStep(WorkerDisturbed(w, script, n), n, First(script).outcome)
  }

  function WorkerReplyTo(w: World, script: seq<Turn>, n: Name): Reply<WorkerSpec>
    requires n in w.workerProcs
  {
    if First(script).outcome.Delivered? then WorkerServed(WorkerDisturbed(w, script, n), n).reply else Failed
  }

  function WorkerAnswered(w: World, script: seq<Turn>, n: Name): WorkerTurn
    requires n in w.workerProcs
  {
    WorkerResume(n, w.workerProcs[n], WorkerReplyTo(w, script, n), WorkerDisturbed(w, script, n).now)
  }

  lemma AdvanceWorkerFollowsReply(w: World, script: seq<Turn>, n: Name)
    requires n in w.workerProcs
    ensures var w', turn := AdvanceWorker(w, script, n), WorkerAnswered(w, script, n);
      && w'.now == WorkerDisturbed(w, script, n).now
      && (n in w'.workerProcs <==> turn.next.Some?)
      && (turn.next.Some? ==> w'.workerProcs[n] == turn.next.value && WorkerRank(w'.workerProcs[n]) < WorkerRank(w.workerProcs[n]))
  {
    hide WorkerServed, WorkerResume, WorkerRank;
    WorkerResumeDescends(n, w.workerProcs[n], WorkerReplyTo(w, script, n), WorkerDisturbed(w, script, n).now);
  }

  /** The reconcile runs to its end. */
  function DriveWorker(w: World, script: seq<Turn>, n: Name): World
    decreases if n in w.workerProcs then 1 + WorkerRank(w.workerProcs[n]) else 0
  {
    if n !in w.workerProcs then w
    else
      AdvanceWorkerFollowsReply(w, script, n);
      DriveWorker(AdvanceWorker(w, script, n), Rest(script), n)
  }

  /** The events it records on the way, the result it returns last. */
  function WorkerAnnounced(w: World, script: seq<Turn>, n: Name): seq<Event>
    decreases if n in w.workerProcs then 1 + WorkerRank(w.workerProcs[n]) else 0
  {
    if n !in w.workerProcs then []
    else
      AdvanceWorkerFollowsReply(w, script, n);
      WorkerAnswered(w, script, n).events + WorkerAnnounced(AdvanceWorker(w, script, n), Rest(script), n)
  }

  /** The calls it makes, with the replies it gets. */
  function WorkerTranscript(w: World, script: seq<Turn>, n: Name): seq<Exchange<WorkerSpec>>
    decreases if n in w.workerProcs then 1 + WorkerRank(w.workerProcs[n]) else 0
  {
    if n !in w.workerProcs then []
    else
      AdvanceWorkerFollowsReply(w, script, n);
      [Exchange(WorkerRequest(n, w.workerProcs[n]), WorkerReplyTo(w, script, n))] + WorkerTranscript(AdvanceWorker(w, script, n), Rest(script), n)
  }

  /** The actions a driven reconcile amounts to. */
  function DriveWorkerActions(w: World, script: seq<Turn>, n: Name): seq<Action>
    decreases if n in w.workerProcs then 1 + WorkerRank(w.workerProcs[n]) else 0
  {
    if n !in w.workerProcs then []
    else
      AdvanceWorkerFollowsReply(w, script, n);
      Others(First(script).env, ByWorker, n) + [WorkerCall(n, First(script).outcome)]
      + DriveWorkerActions(AdvanceWorker(w, script, n), Rest(script), n)
  }

  /** A driven reconcile is a run, so whatever holds of every run holds of it. */
  lemma {:induction false} DriveWorkerIsARun(w: World, script: seq<Turn>, n: Name)
    ensures Run(w, DriveWorkerActions(w, script, n)) == DriveWorker(w, script, n)
    decreases if n in w.workerProcs then 1 + WorkerRank(w.workerProcs[n]) else 0
  {
    hide WorkerStep, Others, WorkerRank, WorkerReplyTo, WorkerAnswered;
    if n in w.workerProcs {
      AdvanceWorkerFollowsReply(w, script, n);
      var env, call := Others(First(script).env, ByWorker, n), [WorkerCall(n, First(script).outcome)];
      var rest := DriveWorkerActions(AdvanceWorker(w, script, n), Rest(script), n);
      RunAppend(w, env + call, rest);
      RunAppend(w, env, call);
      OneAction(Run(w, env), call[0]);
      DriveWorkerIsARun(AdvanceWorker(w, script, n), Rest(script), n);
    }
  }

  /** Undisturbed it is the reconcile that convergence is about, and its events are those of the run. */
  lemma {:induction false} UndisturbedDriveWorkerFinishes(w: World, n: Name)
    ensures DriveWorker(w, [], n) == FinishWorker(w, n)
    ensures DriveWorker(w, [], n).events == w.events + WorkerAnnounced(w, [], n)
    decreases if n in w.workerProcs then 1 + WorkerRank(w.workerProcs[n]) else 0
  {
    hide WorkerRank, WorkerResume, WorkerServed;
    if n in w.workerProcs {
      AdvanceWorkerFollowsReply(w, [], n);
      assert AdvanceWorker(w, [], n) == NextWorker(w, n);
      UndisturbedDriveWorkerFinishes(NextWorker(w, n), n);
      FinishWorkerNext(w, n);
      assert NextWorker(w, n).events == w.events + WorkerAnswered(w, [], n).events;
    }
  }

  lemma DrivenWorkerReconcileIsReachable(w: World, script: seq<Turn>, n: Name)
    requires Reachable(w)
    ensures Reachable(DriveWorker(Apply(w, StartWorker(n)), script, n))
  {
    hide DriveWorker, DriveWorkerActions, Apply;
    var admission, actions :| w == Run(Initial(admission), actions);
    var start := Apply(w, StartWorker(n));
    DriveWorkerIsARun(start, script, n);
    OneAction(w, StartWorker(n));
    RunAppend(Initial(admission), actions, [StartWorker(n)]);
    RunAppend(Initial(admission), actions + [StartWorker(n)], DriveWorkerActions(start, script, n));
  }
}
