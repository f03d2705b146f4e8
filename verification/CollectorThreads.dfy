/**
 The collector under concurrency: any number of threads stepping through Poll, GetQueueDepth and
 GetAllMetrics, entry by entry, with nothing between them but the reader/writer lock.
 */
module CollectorThreads {
  import opened OjsTypes
  import opened Metrics

  /** A poll that got its response, with the clock it read under the lock. */
  datatype Poll = Poll(queues: seq<QueueStats>, now: nat)

  /** Where a thread is.  `called` is how many polls had completed when its read was called. */
  datatype Thread =
    | Idle
    | Waiting(queues: seq<QueueStats>)
    | Writing(poll: Poll, done: nat)
    | Calling(called: nat, queue: Option<string>)
    | Copying(called: nat, copied: Readings, rest: set<string>)
    | Looking(called: nat, name: string)

  datatype Answer =
    | All(called: nat, returned: nat, snapshot: Readings)
    | Depth(called: nat, returned: nat, name: string, pending: int, known: bool)

  /** `completed` and `answers` record what has happened so far, in order. */
  datatype State = State(
    metrics: Readings, writer: Option<nat>, readers: set<nat>, threads: map<nat, Thread>, clock: nat,
    completed: seq<Poll>, answers: seq<Answer>)

  datatype Step =
    | Fetch(thread: nat, response: Response)
    | Lock(thread: nat)
    | Put(thread: nat)
    | Unlock(thread: nat)
    | CallAll(thread: nat)
    | CallDepth(thread: nat, queue: string)
    | RLock(thread: nat)
    | Copy(thread: nat, name: string)
    | RUnlock(thread: nat)
    | Tick(elapsed: nat)

  const START := State(map[], None, {}, map[], 0, [], [])

  function At(s: State, t: nat): Thread {
    if t in s.threads then s.threads[t] else Idle
  }

  function Move(s: State, t: nat, thread: Thread): State {
    s.(threads := s.threads[t := thread])
  }

  /** One atomic step; a step whose thread is not there yet, or whose lock is not free, does nothing. */
  function Do(s: State, step: Step): State {
    match step
    case Tick(elapsed) => s.(clock := s.clock + elapsed)
    case Fetch(t, response) => if At(s, t).Idle? && response.Decoded? then Move(s, t, Waiting(response.queues)) else s
    case Lock(t) =>
      if At(s, t).Waiting? && s.writer.None? && s.readers == {} then
        Move(s, t, Writing(Poll(At(s, t).queues, s.clock), 0)).(writer := Some(t))
      else s
    case Put(t) =>
      if At(s, t).Writing? && At(s, t).done < |At(s, t).poll.queues| then
        var th := At(s, t);
        var q := th.poll.queues[th.done];
        Move(s, t, th.(done := th.done + 1)).(metrics := s.metrics[q.name := ReadingOf(q, th.poll.now)])
      else s
    case Unlock(t) =>
      if At(s, t).Writing? && At(s, t).done == |At(s, t).poll.queues| then
        Move(s, t, Idle).(writer := None, completed := s.completed + [At(s, t).poll])
      else s
    case CallAll(t) => if At(s, t).Idle? then Move(s, t, Calling(|s.completed|, None)) else s
    case CallDepth(t, queue) => if At(s, t).Idle? then Move(s, t, Calling(|s.completed|, Some(queue))) else s
    case RLock(t) =>
      if At(s, t).Calling? && s.writer.None? then
        var th := At(s, t);
        Move(s, t, if th.queue.None? then Copying(th.called, map[], s.metrics.Keys) else Looking(th.called, th.queue.value))
          .(readers := s.readers + {t})
      else s
    case Copy(t, name) =>
      if At(s, t).Copying? && name in At(s, t).rest && name in s.metrics then
        var th := At(s, t);
        Move(s, t, th.(copied := th.copied[name := s.metrics[name]], rest := th.rest - {name}))
      else s
    case RUnlock(t) =>
      if At(s, t).Copying? && At(s, t).rest == {} then
        Move(s, t, Idle).(readers := s.readers - {t},
          answers := s.answers + [All(At(s, t).called, |s.completed|, At(s, t).copied)])
      else if At(s, t).Looking? then
        var name := At(s, t).name;
        Move(s, t, Idle).(readers := s.readers - {t},
          answers := s.answers + [Depth(At(s, t).called, |s.completed|, name,
            if name in s.metrics then s.metrics[name].pending else 0, name in s.metrics)])
      else s
  }

  function Steps(s: State, steps: seq<Step>): State
    decreases |steps|
  {
    if steps == [] then s else Steps(Do(s, steps[0]), steps[1..])
  }

  /** The atomic specification: the completed polls, one after the other. */
  function Fold(polls: seq<Poll>): Readings
    decreases |polls|
  {
    if polls == [] then map[]
    else Merge(Fold(polls[..|polls| - 1]), polls[|polls| - 1].queues, polls[|polls| - 1].now)
  }

  /** The polls that went through. */
  function Succeeded(polls: seq<Attempt>): seq<Poll> {
    if polls == [] then []
    else
      var last := polls[|polls| - 1];
      Succeeded(polls[..|polls| - 1]) + if last.response.Decoded? then [Poll(last.response.queues, last.now)] else []
  }

  /** That is what Collector.Poll computes when called from one thread. */
  lemma {:induction false} SequentialPollsFold(polls: seq<Attempt>)
    ensures AfterPolls(map[], polls) == Fold(Succeeded(polls))
    decreases |polls|
  {
    if polls != [] {
      var last := polls[|polls| - 1];
      SequentialPollsFold(polls[..|polls| - 1]);
      if last.response.Decoded? {
        CompleteFolds(Succeeded(polls[..|polls| - 1]), Poll(last.response.queues, last.now));
      } else {
        assert Succeeded(polls) == Succeeded(polls[..|polls| - 1]);
      }
    }
  }

  // ---------------------------------------------------------------- the invariant

  /** What the cache holds when no write is half done. */
  predicate Quiescent(s: State) {
    s.writer.None? ==> s.metrics == Fold(s.completed)
  }

  /** While a writer is inside, the cache is the fold plus the entries it has put so far. */
  predicate HalfDone(s: State) {
    s.writer.Some? ==>
      var th := At(s, s.writer.value);
      && th.Writing? && th.done <= |th.poll.queues| && s.readers == {}
      && s.metrics == Merge(Fold(s.completed), th.poll.queues[..th.done], th.poll.now)
      && th.poll.now <= s.clock
  }

  predicate Excluded(s: State, t: nat) {
    && (At(s, t).Writing? <==> s.writer == Some(t))
    && (At(s, t).Copying? || At(s, t).Looking? <==> t in s.readers)
  }

  predicate Faithful(s: State, t: nat) {
    && (At(s, t).Calling? || At(s, t).Copying? || At(s, t).Looking? ==> At(s, t).called <= |s.completed|)
    && (At(s, t).Copying? ==>
          && At(s, t).rest <= s.metrics.Keys && At(s, t).copied.Keys == s.metrics.Keys - At(s, t).rest
          && forall k <- At(s, t).copied :: At(s, t).copied[k] == s.metrics[k])
  }

  /**
   The answer is what the polls that had completed when it was returned add up to: a poll completed
   before the call is in it, one not completed by then is not, and none is in it by halves.
   */
  predicate Linearizable(completed: seq<Poll>, a: Answer) {
    && a.called <= a.returned <= |completed|
    && var seen := Fold(completed[..a.returned]);
      match a
      case All(_, _, snapshot) => snapshot == seen
      case Depth(_, _, name, pending, known) => known == (name in seen) && pending == if name in seen then seen[name].pending else 0
  }

  predicate ClockOrdered(s: State) {
    && (forall i, j :: 0 <= i < j < |s.completed| ==> s.completed[i].now <= s.completed[j].now)
    && (forall i :: 0 <= i < |s.completed| ==> s.completed[i].now <= s.clock)
    && (s.writer.Some? && At(s, s.writer.value).Writing? ==>
          forall i :: 0 <= i < |s.completed| ==> s.completed[i].now <= At(s, s.writer.value).poll.now)
  }

  ghost predicate Inv(s: State) {
    && Quiescent(s) && HalfDone(s) && ClockOrdered(s)
    && (forall t: nat :: Excluded(s, t) && Faithful(s, t))
    && (forall a <- s.answers :: Linearizable(s.completed, a))
  }

  lemma LockFreesNobodyElse(s: State, step: Step, t: nat)
    requires Inv(s)
    ensures Excluded(Do(s, step), t)
  {
    hide Merge, Fold, Linearizable, ClockOrdered, Faithful;
    assert Excluded(s, t);
    if !step.Tick? { assert Excluded(s, step.thread); }
    if s.writer.Some? { assert Excluded(s, s.writer.value); }
  }

  lemma WritesStayWhole(s: State, step: Step)
    requires Inv(s)
    ensures HalfDone(Do(s, step)) && Quiescent(Do(s, step))
  {
    hide Linearizable, ClockOrdered, Faithful, Fold;
    if !step.Tick? { assert Excluded(s, step.thread); }
    if s.writer.Some? { assert Excluded(s, s.writer.value); }
    match step
    case Put(t) =>
      if At(s, t).Writing? && At(s, t).done < |At(s, t).poll.queues| {
        var queues, done := At(s, t).poll.queues, At(s, t).done;
        assert queues[..done + 1][..done] == queues[..done];
      }
    case Unlock(t) =>
      if At(s, t).Writing? && At(s, t).done == |At(s, t).poll.queues| {
        CompleteFolds(s.completed, At(s, t).poll);
        assert At(s, t).poll.queues[..At(s, t).done] == At(s, t).poll.queues;
      }
    case Lock(t) =>
      if At(s, t).Waiting? { assert At(s, t).queues[..0] == []; }
    case _ =>
  }

  lemma CompleteFolds(completed: seq<Poll>, p: Poll)
    ensures Fold(completed + [p]) == Merge(Fold(completed), p.queues, p.now)
    ensures forall k :: 0 <= k <= |completed| ==> (completed + [p])[..k] == completed[..k]
  {
    assert (completed + [p])[..|completed|] == completed;
  }

  lemma CopiesStayFaithful(s: State, step: Step, t: nat)
    requires Inv(s)
    ensures Faithful(Do(s, step), t)
  {
    hide Merge, Fold, Linearizable, ClockOrdered;
    assert Excluded(s, t) && Faithful(s, t);
    if !step.Tick? { assert Excluded(s, step.thread) && Faithful(s, step.thread); }
    if s.writer.Some? { assert Excluded(s, s.writer.value); }
  }

  lemma ClockStaysOrdered(s: State, step: Step)
    requires Inv(s)
    ensures ClockOrdered(Do(s, step))
  {
    hide Merge, Fold, Linearizable, Faithful;
    if !step.Tick? { assert Excluded(s, step.thread); }
    if s.writer.Some? { assert Excluded(s, s.writer.value); }
  }

  lemma AnswersStayLinearizable(s: State, step: Step)
    requires Inv(s)
    ensures forall a <- Do(s, step).answers :: Linearizable(Do(s, step).completed, a)
  {
    hide Merge, Fold, ClockOrdered;
    var s' := Do(s, step);
    if !step.Tick? { assert Excluded(s, step.thread) && Faithful(s, step.thread); }
    assert s.completed[..|s.completed|] == s.completed;
    forall a | a in s'.answers ensures Linearizable(s'.completed, a) {
      if a in s.answers {
        assert s'.completed[..a.returned] == s.completed[..a.returned];
      }
    }
  }

  lemma DoKeepsInv(s: State, step: Step)
    requires Inv(s)
    ensures Inv(Do(s, step))
  {
    hide Excluded, Faithful, HalfDone, Quiescent, Linearizable, ClockOrdered, Do;
    WritesStayWhole(s, step);
    ClockStaysOrdered(s, step);
    AnswersStayLinearizable(s, step);
    forall t: nat ensures Excluded(Do(s, step), t) && Faithful(Do(s, step), t) {
      LockFreesNobodyElse(s, step, t);
      CopiesStayFaithful(s, step, t);
    }
  }

  lemma {:induction false} StepsKeepInv(s: State, steps: seq<Step>)
    requires Inv(s)
    ensures Inv(Steps(s, steps))
    decreases |steps|
  {
    if steps != [] {
      DoKeepsInv(s, steps[0]);
      StepsKeepInv(Do(s, steps[0]), steps[1..]);
    }
  }

  // ---------------------------------------------------------------- main results

  /**
   Linearizability: however any number of threads interleave, every answer given is the one the
   polls completed by then give when made one after the other.
   */
  lemma EveryAnswerIsLinearizable(steps: seq<Step>, a: Answer)
    requires a in Steps(START, steps).answers
    ensures Linearizable(Steps(START, steps).completed, a)
  {
    StepsKeepInv(START, steps);
  }

  /** The cache forgets no queue and goes back in time for none, not even while a write is half done. */
  predicate Newer(before: Readings, after: Readings) {
    forall k <- before :: k in after && before[k].timestamp <= after[k].timestamp
  }

  predicate Aged(m: Readings, now: nat) {
    forall k <- m :: m[k].timestamp <= now
  }

  lemma {:induction false} MergeIsNewer(known: Readings, queues: seq<QueueStats>, now: nat)
    requires Aged(known, now)
    ensures Newer(known, Merge(known, queues, now)) && Aged(Merge(known, queues, now), now)
  {
    if queues != [] {
      MergeIsNewer(known, queues[..|queues| - 1], now);
    }
  }

  lemma {:induction false} FoldIsAged(polls: seq<Poll>, now: nat)
    requires forall i, j :: 0 <= i < j < |polls| ==> polls[i].now <= polls[j].now
    requires forall p <- polls :: p.now <= now
    ensures Aged(Fold(polls), now)
    decreases |polls|
  {
    if polls != [] {
      var last := polls[|polls| - 1];
      FoldIsAged(polls[..|polls| - 1], last.now);
      MergeIsNewer(Fold(polls[..|polls| - 1]), last.queues, last.now);
    }
  }

  /** Growing the prefix of completed polls only adds queues and moves timestamps forward. */
  lemma {:induction false} LongerFoldsAreNewer(polls: seq<Poll>, k: nat)
    requires k <= |polls|
    requires forall i, j :: 0 <= i < j < |polls| ==> polls[i].now <= polls[j].now
    ensures Newer(Fold(polls[..k]), Fold(polls))
    decreases |polls|
  {
    if k == |polls| {
      assert polls[..k] == polls;
    } else {
      var most, last := polls[..|polls| - 1], polls[|polls| - 1];
      LongerFoldsAreNewer(most, k);
      assert most[..k] == polls[..k];
      FoldIsAged(most, last.now);
      MergeIsNewer(Fold(most), last.queues, last.now);
    }
  }

  /** Of two snapshots, one called after the other was returned has every queue of it, none of them older. */
  lemma SnapshotsNeverRegress(steps: seq<Step>, a: Answer, b: Answer)
    requires a in Steps(START, steps).answers && b in Steps(START, steps).answers
    requires a.All? && b.All? && a.returned <= b.called
    ensures Newer(a.snapshot, b.snapshot)
  {
    StepsKeepInv(START, steps);
    var completed := Steps(START, steps).completed;
    assert Linearizable(completed, a) && Linearizable(completed, b);
    LongerFoldsAreNewer(completed[..b.returned], a.returned);
    assert completed[..b.returned][..a.returned] == completed[..a.returned];
  }

  lemma StepIsNewer(s: State, step: Step)
    requires Inv(s)
    ensures Newer(s.metrics, Do(s, step).metrics)
  {
    hide Linearizable, Faithful;
    if step.Put? {
      assert Excluded(s, step.thread);
      if s.writer == Some(step.thread) {
        var th := At(s, step.thread);
        FoldIsAged(s.completed, th.poll.now);
        MergeIsNewer(Fold(s.completed), th.poll.queues[..th.done], th.poll.now);
      }
    }
  }

  /** Known queues never disappear and their timestamps never go back, at every step of every run. */
  lemma {:induction false} KnownQueuesStay(steps: seq<Step>, more: seq<Step>)
    ensures Newer(Steps(START, steps).metrics, Steps(START, steps + more).metrics)
    decreases |more|
  {
    if more == [] {
      assert steps + more == steps;
    } else {
      var s := Steps(START, steps);
      StepsKeepInv(START, steps);
      StepIsNewer(s, more[0]);
      StepsAppend(START, steps, [more[0]]);
      KnownQueuesStay(steps + [more[0]], more[1..]);
      assert steps + [more[0]] + more[1..] == steps + more;
      assert Steps(s, [more[0]]) == Do(s, more[0]);
    }
  }

  lemma {:induction false} StepsAppend(s: State, first: seq<Step>, second: seq<Step>)
    ensures Steps(s, first + second) == Steps(Steps(s, first), second)
    decreases |first|
  {
    if first == [] {
      assert first + second == second;
    } else {
      StepsAppend(Do(s, first[0]), first[1..], second);
      assert (first + second)[1..] == first[1..] + second;
    }
  }

  // ---------------------------------------------------------------- what an answer says

  predicate Mentions(p: Poll, name: string) {
    exists q <- p.queues :: q.name == name
  }

  /** Poll `k` is the last to mention the queue, and entry `i` the last to do so in it. */
  predicate LastSays(polls: seq<Poll>, name: string, k: nat, i: nat) {
    && k < |polls| && i < |polls[k].queues| && polls[k].queues[i].name == name && IsLast(polls[k].queues, i)
    && forall j :: k < j < |polls| ==> !Mentions(polls[j], name)
  }

  /** The fold knows the queues that were mentioned, and each by the last entry to mention it. */
  lemma {:induction false} FoldSays(polls: seq<Poll>, name: string)
    ensures name in Fold(polls) <==> exists p <- polls :: Mentions(p, name)
    ensures forall k: nat, i: nat :: LastSays(polls, name, k, i) ==>
      name in Fold(polls) && Reads(Fold(polls)[name], polls[k].queues[i], polls[k].now)
    decreases |polls|
  {
    if polls != [] {
      var most, last := polls[..|polls| - 1], polls[|polls| - 1];
      FoldSays(most, name);
      assert polls == most + [last];
      if Mentions(last, name) {
        var i := LastOf(last.queues, name);
        LastWriterWins(Fold(most), last.queues, last.now, i);
        forall k: nat, j: nat | LastSays(polls, name, k, j) ensures Reads(Fold(polls)[name], polls[k].queues[j], polls[k].now) {
          assert k == |polls| - 1;
          LastWriterWins(Fold(most), last.queues, last.now, j);
        }
      } else {
        UnmentionedStays(Fold(most), last.queues, last.now, name);
        forall k: nat, j: nat | LastSays(polls, name, k, j) ensures name in Fold(polls) && Reads(Fold(polls)[name], polls[k].queues[j], polls[k].now) {
          assert polls[k].queues[j] in polls[k].queues && Mentions(polls[k], name);
          assert LastSays(most, name, k, j) by {
            forall m | k < m < |most| ensures !Mentions(most[m], name) { assert most[m] == polls[m]; }
          }
        }
      }
    }
  }

  lemma {:induction false} LastOf(queues: seq<QueueStats>, name: string) returns (i: nat)
    requires exists q <- queues :: q.name == name
    ensures i < |queues| && queues[i].name == name && IsLast(queues, i)
    decreases |queues|
  {
    var last := |queues| - 1;
    if queues[last].name == name {
      i := last;
    } else {
      assert exists q <- queues[..last] :: q.name == name by {
        var q :| q in queues && q.name == name;
        assert q in queues[..last];
      }
      i := LastOf(queues[..last], name);
    }
  }

  /**
   The depth a thread is told: known exactly if some poll completed by then mentions the queue, and
   then the pending count of the last entry of that name in the last such poll.
   */
  lemma DepthIsTheLastEntrys(steps: seq<Step>, a: Answer)
    requires a in Steps(START, steps).answers && a.Depth?
    ensures var completed := Steps(START, steps).completed;
      && a.called <= a.returned <= |completed|
      && (a.known <==> exists p <- completed[..a.returned] :: Mentions(p, a.name))
      && (!a.known ==> a.pending == 0)
      && forall k: nat, i: nat :: LastSays(completed[..a.returned], a.name, k, i) ==> a.pending == completed[k].queues[i].pending
  {
    EveryAnswerIsLinearizable(steps, a);
    FoldSays(Steps(START, steps).completed[..a.returned], a.name);
  }

  /** And every entry of a snapshot, field by field. */
  lemma SnapshotIsTheLastEntries(steps: seq<Step>, a: Answer, name: string)
    requires a in Steps(START, steps).answers && a.All?
    ensures var completed := Steps(START, steps).completed;
      && a.called <= a.returned <= |completed|
      && (name in a.snapshot <==> exists p <- completed[..a.returned] :: Mentions(p, name))
      && forall k: nat, i: nat :: LastSays(completed[..a.returned], name, k, i) ==>
           name in a.snapshot && Reads(a.snapshot[name], completed[k].queues[i], completed[k].now)
  {
    EveryAnswerIsLinearizable(steps, a);
    FoldSays(Steps(START, steps).completed[..a.returned], name);
  }
}
