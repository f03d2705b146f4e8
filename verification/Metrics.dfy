/**
 The queue metrics cache: Collector as the class it is, holding shared pointers to entries.  What a
 poll of the backend decodes to is a parameter, and so is the clock.
 */
module Metrics {
  import opened GoIntegers

  datatype QueueStats = QueueStats(name: string, pending: int64, active: int64)

  /** How the request and the decoding end. */
  datatype Response = Undecoded | Decoded(queues: seq<QueueStats>)

  /** The value of one entry. */
  datatype Reading = Reading(queue: string, pending: int64, active: int64, total: int64, timestamp: nat)

  type Readings = map<string, Reading>

  function ReadingOf(q: QueueStats, now: nat): Reading {
    Reading(q.name, q.pending, q.active, Wrap64(q.pending + q.active), now)
  }

  /** A complete response on top of what was known: the last entry for a queue wins. */
  function Merge(known: Readings, queues: seq<QueueStats>, now: nat): Readings {
    if queues == [] then known
    else
      var last := queues[|queues| - 1];
      Merge(known, queues[..|queues| - 1], now)[last.name := ReadingOf(last, now)]
  }

  /** The reading is of this entry, taken at this time; the total is the sum as an int64 holds it. */
  predicate Reads(r: Reading, q: QueueStats, now: nat) {
    && r.queue == q.name && r.pending == q.pending && r.active == q.active && r.timestamp == now
    && (r.total - (q.pending + q.active)) % 0x1_0000_0000_0000_0000 == 0
  }

  lemma TotalIsTheSum(r: Reading, q: QueueStats, now: nat)
    requires Reads(r, q, now)
    ensures -0x8000_0000_0000_0000 <= q.pending + q.active < 0x8000_0000_0000_0000 <==> r.total == q.pending + q.active
  {
  }

  /** Entry `i` is the last of its name. */
  predicate IsLast(queues: seq<QueueStats>, i: nat)
    requires i < |queues|
  {
    forall j :: i < j < |queues| ==> queues[j].name != queues[i].name
  }

  /** The last entry of a name is the one that stays, field by field. */
  lemma {:induction false} LastWriterWins(known: Readings, queues: seq<QueueStats>, now: nat, i: nat)
    requires i < |queues| && IsLast(queues, i)
    ensures queues[i].name in Merge(known, queues, now)
    ensures Reads(Merge(known, queues, now)[queues[i].name], queues[i], now)
  {
    if i < |queues| - 1 {
      LastWriterWins(known, queues[..|queues| - 1], now, i);
    }
  }

  /** What a response does not mention stays as it was. */
  lemma {:induction false} UnmentionedStays(known: Readings, queues: seq<QueueStats>, now: nat, name: string)
    requires forall q <- queues :: q.name != name
    ensures name in Merge(known, queues, now) <==> name in known
    ensures name in known ==> Merge(known, queues, now)[name] == known[name]
  {
    if queues != [] {
      assert queues[|queues| - 1] in queues;
      UnmentionedStays(known, queues[..|queues| - 1], now, name);
    }
  }

  class QueueMetrics {
    var queue: string
    var pending: int64
    var active: int64
    var total: int64
    var timestamp: nat

    constructor (q: QueueStats, now: nat)
      ensures Value() == ReadingOf(q, now)
    {
      queue := q.name;
      pending := q.pending;
      active := q.active;
      total := Wrap64(q.pending + q.active);
      timestamp := now;
    }

    ghost function Value(): Reading
      reads this
    {
      Reading(queue, pending, active, total, timestamp)
    }
  }

  class Collector {
    var metrics: map<string, QueueMetrics>

    ghost function Contents(): Readings
      reads this, metrics.Values
    {
      map k | k in metrics :: metrics[k].Value()
    }

    constructor ()
      ensures metrics == map[]
    {
      metrics := map[];
    }

    method GetQueueDepth(queue: string) returns (pending: int64, known: bool)
      ensures known <==> queue in Contents()
      ensures pending == if known then Contents()[queue].pending else 0
    {
      if queue !in metrics {
        return 0, false;
      }
      return metrics[queue].pending, true;
    }

    /** A new map, but of the same entries. */
    method GetAllMetrics() returns (result: map<string, QueueMetrics>)
      ensures result == metrics
    {
      result := map[];
      var rest := metrics.Keys;
      while rest != {}
        invariant rest <= metrics.Keys
        invariant result.Keys == metrics.Keys - rest
        invariant forall k <- result :: result[k] == metrics[k]
      {
        var k :| k in rest;
        result := result[k := metrics[k]];
        rest := rest - {k};
      }
    }

    /** A poll replaces entries by new ones; it never writes into an entry that is there. */
    method Poll(response: Response, now: nat) returns (ok: bool)
      modifies this
      ensures ok == response.Decoded?
      ensures Contents() == if ok then Merge(old(Contents()), response.queues, now) else old(Contents())
      ensures ok ==> forall i :: 0 <= i < |response.queues| && IsLast(response.queues, i) ==>
        && response.queues[i].name in Contents()
        && Reads(Contents()[response.queues[i].name], response.queues[i], now)
      ensures !ok ==> metrics == old(metrics)
      ensures forall k <- metrics :: fresh(metrics[k]) || (k in old(metrics) && metrics[k] == old(metrics[k]))
    {
      if response.Undecoded? {
        return false;
      }
      var queues := response.queues;
      for i := 0 to |queues|
        invariant forall k <- metrics :: fresh(metrics[k]) || (k in old(metrics) && metrics[k] == old(metrics[k]))
        invariant Contents() == Merge(old(Contents()), queues[..i], now)
      {
        ghost var before := Contents();
        var entry := new QueueMetrics(queues[i], now);
        metrics := metrics[queues[i].name := entry];
        assert Contents() == before[queues[i].name := ReadingOf(queues[i], now)];
        assert queues[..i + 1][..i] == queues[..i];
      }
      assert queues[..|queues|] == queues;
      forall i | 0 <= i < |queues| && IsLast(queues, i)
        ensures queues[i].name in Contents() && Reads(Contents()[queues[i].name], queues[i], now)
      {
        LastWriterWins(old(Contents()), queues, now, i);
      }
      return true;
    }
  }

  datatype Attempt = Attempt(response: Response, now: nat)

  /** The cache after any number of polls: failed ones leave no trace. */
  function AfterPolls(known: Readings, polls: seq<Attempt>): Readings
    decreases |polls|
  {
    if polls == [] then known
    else
      var p := polls[|polls| - 1];
      var before := AfterPolls(known, polls[..|polls| - 1]);
      if p.response.Decoded? then Merge(before, p.response.queues, p.now) else before
  }

  /**
   A snapshot is frozen: it shares its entries with the cache, and yet after any sequence of later
   polls each of its entries still reads as it did when the snapshot was taken.
   */
  method PollPastSnapshot(c: Collector, polls: seq<Attempt>) returns (snapshot: map<string, QueueMetrics>)
    modifies c
    ensures c.Contents() == AfterPolls(old(c.Contents()), polls)
    ensures snapshot == old(c.metrics)
    ensures forall k <- snapshot :: snapshot[k].Value() == old(c.Contents())[k]
  {
    snapshot := c.GetAllMetrics();
    for i := 0 to |polls|
      invariant c.Contents() == AfterPolls(old(c.Contents()), polls[..i])
      invariant forall k <- c.metrics :: fresh(c.metrics[k]) || (k in old(c.metrics) && c.metrics[k] == old(c.metrics[k]))
    {
      var ok := c.Poll(polls[i].response, polls[i].now);
      assert polls[..i + 1][..i] == polls[..i];
    }
    assert polls[..|polls|] == polls;
  }

  /** What a caller sees: after a decoded poll each queue in it has the pending count of its last entry. */
  method PollThenAsk(c: Collector, queues: seq<QueueStats>, now: nat, i: nat) returns (pending: int64, known: bool)
    requires i < |queues| && IsLast(queues, i)
    modifies c
    ensures known && pending == queues[i].pending
  {
    var ok := c.Poll(Decoded(queues), now);
    pending, known := c.GetQueueDepth(queues[i].name);
  }
}
