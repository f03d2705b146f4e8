/**
 joinStrings, which turns a worker's queues and job types into one environment variable, and what
 a comma-splitting reader can recover from it.
 */
module JoinedLists {
  import opened OjsTypes
  import opened Payloads
  import opened Webhook

  /** The accumulating loop computes the recursive join, and its result has the length it should. */
  method Join(ss: seq<string>) returns (result: string)
    ensures result == JoinStrings(ss)
    ensures |result| == SumOfLengths(ss) + if ss == [] then 0 else |ss| - 1
  {
    result := "";
    for i := 0 to |ss|
      invariant result == JoinStrings(ss[..i])
      invariant |result| == SumOfLengths(ss[..i]) + if i == 0 then 0 else i - 1
    {
      if i > 0 {
        result := result + ",";
      }
      result := result + ss[i];
      JoinLast(ss[..i], ss[i]);
      assert ss[..i + 1] == ss[..i] + [ss[i]];
    }
    assert ss[..|ss|] == ss;
  }

  function SumOfLengths(ss: seq<string>): nat {
    if ss == [] then 0 else SumOfLengths(ss[..|ss| - 1]) + |ss[|ss| - 1]|
  }

  lemma {:induction false} JoinLast(ss: seq<string>, s: string)
    ensures JoinStrings(ss + [s]) == if ss == [] then s else JoinStrings(ss) + "," + s
  {
    if |ss| > 1 {
      JoinLast(ss[1..], s);
      assert (ss + [s])[1..] == ss[1..] + [s];
    } else if |ss| == 1 {
      assert (ss + [s])[1..] == [s];
    }
  }

  /** Splitting at commas; a reader's inverse of the join. */
  function Split(s: string): (r: seq<string>)
    ensures r != [] && CommaFree(r)
  {
    if s == "" then [""]
    else
      var rest := Split(s[1..]);
      if s[0] == ',' then [""] + rest else [[s[0]] + rest[0]] + rest[1..]
  }

  predicate CommaFree(ss: seq<string>) {
    forall s <- ss :: ',' !in s
  }

  /** Every string is the join of its parts. */
  lemma {:induction false} JoinUndoesSplit(s: string)
    ensures JoinStrings(Split(s)) == s
  {
    if s != "" {
      var rest := Split(s[1..]);
      JoinUndoesSplit(s[1..]);
      assert s == [s[0]] + s[1..];
      if s[0] == ',' {
        assert ([""] + rest)[1..] == rest;
      } else {
        assert ([[s[0]] + rest[0]] + rest[1..])[1..] == rest[1..];
      }
    }
  }

  lemma {:induction false} SplitPrepends(s: string, t: string)
    requires ',' !in s
    ensures Split(s + "," + t) == [s] + Split(t)
    ensures Split(s) == [s]
  {
    if s == "" {
      assert ("" + "," + t)[1..] == t;
    } else {
      SplitPrepends(s[1..], t);
      assert (s + "," + t)[1..] == s[1..] + "," + t;
      assert [s[0]] + s[1..] == s;
    }
  }

  /** Splitting undoes the join on exactly the non-empty lists of comma-free strings. */
  lemma {:induction false} SplitUndoesJoin(ss: seq<string>)
    ensures Split(JoinStrings(ss)) == ss <==> ss != [] && CommaFree(ss)
  {
    if ss != [] && CommaFree(ss) {
      if |ss| == 1 {
        SplitPrepends(ss[0], "");
      } else {
        SplitUndoesJoin(ss[1..]);
        SplitPrepends(ss[0], JoinStrings(ss[1..]));
        assert ss == [ss[0]] + ss[1..];
      }
    }
  }

  /** Among comma-free lists the only two that join alike are the empty list and the list of one empty string. */
  lemma OnlyEmptyListsCollide(a: seq<string>, b: seq<string>)
    requires CommaFree(a) && CommaFree(b)
    ensures JoinStrings(a) == JoinStrings(b) <==> a == b || (a == [] && b == [""]) || (a == [""] && b == [])
  {
    SplitUndoesJoin(a);
    SplitUndoesJoin(b);
    assert Split("") == [""];
  }

  /**
   Two admitted workers whose entries hold no comma get the same variables only for the same lists:
   the validator's non-empty-entry rule is what tells no queues from one unnamed queue.
   */
  lemma AdmittedListsAreTold(a: WorkerSpec, b: WorkerSpec)
    requires ValidateWorker(a).None? && ValidateWorker(b).None?
    requires CommaFree(a.queues) && CommaFree(b.queues) && CommaFree(a.jobTypes) && CommaFree(b.jobTypes)
    ensures JoinStrings(a.queues) == JoinStrings(b.queues) <==> a.queues == b.queues
    ensures JoinStrings(a.jobTypes) == JoinStrings(b.jobTypes) <==> a.jobTypes == b.jobTypes
  {
    OnlyEmptyListsCollide(a.queues, b.queues);
    OnlyEmptyListsCollide(a.jobTypes, b.jobTypes);
    assert "" in [""];
  }

  // ---------------------------------------------------------------- which admitted lists are told apart

  /** No other list without empty entries joins to the same string. */
  ghost predicate Told(a: seq<string>) {
    forall b: seq<string> | "" !in b && JoinStrings(b) == JoinStrings(a) :: b == a
  }

  predicate CommaInside(s: string) {
    exists i :: 0 < i < |s| - 1 && s[i] == ','
  }

  /** The first comma a join of several entries puts in lies inside the result. */
  lemma SeveralEntriesPutACommaInside(b: seq<string>)
    requires |b| >= 2 && "" !in b
    ensures CommaInside(JoinStrings(b))
  {
    var joined, rest := JoinStrings(b), b[1..];
    assert joined == b[0] + "," + JoinStrings(rest);
    assert rest[0] == b[1] && b[0] in b && b[1] in b;
    assert 0 < |b[0]| < |joined| - 1 && joined[|b[0]|] == ',';
  }

  lemma JoinIsEmptyOnlyForNoEntries(b: seq<string>)
    requires "" !in b
    ensures JoinStrings(b) == "" <==> b == []
  {
    if b != [] { assert b[0] in b; }
  }

  /** Cut at an inner comma, one entry becomes two that join alike. */
  lemma CutJoinsAlike(s: string, i: nat)
    requires 0 < i < |s| - 1 && s[i] == ','
    ensures JoinStrings([s[..i], s[i + 1..]]) == s && "" !in [s[..i], s[i + 1..]]
  {
    var parts := [s[..i], s[i + 1..]];
    assert parts[1..] == [s[i + 1..]];
    assert s == s[..i] + "," + s[i + 1..];
  }

  /**
   A list without empty entries is determined by its join exactly when it is empty, or is one entry
   with no comma inside: of several entries the one-entry list of their join is always another reading.
   */
  lemma ToldExactly(a: seq<string>)
    requires "" !in a
    ensures Told(a) <==> a == [] || (|a| == 1 && !CommaInside(a[0]))
  {
    if a == [] || (|a| == 1 && !CommaInside(a[0])) {
      forall b: seq<string> | "" !in b && JoinStrings(b) == JoinStrings(a) ensures b == a {
        JoinIsEmptyOnlyForNoEntries(a);
        JoinIsEmptyOnlyForNoEntries(b);
        if |b| >= 2 { SeveralEntriesPutACommaInside(b); }
      }
    } else if |a| == 1 {
      var i :| 0 < i < |a[0]| - 1 && a[0][i] == ',';
      CutJoinsAlike(a[0], i);
      assert |[a[0][..i], a[0][i + 1..]]| == 2;
    } else {
      JoinIsEmptyOnlyForNoEntries(a);
      assert JoinStrings([JoinStrings(a)]) == JoinStrings(a) && |[JoinStrings(a)]| == 1;
    }
  }

  /** For workers: which of the lists the validator admits can be read back from their variables. */
  lemma AdmittedToldExactly(spec: WorkerSpec)
    requires ValidateWorker(spec).None?
    ensures (forall qs: seq<string> | ValidateWorker(spec.(queues := qs)).None? && JoinStrings(qs) == JoinStrings(spec.queues) :: qs == spec.queues)
      <==> spec.queues == [] || (|spec.queues| == 1 && !CommaInside(spec.queues[0]))
    ensures (forall js: seq<string> | ValidateWorker(spec.(jobTypes := js)).None? && JoinStrings(js) == JoinStrings(spec.jobTypes) :: js == spec.jobTypes)
      <==> |spec.jobTypes| == 1 && !CommaInside(spec.jobTypes[0])
  {
    hide ValidateWorker;
    ToldExactly(spec.queues);
    ToldExactly(spec.jobTypes);
    JoinIsEmptyOnlyForNoEntries(spec.jobTypes);
    forall js: seq<string> | "" !in js && JoinStrings(js) == JoinStrings(spec.jobTypes) ensures js != [] {
      JoinIsEmptyOnlyForNoEntries(js);
    }
    assert Told(spec.queues) <==> forall qs: seq<string> | ValidateWorker(spec.(queues := qs)).None? && JoinStrings(qs) == JoinStrings(spec.queues) :: qs == spec.queues;
    assert Told(spec.jobTypes) <==> forall js: seq<string> | ValidateWorker(spec.(jobTypes := js)).None? && JoinStrings(js) == JoinStrings(spec.jobTypes) :: js == spec.jobTypes;
  }

  /** Commas are admitted, and with them different workers get the same variables. */
  lemma AdmittedCommasCollide(spec: WorkerSpec)
    requires ValidateWorker(spec).None?
    ensures var a, b := spec.(queues := ["a,b"]), spec.(queues := ["a", "b"]);
      ValidateWorker(a).None? && ValidateWorker(b).None? && JoinStrings(a.queues) == JoinStrings(b.queues)
  {
    assert JoinStrings(["a", "b"]) == "a" + "," + JoinStrings(["a", "b"][1..]);
    assert ["a", "b"][1..] == ["b"];
  }
}
