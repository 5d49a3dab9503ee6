/** The merge at the heart of the log window: sort by sequence, the later of two records
    with one sequence wins (frontend/training-dashboard/logs-domain.ts:233-239). */
module LogMerge {
  import opened Core
  import opened LogPaging

  /** The map the source fills: the last record seen under each sequence. */
  function Latest(entries: seq<Record>): map<nat, Event> {
    if entries == [] then map[]
    else
      var last := entries[|entries| - 1];
      Latest(entries[..|entries| - 1])[last.at := last.event]
  }

  /** The map's values in ascending sequence: what the sort produces. */
  function ByKey(values: map<nat, Event>): seq<Record>
    decreases |values|
  {
    if values == map[] then []
    else
      var k := Least(values.Keys);
      [Record(k, values[k])] + ByKey(values - {k})
  }

  function Merge(entries: seq<Record>): seq<Record> { ByKey(Latest(entries)) }

  method SortedUnique(entries: seq<Record>) returns (r: seq<Record>)
    ensures r == Merge(entries)
  {
    var values: map<nat, Event> := map[];
    var i := 0;
    while i < |entries|
      invariant i <= |entries| && values == Latest(entries[..i])
    {
      assert entries[..i + 1][..i] == entries[..i];
      values := values[entries[i].at := entries[i].event];
      i := i + 1;
    }
    assert entries[..i] == entries;
    r := ByKey(values);
  }

  // ---------------------------------------------------------------------------------
  // What it means

  predicate Ascending(s: seq<Record>) {
    forall i, j :: 0 <= i < j < |s| ==> s[i].at < s[j].at
  }

  /** x is the last of the entries with its sequence. */
  ghost predicate Survives(x: Record, s: seq<Record>) {
    exists i :: 0 <= i < |s| && s[i] == x && forall j :: i < j < |s| ==> s[j].at != x.at
  }

  lemma {:induction false} LatestHoldsSurvivors(s: seq<Record>, x: Record)
    ensures (x.at in Latest(s) && Latest(s)[x.at] == x.event) <==> Survives(x, s)
  {
    if s != [] {
      var n := |s| - 1;
      var init := s[..n];
      LatestHoldsSurvivors(init, x);
      if s[n].at == x.at {
        if s[n] == x { assert s[n] == x; }
      } else {
        if Survives(x, s) {
          var i :| 0 <= i < |s| && s[i] == x && forall j :: i < j < |s| ==> s[j].at != x.at;
          assert init[i] == x && forall j :: i < j < |init| ==> init[j].at != x.at;
        }
        if Survives(x, init) {
          var i :| 0 <= i < |init| && init[i] == x && forall j :: i < j < |init| ==> init[j].at != x.at;
          assert s[i] == x;
          forall j | i < j < |s| ensures s[j].at != x.at { if j < n { assert s[j] == init[j]; } }
        }
      }
    }
  }

  lemma {:induction false} ByKeyListsTheMap(values: map<nat, Event>)
    ensures Ascending(ByKey(values))
    ensures forall x :: x in ByKey(values) <==> (x.at in values && values[x.at] == x.event)
    decreases |values|
  {
    if values != map[] {
      var k := Least(values.Keys);
      var rest := ByKey(values - {k});
      ByKeyListsTheMap(values - {k});
      forall i | 0 <= i < |rest| ensures k < rest[i].at { assert rest[i] in rest; }
      var all := ByKey(values);
      assert all == [Record(k, values[k])] + rest;
      forall x ensures x in all <==> (x.at in values && values[x.at] == x.event) {
        assert x in all <==> x == Record(k, values[k]) || x in rest;
      }
    }
  }

  /** The merge is strictly ascending and holds exactly the last record of each sequence. */
  lemma MergeSortsSurvivors(s: seq<Record>)
    ensures Ascending(Merge(s))
    ensures forall x :: x in Merge(s) <==> Survives(x, s)
  {
    ByKeyListsTheMap(Latest(s));
    forall x ensures x in Merge(s) <==> Survives(x, s) { LatestHoldsSurvivors(s, x); }
  }

  lemma HeadIsAMember(s: seq<Record>)
    ensures s == [] || s[0] in s
  {
  }

  /** Two ascending lists of the same records are one list. */
  lemma {:induction false} AscendingIsCanonical(a: seq<Record>, b: seq<Record>)
    requires Ascending(a) && Ascending(b)
    requires forall x :: x in a <==> x in b
    ensures a == b
  {
    HeadIsAMember(b);
    if a != [] {
      assert a[0] in b;
      assert b[0] in a;
      assert a[0] == b[0];
      forall x ensures x in a[1..] <==> x in b[1..] {
        TailMembers(a, x);
        TailMembers(b, x);
      }
      AscendingIsCanonical(a[1..], b[1..]);
      assert a == [a[0]] + a[1..] && b == [b[0]] + b[1..];
    }
  }

  lemma TailMembers(s: seq<Record>, x: Record)
    requires Ascending(s) && s != []
    ensures x in s[1..] <==> x in s && x != s[0]
  {
    if x in s && x != s[0] {
      var i :| 0 <= i < |s| && s[i] == x;
      assert s[1..][i - 1] == x;
    }
  }

  /** Records of one log agree wherever their sequences do, so merging keeps them all. */
  lemma MergeWithinALog(log: seq<Record>, s: seq<Record>, merged: seq<Record>)
    requires Log(log) && (forall x :: x in s ==> x in log)
    requires Ascending(merged) && forall x :: x in merged <==> x in s
    ensures Merge(s) == merged
  {
    MergeSortsSurvivors(s);
    forall x ensures x in Merge(s) <==> x in merged {
      if x in s { LastOfItsSequence(log, s, x); }
    }
    AscendingIsCanonical(Merge(s), merged);
  }

  lemma {:induction false} LastOfItsSequence(log: seq<Record>, s: seq<Record>, x: Record)
    requires Log(log) && (forall y :: y in s ==> y in log) && x in s
    ensures Survives(x, s)
  {
    var n := |s| - 1;
    if s[n].at == x.at {
      assert s[n] in log && x in log;
      assert s[n] == x;
    } else {
      var init := s[..n];
      var i :| 0 <= i < |s| && s[i] == x;
      assert init[i] == x;
      forall y | y in init ensures y in log { assert y in s; }
      LastOfItsSequence(log, init, x);
      var k :| 0 <= k < |init| && init[k] == x && forall j :: k < j < |init| ==> init[j].at != x.at;
      assert s[k] == x;
      forall j | k < j < |s| ensures s[j].at != x.at { if j < n { assert s[j] == init[j]; } }
    }
  }

  // ---------------------------------------------------------------------------------
  // Merging two stretches of one log

  predicate Stretch(log: seq<Record>, s: seq<Record>, i: nat) {
    i + |s| <= |log| && s == log[i..i + |s|]
  }

  lemma StretchesAscend(log: seq<Record>, i: nat, j: nat)
    requires Log(log) && i <= j <= |log|
    ensures Ascending(log[i..j])
  {
  }

  lemma InStretch(log: seq<Record>, i: nat, j: nat, x: Record)
    requires i <= j <= |log|
    ensures x in log[i..j] <==> exists k :: i <= k < j && log[k] == x
  {
    if x in log[i..j] {
      var k :| 0 <= k < j - i && log[i..j][k] == x;
      assert log[i + k] == x;
    }
    if k :| i <= k < j && log[k] == x {
      assert log[i..j][k - i] == x;
    }
  }

  /** Stretches that touch or overlap merge into the stretch from the first start to the
      last end. */
  lemma MergeTouching(log: seq<Record>, p: nat, q: nat, i: nat, j: nat)
    requires Log(log) && p <= q <= j <= |log| && i <= j && i <= q
    ensures Merge(log[p..q] + log[i..j]) == log[if p < i then p else i..j]
  {
    var from := if p < i then p else i;
    var s := log[p..q] + log[i..j];
    forall x ensures x in s <==> x in log[from..j] {
      assert x in s <==> x in log[p..q] || x in log[i..j];
      InStretch(log, p, q, x); InStretch(log, i, j, x); InStretch(log, from, j, x);
    }
    forall x | x in s ensures x in log { assert x in log[from..j]; }
    StretchesAscend(log, from, j);
    MergeWithinALog(log, s, log[from..j]);
  }

  /** Stretches with something between them merge into their concatenation. */
  lemma MergeApart(log: seq<Record>, p: nat, q: nat, i: nat, j: nat)
    requires Log(log) && p <= q <= i <= j <= |log|
    ensures Merge(log[p..q] + log[i..j]) == log[p..q] + log[i..j]
  {
    var s := log[p..q] + log[i..j];
    forall x | x in s ensures x in log {
      assert x in log[p..q] || x in log[i..j];
      InStretch(log, p, q, x); InStretch(log, i, j, x);
    }
    MergeWithinALog(log, s, s);
  }
}
