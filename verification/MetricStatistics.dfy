/** The mean and the nearest-rank 95th percentile of a sample
    (server/training_metrics/queries.py:653-663), over the reals, 0.95 as 19/20. */
module MetricStatistics {
  import opened Core

  function Sum(s: seq<real>): real {
    if s == [] then 0.0 else Sum(s[..|s| - 1]) + s[|s| - 1]
  }

  /** _mean. */
  function Mean(s: seq<real>): Option<real> {
    if s == [] then None else Some(Sum(s) / |s| as real)
  }

  predicate Ordered(s: seq<real>) { forall i, j :: 0 <= i < j < |s| ==> s[i] <= s[j] }

  function Inserted(x: real, s: seq<real>): (r: seq<real>)
    ensures |r| == |s| + 1
  {
    if s == [] || x < s[0] then [x] + s else [s[0]] + Inserted(x, s[1..])
  }

  /** sorted(values) */
  function Sorted(s: seq<real>): (r: seq<real>)
    ensures |r| == |s|
  {
    if s == [] then [] else Inserted(s[|s| - 1], Sorted(s[..|s| - 1]))
  }

  /** The rank ceil(n * 19/20), counted from one. */
  function Rank(n: nat): nat { (n * 19 + 19) / 20 }

  /** _percentile_95. */
  function Percentile95(s: seq<real>): Option<real> {
    if s == [] then None else Some(Sorted(s)[if Rank(|s|) >= 1 then Rank(|s|) - 1 else 0])
  }

  // ---------------------------------------------------------------------------------

  predicate Within(s: seq<real>, lo: real, hi: real) { forall i :: 0 <= i < |s| ==> lo <= s[i] <= hi }

  lemma {:induction false} SumWithin(s: seq<real>, lo: real, hi: real)
    requires Within(s, lo, hi)
    ensures |s| as real * lo <= Sum(s) <= |s| as real * hi
  {
    if s != [] {
      var init := s[..|s| - 1];
      SumWithin(init, lo, hi);
      assert |s| as real == |init| as real + 1.0;
      assert |s| as real * lo == |init| as real * lo + lo && |s| as real * hi == |init| as real * hi + hi;
    }
  }

  lemma Scaled(a: real, b: real, n: real)
    requires n > 0.0
    ensures a * n <= b * n <==> a <= b
  {
    if a <= b { assert (b - a) * n >= 0.0; } else { assert (a - b) * n > 0.0; }
  }

  /** A mean lies between any bounds of its sample, and is missing only for no sample. */
  lemma MeanIsWithin(s: seq<real>, lo: real, hi: real)
    requires Within(s, lo, hi)
    ensures Mean(s).None? <==> s == []
    ensures Mean(s).Some? ==> lo <= Mean(s).value <= hi
  {
    if s != [] {
      SumWithin(s, lo, hi);
      var n, mean := |s| as real, Mean(s).value;
      assert mean * n == Sum(s);
      Scaled(lo, mean, n);
      Scaled(mean, hi, n);
    }
  }

  lemma {:induction false} SumOfBoth(a: seq<real>, b: seq<real>)
    ensures Sum(a + b) == Sum(a) + Sum(b)
  {
    if b == [] {
      assert a + b == a;
    } else {
      SumOfBoth(a, b[..|b| - 1]);
      assert (a + b)[..|a + b| - 1] == a + b[..|b| - 1];
    }
  }

  lemma SumOfOne(x: real)
    ensures Sum([x]) == x
  {
    assert [x][..0] == [];
  }

  lemma MeanTimesSize(s: seq<real>)
    requires s != []
    ensures Mean(s).Some? && |s| as real * Mean(s).value == Sum(s)
  {
    assert |s| as real != 0.0;
  }

  /** z is the mean of m numbers of mean x and n numbers of mean y. */
  predicate Weighs(m: nat, x: real, n: nat, y: real, z: real) {
    (m + n) as real * z == m as real * x + n as real * y
  }

  /** The mean of one number is that number, and the mean of two samples together is the
      mean of their means weighted by their sizes: there is only one such function. */
  lemma MeanIsWeighted(a: seq<real>, b: seq<real>, x: real)
    ensures Mean([x]) == Some(x)
    ensures a != [] && b != [] ==>
      && Mean(a).Some? && Mean(b).Some? && Mean(a + b).Some?
      && Weighs(|a|, Mean(a).value, |b|, Mean(b).value, Mean(a + b).value)
  {
    MeanIsWithin([x], x, x);
    if a != [] && b != [] {
      MeanTimesSize(a);
      MeanTimesSize(b);
      MeanTimesSize(a + b);
      SumOfBoth(a, b);
    }
  }

  lemma WithoutOne<T>(s: seq<T>, i: nat)
    requires i < |s|
    ensures s == s[..i] + [s[i]] + s[i + 1..]
    ensures multiset(s[..i] + s[i + 1..]) == multiset(s) - multiset{s[i]}
  {
    assert s == s[..i] + [s[i]] + s[i + 1..];
  }

  /** Where the last number of one list lies in a rearrangement of it. */
  lemma TakenOut(a: seq<real>, b: seq<real>) returns (before: seq<real>, after: seq<real>)
    requires multiset(a) == multiset(b) && a != []
    ensures b == before + [a[|a| - 1]] + after
    ensures multiset(a[..|a| - 1]) == multiset(before + after)
  {
    var n := |a| - 1;
    assert a[n] in multiset(b);
    var i :| 0 <= i < |b| && b[i] == a[n];
    before, after := b[..i], b[i + 1..];
    WithoutOne(b, i);
    WithoutOne(a, n);
    assert a[..n] + a[n + 1..] == a[..n];
  }

  lemma {:induction false} SumIgnoresOrder(a: seq<real>, b: seq<real>)
    requires multiset(a) == multiset(b)
    ensures Sum(a) == Sum(b) && |a| == |b|
  {
    assert |a| == |multiset(a)| == |multiset(b)| == |b|;
    if a != [] {
      var before, after := TakenOut(a, b);
      SumIgnoresOrder(a[..|a| - 1], before + after);
      SumWithout(before, a[|a| - 1], after);
    }
  }

  lemma SumWithout(before: seq<real>, x: real, after: seq<real>)
    ensures Sum(before + [x] + after) == Sum(before + after) + x
  {
    SumOfBoth(before + [x], after);
    SumOfBoth(before, [x]);
    SumOfBoth(before, after);
    SumOfOne(x);
  }

  /** The order of the sample does not matter. */
  lemma MeanIgnoresOrder(a: seq<real>, b: seq<real>)
    requires multiset(a) == multiset(b)
    ensures Mean(a) == Mean(b)
  {
    SumIgnoresOrder(a, b);
  }

  function AtMost(s: seq<real>, x: real): nat {
    if s == [] then 0 else AtMost(s[..|s| - 1], x) + (if s[|s| - 1] <= x then 1 else 0)
  }

  function Under(s: seq<real>, x: real): nat {
    if s == [] then 0 else Under(s[..|s| - 1], x) + (if s[|s| - 1] < x then 1 else 0)
  }

  lemma {:induction false} CountsOfFront(y: real, s: seq<real>, x: real)
    ensures AtMost([y] + s, x) == AtMost(s, x) + (if y <= x then 1 else 0)
    ensures Under([y] + s, x) == Under(s, x) + (if y < x then 1 else 0)
  {
    if s != [] {
      var last := |s| - 1;
      CountsOfFront(y, s[..last], x);
      assert ([y] + s)[..|s|] == [y] + s[..last];
    } else {
      assert [y] + s == [y] && [y][..0] == [];
    }
  }

  lemma {:induction false} InsertedCounts(y: real, s: seq<real>, x: real)
    ensures AtMost(Inserted(y, s), x) == AtMost(s, x) + (if y <= x then 1 else 0)
    ensures Under(Inserted(y, s), x) == Under(s, x) + (if y < x then 1 else 0)
  {
    if s == [] || y < s[0] {
      CountsOfFront(y, s, x);
    } else {
      InsertedCounts(y, s[1..], x);
      CountsOfFront(s[0], Inserted(y, s[1..]), x);
      CountsOfFront(s[0], s[1..], x);
      assert s == [s[0]] + s[1..];
    }
  }

  lemma {:induction false} InsertedMembers(y: real, s: seq<real>, x: real)
    ensures x in Inserted(y, s) <==> x == y || x in s
  {
    if s != [] && s[0] <= y {
      InsertedMembers(y, s[1..], x);
      assert s == [s[0]] + s[1..];
    }
  }

  lemma {:induction false} InsertedIsOrdered(y: real, s: seq<real>)
    requires Ordered(s)
    ensures Ordered(Inserted(y, s))
  {
    if s != [] && s[0] <= y {
      var rest := Inserted(y, s[1..]);
      InsertedIsOrdered(y, s[1..]);
      forall i | 0 <= i < |rest| ensures s[0] <= rest[i] {
        InsertedMembers(y, s[1..], rest[i]);
        assert rest[i] in rest;
      }
    }
  }

  lemma LastCounts(s: seq<real>, x: real)
    requires s != []
    ensures AtMost(s, x) == AtMost(s[..|s| - 1], x) + (if s[|s| - 1] <= x then 1 else 0)
    ensures Under(s, x) == Under(s[..|s| - 1], x) + (if s[|s| - 1] < x then 1 else 0)
    ensures x in s <==> x in s[..|s| - 1] || x == s[|s| - 1]
  {
    assert s == s[..|s| - 1] + [s[|s| - 1]];
  }

  /** Sorting orders the sample and keeps every count over it. */
  lemma {:induction false} SortedCounts(s: seq<real>, x: real)
    ensures Ordered(Sorted(s))
    ensures x in Sorted(s) <==> x in s
    ensures AtMost(Sorted(s), x) == AtMost(s, x) && Under(Sorted(s), x) == Under(s, x)
  {
    if s != [] {
      LastCounts(s, x);
      hide AtMost, Under, Ordered, Inserted;
      var init, y := s[..|s| - 1], s[|s| - 1];
      SortedCounts(init, x);
      InsertedIsOrdered(y, Sorted(init));
      InsertedMembers(y, Sorted(init), x);
      InsertedCounts(y, Sorted(init), x);
    }
  }

  lemma {:induction false} CountsOfOrdered(s: seq<real>, k: nat, x: real)
    requires Ordered(s) && k <= |s|
    ensures (forall i :: 0 <= i < k ==> s[i] <= x) ==> AtMost(s, x) >= k
    ensures (forall i :: k <= i < |s| ==> x <= s[i]) ==> Under(s, x) <= k
    decreases |s|
  {
    if s != [] {
      var init := s[..|s| - 1];
      if k == |s| {
        CountsOfOrdered(init, k - 1, x);
      } else {
        CountsOfOrdered(init, k, x);
      }
    }
  }

  lemma PercentileIsRanked(s: seq<real>)
    requires s != []
    ensures 1 <= Rank(|s|) <= |s| && Percentile95(s) == Some(Sorted(s)[Rank(|s|) - 1])
    ensures var x := Sorted(s)[Rank(|s|) - 1];
      x in s && AtMost(s, x) >= Rank(|s|) && Under(s, x) < Rank(|s|)
  {
    var k := Rank(|s|) - 1;
    SortedCounts(s, Sorted(s)[k]);
    hide Ordered, AtMost, Under, Sorted;
    Ranked(Sorted(s), k);
  }

  lemma RankRoundsUp(n: nat)
    requires n > 0
    ensures 20 * (Rank(n) - 1) < 19 * n <= 20 * Rank(n)
  {
  }

  /** The percentile is a sample, and at least 95% of the samples do not exceed it. */
  lemma PercentileCoversTheSample(s: seq<real>)
    requires s != []
    ensures Percentile95(s).Some?
    ensures Percentile95(s).value in s
    ensures 20 * AtMost(s, Percentile95(s).value) >= 19 * |s|
  {
    hide Ordered, AtMost, Under, Sorted, Rank, Percentile95;
    PercentileIsRanked(s);
    RankRoundsUp(|s|);
  }

  /** It is the lowest such sample: fewer than the rank lie below it, and the rank is 95%
      of the sample rounded up. */
  lemma PercentileIsNearestRank(s: seq<real>)
    requires s != []
    ensures Percentile95(s).Some? && Under(s, Percentile95(s).value) < Rank(|s|)
    ensures 20 * (Rank(|s|) - 1) < 19 * |s| <= 20 * Rank(|s|)
  {
    hide Ordered, AtMost, Under, Sorted, Rank, Percentile95;
    PercentileIsRanked(s);
    RankRoundsUp(|s|);
  }

  lemma Ranked(sorted: seq<real>, k: nat)
    requires Ordered(sorted) && k < |sorted|
    ensures AtMost(sorted, sorted[k]) >= k + 1 && Under(sorted, sorted[k]) <= k
  {
    hide AtMost, Under;
    CountsOfOrdered(sorted, k + 1, sorted[k]);
    CountsOfOrdered(sorted, k, sorted[k]);
  }
}
