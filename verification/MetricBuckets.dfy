/** Spreading a series over a bounded number of chart points
    (server/training_metrics/queries.py:549-559). */
module MetricBuckets {

  function Min(a: nat, b: nat): nat { if a < b then a else b }

  /** The number of buckets. */
  function Count(size: nat, maximum: nat): nat { Min(size, maximum) }

  /** a * c, by repeated addition. */
  function Times(a: nat, c: nat): nat {
    if a == 0 then 0 else Times(a - 1, c) + c
  }

  /** n / c rounded up, by repeated subtraction. */
  function Ceiling(n: nat, c: nat): nat
    requires c > 0
  {
    if n == 0 then 0 else if n <= c then 1 else Ceiling(n - c, c) + 1
  }

  /** The first index of bucket b: b * size / count, rounded up. */
  function Bound(b: nat, size: nat, count: nat): nat
    requires count > 0
  {
    Ceiling(Times(b, size), count)
  }

  lemma {:induction false} TimesIsProduct(a: nat, c: nat)
    ensures Times(a, c) == a * c
  {
    if a > 0 {
      TimesIsProduct(a - 1, c);
      assert (a - 1) * c + c == a * c;
    }
  }

  lemma {:induction false} TimesGrows(a: nat, b: nat, c: nat)
    requires a <= b
    ensures Times(a, c) <= Times(b, c)
    ensures a < b ==> Times(a, c) + c <= Times(b, c)
  {
    if a < b { TimesGrows(a, b - 1, c); }
  }

  lemma {:induction false} CeilingIsLeast(n: nat, c: nat, i: nat)
    requires c > 0
    ensures Ceiling(n, c) <= i <==> n <= Times(i, c)
  {
    if n == 0 {
    } else if n <= c {
      if i > 0 { TimesGrows(1, i, c); }
    } else if i > 0 {
      CeilingIsLeast(n - c, c, i - 1);
    }
  }

  lemma BoundIsLeast(b: nat, size: nat, count: nat, i: nat)
    requires count > 0
    ensures Bound(b, size, count) <= i <==> Times(b, size) <= Times(i, count)
  {
    CeilingIsLeast(Times(b, size), count, i);
  }

  lemma {:induction false} TimesAdds(a: nat, b: nat, c: nat)
    ensures Times(a + b, c) == Times(a, c) + Times(b, c)
  {
    if b > 0 { TimesAdds(a, b - 1, c); }
  }

  /** The quotient rounded down, and what characterizes it. */
  function Floor(n: nat, c: nat): (q: nat)
    requires c > 0
    ensures Times(q, c) <= n < Times(q, c) + c
  {
    if n < c then 0 else Floor(n - c, c) + 1
  }

  /** A bucket holds Floor(size, count) items, or one more. */
  lemma BucketSize(b: nat, size: nat, count: nat)
    requires count > 0
    ensures var width := Bound(b + 1, size, count) - Bound(b, size, count);
      Floor(size, count) <= width <= Floor(size, count) + 1
  {
    hide Bound;
    var k, q := Bound(b, size, count), Floor(size, count);
    TimesAdds(k, q, count);
    BoundIsLeast(b, size, count, k);
    BoundIsLeast(b + 1, size, count, k + q + 1);
    if k + q > 0 { BoundIsLeast(b + 1, size, count, k + q - 1); }
    if k > 0 { BoundIsLeast(b, size, count, k - 1); }
  }

  lemma {:induction false} TimesCommutes(a: nat, c: nat)
    ensures Times(a, c) == Times(c, a)
  {
    TimesIsProduct(a, c);
    TimesIsProduct(c, a);
  }

  lemma BoundEnds(size: nat, count: nat)
    requires count > 0
    ensures Bound(0, size, count) == 0 && Bound(count, size, count) == size
  {
    TimesCommutes(count, size);
    BoundIsLeast(count, size, count, size);
    if size > 0 { BoundIsLeast(count, size, count, size - 1); }
  }

  lemma {:induction false} BoundsGrow(a: nat, b: nat, size: nat, count: nat)
    requires count > 0 && a <= b
    ensures Bound(a, size, count) <= Bound(b, size, count)
  {
    hide Bound;
    if a < b {
      BoundsGrow(a, b - 1, size, count);
      BucketSize(b - 1, size, count);
    }
  }

  function Slice<T>(s: seq<T>, b: nat, count: nat): (r: seq<T>)
    requires b < count
    ensures |r| == Bound(b + 1, |s|, count) - Bound(b, |s|, count)
  {
    BoundsGrow(b, b + 1, |s|, count);
    BoundsGrow(b + 1, count, |s|, count);
    BoundEnds(|s|, count);
    s[Bound(b, |s|, count)..Bound(b + 1, |s|, count)]
  }

  /** The buckets as consecutive slices. */
  function Groups<T>(s: seq<T>, maximum: nat): (r: seq<seq<T>>)
    requires maximum > 0
    ensures |r| == Count(|s|, maximum)
  {
    var count := Count(|s|, maximum);
    seq(count, b requires 0 <= b < count => Slice(s, b, count))
  }

  /** Item i falls into bucket i * count / size, which is never past the last one. */
  lemma BucketOf(i: nat, size: nat, count: nat, b: nat)
    requires i < size && 0 < count
    ensures i * count / size < count
    ensures b == i * count / size <==> Bound(b, size, count) <= i < Bound(b + 1, size, count)
  {
    hide Bound;
    BoundIsLeast(b, size, count, i);
    BoundIsLeast(b + 1, size, count, i);
    TimesIsProduct(i, count);
    TimesIsProduct(b, size);
    QuotientIs(i * count, size, b);
    QuotientBelow(i, size, count);
  }

  lemma QuotientIs(n: nat, d: nat, q: nat)
    requires d > 0
    ensures n / d >= 0
    ensures q == n / d <==> q * d <= n < q * d + d
  {
    var r := n / d;
    assert r * d <= n < r * d + d;
    if q < r { assert q * d + d == (q + 1) * d <= r * d; }
    if q > r { assert r * d + d == (r + 1) * d <= q * d; }
  }

  lemma QuotientBelow(i: nat, size: nat, count: nat)
    requires i < size && 0 < count
    ensures i * count / size < count
  {
    var q := i * count / size;
    QuotientIs(i * count, size, q);
    MulLe(i, size - 1, count);
    MulLe(if q >= count then count else 0, q, size);
    assert (size - 1) * count == size * count - count;
  }

  lemma MulLe(a: nat, b: nat, c: nat)
    requires a <= b
    ensures a * c <= b * c
  {
  }

  ghost predicate Filled<T>(s: seq<T>, i: nat, count: nat, b: nat, bucket: seq<T>)
    requires count > 0 && b < count && i <= |s|
  {
    BoundsGrow(b, b + 1, |s|, count);
    bucket == s[Min(Bound(b, |s|, count), i)..Min(Bound(b + 1, |s|, count), i)]
  }

  lemma FillNext<T>(s: seq<T>, i: nat, count: nat, b: nat, bucket: seq<T>)
    requires count > 0 && b < count && i < |s| && Filled(s, i, count, b, bucket)
    ensures Filled(s, i + 1, count, b, if b == i * count / |s| then bucket + [s[i]] else bucket)
  {
    BucketOf(i, |s|, count, b);
    BoundsGrow(b, b + 1, |s|, count);
    var lo, hi := Bound(b, |s|, count), Bound(b + 1, |s|, count);
    if lo <= i < hi { assert s[lo..i + 1] == s[lo..i] + [s[i]]; }
  }

  lemma FillNothing<T>(s: seq<T>, count: nat, b: nat)
    requires count > 0 && b < count
    ensures Filled(s, 0, count, b, [])
  {
  }

  lemma FilledUp<T>(s: seq<T>, count: nat, b: nat, bucket: seq<T>)
    requires b < count && Filled(s, |s|, count, b, bucket)
    ensures bucket == Slice(s, b, count)
  {
    BoundsGrow(b, b + 1, |s|, count);
    BoundsGrow(b + 1, count, |s|, count);
    BoundEnds(|s|, count);
    hide Bound;
  }

  /** _bucket_groups. */
  method BucketGroups<T(==)>(events: seq<T>, maximum: nat) returns (groups: seq<seq<T>>)
    requires maximum > 0
    ensures groups == Groups(events, maximum)
  {
    hide Bound, Filled, Slice;
    if events == [] { return []; }
    var count := Min(|events|, maximum);
    var buckets := seq(count, b => []);
    forall b | 0 <= b < count ensures Filled(events, 0, count, b, buckets[b]) { FillNothing(events, count, b); }
    var index := 0;
    while index < |events|
      invariant index <= |events| && |buckets| == count
      invariant forall b :: 0 <= b < count ==> Filled(events, index, count, b, buckets[b])
    {
      QuotientBelow(index, |events|, count);
      var bucket := Min(index * count / |events|, count - 1);
      ghost var before := buckets;
      buckets := buckets[bucket := buckets[bucket] + [events[index]]];
      forall b | 0 <= b < count ensures Filled(events, index + 1, count, b, buckets[b]) {
        FillNext(events, index, count, b, before[b]);
      }
      index := index + 1;
    }
    forall b | 0 <= b < count ensures buckets[b] == Slice(events, b, count) {
      FilledUp(events, count, b, buckets[b]);
    }
    groups := buckets;
  }

  function Flatten<T>(s: seq<seq<T>>): seq<T> {
    if s == [] then [] else Flatten(s[..|s| - 1]) + s[|s| - 1]
  }

  lemma {:induction false} FlattenSlices<T>(s: seq<T>, maximum: nat, k: nat)
    requires maximum > 0 && s != [] && k <= Count(|s|, maximum)
    ensures Bound(k, |s|, Count(|s|, maximum)) <= |s|
    ensures Flatten(Groups(s, maximum)[..k]) == s[..Bound(k, |s|, Count(|s|, maximum))]
  {
    var count := Count(|s|, maximum);
    BoundEnds(|s|, count);
    BoundsGrow(k, count, |s|, count);
    var groups := Groups(s, maximum);
    if k == 0 {
      assert groups[..0] == [];
    } else {
      FlattenSlices(s, maximum, k - 1);
      BoundsGrow(k - 1, k, |s|, count);
      assert groups[..k][..k - 1] == groups[..k - 1];
      assert groups[..k][k - 1] == Slice(s, k - 1, count);
      var lo, hi := Bound(k - 1, |s|, count), Bound(k, |s|, count);
      assert s[..lo] + s[lo..hi] == s[..hi];
    }
  }

  /** The buckets partition the series in order: they concatenate to it, none is empty,
      and no two differ by more than one in length. */
  lemma GroupsPartition<T>(s: seq<T>, maximum: nat)
    requires maximum > 0
    ensures |Groups(s, maximum)| == Min(|s|, maximum)
    ensures Flatten(Groups(s, maximum)) == s
    ensures forall a, b :: a in Groups(s, maximum) && b in Groups(s, maximum) ==> 1 <= |a| <= |b| + 1
  {
    if s != [] {
      var count := Count(|s|, maximum);
      FlattenSlices(s, maximum, count);
      BoundEnds(|s|, count);
      hide Bound, Slice, Flatten;
      assert Groups(s, maximum)[..count] == Groups(s, maximum) && s[..|s|] == s;
      var width := Floor(|s|, count);
      forall bucket | bucket in Groups(s, maximum) ensures 1 <= width <= |bucket| <= width + 1 {
        var b :| 0 <= b < count && Groups(s, maximum)[b] == bucket;
        SliceSize(s, b, count);
      }
    }
  }

  lemma SliceSize<T>(s: seq<T>, b: nat, count: nat)
    requires b < count <= |s|
    ensures 1 <= Floor(|s|, count) <= |Slice(s, b, count)| <= Floor(|s|, count) + 1
  {
    hide Bound, Slice;
    BucketSize(b, |s|, count);
  }
}
