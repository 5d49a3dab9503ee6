/** The chart projections of the training log
    (server/training_metrics/queries.py:394-431, 458-546, 562-604). */
module Metrics {
  import opened Core
  import opened MetricGroups
  import B = MetricBuckets
  import S = MetricStatistics

  datatype Point<V> = Point(at: nat, update: nat, elapsed: real, recordedAt: int, values: V)

  /** _point. */
  function PointOf<V>(e: Event, update: nat, startedAt: int, values: V): Point<V> {
    var elapsed := (e.recordedAt - startedAt) as real / 1000.0;
    Point(e.at, update, if elapsed > 0.0 then elapsed else 0.0, e.recordedAt, values)
  }

  /** Where a point lies: its event's sequence and time, and the seconds since the run
      started, to the millisecond and never negative. */
  lemma PointIsOfItsEvent<V>(e: Event, update: nat, startedAt: int, values: V)
    ensures var p := PointOf(e, update, startedAt, values);
      && p.at == e.at && p.update == update && p.recordedAt == e.recordedAt && p.values == values
      && p.elapsed >= 0.0
      && (e.recordedAt >= startedAt ==> 1000.0 * p.elapsed == (e.recordedAt - startedAt) as real)
      && (e.recordedAt < startedAt ==> p.elapsed == 0.0)
  {
  }

  function Last<T>(s: seq<T>): T
    requires s != []
  {
    s[|s| - 1]
  }

  // ---------------------------------------------------------------------------------
  // Inference points

  /** What a point charts of the inference batches, and the field it is read from. */
  datatype Gauge = BatchSize | FillRatio | BatchWait | Recv | H2d | Decode | Inference

  const GAUGES: seq<Gauge> := [BatchSize, FillRatio, BatchWait, Recv, H2d, Decode, Inference]

  function Source(g: Gauge): string {
    match g
    case BatchSize => "batch_size"
    case FillRatio => "fill_ratio"
    case BatchWait => "batch_wait_seconds"
    case Recv => "recv_seconds"
    case H2d => "h2d_seconds"
    case Decode => "device_decode_seconds"
    case Inference => "inference_seconds"
  }

  datatype Statistic = Average(gauge: Gauge) | Upper(gauge: Gauge)

  type Statistics = map<Statistic, Option<real>>

  predicate Charted(s: Statistic) {
    s.Upper? ==> s.gauge != BatchSize && s.gauge != FillRatio
  }

  function ValueOf(sample: seq<Event>, s: Statistic): Option<real> {
    var numbers := Numbers(sample, Source(s.gauge));
    if s.Average? then S.Mean(numbers) else S.Percentile95(numbers)
  }

  ghost predicate Computed(sample: seq<Event>, gauges: seq<Gauge>, values: Statistics) {
    && (forall s :: s in values <==> Charted(s) && s.gauge in gauges)
    && (forall s :: s in values ==> values[s] == ValueOf(sample, s))
  }

  function WithGauge(sample: seq<Event>, g: Gauge, values: Statistics): Statistics {
    var averaged := values[Average(g) := S.Mean(Numbers(sample, Source(g)))];
    if Charted(Upper(g)) then averaged[Upper(g) := S.Percentile95(Numbers(sample, Source(g)))] else averaged
  }

  lemma GaugeAdded(sample: seq<Event>, gauges: seq<Gauge>, g: Gauge, values: Statistics)
    requires Computed(sample, gauges, values)
    ensures Computed(sample, gauges + [g], WithGauge(sample, g, values))
  {
    hide Numbers, Source, S.Mean, S.Percentile95;
  }

  method ComputeStatistics(sample: seq<Event>) returns (values: Statistics)
    ensures Computed(sample, GAUGES, values)
  {
    hide WithGauge, Numbers;
    values := map[];
    for i := 0 to |GAUGES|
      invariant Computed(sample, GAUGES[..i], values)
    {
      GaugeAdded(sample, GAUGES[..i], GAUGES[i], values);
      assert GAUGES[..i + 1] == GAUGES[..i] + [GAUGES[i]];
      values := WithGauge(sample, GAUGES[i], values);
    }
    assert GAUGES[..|GAUGES|] == GAUGES;
  }

  /** The updates that have inference batches, oldest first. */
  function Updates(events: seq<Event>, ordinals: map<string, nat>): seq<nat> {
    Sorted(Keys(events, ByUpdate(ordinals)))
  }

  /** The updates charted by each point. */
  function UpdateGroups(events: seq<Event>, ordinals: map<string, nat>, maximum: nat): seq<seq<nat>>
    requires maximum > 0
  {
    B.Groups(Updates(events, ordinals), maximum)
  }

  /** The batches charted by one point. */
  function Sample(events: seq<Event>, ordinals: map<string, nat>, updates: seq<nat>): seq<Event> {
    Gather(events, ByUpdate(ordinals), updates)
  }

  ghost predicate InferencePoint(events: seq<Event>, ordinals: map<string, nat>, startedAt: int,
                                 updates: seq<nat>, p: Point<Statistics>) {
    var sample := Sample(events, ordinals, updates);
    && updates != [] && sample != []
    && Computed(sample, GAUGES, p.values)
    && p == PointOf(Last(sample), Last(updates), startedAt, p.values)
  }

  lemma SlicesMatch<T, U>(s: seq<T>, t: seq<U>, b: nat, count: nat, j: nat)
    requires |s| == |t| && b < count && j < |B.Slice(s, b, count)|
    ensures |B.Slice(t, b, count)| == |B.Slice(s, b, count)|
    ensures var i := B.Bound(b, |s|, count) + j;
      i < |s| && B.Slice(s, b, count)[j] == s[i] && B.Slice(t, b, count)[j] == t[i]
  {
    B.BoundsGrow(b, b + 1, |s|, count);
    B.BoundsGrow(b + 1, count, |s|, count);
    B.BoundEnds(|s|, count);
    hide B.Bound;
  }

  /** The last batch of each update stands for it while updates are bucketed. */
  ghost predicate Mark(marker: Event, update: nat, ordinals: map<string, nat>) {
    Ordinal(marker, ordinals) == Some(update)
  }

  ghost predicate Marks(markers: seq<Event>, updates: seq<nat>, ordinals: map<string, nat>) {
    |markers| == |updates| && forall k :: 0 <= k < |updates| ==> Mark(markers[k], updates[k], ordinals)
  }

  method MarkUpdates(events: seq<Event>, ordinals: map<string, nat>, byUpdate: map<nat, seq<Event>>)
    returns (markers: seq<Event>)
    requires byUpdate == Grouping(events, ByUpdate(ordinals))
    ensures Marks(markers, Updates(events, ordinals), ordinals)
  {
    hide Grouping, Marks, Mark;
    GroupsOf(events, ByUpdate(ordinals));
    var order := Sorted(byUpdate.Keys);
    markers := [];
    NoMarks(ordinals);
    for i := 0 to |order|
      invariant Marks(markers, order[..i], ordinals)
    {
      LastMarks(events, ordinals, i);
      var group := byUpdate[order[i]];
      MoreMarks(markers, order[..i], ordinals, Last(group), order[i]);
      assert order[..i + 1] == order[..i] + [order[i]];
      markers := markers + [Last(group)];
    }
    assert order[..|order|] == order;
  }

  lemma GroupsOf(events: seq<Event>, key: Event -> Option<nat>)
    ensures Grouping(events, key).Keys == Keys(events, key)
    ensures forall k :: k in Keys(events, key) ==> Grouping(events, key)[k] == Kept(events, key, k)
  {
    hide Keys, Kept;
  }

  lemma LastMarks(events: seq<Event>, ordinals: map<string, nat>, i: nat)
    requires i < |Updates(events, ordinals)|
    ensures var k := Updates(events, ordinals)[i];
      var group := Kept(events, ByUpdate(ordinals), k);
      k in Keys(events, ByUpdate(ordinals)) && group != [] && Mark(Last(group), k, ordinals)
  {
    SortedListsTheSet(Keys(events, ByUpdate(ordinals)));
    hide Keys, Sorted;
    var k := Updates(events, ordinals)[i];
    var group := Kept(events, ByUpdate(ordinals), k);
    assert k in Updates(events, ordinals);
    KeptHasItsKey(events, ByUpdate(ordinals), k);
    hide Kept;
    assert Last(group) in group;
  }

  lemma NoMarks(ordinals: map<string, nat>)
    ensures Marks([], [], ordinals)
  {
  }

  lemma MoreMarks(markers: seq<Event>, updates: seq<nat>, ordinals: map<string, nat>, marker: Event, update: nat)
    requires Marks(markers, updates, ordinals) && Mark(marker, update, ordinals)
    ensures Marks(markers + [marker], updates + [update], ordinals)
  {
    hide Mark;
  }

  /** One turn of the loop over the buckets. Both its assertions hold. */
  method ChartBucket(events: seq<Event>, ordinals: map<string, nat>, startedAt: int,
                     byUpdate: map<nat, seq<Event>>, bucket: seq<Event>, ghost updates: seq<nat>)
    returns (p: Point<Statistics>)
    requires byUpdate == Grouping(events, ByUpdate(ordinals))
    requires updates != [] && Marks(bucket, updates, ordinals)
    requires forall k :: k in updates ==> k in Keys(events, ByUpdate(ordinals))
    ensures InferencePoint(events, ordinals, startedAt, updates, p)
  {
    hide Computed, Keys;
    var bucketEvents: seq<Event> := [];
    for j := 0 to |bucket|
      invariant bucketEvents == Sample(events, ordinals, updates[..j])
    {
      var ordinal := Ordinal(bucket[j], ordinals);
      assert Mark(bucket[j], updates[j], ordinals) && updates[j] in updates;
      assert ordinal.Some?;
      assert updates[..j + 1][..j] == updates[..j];
      bucketEvents := bucketEvents + byUpdate[ordinal.value];
    }
    assert updates[..|bucket|] == updates;
    LastOfASample(events, ordinals, updates);
    var latest := Last(bucketEvents);
    var ordinal := Ordinal(latest, ordinals);
    assert ordinal.Some?;
    var values := ComputeStatistics(bucketEvents);
    p := PointOf(latest, ordinal.value, startedAt, values);
  }

  lemma BucketIsMarked(markers: seq<Event>, order: seq<nat>, ordinals: map<string, nat>, maximum: nat, b: nat)
    requires maximum > 0 && Marks(markers, order, ordinals) && b < |B.Groups(order, maximum)|
    ensures Marks(B.Groups(markers, maximum)[b], B.Groups(order, maximum)[b], ordinals)
  {
    hide Mark;
    var count := |B.Groups(order, maximum)|;
    var bucket, updates := B.Slice(markers, b, count), B.Slice(order, b, count);
    forall j | 0 <= j < |updates| ensures |bucket| == |updates| && Mark(bucket[j], updates[j], ordinals) {
      SlicesMatch(order, markers, b, count, j);
    }
    if updates == [] { B.GroupsPartition(order, maximum); }
  }

  lemma {:induction false} MemberOfAGroup(groups: seq<seq<nat>>, group: seq<nat>, k: nat)
    requires group in groups && k in group
    ensures k in B.Flatten(groups)
  {
    var n := |groups| - 1;
    if groups[n] != group {
      assert group in groups[..n];
      MemberOfAGroup(groups[..n], group, k);
    }
  }

  /** _inference_points. */
  method InferencePoints(events: seq<Event>, ordinals: map<string, nat>, startedAt: int, maximum: nat)
    returns (points: seq<Point<Statistics>>)
    requires maximum > 0
    ensures |points| == |UpdateGroups(events, ordinals, maximum)|
    ensures forall i :: 0 <= i < |points| ==>
      InferencePoint(events, ordinals, startedAt, UpdateGroups(events, ordinals, maximum)[i], points[i])
  {
    hide B.Slice, B.Bound, Marks, InferencePoint, Grouping;
    var byUpdate := GroupBy(events, ByUpdate(ordinals));
    var markers := MarkUpdates(events, ordinals, byUpdate);
    MarksAreAsMany(markers, Updates(events, ordinals), ordinals);
    var groups := B.BucketGroups(markers, maximum);
    ghost var wanted := UpdateGroups(events, ordinals, maximum);
    points := [];
    for b := 0 to |groups|
      invariant |points| == b
      invariant forall k :: 0 <= k < b ==> InferencePoint(events, ordinals, startedAt, wanted[k], points[k])
    {
      BucketIsMarked(markers, Updates(events, ordinals), ordinals, maximum, b);
      GroupsHoldUpdates(events, ordinals, maximum, b);
      var p := ChartBucket(events, ordinals, startedAt, byUpdate, groups[b], wanted[b]);
      points := points + [p];
    }
  }

  lemma MarksAreAsMany(markers: seq<Event>, updates: seq<nat>, ordinals: map<string, nat>)
    requires Marks(markers, updates, ordinals)
    ensures |markers| == |updates|
  {
  }

  lemma GroupsHoldUpdates(events: seq<Event>, ordinals: map<string, nat>, maximum: nat, b: nat)
    requires maximum > 0 && b < |UpdateGroups(events, ordinals, maximum)|
    ensures UpdateGroups(events, ordinals, maximum)[b] != []
    ensures forall k :: k in UpdateGroups(events, ordinals, maximum)[b] ==> k in Keys(events, ByUpdate(ordinals))
  {
    var groups := UpdateGroups(events, ordinals, maximum);
    B.GroupsPartition(Updates(events, ordinals), maximum);
    SortedListsTheSet(Keys(events, ByUpdate(ordinals)));
    hide B.Groups, Sorted, Keys;
    assert groups[b] in groups;
    forall k | k in groups[b] ensures k in Keys(events, ByUpdate(ordinals)) { MemberOfAGroup(groups, groups[b], k); }
  }

  lemma LastOfASample(events: seq<Event>, ordinals: map<string, nat>, updates: seq<nat>)
    requires updates != []
    requires forall k :: k in updates ==> k in Keys(events, ByUpdate(ordinals))
    ensures Sample(events, ordinals, updates) != []
    ensures Ordinal(Last(Sample(events, ordinals, updates)), ordinals) == Some(Last(updates))
  {
    var key, k := ByUpdate(ordinals), Last(updates);
    assert k in updates;
    KeptHasItsKey(events, key, k);
    assert Last(Kept(events, key, k)) in Kept(events, key, k);
  }

  function Samples(events: seq<Event>, ordinals: map<string, nat>, groups: seq<seq<nat>>): seq<seq<Event>> {
    seq(|groups|, i requires 0 <= i < |groups| => Sample(events, ordinals, groups[i]))
  }

  lemma {:induction false} SamplesFlatten(events: seq<Event>, ordinals: map<string, nat>, groups: seq<seq<nat>>)
    ensures B.Flatten(Samples(events, ordinals, groups)) == Sample(events, ordinals, B.Flatten(groups))
  {
    if groups != [] {
      var n := |groups| - 1;
      SamplesFlatten(events, ordinals, groups[..n]);
      GatherConcat(events, ByUpdate(ordinals), B.Flatten(groups[..n]), groups[n]);
      assert Samples(events, ordinals, groups)[..n] == Samples(events, ordinals, groups[..n]);
    }
  }

  /** Every batch that has an ordinal is charted by exactly one point, and no other is. */
  lemma EveryBatchIsChartedOnce(events: seq<Event>, ordinals: map<string, nat>, maximum: nat, e: Event)
    requires maximum > 0
    ensures multiset(B.Flatten(Samples(events, ordinals, UpdateGroups(events, ordinals, maximum))))[e]
      == if Ordinal(e, ordinals).Some? then multiset(events)[e] else 0
  {
    var key, order := ByUpdate(ordinals), Updates(events, ordinals);
    SamplesFlatten(events, ordinals, UpdateGroups(events, ordinals, maximum));
    B.GroupsPartition(order, maximum);
    SortedListsTheSet(Keys(events, key));
    GatherCount(events, key, order, e);
    if e in events && key(e).Some? { assert key(e).value in Keys(events, key); }
  }

  lemma LastOfAGroup<T>(s: seq<T>, maximum: nat, b: nat)
    requires maximum > 0 && b < |B.Groups(s, maximum)|
    ensures var end := B.Bound(b + 1, |s|, |B.Groups(s, maximum)|);
      && B.Groups(s, maximum)[b] != []
      && 0 < end <= |s|
      && Last(B.Groups(s, maximum)[b]) == s[end - 1]
  {
    var count := |B.Groups(s, maximum)|;
    assert B.Groups(s, maximum)[b] == B.Slice(s, b, count);
    B.SliceSize(s, b, count);
    B.BoundsGrow(b + 1, count, |s|, count);
    B.BoundEnds(|s|, count);
    hide B.Bound, B.Groups;
  }

  lemma BoundsStrictlyGrow(a: nat, b: nat, size: nat, count: nat)
    requires a < b <= count <= size && count > 0
    ensures B.Bound(a, size, count) < B.Bound(b, size, count)
  {
    hide B.Bound;
    B.BoundsGrow(a, b - 1, size, count);
    B.BucketSize(b - 1, size, count);
  }

  /** The updates of the points strictly increase, up to the newest update there is. */
  lemma InferenceUpdatesIncrease(events: seq<Event>, ordinals: map<string, nat>, startedAt: int, maximum: nat,
                                 points: seq<Point<Statistics>>)
    requires maximum > 0 && |points| == |UpdateGroups(events, ordinals, maximum)|
    requires forall i :: 0 <= i < |points| ==>
      InferencePoint(events, ordinals, startedAt, UpdateGroups(events, ordinals, maximum)[i], points[i])
    ensures forall i, j :: 0 <= i < j < |points| ==> points[i].update < points[j].update
    ensures forall e :: e in events && Ordinal(e, ordinals).Some? ==>
      points != [] && Ordinal(e, ordinals).value <= Last(points).update
  {
    var order, count := Updates(events, ordinals), |points|;
    hide B.Bound, B.Groups, InferencePoint, UpdateAt, Increasing, Sorted, Keys;
    SortedListsTheSet(Keys(events, ByUpdate(ordinals)));
    B.GroupsPartition(order, maximum);
    forall i | 0 <= i < count ensures UpdateAt(points[i].update, order, i, count) {
      UpdateOfAPoint(events, ordinals, startedAt, maximum, i, points[i]);
    }
    forall i, j | 0 <= i < j < count ensures points[i].update < points[j].update {
      LaterUpdates(points[i].update, points[j].update, order, i, j, count);
    }
    forall e | e in events && Ordinal(e, ordinals).Some?
      ensures points != [] && Ordinal(e, ordinals).value <= Last(points).update
    {
      OrdinalIsAKey(events, ordinals, e);
      LastUpdate(Last(points).update, order, count, Ordinal(e, ordinals).value);
    }
  }

  /** Point i of count carries the last of the i-th group of updates. */
  ghost predicate UpdateAt(update: nat, order: seq<nat>, i: nat, count: nat) {
    && count > 0
    && var end := B.Bound(i + 1, |order|, count);
    && 0 < end <= |order| && update == order[end - 1]
  }

  lemma LaterUpdates(a: nat, b: nat, order: seq<nat>, i: nat, j: nat, count: nat)
    requires Increasing(order) && i < j < count <= |order|
    requires UpdateAt(a, order, i, count) && UpdateAt(b, order, j, count)
    ensures a < b
  {
    hide B.Bound;
    BoundsStrictlyGrow(i + 1, j + 1, |order|, count);
  }

  lemma LastUpdate(update: nat, order: seq<nat>, count: nat, k: nat)
    requires Increasing(order) && 0 < count && UpdateAt(update, order, count - 1, count) && k in order
    ensures k <= update
  {
    B.BoundEnds(|order|, count);
    hide B.Bound;
  }

  lemma OrdinalIsAKey(events: seq<Event>, ordinals: map<string, nat>, e: Event)
    requires e in events && Ordinal(e, ordinals).Some?
    ensures Ordinal(e, ordinals).value in Keys(events, ByUpdate(ordinals))
  {
    assert ByUpdate(ordinals)(e).Some?;
  }

  lemma UpdateOfAPoint(events: seq<Event>, ordinals: map<string, nat>, startedAt: int, maximum: nat,
                       i: nat, p: Point<Statistics>)
    requires maximum > 0 && i < |UpdateGroups(events, ordinals, maximum)|
    requires InferencePoint(events, ordinals, startedAt, UpdateGroups(events, ordinals, maximum)[i], p)
    ensures UpdateAt(p.update, Updates(events, ordinals), i, |UpdateGroups(events, ordinals, maximum)|)
  {
    LastOfAGroup(Updates(events, ordinals), maximum, i);
    hide Sorted, B.Bound, B.Groups, Sample, Keys, Computed;
  }

  /** What is charted, and the field each statistic is read from: averages of all seven,
      upper percentiles of the five that are durations. */
  lemma ChartedGauges(g: Gauge, s: Statistic)
    ensures g in GAUGES
    ensures Source(g) == match g
      case BatchSize => "batch_size" case FillRatio => "fill_ratio" case BatchWait => "batch_wait_seconds"
      case Recv => "recv_seconds" case H2d => "h2d_seconds" case Decode => "device_decode_seconds"
      case Inference => "inference_seconds"
    ensures Charted(s) <==> s.Average? || (s.gauge != BatchSize && s.gauge != FillRatio)
  {
    EveryGauge(g);
  }

  /** Every average is within the range of the numbers it averages, and every upper
      statistic is their nearest-rank 95th percentile; each is missing only where there
      are none. */
  lemma StatisticsDescribeTheSample(events: seq<Event>, ordinals: map<string, nat>, startedAt: int,
                                    updates: seq<nat>, p: Point<Statistics>, s: Statistic, lo: real, hi: real)
    requires InferencePoint(events, ordinals, startedAt, updates, p) && Charted(s)
    requires S.Within(Numbers(Sample(events, ordinals, updates), Source(s.gauge)), lo, hi)
    ensures s in p.values
    ensures var numbers := Numbers(Sample(events, ordinals, updates), Source(s.gauge));
      && (p.values[s].None? <==> numbers == [])
      && (numbers != [] && s.Average? ==> lo <= p.values[s].value <= hi)
      && (numbers != [] && s.Upper? ==>
           && p.values[s].value in numbers
           && 20 * S.AtMost(numbers, p.values[s].value) >= 19 * |numbers|
           && S.Under(numbers, p.values[s].value) < S.Rank(|numbers|))
  {
    var numbers := Numbers(Sample(events, ordinals, updates), Source(s.gauge));
    assert s.gauge in GAUGES by { EveryGauge(s.gauge); }
    S.MeanIsWithin(numbers, lo, hi);
    if numbers != [] {
      S.PercentileCoversTheSample(numbers);
      S.PercentileIsNearestRank(numbers);
    }
  }

  /** An average over two lists of batches is that of their averages, weighted by how many
      of the batches have a number; over one batch it is the batch's number. */
  lemma AveragesCombine(a: seq<Event>, b: seq<Event>, va: Statistics, vb: Statistics, both: Statistics, g: Gauge)
    requires Computed(a, GAUGES, va) && Computed(b, GAUGES, vb) && Computed(a + b, GAUGES, both)
    ensures Average(g) in va && Average(g) in vb && Average(g) in both
    ensures va[Average(g)].None? ==> both[Average(g)] == vb[Average(g)]
    ensures vb[Average(g)].None? ==> both[Average(g)] == va[Average(g)]
    ensures va[Average(g)].Some? && vb[Average(g)].Some? ==>
      var m, n := |Numbers(a, Source(g))|, |Numbers(b, Source(g))|;
      both[Average(g)].Some? && S.Weighs(m, va[Average(g)].value, n, vb[Average(g)].value, both[Average(g)].value)
    ensures |a| == 1 ==> va[Average(g)] == Reading(a[0], Source(g))
  {
    AverageIsTheMean(a, va, g);
    AverageIsTheMean(b, vb, g);
    AverageIsTheMean(a + b, both, g);
    NumbersOfBoth(a, b, Source(g));
    hide Computed, Numbers, S.Mean, Source, Reading, S.Weighs;
    MeansCombine(Numbers(a, Source(g)), Numbers(b, Source(g)));
    if |a| == 1 { MeanOfOne(a, Source(g)); }
  }

  lemma AverageIsTheMean(sample: seq<Event>, values: Statistics, g: Gauge)
    requires Computed(sample, GAUGES, values)
    ensures Average(g) in values && values[Average(g)] == S.Mean(Numbers(sample, Source(g)))
  {
    hide Numbers, S.Mean, Source;
    EveryGauge(g);
    assert Charted(Average(g));
  }

  lemma MeanOfOne(a: seq<Event>, name: string)
    requires |a| == 1
    ensures S.Mean(Numbers(a, name)) == Reading(a[0], name)
  {
    assert a == [a[0]];
    NumbersOfOne(a[0], name);
    S.MeanIsWeighted([], [], if Reading(a[0], name).Some? then Reading(a[0], name).value else 0.0);
    S.MeanIsWithin([], 0.0, 0.0);
    hide Numbers, S.Mean;
  }

  lemma MeansCombine(x: seq<real>, y: seq<real>)
    ensures S.Mean(x).None? <==> x == []
    ensures x == [] ==> S.Mean(x + y) == S.Mean(y)
    ensures y == [] ==> S.Mean(x + y) == S.Mean(x)
    ensures x != [] && y != [] ==>
      && S.Mean(x).Some? && S.Mean(y).Some? && S.Mean(x + y).Some?
      && S.Weighs(|x|, S.Mean(x).value, |y|, S.Mean(y).value, S.Mean(x + y).value)
  {
    S.MeanIsWeighted(x, y, 0.0);
    assert x + [] == x && [] + y == y;
    hide S.Sum, S.Weighs;
  }

  lemma EveryGauge(g: Gauge)
    ensures g in GAUGES
  {
    match g
    case BatchSize => assert GAUGES[0] == g;
    case FillRatio => assert GAUGES[1] == g;
    case BatchWait => assert GAUGES[2] == g;
    case Recv => assert GAUGES[3] == g;
    case H2d => assert GAUGES[4] == g;
    case Decode => assert GAUGES[5] == g;
    case Inference => assert GAUGES[6] == g;
  }

  // ---------------------------------------------------------------------------------
  // Process points

  const COUNTERS: seq<string> := ["completed_rounds", "policy_request_count", "policy_wait_seconds", "round_seconds"]

  datatype Work = Work(worker: nat, totals: map<string, real>)

  ghost predicate Totalled(group: seq<Event>, names: seq<string>, totals: map<string, real>) {
    && (forall n :: n in totals <==> n in names)
    && (forall n :: n in totals ==> totals[n] == S.Sum(Numbers(group, n)))
  }

  ghost predicate ProcessPoint(events: seq<Event>, ordinals: map<string, nat>, startedAt: int,
                               process: nat, p: Point<Work>) {
    var group := Kept(events, ByProcess(ordinals), process);
    && group != []
    && Ordinal(Last(group), ordinals).Some?
    && p == PointOf(Last(group), Ordinal(Last(group), ordinals).value, startedAt, p.values)
    && p.values.worker == process
    && Totalled(group, COUNTERS, p.values.totals)
  }

  method Total(group: seq<Event>) returns (totals: map<string, real>)
    ensures Totalled(group, COUNTERS, totals)
  {
    totals := map[];
    for i := 0 to |COUNTERS|
      invariant Totalled(group, COUNTERS[..i], totals)
    {
      assert COUNTERS[..i + 1] == COUNTERS[..i] + [COUNTERS[i]];
      totals := totals[COUNTERS[i] := S.Sum(Numbers(group, COUNTERS[i]))];
    }
    assert COUNTERS[..|COUNTERS|] == COUNTERS;
  }

  lemma TheCounters(name: string)
    ensures name in COUNTERS <==>
      || name == "completed_rounds" || name == "policy_request_count"
      || name == "policy_wait_seconds" || name == "round_seconds"
  {
    assert COUNTERS[0] == "completed_rounds" && COUNTERS[1] == "policy_request_count";
    assert COUNTERS[2] == "policy_wait_seconds" && COUNTERS[3] == "round_seconds";
  }

  /** A total over two groups is the sum of their totals; over one event it is the event's
      number, or zero. */
  lemma TotalsCombine(a: seq<Event>, b: seq<Event>, ta: map<string, real>, tb: map<string, real>,
                      both: map<string, real>, name: string)
    requires Totalled(a, COUNTERS, ta) && Totalled(b, COUNTERS, tb) && Totalled(a + b, COUNTERS, both)
    requires name in COUNTERS
    ensures name in ta && name in tb && name in both && both[name] == ta[name] + tb[name]
    ensures |a| == 1 ==>
      ta[name] == if Reading(a[0], name).Some? then Reading(a[0], name).value else 0.0
  {
    NumbersOfBoth(a, b, name);
    S.SumOfBoth(Numbers(a, name), Numbers(b, name));
    if |a| == 1 {
      assert a == [a[0]];
      NumbersOfOne(a[0], name);
      if Reading(a[0], name).Some? { S.SumOfOne(Reading(a[0], name).value); }
    }
    hide Numbers, S.Sum, COUNTERS;
  }

  function Processes(events: seq<Event>, ordinals: map<string, nat>): seq<nat> {
    Sorted(Keys(events, ByProcess(ordinals)))
  }

  lemma ProcessHasEvents(events: seq<Event>, ordinals: map<string, nat>, i: nat)
    requires i < |Processes(events, ordinals)|
    ensures var k := Processes(events, ordinals)[i];
      var group := Kept(events, ByProcess(ordinals), k);
      k in Keys(events, ByProcess(ordinals)) && group != [] && Ordinal(Last(group), ordinals).Some?
  {
    SortedListsTheSet(Keys(events, ByProcess(ordinals)));
    hide Keys, Sorted;
    var k := Processes(events, ordinals)[i];
    var group := Kept(events, ByProcess(ordinals), k);
    assert k in Processes(events, ordinals);
    KeptHasItsKey(events, ByProcess(ordinals), k);
    hide Kept;
    assert Last(group) in group;
  }

  /** _process_points: one point a process, in order of its index. */
  method ProcessPoints(events: seq<Event>, ordinals: map<string, nat>, startedAt: int)
    returns (points: seq<Point<Work>>)
    ensures |points| == |Processes(events, ordinals)|
    ensures forall i :: 0 <= i < |points| ==>
      ProcessPoint(events, ordinals, startedAt, Processes(events, ordinals)[i], points[i])
  {
    hide Grouping, Totalled;
    var byProcess := GroupBy(events, ByProcess(ordinals));
    GroupsOf(events, ByProcess(ordinals));
    var order := Sorted(byProcess.Keys);
    points := [];
    for i := 0 to |order|
      invariant |points| == i
      invariant forall k :: 0 <= k < i ==> ProcessPoint(events, ordinals, startedAt, order[k], points[k])
    {
      ProcessHasEvents(events, ordinals, i);
      var group := byProcess[order[i]];
      var latest := Last(group);
      var ordinal := Ordinal(latest, ordinals);
      assert ordinal.Some?;
      var totals := Total(group);
      points := points + [PointOf(latest, ordinal.value, startedAt, Work(order[i], totals))];
    }
  }

  /** The sum of a counter over the points. */
  function Charge(points: seq<Point<Work>>, name: string): real
    requires forall p :: p in points ==> name in p.values.totals
  {
    if points == [] then 0.0
    else Charge(points[..|points| - 1], name) + Last(points).values.totals[name]
  }

  function PerKey(events: seq<Event>, key: Event -> Option<nat>, order: seq<nat>, name: string): real {
    if order == [] then 0.0
    else PerKey(events, key, order[..|order| - 1], name) + S.Sum(Numbers(Kept(events, key, Last(order)), name))
  }

  /** The events a projection counts at all. */
  function Counted(events: seq<Event>, key: Event -> Option<nat>): seq<Event> {
    if events == [] then []
    else Counted(events[..|events| - 1], key) + (if key(Last(events)).Some? then [Last(events)] else [])
  }

  function Amount(e: Event, name: string): real {
    if Reading(e, name).Some? then Reading(e, name).value else 0.0
  }

  lemma SumOfOneMore(events: seq<Event>, e: Event, name: string)
    ensures S.Sum(Numbers(events + [e], name)) == S.Sum(Numbers(events, name)) + Amount(e, name)
  {
    assert (events + [e])[..|events|] == events;
    var a, x := Numbers(events, name), Reading(e, name);
    if x.Some? {
      assert Numbers(events + [e], name) == a + [x.value];
      assert (a + [x.value])[..|a|] == a;
    } else {
      assert Numbers(events + [e], name) == a + [] == a;
    }
  }

  lemma KeptSumOfOneMore(events: seq<Event>, e: Event, key: Event -> Option<nat>, k: nat, name: string)
    ensures S.Sum(Numbers(Kept(events + [e], key, k), name))
      == S.Sum(Numbers(Kept(events, key, k), name)) + (if key(e) == Some(k) then Amount(e, name) else 0.0)
  {
    KeptGrows(events, e, key, k);
    hide Kept, Numbers, Amount;
    if key(e) == Some(k) {
      SumOfOneMore(Kept(events, key, k), e, name);
    } else {
      assert Kept(events, key, k) + [] == Kept(events, key, k);
    }
  }

  lemma LastIsNew(order: seq<nat>)
    requires Increasing(order) && order != []
    ensures var init := order[..|order| - 1];
      && Increasing(init) && Last(order) !in init
      && forall k :: k in order <==> k in init || k == Last(order)
  {
    assert order == order[..|order| - 1] + [Last(order)];
  }

  lemma {:induction false} PerKeyOfOneMore(events: seq<Event>, e: Event, key: Event -> Option<nat>,
                                           order: seq<nat>, name: string)
    requires Increasing(order)
    ensures PerKey(events + [e], key, order, name)
      == PerKey(events, key, order, name)
         + (if key(e).Some? && key(e).value in order then Amount(e, name) else 0.0)
  {
    hide Kept, Numbers, Amount, S.Sum, Increasing;
    if order != [] {
      LastIsNew(order);
      PerKeyOfOneMore(events, e, key, order[..|order| - 1], name);
      KeptSumOfOneMore(events, e, key, Last(order), name);
    }
  }

  lemma {:induction false} PerKeyOfNone(key: Event -> Option<nat>, order: seq<nat>, name: string)
    ensures PerKey([], key, order, name) == 0.0
  {
    if order != [] { PerKeyOfNone(key, order[..|order| - 1], name); }
  }

  lemma {:induction false} PerKeySumsAll(events: seq<Event>, key: Event -> Option<nat>, order: seq<nat>, name: string)
    requires Increasing(order)
    requires forall e :: e in events && key(e).Some? ==> key(e).value in order
    ensures PerKey(events, key, order, name) == S.Sum(Numbers(Counted(events, key), name))
  {
    if events == [] {
      PerKeyOfNone(key, order, name);
    } else {
      var init, e := events[..|events| - 1], Last(events);
      assert events == init + [e] && e in events;
      PerKeySumsAll(init, key, order, name);
      PerKeyOfOneMore(init, e, key, order, name);
      if key(e).Some? {
        SumOfOneMore(Counted(init, key), e, name);
      } else {
        assert Counted(init, key) + [] == Counted(init, key);
      }
    }
  }

  lemma PointCharges(events: seq<Event>, ordinals: map<string, nat>, startedAt: int,
                     process: nat, p: Point<Work>, name: string)
    requires ProcessPoint(events, ordinals, startedAt, process, p) && name in COUNTERS
    ensures name in p.values.totals
    ensures p.values.totals[name] == S.Sum(Numbers(Kept(events, ByProcess(ordinals), process), name))
  {
    hide Kept, Numbers;
  }

  lemma {:induction false} ChargeIsPerKey(events: seq<Event>, ordinals: map<string, nat>, startedAt: int,
                                          order: seq<nat>, points: seq<Point<Work>>, name: string)
    requires |points| == |order| && name in COUNTERS
    requires forall i :: 0 <= i < |points| ==> ProcessPoint(events, ordinals, startedAt, order[i], points[i])
    ensures forall p :: p in points ==> name in p.values.totals
    ensures Charge(points, name) == PerKey(events, ByProcess(ordinals), order, name)
  {
    hide ProcessPoint, Kept, Numbers;
    if points != [] {
      var n := |points| - 1;
      ChargeIsPerKey(events, ordinals, startedAt, order[..n], points[..n], name);
      PointCharges(events, ordinals, startedAt, order[n], points[n], name);
      assert points == points[..n] + [points[n]];
    }
  }

  /** Nothing is lost or counted twice: each counter, summed over the process points, is
      its sum over the sampling events that have a process and an ordinal. */
  lemma CountersAreConserved(events: seq<Event>, ordinals: map<string, nat>, startedAt: int,
                             points: seq<Point<Work>>, name: string)
    requires |points| == |Processes(events, ordinals)| && name in COUNTERS
    requires forall i :: 0 <= i < |points| ==>
      ProcessPoint(events, ordinals, startedAt, Processes(events, ordinals)[i], points[i])
    ensures forall p :: p in points ==> name in p.values.totals
    ensures Charge(points, name) == S.Sum(Numbers(Counted(events, ByProcess(ordinals)), name))
  {
    var key, order := ByProcess(ordinals), Processes(events, ordinals);
    hide ProcessPoint;
    ChargeIsPerKey(events, ordinals, startedAt, order, points, name);
    SortedListsTheSet(Keys(events, key));
    forall e | e in events && key(e).Some? ensures key(e).value in order { assert key(e).value in Keys(events, key); }
    PerKeySumsAll(events, key, order, name);
  }

  // ---------------------------------------------------------------------------------
  // Update points

  type Fields = map<string, Json>

  const TOTALS: seq<string> := ["total_rounds", "total_trainable_decisions", "total_updates"]

  function Names(events: seq<Event>): set<string> { set e, n | e in events && n in e.fields :: n }

  /** One field of _average_fields: the mean of its numbers, else its latest value. */
  function Averaged(events: seq<Event>, name: string): Json
    requires events != []
  {
    var numbers := Numbers(events, name);
    if numbers != [] then Number(S.Mean(numbers).value)
    else if name in Last(events).fields then Last(events).fields[name]
    else Null
  }

  function AverageFields(events: seq<Event>): Fields
    requires events != []
  {
    map n | n in Names(events) :: Averaged(events, n)
  }

  const PROCESS_ROUNDS := "process_rounds_per_second"
  const ROUNDS := "rounds_per_second"
  const PROCESS_DECISIONS := "process_trainable_decisions_per_second"
  const DECISIONS := "trainable_decisions_per_second"

  /** Averages, with the running totals as the latest event has them. */
  ghost predicate Replaced(group: seq<Event>, names: seq<string>, values: Fields)
    requires group != []
  {
    && values.Keys == Names(group)
    && (forall n :: n in values ==>
         values[n] == if n in names && n in Last(group).fields then Last(group).fields[n] else Averaged(group, n))
  }

  /** The names under which the process rates appear as well. */
  ghost function Targets(group: seq<Event>): set<string> {
    (if PROCESS_ROUNDS in Names(group) then {ROUNDS} else {})
    + (if PROCESS_DECISIONS in Names(group) then {DECISIONS} else {})
  }

  /** What a group of updates is charted with: a total as of the latest update, a rate as
      its process rate where there is one, and any other field averaged. */
  ghost predicate UpdateValues(group: seq<Event>, values: Fields)
    requires group != []
  {
    && values.Keys == Names(group) + Targets(group)
    && (forall n :: n in TOTALS && n in Last(group).fields ==> n in values && values[n] == Last(group).fields[n])
    && (PROCESS_ROUNDS in Names(group) ==> ROUNDS in values && values[ROUNDS] == Averaged(group, PROCESS_ROUNDS))
    && (PROCESS_DECISIONS in Names(group) ==>
         DECISIONS in values && values[DECISIONS] == Averaged(group, PROCESS_DECISIONS))
    && (forall n :: n in values && n !in Targets(group) && !(n in TOTALS && n in Last(group).fields) ==>
         values[n] == Averaged(group, n))
  }

  /** _alias_rate. */
  function Aliased(values: Fields, source: string, target: string): Fields {
    if source in values then values[target := values[source]] else values
  }

  lemma TheTotals()
    ensures TOTALS == ["total_rounds", "total_trainable_decisions", "total_updates"]
    ensures PROCESS_ROUNDS == "process_rounds_per_second" && ROUNDS == "rounds_per_second"
    ensures PROCESS_DECISIONS == "process_trainable_decisions_per_second"
    ensures DECISIONS == "trainable_decisions_per_second"
  {
  }

  lemma NamesDiffer()
    ensures PROCESS_ROUNDS !in TOTALS && PROCESS_DECISIONS !in TOTALS && ROUNDS !in TOTALS && DECISIONS !in TOTALS
    ensures ROUNDS != PROCESS_DECISIONS && ROUNDS != DECISIONS
  {
    assert PROCESS_ROUNDS[0] != TOTALS[1][0];
  }

  lemma AliasesComplete(group: seq<Event>, values: Fields)
    requires group != [] && Replaced(group, TOTALS, values)
    ensures UpdateValues(group, Aliased(Aliased(values, PROCESS_ROUNDS, ROUNDS), PROCESS_DECISIONS, DECISIONS))
  {
    NamesDiffer();
    LatestNames(group);
    hide Averaged, Names, TOTALS, PROCESS_ROUNDS, ROUNDS, PROCESS_DECISIONS, DECISIONS;
  }

  /** The values of one group: averages, then the latest totals, then the process rates. */
  method ChartUpdates(group: seq<Event>) returns (values: Fields)
    requires group != []
    ensures UpdateValues(group, values)
  {
    hide Averaged, UpdateValues, Names;
    var latest := Last(group).fields;
    values := AverageFields(group);
    LatestNames(group);
    for i := 0 to |TOTALS|
      invariant Replaced(group, TOTALS[..i], values)
    {
      assert TOTALS[..i + 1] == TOTALS[..i] + [TOTALS[i]];
      if TOTALS[i] in latest { values := values[TOTALS[i] := latest[TOTALS[i]]]; }
    }
    assert TOTALS[..|TOTALS|] == TOTALS;
    AliasesComplete(group, values);
    values := Aliased(values, PROCESS_ROUNDS, ROUNDS);
    values := Aliased(values, PROCESS_DECISIONS, DECISIONS);
  }

  /** A field that is averaged over two groups is that of their averages, weighted by how
      many of the events have a number; over one event it is the event's own. */
  lemma AveragedFieldsCombine(a: seq<Event>, b: seq<Event>, va: Fields, vb: Fields, both: Fields, n: string)
    requires a != [] && b != [] && UpdateValues(a, va) && UpdateValues(b, vb) && UpdateValues(a + b, both)
    requires Numbers(a, n) != [] && Numbers(b, n) != []
    requires n !in TOTALS && n != ROUNDS && n != DECISIONS
    ensures n in va && n in vb && n in both && va[n].Number? && vb[n].Number? && both[n].Number?
    ensures S.Weighs(|Numbers(a, n)|, va[n].value, |Numbers(b, n)|, vb[n].value, both[n].value)
    ensures |a| == 1 ==> n in a[0].fields && va[n] == a[0].fields[n]
  {
    NumbersOfBoth(a, b, n);
    AveragedIsTheMean(a, va, n);
    AveragedIsTheMean(b, vb, n);
    AveragedIsTheMean(a + b, both, n);
    hide UpdateValues, Numbers, S.Mean, S.Weighs, TOTALS, ROUNDS, DECISIONS;
    MeansCombine(Numbers(a, n), Numbers(b, n));
    if |a| == 1 {
      MeanOfOne(a, n);
      ReadingIsAField(a[0], n);
    }
  }

  lemma ReadingIsAField(e: Event, n: string)
    ensures Reading(e, n).Some? ==> n in e.fields && e.fields[n] == Number(Reading(e, n).value)
  {
  }

  lemma AveragedIsTheMean(group: seq<Event>, values: Fields, n: string)
    requires group != [] && UpdateValues(group, values) && Numbers(group, n) != []
    requires n !in TOTALS && n != ROUNDS && n != DECISIONS
    ensures n in values && S.Mean(Numbers(group, n)).Some?
    ensures values[n] == Number(S.Mean(Numbers(group, n)).value)
  {
    NumbersAreNamed(group, n);
    hide Numbers, Names, TOTALS, S.Sum;
    assert n !in Targets(group);
  }

  /** A field without any number is charted as the latest event has it, or as null. */
  lemma PlainFieldsAreLatest(group: seq<Event>, values: Fields, n: string)
    requires group != [] && UpdateValues(group, values) && Numbers(group, n) == []
    requires n in values && n != ROUNDS && n != DECISIONS
    ensures values[n] == if n in Last(group).fields then Last(group).fields[n] else Null
  {
    hide Numbers, Names, TOTALS;
    assert n !in Targets(group);
  }

  lemma {:induction false} NumbersAreNamed(group: seq<Event>, n: string)
    requires Numbers(group, n) != []
    ensures n in Names(group)
  {
    var init, last := group[..|group| - 1], group[|group| - 1];
    assert group == init + [last];
    if Reading(last, n).None? {
      NumbersAreNamed(init, n);
      var e :| e in init && n in e.fields;
      assert e in group;
    } else {
      assert last in group;
    }
  }

  lemma LatestNames(group: seq<Event>)
    requires group != []
    ensures forall n :: n in Last(group).fields ==> n in Names(group)
  {
    assert Last(group) in group;
  }

  ghost predicate UpdatePoint(group: seq<Event>, ordinals: map<nat, nat>, startedAt: int, p: Point<Fields>) {
    && group != []
    && Last(group).at in ordinals
    && p == PointOf(Last(group), ordinals[Last(group).at], startedAt, p.values)
    && UpdateValues(group, p.values)
  }

  /** _update_points. */
  method UpdatePoints(events: seq<Event>, ordinals: map<nat, nat>, startedAt: int, maximum: nat)
    returns (points: seq<Point<Fields>>)
    requires maximum > 0
    requires forall e :: e in events ==> e.at in ordinals
    ensures |points| == |B.Groups(events, maximum)|
    ensures forall i :: 0 <= i < |points| ==>
      UpdatePoint(B.Groups(events, maximum)[i], ordinals, startedAt, points[i])
  {
    hide UpdateValues;
    var groups := B.BucketGroups(events, maximum);
    points := [];
    for b := 0 to |groups|
      invariant |points| == b
      invariant forall i :: 0 <= i < b ==> UpdatePoint(groups[i], ordinals, startedAt, points[i])
    {
      LastOfAGroup(events, maximum, b);
      hide B.Groups;
      var latest := Last(groups[b]);
      var values := ChartUpdates(groups[b]);
      points := points + [PointOf(latest, ordinals[latest.at], startedAt, values)];
    }
  }

  /** enumerate(all_updates, start=1), as a map from sequences. */
  ghost predicate Enumerates(ordinals: map<nat, nat>, all: seq<Event>) {
    forall i :: 0 <= i < |all| ==> all[i].at in ordinals && ordinals[all[i].at] == i + 1
  }

  /** Charting the newest updates of a run: the points' updates strictly increase and the
      last is the number of updates in the run. */
  lemma UpdatesIncrease(all: seq<Event>, limit: nat, ordinals: map<nat, nat>, startedAt: int, maximum: nat,
                        points: seq<Point<Fields>>)
    requires Enumerates(ordinals, all) && 0 < limit && maximum > 0
    requires var recent := all[if |all| <= limit then 0 else |all| - limit..];
      |points| == |B.Groups(recent, maximum)|
      && forall i :: 0 <= i < |points| ==> UpdatePoint(B.Groups(recent, maximum)[i], ordinals, startedAt, points[i])
    ensures forall i, j :: 0 <= i < j < |points| ==> points[i].update < points[j].update
    ensures all != [] ==> points != [] && Last(points).update == |all|
  {
    hide B.Bound, B.Groups, UpdateValues;
    var skipped := if |all| <= limit then 0 else |all| - limit;
    var recent, count := all[skipped..], |points|;
    B.GroupsPartition(recent, maximum);
    forall i | 0 <= i < count
      ensures points[i].update == skipped + B.Bound(i + 1, |recent|, count)
    {
      assert UpdatePoint(B.Groups(recent, maximum)[i], ordinals, startedAt, points[i]);
      LastOfAGroup(recent, maximum, i);
      var end := B.Bound(i + 1, |recent|, count);
      assert recent[end - 1] == all[skipped + end - 1];
    }
    forall i, j | 0 <= i < j < count ensures points[i].update < points[j].update {
      BoundsStrictlyGrow(i + 1, j + 1, |recent|, count);
    }
    if all != [] { B.BoundEnds(|recent|, count); }
  }
}
