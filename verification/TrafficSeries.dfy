/** The time series, the latency histogram and the percentile of the traffic dashboard. */
module TrafficSeries {
  import opened Common

  const HOUR_MS: int := 3_600_000

  // ---- Requests over time ----

  datatype Point = Point(time: int, count: nat)

  function Positive(ts: seq<int>): seq<int> {
    if ts == [] then []
    else if ts[0] > 0 then [ts[0]] + Positive(ts[1..])
    else Positive(ts[1..])
  }

  lemma {:induction false} PositiveIsPositive(ts: seq<int>)
    ensures forall t :: t in Positive(ts) <==> t in ts && t > 0
  {
    if ts != [] {
      PositiveIsPositive(ts[1..]);
    }
  }

  function MinOf(ts: seq<int>): (m: int)
    requires ts != []
    ensures m in ts && forall t :: t in ts ==> m <= t
  {
    assert ts == [ts[0]] + ts[1..];
    if |ts| == 1 then ts[0] else Min(ts[0], MinOf(ts[1..]))
  }

  function MaxOf(ts: seq<int>): (m: int)
    requires ts != []
    ensures m in ts && forall t :: t in ts ==> t <= m
  {
    assert ts == [ts[0]] + ts[1..];
    if |ts| == 1 then ts[0] else Max(ts[0], MaxOf(ts[1..]))
  }

  /** The adaptive bucket width. */
  function BucketMs(range: int): (b: int)
    ensures b > 0
  {
    if range <= 60_000 then 10_000
    else if range <= HOUR_MS then 60_000
    else if range <= 6 * HOUR_MS then 300_000
    else 3_600_000
  }

  /** The start of the bucket number `q`. */
  function Key(q: int, b: int): int {
    q * b
  }

  /** How many of the first `n` times fall into the bucket number `q`. */
  function CountSlot(ts: seq<int>, n: nat, q: int, b: int): nat
    requires n <= |ts| && b > 0
  {
    if n == 0 then 0 else CountSlot(ts, n - 1, q, b) + if ts[n - 1] / b == q then 1 else 0
  }

  function Get(m: map<int, nat>, k: int): nat {
    if k in m then m[k] else 0
  }

  lemma KeyInjective(p: int, q: int, b: int)
    requires b > 0 && Key(p, b) == Key(q, b)
    ensures p == q
  {
  }

  lemma KeyAtMost(q: int, t: int, b: int)
    requires b > 0
    ensures Key(q, b) <= t <==> q <= t / b
  {
    var d, r := t / b, t % b;
    assert t == d * b + r;
    if q <= d {
      assert (d - q) * b >= 0;
    } else {
      assert (q - d - 1) * b >= 0;
    }
  }

  /** The points are consecutive buckets from that of the first to that of the last time, each
      with the exact number of times it covers. */
  ghost predicate IsSeries(points: seq<Point>, ts: seq<int>, b: int, first: int, last: int)
    requires b > 0
  {
    && |points| == last / b - first / b + 1
    && forall k :: 0 <= k < |points| ==>
         points[k] == Point(Key(first / b + k, b), CountSlot(ts, |ts|, first / b + k, b))
  }

  function Sum(points: seq<Point>): nat {
    if points == [] then 0 else Sum(points[..|points| - 1]) + points[|points| - 1].count
  }

  method CountBuckets(ts: seq<int>, bucketMs: int) returns (buckets: map<int, nat>)
    requires bucketMs > 0
    ensures forall q :: Get(buckets, Key(q, bucketMs)) == CountSlot(ts, |ts|, q, bucketMs)
  {
    buckets := map[];
    for n := 0 to |ts|
      invariant forall q :: Get(buckets, Key(q, bucketMs)) == CountSlot(ts, n, q, bucketMs)
    {
      var p := ts[n] / bucketMs;
      var bucket := Key(p, bucketMs);
      ghost var before := buckets;
      buckets := buckets[bucket := Get(buckets, bucket) + 1];
      forall q ensures Get(buckets, Key(q, bucketMs)) == CountSlot(ts, n + 1, q, bucketMs) {
        assert Get(before, Key(q, bucketMs)) == CountSlot(ts, n, q, bucketMs);
        if Key(q, bucketMs) == bucket {
          KeyInjective(p, q, bucketMs);
        }
      }
    }
  }

  lemma OrderedQuotients(s: int, t: int, b: int)
    requires b > 0 && s <= t
    ensures s / b <= t / b
  {
    KeyAtMost(s / b, s, b);
    KeyAtMost(s / b, t, b);
  }

  lemma KeyNext(q: int, b: int)
    ensures Key(q + 1, b) == Key(q, b) + b
  {
  }

  method FillGaps(buckets: map<int, nat>, ghost ts: seq<int>, minTime: int, maxTime: int, bucketMs: int)
      returns (points: seq<Point>)
    requires bucketMs > 0 && minTime <= maxTime
    requires forall q :: Get(buckets, Key(q, bucketMs)) == CountSlot(ts, |ts|, q, bucketMs)
    ensures IsSeries(points, ts, bucketMs, minTime, maxTime)
  {
    points := [];
    var t := Key(minTime / bucketMs, bucketMs);
    ghost var first, q := minTime / bucketMs, minTime / bucketMs;
    OrderedQuotients(minTime, maxTime, bucketMs);
    while t <= maxTime
      invariant q == first + |points| && q <= maxTime / bucketMs + 1 && t == Key(q, bucketMs)
      invariant forall k :: 0 <= k < |points| ==>
                  points[k] == Point(Key(first + k, bucketMs), CountSlot(ts, |ts|, first + k, bucketMs))
      decreases maxTime - t
    {
      KeyAtMost(q, maxTime, bucketMs);
      KeyNext(q, bucketMs);
      points := points + [Point(t, Get(buckets, t))];
      t := t + bucketMs;
      q := q + 1;
    }
    KeyAtMost(q, maxTime, bucketMs);
  }

  /** How many of the first `n` times fall into `m` consecutive buckets. */
  function CountSlots(ts: seq<int>, n: nat, q: int, m: nat, b: int): nat
    requires n <= |ts| && b > 0
  {
    if m == 0 then 0 else CountSlots(ts, n, q, m - 1, b) + CountSlot(ts, n, q + (m - 1), b)
  }

  lemma {:induction false} NoneCounted(ts: seq<int>, q: int, m: nat, b: int)
    requires b > 0
    ensures CountSlots(ts, 0, q, m, b) == 0
  {
    if m > 0 {
      NoneCounted(ts, q, m - 1, b);
    }
  }

  lemma {:induction false} CountSlotsNext(ts: seq<int>, n: nat, q: int, m: nat, b: int)
    requires n < |ts| && b > 0
    ensures CountSlots(ts, n + 1, q, m, b)
            == CountSlots(ts, n, q, m, b) + if q <= ts[n] / b < q + m then 1 else 0
  {
    if m > 0 {
      CountSlotsNext(ts, n, q, m - 1, b);
    }
  }

  lemma {:induction false} AllCounted(ts: seq<int>, n: nat, q: int, m: nat, b: int)
    requires n <= |ts| && b > 0 && forall i :: 0 <= i < n ==> q <= ts[i] / b < q + m
    ensures CountSlots(ts, n, q, m, b) == n
  {
    if n == 0 {
      NoneCounted(ts, q, m, b);
    } else {
      AllCounted(ts, n - 1, q, m, b);
      CountSlotsNext(ts, n - 1, q, m, b);
    }
  }

  lemma {:induction false} SumIsCountSlots(points: seq<Point>, ts: seq<int>, q: int, b: int)
    requires b > 0
    requires forall k :: 0 <= k < |points| ==> points[k].count == CountSlot(ts, |ts|, q + k, b)
    ensures Sum(points) == CountSlots(ts, |ts|, q, |points|, b)
  {
    if points != [] {
      SumIsCountSlots(points[..|points| - 1], ts, q, b);
    }
  }

  /** The series counts every timestamped record exactly once. */
  lemma SeriesCountsAll(points: seq<Point>, ts: seq<int>, b: int, first: int, last: int)
    requires b > 0 && IsSeries(points, ts, b, first, last)
    requires ts != [] && forall i :: 0 <= i < |ts| ==> first <= ts[i] <= last
    ensures Sum(points) == |ts|
  {
    assert first <= ts[0] <= last;
    OrderedQuotients(first, last, b);
    forall i | 0 <= i < |ts| ensures first / b <= ts[i] / b < first / b + |points| {
      OrderedQuotients(first, ts[i], b);
      OrderedQuotients(ts[i], last, b);
    }
    AllCounted(ts, |ts|, first / b, |points|, b);
    SumIsCountSlots(points, ts, first / b, b);
  }

  lemma SeriesOfAll(times: seq<int>, points: seq<Point>)
    requires var ts := Positive(times);
             if ts == [] then points == []
             else IsSeries(points, ts, BucketMs(MaxOf(ts) - MinOf(ts)), MinOf(ts), MaxOf(ts))
    ensures Sum(points) == |Positive(times)|
  {
    var ts := Positive(times);
    if ts != [] {
      forall i | 0 <= i < |ts| ensures MinOf(ts) <= ts[i] <= MaxOf(ts) {
        assert ts[i] in ts;
      }
      SeriesCountsAll(points, ts, BucketMs(MaxOf(ts) - MinOf(ts)), MinOf(ts), MaxOf(ts));
    }
  }

  method BuildTimeSeries(times: seq<int>) returns (points: seq<Point>)
    ensures var ts := Positive(times);
            if ts == [] then points == []
            else IsSeries(points, ts, BucketMs(MaxOf(ts) - MinOf(ts)), MinOf(ts), MaxOf(ts))
    ensures Sum(points) == |Positive(times)|
  {
    points := [];
    var ts := Positive(times);
    if ts == [] {
      return;
    }
    var minTime, maxTime := MinOf(ts), MaxOf(ts);
    var bucketMs := BucketMs(maxTime - minTime);
    var buckets := CountBuckets(ts, bucketMs);
    points := FillGaps(buckets, ts, minTime, maxTime, bucketMs);
    SeriesOfAll(times, points);
  }

  lemma WithinBucket(t: int, b: int)
    requires b > 0
    ensures Key(t / b, b) <= t < Key(t / b, b) + b
  {
  }

  /** The series has no gap and begins and ends with the buckets of the first and the last time. */
  lemma SeriesHasNoGap(points: seq<Point>, ts: seq<int>, b: int, first: int, last: int)
    requires b > 0 && first <= last && IsSeries(points, ts, b, first, last)
    ensures points != [] && forall k :: 0 < k < |points| ==> points[k].time == points[k - 1].time + b
    ensures points[0].time <= first < points[0].time + b
    ensures points[|points| - 1].time <= last < points[|points| - 1].time + b
  {
    OrderedQuotients(first, last, b);
    forall k | 0 < k < |points| ensures points[k].time == points[k - 1].time + b {
      KeyNext(first / b + (k - 1), b);
    }
    WithinBucket(first, b);
    WithinBucket(last, b);
  }

  /** Anything up to six hours is drawn with at most 73 points. */
  lemma SeriesIsShort(points: seq<Point>, ts: seq<int>, first: int, last: int)
    requires first <= last <= first + 6 * HOUR_MS && IsSeries(points, ts, BucketMs(last - first), first, last)
    ensures |points| <= 73
  {
  }

  // ---- Latency histogram ----

  const BINS: seq<int> := [0, 50, 100, 250, 500, 1000, 2500, 5000, 10000, 30000]

  datatype Bin = Bin(start: int, end: int, count: nat)

  /** The last bin has no upper end. */
  predicate InBin(d: int, i: nat)
    requires i < 10
  {
    BINS[i] <= d && (i < 9 ==> d < BINS[i + 1])
  }

  function CountBin(durations: seq<int>, n: nat, i: nat): nat
    requires n <= |durations| && i < 10
  {
    if n == 0 then 0 else CountBin(durations, n - 1, i) + if InBin(durations[n - 1], i) then 1 else 0
  }

  /** The last bin is shown with an end of its own. */
  function BinAt(durations: seq<int>, i: nat): Bin
    requires i < 10
  {
    Bin(BINS[i], if i < 9 then BINS[i + 1] else 999_999, CountBin(durations, |durations|, i))
  }

  lemma BinsAreDisjoint(d: int, i: nat, j: nat)
    requires i < 10 && j < 10 && InBin(d, i) && InBin(d, j)
    ensures i == j
  {
  }

  /** One duration adds one to the only bin that holds it, if any. */
  method CountInto(counts: array<nat>, d: int)
    requires counts.Length == 10
    modifies counts
    ensures forall i :: 0 <= i < 10 ==> counts[i] == old(counts[i]) + if InBin(d, i) then 1 else 0
  {
    for i := 0 to 10
      invariant forall j :: 0 <= j < i ==> !InBin(d, j)
      invariant forall j :: 0 <= j < 10 ==> counts[j] == old(counts[j])
    {
      if InBin(d, i) {
        counts[i] := counts[i] + 1;
        forall j | 0 <= j < 10 && InBin(d, j) ensures j == i {
          BinsAreDisjoint(d, i, j);
        }
        break;
      }
    }
  }

  function SumBins(durations: seq<int>, n: nat, m: nat): nat
    requires n <= |durations| && m <= 10
  {
    if m == 0 then 0 else SumBins(durations, n, m - 1) + CountBin(durations, n, m - 1)
  }

  function CountNonNegative(durations: seq<int>, n: nat): nat
    requires n <= |durations|
  {
    if n == 0 then 0 else CountNonNegative(durations, n - 1) + if durations[n - 1] >= 0 then 1 else 0
  }

  lemma {:induction false} SumBinsNext(durations: seq<int>, n: nat, m: nat)
    requires n < |durations| && m <= 10
    ensures SumBins(durations, n + 1, m) == SumBins(durations, n, m)
            + if 0 <= durations[n] && (m == 0 || m == 10 || durations[n] < BINS[m]) && m > 0 then 1 else 0
  {
    if m > 0 {
      SumBinsNext(durations, n, m - 1);
    }
  }

  lemma {:induction false} NoDurations(durations: seq<int>, m: nat)
    requires m <= 10
    ensures SumBins(durations, 0, m) == 0
  {
    if m > 0 {
      NoDurations(durations, m - 1);
    }
  }

  /** The bins together count every duration that is not negative, once. */
  lemma {:induction false} HistogramCountsAll(durations: seq<int>, n: nat)
    requires n <= |durations|
    ensures SumBins(durations, n, 10) == CountNonNegative(durations, n)
  {
    if n == 0 {
      NoDurations(durations, 10);
    } else {
      HistogramCountsAll(durations, n - 1);
      SumBinsNext(durations, n - 1, 10);
    }
  }

  function Total(bins: seq<Bin>): nat {
    if bins == [] then 0 else Total(bins[..|bins| - 1]) + bins[|bins| - 1].count
  }

  lemma {:induction false} TotalIsSumBins(bins: seq<Bin>, durations: seq<int>)
    requires |bins| <= 10 && forall i :: 0 <= i < |bins| ==> bins[i].count == CountBin(durations, |durations|, i)
    ensures Total(bins) == SumBins(durations, |durations|, |bins|)
  {
    if bins != [] {
      TotalIsSumBins(bins[..|bins| - 1], durations);
    }
  }

  lemma {:induction false} AllNonNegative(ts: seq<int>, n: nat)
    requires n <= |ts| && forall t :: t in ts ==> t > 0
    ensures CountNonNegative(ts, n) == n
  {
    if n > 0 {
      AllNonNegative(ts, n - 1);
      assert ts[n - 1] in ts;
    }
  }

  /** No positive duration is left out of the histogram. */
  lemma AllPositive(durations: seq<int>)
    ensures CountNonNegative(Positive(durations), |Positive(durations)|) == |Positive(durations)|
  {
    PositiveIsPositive(durations);
    AllNonNegative(Positive(durations), |Positive(durations)|);
  }

  method BuildLatencyHistogram(durations: seq<int>) returns (bins: seq<Bin>)
    ensures durations == [] ==> bins == []
    ensures durations != [] ==>
              && |bins| == 10
              && forall i :: 0 <= i < 10 ==> bins[i] == BinAt(durations, i)
    ensures Total(bins) == CountNonNegative(durations, |durations|)
  {
    bins := [];
    if durations == [] {
      return;
    }
    var counts := new nat[10](_ => 0);
    for n := 0 to |durations|
      invariant forall i :: 0 <= i < 10 ==> counts[i] == CountBin(durations, n, i)
    {
      CountInto(counts, durations[n]);
    }
    for i := 0 to 10
      invariant |bins| == i
      invariant forall i :: 0 <= i < 10 ==> counts[i] == CountBin(durations, |durations|, i)
      invariant forall j :: 0 <= j < i ==> bins[j] == BinAt(durations, j)
    {
      bins := bins + [Bin(BINS[i], if i < 9 then BINS[i + 1] else 999_999, counts[i])];
    }
    TotalIsSumBins(bins, durations);
    HistogramCountsAll(durations, |durations|);
  }

  // ---- Percentile ----

  predicate Sorted(s: seq<int>) {
    forall i, j :: 0 <= i < j < |s| ==> s[i] <= s[j]
  }

  function Insert(x: int, s: seq<int>): seq<int> {
    if s == [] || x <= s[0] then [x] + s else [s[0]] + Insert(x, s[1..])
  }

  function Sort(s: seq<int>): seq<int> {
    if s == [] then [] else Insert(s[0], Sort(s[1..]))
  }

  /** How many values are at most `x`. */
  function CountLe(s: seq<int>, x: int): nat {
    if s == [] then 0 else CountLe(s[1..], x) + if s[0] <= x then 1 else 0
  }

  lemma {:induction false} InsertKeeps(y: int, s: seq<int>, x: int)
    requires Sorted(s)
    ensures Sorted(Insert(y, s)) && |Insert(y, s)| == |s| + 1
    ensures forall v :: v in Insert(y, s) <==> v == y || v in s
    ensures CountLe(Insert(y, s), x) == CountLe(s, x) + if y <= x then 1 else 0
  {
    if s == [] || y <= s[0] {
      assert Insert(y, s)[1..] == s;
    } else {
      InsertKeeps(y, s[1..], x);
      assert Insert(y, s)[1..] == Insert(y, s[1..]);
      forall v | v in Insert(y, s[1..]) ensures s[0] <= v {
        assert v == y || v in s[1..];
      }
    }
  }

  lemma {:induction false} SortKeeps(s: seq<int>, x: int)
    ensures Sorted(Sort(s)) && |Sort(s)| == |s|
    ensures forall v :: v in Sort(s) <==> v in s
    ensures CountLe(Sort(s), x) == CountLe(s, x)
  {
    if s != [] {
      SortKeeps(s[1..], x);
      InsertKeeps(s[0], Sort(s[1..]), x);
    }
  }

  lemma {:induction false} NoneAtMost(s: seq<int>, x: int)
    requires forall i :: 0 <= i < |s| ==> x < s[i]
    ensures CountLe(s, x) == 0
  {
    if s != [] {
      NoneAtMost(s[1..], x);
    }
  }

  /** In a sorted list, exactly the values up to some place are at most `x`. */
  lemma {:induction false} CountLeSorted(s: seq<int>, x: int, k: nat)
    requires Sorted(s) && k < |s|
    ensures s[k] <= x ==> CountLe(s, x) >= k + 1
    ensures x < s[k] ==> CountLe(s, x) <= k
  {
    if s[0] > x {
      NoneAtMost(s, x);
    } else if k > 0 {
      CountLeSorted(s[1..], x, k - 1);
    }
  }

  /** The nearest rank of a percentile among `n` values, from 1. */
  function Rank(p: real, n: nat): int {
    var x := p / 100.0 * n as real;
    -(-x).Floor
  }

  /** The rank, kept among the values there are. */
  function KeptRank(p: real, n: nat): int {
    Max(1, Min(Rank(p, n), n))
  }

  lemma Scaled(f: real, m: real)
    requires 0.0 < f <= 1.0 && m > 0.0
    ensures 0.0 < f * m <= m
  {
  }

  lemma RankInRange(p: real, n: nat)
    requires 0.0 < p <= 100.0 && n > 0
    ensures 1 <= Rank(p, n) <= n && KeptRank(p, n) == Rank(p, n)
    ensures Rank(p, n) as real - 1.0 < p / 100.0 * n as real <= Rank(p, n) as real
  {
    Scaled(p / 100.0, n as real);
  }

  /** In a sorted list, the value at place `k` is the smallest with more than `k` values at or below it. */
  lemma RankIsLeast(values: seq<int>, k: nat)
    requires k < |Sort(values)|
    ensures var r := Sort(values)[k];
            && r in values && CountLe(values, r) >= k + 1
            && forall v :: v in values && v < r ==> CountLe(values, v) <= k
  {
    var sorted := Sort(values);
    var r := sorted[k];
    SortKeeps(values, r);
    assert r in sorted;
    CountLeSorted(sorted, r, k);
    forall v | v in values && v < r ensures CountLe(values, v) <= k {
      SortKeeps(values, v);
      CountLeSorted(sorted, v, k);
    }
  }

  /** The nearest-rank percentile: the smallest value that at least `p` percent of the values do not exceed. */
  method Percentile(values: seq<int>, p: real) returns (r: int)
    ensures values == [] ==> r == 0
    ensures values != [] ==> r in values && CountLe(values, r) >= KeptRank(p, |values|)
    ensures values != [] ==> forall v :: v in values && v < r ==> CountLe(values, v) < KeptRank(p, |values|)
  {
    if values == [] {
      return 0;
    }
    var sorted := Sort(values);
    SortKeeps(values, 0);
    var idx := Rank(p, |sorted|) - 1;
    var k := Max(0, Min(idx, |sorted| - 1));
    RankIsLeast(values, k);
    r := sorted[k];
  }
}
