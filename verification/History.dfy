/** History queries: one pass over unordered series fills buckets in place; the answer is that of filtering
    the samples bucket by bucket. Sums and means are exact reals here. */
module History {
  import opened Common
  import opened Monitors

  datatype Range = Hour | SixHours | Day | Week | Month

  const MINUTE := 60_000_000_000
  const HOUR := 60 * MINUTE

  function DurationOf(r: Range): (d: nat)
    ensures d > 0
  {
    match r
    case Hour => HOUR
    case SixHours => 6 * HOUR
    case Day => 24 * HOUR
    case Week => 7 * 24 * HOUR
    case Month => 30 * 24 * HOUR
  }

  function ResolutionOf(r: Range): (d: nat)
    ensures d > 0
  {
    match r
    case Hour => MINUTE
    case SixHours => 5 * MINUTE
    case Day => 15 * MINUTE
    case Week => HOUR
    case Month => 6 * HOUR
  }

  function BucketCount(r: Range): nat { DurationOf(r) / ResolutionOf(r) }

  /** Milliseconds since the epoch of an instant in nanoseconds, rounded down. */
  function UnixMilli(ns: int): int { ns / 1_000_000 }

  datatype Metric = ProbeSuccess | ProbeDuration

  datatype Sample = Sample(ts: int, value: real)

  datatype Series = Series(metric: Metric, samples: seq<Sample>)

  datatype Bucket = Bucket(successSum: real, successCount: nat, durationSum: real, durationCount: nat)

  datatype Point = Point(start: int, end: int, state: MonitorState, successRatio: real, avgDurationMs: int)

  const NO_SAMPLES := Bucket(0.0, 0, 0.0, 0)

  // ---- the arithmetic of buckets ----

  lemma BucketsFit(r: Range)
    ensures BucketCount(r) > 0 && BucketCount(r) * ResolutionOf(r) == DurationOf(r)
  {
    match r
    case Hour => assert BucketCount(r) == 60;
    case SixHours => assert BucketCount(r) == 72;
    case Day => assert BucketCount(r) == 96;
    case Week => assert BucketCount(r) == 168;
    case Month => assert BucketCount(r) == 120;
  }

  lemma WholeMillis(r: Range)
    ensures ResolutionOf(r) % 1_000_000 == 0
  {
    match r
    case Hour => assert ResolutionOf(r) == 60_000 * 1_000_000;
    case SixHours => assert ResolutionOf(r) == 300_000 * 1_000_000;
    case Day => assert ResolutionOf(r) == 900_000 * 1_000_000;
    case Week => assert ResolutionOf(r) == 3_600_000 * 1_000_000;
    case Month => assert ResolutionOf(r) == 21_600_000 * 1_000_000;
  }

  lemma ScaleDown(n: int, a: int, d: int)
    requires a % 1_000_000 == 0 && n * a == d
    ensures d % 1_000_000 == 0 && n * (a / 1_000_000) == d / 1_000_000
  {
    var q := a / 1_000_000;
    assert a == q * 1_000_000;
    assert n * (q * 1_000_000) == (n * q) * 1_000_000;
  }

  lemma RangeFacts(r: Range)
    ensures BucketCount(r) * ResolutionOf(r) == DurationOf(r) && BucketCount(r) > 0
    ensures ResolutionOf(r) % 1_000_000 == 0 && DurationOf(r) % 1_000_000 == 0
    ensures BucketCount(r) * (ResolutionOf(r) / 1_000_000) == DurationOf(r) / 1_000_000
  {
    BucketsFit(r);
    WholeMillis(r);
    ScaleDown(BucketCount(r), ResolutionOf(r), DurationOf(r));
  }

  /** The start of bucket `i` of the window that ends at `now`. */
  function BucketStart(r: Range, now: int, i: nat): int { now - DurationOf(r) + i * ResolutionOf(r) }

  /** Whether a sample's millisecond lies in bucket `i`, told by the bounds that the answer reports. */
  predicate InBucket(r: Range, now: int, i: nat, ts: int) {
    UnixMilli(BucketStart(r, now, i)) <= ts < UnixMilli(BucketStart(r, now, i + 1))
  }

  predicate InWindow(r: Range, now: int, ts: int) { UnixMilli(now - DurationOf(r)) <= ts < UnixMilli(now) }

  /** The index that the single pass computes. */
  function IndexOf(r: Range, now: int, ts: int): int {
    (ts - UnixMilli(now - DurationOf(r))) / (ResolutionOf(r) / 1_000_000)
  }

  lemma ShiftMilli(a: int, k: int)
    ensures UnixMilli(a + k * 1_000_000) == UnixMilli(a) + k
  {}

  lemma StartMilli(r: Range, now: int, i: nat)
    ensures UnixMilli(BucketStart(r, now, i)) == UnixMilli(now - DurationOf(r)) + i * (ResolutionOf(r) / 1_000_000)
  {
    RangeFacts(r);
    var ms := ResolutionOf(r) / 1_000_000;
    assert i * ResolutionOf(r) == i * ms * 1_000_000;
    ShiftMilli(now - DurationOf(r), i * ms);
  }

  lemma DivBounds(x: int, d: int, i: int)
    requires d > 0
    ensures x / d == i <==> i * d <= x < (i + 1) * d
  {
    if i * d <= x < (i + 1) * d {
      var q := x / d;
      assert q * d <= x < (q + 1) * d;
      if q < i { MulOrder(q + 1, i, d); }
      if q > i { MulOrder(i + 1, q, d); }
    }
  }

  /** A sample inside the window has an index within range, so the second guard of the loop never drops one. */
  lemma IndexInRange(r: Range, now: int, ts: int)
    requires InWindow(r, now, ts)
    ensures 0 <= IndexOf(r, now, ts) < BucketCount(r)
  {
    RangeFacts(r);
    StartMilli(r, now, BucketCount(r));
    var ms := ResolutionOf(r) / 1_000_000;
    var q := IndexOf(r, now, ts);
    DivBounds(ts - UnixMilli(now - DurationOf(r)), ms, q);
    if q >= BucketCount(r) { MulOrder(BucketCount(r), q, ms); }
    if q < 0 { MulOrder(q + 1, 0, ms); }
  }

  lemma MulOrder(a: int, b: int, d: int)
    requires a <= b && d > 0
    ensures a * d <= b * d
  {}

  /** The index is that of the one bucket whose reported bounds contain the sample. */
  lemma IndexExactly(r: Range, now: int, ts: int, i: nat)
    requires i < BucketCount(r)
    ensures InWindow(r, now, ts) && IndexOf(r, now, ts) == i <==> InBucket(r, now, i, ts)
  {
    RangeFacts(r);
    StartMilli(r, now, i);
    StartMilli(r, now, i + 1);
    StartMilli(r, now, BucketCount(r));
    var ms := ResolutionOf(r) / 1_000_000;
    DivBounds(ts - UnixMilli(now - DurationOf(r)), ms, i);
    MulOrder(i + 1, BucketCount(r), ms);
    MulOrder(0, i, ms);
  }

  /** The reported buckets tile the window: contiguous, equal, from its start to its end. */
  lemma BucketsTile(r: Range, now: int)
    ensures BucketStart(r, now, 0) == now - DurationOf(r)
    ensures BucketStart(r, now, BucketCount(r)) == now
    ensures forall i: nat :: BucketStart(r, now, i + 1) == BucketStart(r, now, i) + ResolutionOf(r)
  {
    RangeFacts(r);
  }

  // ---- what a bucket holds, by filtering ----

  ghost function Sum(xs: seq<Sample>, p: Sample -> bool): real {
    if xs == [] then 0.0 else (if p(xs[0]) then xs[0].value else 0.0) + Sum(xs[1..], p)
  }

  function AtBucket(r: Range, now: int, i: nat): Sample -> bool { (s: Sample) => InBucket(r, now, i, s.ts) }

  /** The samples of one metric, series after series. */
  ghost function Samples(all: seq<Series>, m: Metric): seq<Sample> {
    if all == [] then []
    else Samples(all[..|all| - 1], m) + (if all[|all| - 1].metric == m then all[|all| - 1].samples else [])
  }

  ghost function BucketOf(success: seq<Sample>, duration: seq<Sample>, p: Sample -> bool): Bucket {
    Bucket(Sum(success, p), Count(success, p), Sum(duration, p), Count(duration, p))
  }

  function Truncate(x: real): int { if x >= 0.0 then x.Floor else -((-x).Floor) }

  /** The answer for a bucket with these contents. */
  function PointOf(start: int, end: int, b: Bucket): Point {
    Point(start, end,
          if b.successCount == 0 then Unknown
          else if b.successSum / b.successCount as real >= 1.0 then Up else Down,
          if b.successCount == 0 then 0.0 else b.successSum / b.successCount as real,
          if b.durationCount == 0 then 0 else Truncate(b.durationSum / b.durationCount as real * 1000.0))
  }

  lemma {:induction false} SumConcat(xs: seq<Sample>, ys: seq<Sample>, p: Sample -> bool)
    ensures Sum(xs + ys, p) == Sum(xs, p) + Sum(ys, p)
  {
    if xs == [] {
      assert xs + ys == ys;
    } else {
      assert (xs + ys)[1..] == xs[1..] + ys;
      SumConcat(xs[1..], ys, p);
    }
  }

  // ---- the single pass ----

  ghost predicate Holds(buckets: array<Bucket>, r: Range, now: int, success: seq<Sample>, duration: seq<Sample>)
    reads buckets
  {
    && buckets.Length == BucketCount(r)
    && forall i | 0 <= i < BucketCount(r) :: buckets[i] == BucketOf(success, duration, AtBucket(r, now, i))
  }

  lemma OneMore(xs: seq<Sample>, s: Sample, p: Sample -> bool)
    ensures Count(xs + [s], p) == Count(xs, p) + (if p(s) then 1 else 0)
    ensures Sum(xs + [s], p) == Sum(xs, p) + (if p(s) then s.value else 0.0)
  {
    CountAppend(xs, s, p);
    SumConcat(xs, [s], p);
  }

  function Added(b: Bucket, m: Metric, s: Sample): Bucket {
    match m
    case ProbeSuccess => b.(successSum := b.successSum + s.value, successCount := b.successCount + 1)
    case ProbeDuration => b.(durationSum := b.durationSum + s.value, durationCount := b.durationCount + 1)
  }

  function Plus(b: Bucket, m: Metric, s: Sample, p: Sample -> bool): Bucket { if p(s) then Added(b, m, s) else b }

  method AddSample(buckets: array<Bucket>, r: Range, now: int, m: Metric, s: Sample,
                   ghost success: seq<Sample>, ghost duration: seq<Sample>)
    requires Holds(buckets, r, now, success, duration)
    modifies buckets
    ensures m == ProbeSuccess ==> Holds(buckets, r, now, success + [s], duration)
    ensures m == ProbeDuration ==> Holds(buckets, r, now, success, duration + [s])
  {
    var startMs, endMs := UnixMilli(now - DurationOf(r)), UnixMilli(now);
    forall i | 0 <= i < BucketCount(r)
      ensures AtBucket(r, now, i)(s) <==> startMs <= s.ts < endMs && IndexOf(r, now, s.ts) == i {
      IndexExactly(r, now, s.ts, i);
    }
    forall i | 0 <= i < BucketCount(r)
      ensures BucketOf(success + [s], duration, AtBucket(r, now, i))
           == Plus(BucketOf(success, duration, AtBucket(r, now, i)), ProbeSuccess, s, AtBucket(r, now, i))
      ensures BucketOf(success, duration + [s], AtBucket(r, now, i))
           == Plus(BucketOf(success, duration, AtBucket(r, now, i)), ProbeDuration, s, AtBucket(r, now, i)) {
      OneMore(success, s, AtBucket(r, now, i));
      OneMore(duration, s, AtBucket(r, now, i));
    }
    if s.ts < startMs || s.ts >= endMs { return; }
    var idx := (s.ts - startMs) / (ResolutionOf(r) / 1_000_000);
    if 0 <= idx < buckets.Length {
      buckets[idx] := Added(buckets[idx], m, s);
    }
  }

  /** What the query returns: one point per bucket. */
  ghost function Answer(r: Range, now: int, all: seq<Series>): seq<Point> {
    seq(BucketCount(r), i requires 0 <= i < BucketCount(r) => PointAt(r, now, all, i))
  }

  ghost function PointAt(r: Range, now: int, all: seq<Series>, i: nat): Point {
    PointOf(BucketStart(r, now, i), BucketStart(r, now, i + 1),
            BucketOf(Samples(all, ProbeSuccess), Samples(all, ProbeDuration), AtBucket(r, now, i)))
  }

  ghost function Partial(all: seq<Series>, k: nat, j: nat, m: Metric): seq<Sample>
    requires k < |all| && j <= |all[k].samples|
  {
    Samples(all[..k], m) + (if all[k].metric == m then all[k].samples[..j] else [])
  }

  method AddSeries(buckets: array<Bucket>, r: Range, now: int, ghost all: seq<Series>, k: nat, series: Series)
    requires k < |all| && series == all[k]
    requires Holds(buckets, r, now, Samples(all[..k], ProbeSuccess), Samples(all[..k], ProbeDuration))
    modifies buckets
    ensures Holds(buckets, r, now, Samples(all[..k + 1], ProbeSuccess), Samples(all[..k + 1], ProbeDuration))
  {
    var j := 0;
    assert forall m :: Partial(all, k, 0, m) == Samples(all[..k], m);
    while j < |series.samples|
      invariant 0 <= j <= |series.samples|
      invariant Holds(buckets, r, now, Partial(all, k, j, ProbeSuccess), Partial(all, k, j, ProbeDuration))
    {
      var s := series.samples[j];
      AddSample(buckets, r, now, series.metric, s, Partial(all, k, j, ProbeSuccess), Partial(all, k, j, ProbeDuration));
      assert series.samples[..j + 1] == series.samples[..j] + [s];
      forall m ensures Partial(all, k, j + 1, m)
        == if series.metric == m then Partial(all, k, j, m) + [s] else Partial(all, k, j, m) {}
      j := j + 1;
    }
    assert series.samples[..j] == series.samples;
    assert all[..k + 1][..k] == all[..k];
    assert forall m :: Partial(all, k, j, m) == Samples(all[..k + 1], m);
  }

  method BuildPoints(buckets: array<Bucket>, r: Range, now: int, ghost all: seq<Series>) returns (out: array<Point>)
    requires Holds(buckets, r, now, Samples(all, ProbeSuccess), Samples(all, ProbeDuration))
    ensures fresh(out) && out[..] == Answer(r, now, all)
  {
    out := new Point[buckets.Length](_ => PointOf(0, 0, NO_SAMPLES));
    var i := 0;
    while i < out.Length
      invariant 0 <= i <= out.Length == BucketCount(r)
      invariant Holds(buckets, r, now, Samples(all, ProbeSuccess), Samples(all, ProbeDuration))
      invariant forall k | 0 <= k < i :: out[k] == PointAt(r, now, all, k)
    {
      var start := now - DurationOf(r) + i * ResolutionOf(r);
      var state, ratio, average := Unknown, 0.0, 0;
      var b := buckets[i];
      if b.successCount > 0 {
        ratio := b.successSum / b.successCount as real;
        state := if ratio >= 1.0 then Up else Down;
      }
      if b.durationCount > 0 {
        average := Truncate(b.durationSum / b.durationCount as real * 1000.0);
      }
      out[i] := Point(start, start + ResolutionOf(r), state, ratio, average);
      assert BucketStart(r, now, i + 1) == start + ResolutionOf(r);
      i := i + 1;
    }
  }

  /** `range` is None for an unsupported name; `broken` says that the store reported an error. */
  method QueryHistory(monitorId: Id, range: Option<Range>, now: int, all: seq<Series>, broken: bool)
    returns (points: Option<seq<Point>>)
    ensures points == None <==> range == None || monitorId == "" || broken
    ensures points.Some? ==> points.value == Answer(range.value, now, all)
  {
    if range == None || monitorId == "" || broken { return None; }
    var r := range.value;
    var buckets := new Bucket[DurationOf(r) / ResolutionOf(r)](_ => NO_SAMPLES);
    var k := 0;
    while k < |all|
      invariant 0 <= k <= |all|
      invariant Holds(buckets, r, now, Samples(all[..k], ProbeSuccess), Samples(all[..k], ProbeDuration))
    {
      AddSeries(buckets, r, now, all, k, all[k]);
      k := k + 1;
    }
    assert all[..k] == all;
    var out := BuildPoints(buckets, r, now, all);
    return Some(out[..]);
  }

  // ---- what the answer means ----

  lemma {:induction false} SumRemove(xs: seq<Sample>, k: nat, p: Sample -> bool)
    requires k < |xs|
    ensures Sum(xs, p) == Sum(xs[..k] + xs[k + 1..], p) + (if p(xs[k]) then xs[k].value else 0.0)
  {
    assert xs == xs[..k] + ([xs[k]] + xs[k + 1..]);
    SumConcat(xs[..k], [xs[k]] + xs[k + 1..], p);
    SumConcat(xs[..k], xs[k + 1..], p);
    assert ([xs[k]] + xs[k + 1..])[1..] == xs[k + 1..];
  }

  /** The first of `xs` is somewhere in `ys`, and without it the two still hold the same samples. */
  lemma TakeOut(xs: seq<Sample>, ys: seq<Sample>) returns (k: nat)
    requires xs != [] && multiset(xs) == multiset(ys)
    ensures k < |ys| && ys[k] == xs[0] && multiset(xs[1..]) == multiset(ys[..k] + ys[k + 1..])
  {
    assert xs[0] in multiset(ys);
    k :| 0 <= k < |ys| && ys[k] == xs[0];
    assert xs == [xs[0]] + xs[1..];
    assert ys == ys[..k] + [ys[k]] + ys[k + 1..];
    assert multiset(xs[1..]) == multiset(xs) - multiset{xs[0]};
  }

  /** Sums and counts do not depend on the order of the samples. */
  lemma {:induction false} OrderIrrelevant(xs: seq<Sample>, ys: seq<Sample>, p: Sample -> bool)
    requires multiset(xs) == multiset(ys)
    ensures Sum(xs, p) == Sum(ys, p) && Count(xs, p) == Count(ys, p)
    decreases |xs|
  {
    if xs == [] {
      assert |multiset(ys)| == 0 && |ys| == 0;
    } else {
      var k := TakeOut(xs, ys);
      OrderIrrelevant(xs[1..], ys[..k] + ys[k + 1..], p);
      SumRemove(ys, k, p);
      CountRemove(ys, k, p);
    }
  }

  /** Any regrouping or reordering of series and samples gives the same answer. */
  lemma AnswerIgnoresOrder(r: Range, now: int, all: seq<Series>, other: seq<Series>)
    requires forall m :: multiset(Samples(all, m)) == multiset(Samples(other, m))
    ensures Answer(r, now, all) == Answer(r, now, other)
  {
    forall i | 0 <= i < BucketCount(r) ensures PointAt(r, now, all, i) == PointAt(r, now, other, i) {
      OrderIrrelevant(Samples(all, ProbeSuccess), Samples(other, ProbeSuccess), AtBucket(r, now, i));
      OrderIrrelevant(Samples(all, ProbeDuration), Samples(other, ProbeDuration), AtBucket(r, now, i));
    }
  }

  ghost function Total(xs: seq<Sample>, r: Range, now: int, n: nat): nat {
    if n == 0 then 0 else Total(xs, r, now, n - 1) + Count(xs, AtBucket(r, now, n - 1))
  }

  function BeforeBucket(r: Range, now: int, n: nat): Sample -> bool {
    (s: Sample) => UnixMilli(BucketStart(r, now, 0)) <= s.ts < UnixMilli(BucketStart(r, now, n))
  }

  lemma {:induction false} CountSum(xs: seq<Sample>, p: Sample -> bool, q: Sample -> bool, pq: Sample -> bool)
    requires forall x | x in xs :: (pq(x) <==> p(x) || q(x)) && !(p(x) && q(x))
    ensures Count(xs, pq) == Count(xs, p) + Count(xs, q)
  {
    if xs == [] {
    } else {
      assert xs[0] in xs && forall x | x in xs[1..] :: x in xs;
      CountSum(xs[1..], p, q, pq);
    }
  }

  lemma {:induction false} TotalIsWindow(xs: seq<Sample>, r: Range, now: int, n: nat)
    ensures Total(xs, r, now, n) == Count(xs, BeforeBucket(r, now, n))
  {
    if n == 0 {
      CountZero(xs, BeforeBucket(r, now, 0));
    } else {
      TotalIsWindow(xs, r, now, n - 1);
      RangeFacts(r);
      StartMilli(r, now, 0);
      StartMilli(r, now, n - 1);
      StartMilli(r, now, n);
      MulOrder(0, n - 1, ResolutionOf(r) / 1_000_000);
      MulOrder(n - 1, n, ResolutionOf(r) / 1_000_000);
      CountSum(xs, BeforeBucket(r, now, n - 1), AtBucket(r, now, n - 1), BeforeBucket(r, now, n));
    }
  }

  /** Counts are conserved: the buckets together hold each sample of the window once. */
  lemma CountsConserved(xs: seq<Sample>, r: Range, now: int)
    ensures Total(xs, r, now, BucketCount(r)) == Count(xs, (s: Sample) => InWindow(r, now, s.ts))
  {
    TotalIsWindow(xs, r, now, BucketCount(r));
    BucketsTile(r, now);
    CountSum(xs, BeforeBucket(r, now, BucketCount(r)), (s: Sample) => false, (s: Sample) => InWindow(r, now, s.ts));
    CountZero(xs, (s: Sample) => false);
  }

  lemma {:induction false} SumOfOutcomes(xs: seq<Sample>, p: Sample -> bool)
    requires forall x | x in xs && p(x) :: x.value == 0.0 || x.value == 1.0
    ensures Sum(xs, p) <= Count(xs, p) as real
    ensures Sum(xs, p) == Count(xs, p) as real <==> forall x | x in xs && p(x) :: x.value == 1.0
  {
    if xs == [] {
    } else {
      assert xs == [xs[0]] + xs[1..] && xs[0] in xs && forall x | x in xs[1..] :: x in xs;
      SumOfOutcomes(xs[1..], p);
    }
  }

  /** For success samples of 0 and 1 a bucket is up exactly when it holds some and all are 1, down exactly when
      it holds a 0, and unknown exactly when it is empty. */
  lemma StateExactly(r: Range, now: int, all: seq<Series>, i: nat)
    requires forall s | s in Samples(all, ProbeSuccess) && InBucket(r, now, i, s.ts) :: s.value == 0.0 || s.value == 1.0
    ensures var held := Samples(all, ProbeSuccess);
      var state := PointAt(r, now, all, i).state;
      && (state == Up <==> (exists s :: s in held && InBucket(r, now, i, s.ts))
                           && forall s | s in held && InBucket(r, now, i, s.ts) :: s.value == 1.0)
      && (state == Down <==> exists s :: s in held && InBucket(r, now, i, s.ts) && s.value == 0.0)
      && (state == Unknown <==> forall s | s in held :: !InBucket(r, now, i, s.ts))
  {
    var held, p := Samples(all, ProbeSuccess), AtBucket(r, now, i);
    SumOfOutcomes(held, p);
    CountZero(held, p);
    var n := Count(held, p);
    if n > 0 { RatioOne(Sum(held, p), n as real); }
  }

  lemma RatioOne(a: real, b: real)
    requires b > 0.0
    ensures a / b >= 1.0 <==> a >= b
  {
    assert a / b * b == a;
  }

  // ---- the answer in numbers ----

  /** The windows are 1, 6, 24, 168 and 720 hours, in 60, 72, 96, 168 and 120 buckets. */
  lemma Windows(r: Range, now: int, all: seq<Series>)
    ensures var hours := match r case Hour => 1 case SixHours => 6 case Day => 24 case Week => 168 case Month => 720;
      var n := |Answer(r, now, all)|;
      && n == (match r case Hour => 60 case SixHours => 72 case Day => 96 case Week => 168 case Month => 120)
      && Answer(r, now, all)[0].start == now - hours * 3_600_000_000_000
      && Answer(r, now, all)[n - 1].end == now
  {
    BucketsFit(r);
    BucketsTile(r, now);
  }

  /** Each point begins where the one before ends. */
  lemma PointsTile(r: Range, now: int, all: seq<Series>, i: nat)
    requires i < |Answer(r, now, all)|
    ensures var a := Answer(r, now, all);
      a[i].start < a[i].end && (i + 1 < |a| ==> a[i].end == a[i + 1].start)
  {
    BucketsTile(r, now);
  }

  /** The millisecond of a sample lies within the bounds of the point: it ends after the start, and no later than
      the end. */
  function Inside(p: Point): Sample -> bool { (s: Sample) => p.start < (s.ts + 1) * 1_000_000 <= p.end }

  ghost function Within(r: Range, now: int, all: seq<Series>, i: nat): Sample -> bool
    requires i < |Answer(r, now, all)|
  {
    Inside(Answer(r, now, all)[i])
  }

  lemma MilliOf(ns: int, ts: int)
    ensures UnixMilli(ns) <= ts <==> ns < (ts + 1) * 1_000_000
  {}

  /** `avg` is the mean of `n` durations that add up to `sum` seconds, in whole milliseconds, cut. */
  predicate IsMean(n: nat, sum: real, avg: int) {
    if n == 0 then avg == 0 else n as real * avg as real <= 1000.0 * sum < n as real * (avg as real + 1.0)
  }

  lemma FloorBounds(x: real, k: int)
    ensures x.Floor == k <==> k as real <= x < k as real + 1.0
  {}

  lemma Scale(a: real, b: real, n: real)
    requires n > 0.0
    ensures (a <= b ==> n * a <= n * b) && (a < b ==> n * a < n * b)
  {}

  lemma MeanTimes(sum: real, n: real)
    requires n > 0.0
    ensures n * (sum / n) == sum && (sum >= 0.0 ==> sum / n >= 0.0)
  {}

  lemma Thousand(n: real, x: real)
    ensures n * (x * 1000.0) == 1000.0 * (n * x)
  {}

  lemma MeanCut(sum: real, n: nat, q: real, avg: int)
    requires n > 0 && sum >= 0.0 && q == sum / n as real && avg == (q * 1000.0).Floor
    ensures IsMean(n, sum, avg)
  {
    MeanTimes(sum, n as real);
    Thousand(n as real, q);
    FloorBounds(q * 1000.0, avg);
    Scale(avg as real, q * 1000.0, n as real);
    Scale(q * 1000.0, avg as real + 1.0, n as real);
  }

  lemma PointMean(start: int, end: int, b: Bucket)
    requires b.durationSum >= 0.0
    ensures IsMean(b.durationCount, b.durationSum, PointOf(start, end, b).avgDurationMs)
  {
    if b.durationCount > 0 {
      var q := b.durationSum / b.durationCount as real;
      MeanTimes(b.durationSum, b.durationCount as real);
      MeanCut(b.durationSum, b.durationCount, q, (q * 1000.0).Floor);
    }
  }

  lemma {:induction false} SumNonNegative(xs: seq<Sample>, p: Sample -> bool)
    requires forall x | x in xs && p(x) :: x.value >= 0.0
    ensures Sum(xs, p) >= 0.0
  {
    if xs == [] {
    } else {
      assert xs[0] in xs && forall x | x in xs[1..] :: x in xs;
      SumNonNegative(xs[1..], p);
    }
  }

  lemma {:induction false} SameBucket(xs: seq<Sample>, r: Range, now: int, all: seq<Series>, i: nat)
    requires i < |Answer(r, now, all)|
    ensures Count(xs, AtBucket(r, now, i)) == Count(xs, Within(r, now, all, i))
    ensures Sum(xs, AtBucket(r, now, i)) == Sum(xs, Within(r, now, all, i))
  {
    if xs == [] {
    } else {
      MilliOf(BucketStart(r, now, i), xs[0].ts);
      MilliOf(BucketStart(r, now, i + 1), xs[0].ts);
      SameBucket(xs[1..], r, now, all, i);
    }
  }

  /** For non-negative samples, `n` of them in the bucket, n * average <= 1000 * sum < n * (average + 1); and 0 for an
      empty bucket. */
  lemma AverageExactly(r: Range, now: int, all: seq<Series>, i: nat)
    requires i < |Answer(r, now, all)|
    requires forall s | s in Samples(all, ProbeDuration) && Within(r, now, all, i)(s) :: s.value >= 0.0
    ensures var xs, p := Samples(all, ProbeDuration), Within(r, now, all, i);
      IsMean(Count(xs, p), Sum(xs, p), Answer(r, now, all)[i].avgDurationMs)
  {
    var xs, p := Samples(all, ProbeDuration), Within(r, now, all, i);
    SameBucket(xs, r, now, all, i);
    SumNonNegative(xs, p);
    PointMean(BucketStart(r, now, i), BucketStart(r, now, i + 1),
              BucketOf(Samples(all, ProbeSuccess), xs, AtBucket(r, now, i)));
  }

  /** `n` times `x`, by addition. */
  function Times(n: nat, x: real): real { if n == 0 then 0.0 else Times(n - 1, x) + x }

  lemma {:induction false} TimesIs(n: nat, x: real)
    ensures Times(n, x) == n as real * x
  {
    if n == 0 {
    } else {
      TimesIs(n - 1, x);
      Distribute((n - 1) as real, x);
    }
  }

  lemma Distribute(n: real, x: real)
    ensures (n + 1.0) * x == n * x + x
  {}

  lemma {:induction false} SumBetween(xs: seq<Sample>, p: Sample -> bool, lo: real, hi: real)
    requires forall x | x in xs && p(x) :: lo <= x.value <= hi
    ensures Times(Count(xs, p), lo) <= Sum(xs, p) <= Times(Count(xs, p), hi)
  {
    if xs == [] {
    } else {
      assert xs[0] in xs && forall x | x in xs[1..] :: x in xs;
      SumBetween(xs[1..], p, lo, hi);
    }
  }

  /** The average lies between the least and the greatest sample. */
  lemma AverageBetween(r: Range, now: int, all: seq<Series>, i: nat, lo: real, hi: real)
    requires i < |Answer(r, now, all)| && 0.0 <= lo
    requires forall s | s in Samples(all, ProbeDuration) && Within(r, now, all, i)(s) :: lo <= s.value <= hi
    requires Count(Samples(all, ProbeDuration), Within(r, now, all, i)) > 0
    ensures (lo * 1000.0).Floor <= Answer(r, now, all)[i].avgDurationMs <= (hi * 1000.0).Floor
  {
    var xs, p := Samples(all, ProbeDuration), Within(r, now, all, i);
    AverageExactly(r, now, all, i);
    SumBetween(xs, p, lo, hi);
    CutBetween(Count(xs, p), Sum(xs, p), Answer(r, now, all)[i].avgDurationMs, lo, hi);
  }

  lemma CutBetween(n: nat, sum: real, avg: int, lo: real, hi: real)
    requires n > 0 && Times(n, lo) <= sum <= Times(n, hi) && IsMean(n, sum, avg)
    ensures (lo * 1000.0).Floor <= avg <= (hi * 1000.0).Floor
  {
    CutAbove(n as real, sum, avg, lo) by { TimesIs(n, lo); }
    CutBelow(n as real, sum, avg, hi) by { TimesIs(n, hi); }
  }

  lemma CutAbove(n: real, sum: real, avg: int, lo: real)
    requires n > 0.0 && n * lo <= sum && 1000.0 * sum < n * (avg as real + 1.0)
    ensures (lo * 1000.0).Floor <= avg
  {
    Thousand(n, lo);
    Cancel(n, lo * 1000.0, avg as real + 1.0);
    FloorBounds(lo * 1000.0, (lo * 1000.0).Floor);
  }

  lemma CutBelow(n: real, sum: real, avg: int, hi: real)
    requires n > 0.0 && sum <= n * hi && n * avg as real <= 1000.0 * sum
    ensures avg <= (hi * 1000.0).Floor
  {
    Thousand(n, hi);
    Cancel(n, avg as real, hi * 1000.0);
    FloorBounds(hi * 1000.0, (hi * 1000.0).Floor);
  }

  lemma Cancel(n: real, a: real, b: real)
    requires n > 0.0
    ensures (n * a < n * b ==> a < b) && (n * a <= n * b ==> a <= b)
  {
    Scale(b, a, n);
  }

  /** `ratio` is the mean of `n` values that add up to `sum`, and 0 if there are none. */
  predicate IsRatio(n: nat, sum: real, ratio: real) { if n == 0 then ratio == 0.0 else n as real * ratio == sum }

  lemma PointRatio(start: int, end: int, b: Bucket)
    ensures IsRatio(b.successCount, b.successSum, PointOf(start, end, b).successRatio)
  {
    if b.successCount > 0 { MeanTimes(b.successSum, b.successCount as real); }
  }

  lemma UnitRatio(n: nat, sum: real, ratio: real)
    requires Times(n, 0.0) <= sum <= Times(n, 1.0) && IsRatio(n, sum, ratio)
    ensures 0.0 <= ratio <= 1.0
  {
    if n > 0 {
      TimesIs(n, 0.0);
      TimesIs(n, 1.0);
      Cancel(n as real, 0.0, ratio);
      Cancel(n as real, ratio, 1.0);
    }
  }

  /** The ratio is the mean of the success samples in the bucket: 0 if there is none, and between 0 and 1 for
      outcomes of 0 and 1. */
  lemma RatioExactly(r: Range, now: int, all: seq<Series>, i: nat)
    requires i < |Answer(r, now, all)|
    requires forall s | s in Samples(all, ProbeSuccess) && Within(r, now, all, i)(s) :: s.value == 0.0 || s.value == 1.0
    ensures var xs, p, ratio := Samples(all, ProbeSuccess), Within(r, now, all, i), Answer(r, now, all)[i].successRatio;
      IsRatio(Count(xs, p), Sum(xs, p), ratio) && 0.0 <= ratio <= 1.0
  {
    var xs, p := Samples(all, ProbeSuccess), Within(r, now, all, i);
    SameBucket(xs, r, now, all, i);
    SumBetween(xs, p, 0.0, 1.0);
    PointRatio(BucketStart(r, now, i), BucketStart(r, now, i + 1),
               BucketOf(xs, Samples(all, ProbeDuration), AtBucket(r, now, i)));
    UnitRatio(Count(xs, p), Sum(xs, p), Answer(r, now, all)[i].successRatio);
  }
}
