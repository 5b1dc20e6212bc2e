/** `services/timeseries`: the in-memory store, backfill and the persisted buckets. */
module TimeSeries {
  import opened Downsampling
  import Sets

  type RawKey = (Kind, string, int)
  type BucketKey = (Kind, string, Granularity, int)

  function KeyOf(p: Point): RawKey { (p.kind, p.subject, p.ts) }
  function BucketKeyOf(b: Bucket): BucketKey { (b.kind, b.subject, b.granularity, b.start) }

  // ── Raw points ───────────────────────────────────────────────────────────────

  ghost predicate Keyed(points: map<RawKey, Point>) { forall k :: k in points ==> KeyOf(points[k]) == k }

  /** The first point stored under a key stays. */
  function InsertAll(points: map<RawKey, Point>, batch: seq<Point>): map<RawKey, Point> {
    if batch == [] then points
    else
      var before := InsertAll(points, batch[..|batch| - 1]);
      var p := batch[|batch| - 1];
      if KeyOf(p) in before then before else before[KeyOf(p) := p]
  }

  lemma {:induction false} InsertAllKeeps(points: map<RawKey, Point>, batch: seq<Point>)
    ensures var after := InsertAll(points, batch);
      && (forall k :: k in points ==> k in after && after[k] == points[k])
      && (forall p :: p in batch ==> KeyOf(p) in after)
      && (Keyed(points) ==> Keyed(after))
    decreases |batch|
  {
    if batch != [] {
      InsertAllKeeps(points, batch[..|batch| - 1]);
      assert forall p :: p in batch ==> p in batch[..|batch| - 1] || p == batch[|batch| - 1];
    }
  }

  /** Of several new points under one key the first stays. */
  lemma {:induction false} FirstPointStays(points: map<RawKey, Point>, batch: seq<Point>, k: RawKey) returns (i: nat)
    requires k !in points && k in InsertAll(points, batch)
    ensures i < |batch| && KeyOf(batch[i]) == k && InsertAll(points, batch)[k] == batch[i]
    ensures forall j :: 0 <= j < i ==> KeyOf(batch[j]) != k
    decreases |batch|
  {
    var n := |batch| - 1;
    var before := InsertAll(points, batch[..n]);
    InsertAllKeeps(points, batch[..n]);
    if k in before {
      i := FirstPointStays(points, batch[..n], k);
      assert forall j :: 0 <= j < i ==> batch[..n][j] == batch[j];
    } else {
      i := n;
      forall j | 0 <= j < n ensures KeyOf(batch[j]) != k { assert batch[j] in batch[..n]; }
    }
  }

  lemma {:induction false} InsertKnown(points: map<RawKey, Point>, batch: seq<Point>)
    requires forall p :: p in batch ==> KeyOf(p) in points
    ensures InsertAll(points, batch) == points
    decreases |batch|
  {
    if batch != [] {
      assert batch[|batch| - 1] in batch;
      InsertKnown(points, batch[..|batch| - 1]);
    }
  }

  /** Replaying a batch, or any part of it in any order, stores nothing new. */
  lemma ReplayWritesNothing(points: map<RawKey, Point>, batch: seq<Point>, replay: seq<Point>)
    requires forall p :: p in replay ==> p in batch
    ensures InsertAll(InsertAll(points, batch), replay) == InsertAll(points, batch)
  {
    InsertAllKeeps(points, batch);
    InsertKnown(InsertAll(points, batch), replay);
  }

  // ── Range queries ────────────────────────────────────────────────────────────

  predicate Ascending(points: seq<Point>) {
    forall i, j :: 0 <= i < j < |points| ==> points[i].ts < points[j].ts
  }

  predicate InRange(p: Point, from: int, to: int) { from <= p.ts <= to }

  /** The stored points of a series with a timestamp in [from, to], ascending. */
  ghost predicate IsQuery(points: map<RawKey, Point>, kind: Kind, subject: string, from: int, to: int, r: seq<Point>) {
    && Ascending(r)
    && forall p {:trigger p in r} ::
      p in r <==>
        p.kind == kind && p.subject == subject && InRange(p, from, to) && KeyOf(p) in points && points[KeyOf(p)] == p
  }

  /** `whole` is everything stored of the series. */
  ghost predicate IsSeries(points: map<RawKey, Point>, kind: Kind, subject: string, whole: seq<Point>) {
    && Ascending(whole)
    && forall p {:trigger p in whole} ::
      p in whole <==> p.kind == kind && p.subject == subject && KeyOf(p) in points && points[KeyOf(p)] == p
  }

  /** A query result is determined by its elements. */
  lemma {:induction false} AscendingUnique(a: seq<Point>, b: seq<Point>)
    requires Ascending(a) && Ascending(b) && forall p :: p in a <==> p in b
    ensures a == b
    decreases |a|
  {
    NonEmptyHas(a);
    NonEmptyHas(b);
    if a != [] {
      assert a[0] in b;
      assert b[0] in a;
      var i :| 0 <= i < |b| && b[i] == a[0];
      var j :| 0 <= j < |a| && a[j] == b[0];
      assert i == 0 && j == 0;
      forall p ensures p in a[1..] <==> p in b[1..] {
        Tail(a, p);
        Tail(b, p);
      }
      AscendingUnique(a[1..], b[1..]);
    }
  }

  lemma NonEmptyHas(a: seq<Point>)
    ensures a != [] ==> exists p :: p in a
  {
    if a != [] { assert a[0] in a; }
  }

  lemma Tail(a: seq<Point>, p: Point)
    requires Ascending(a) && a != []
    ensures p in a[1..] <==> p in a && p != a[0]
  {
    if p in a && p != a[0] {
      var i :| 0 <= i < |a| && a[i] == p;
      assert a[1..][i - 1] == p;
    }
  }

  function Filter(points: seq<Point>, from: int, to: int): seq<Point> {
    if points == [] then []
    else
      var n := |points| - 1;
      Filter(points[..n], from, to) + if InRange(points[n], from, to) then [points[n]] else []
  }

  lemma {:induction false} FilterIs(points: seq<Point>, from: int, to: int)
    requires Ascending(points)
    ensures Ascending(Filter(points, from, to))
    ensures forall p :: p in Filter(points, from, to) <==> p in points && InRange(p, from, to)
    decreases |points|
  {
    if points != [] {
      var n := |points| - 1;
      FilterIs(points[..n], from, to);
      var earlier := Filter(points[..n], from, to);
      forall i | 0 <= i < |earlier| ensures earlier[i].ts < points[n].ts {
        assert earlier[i] in points[..n];
      }
      assert forall p :: p in points <==> p in points[..n] || p == points[n];
    }
  }

  function Max(a: int, b: int): int { if a >= b then a else b }
  function Min(a: int, b: int): int { if a <= b then a else b }

  /** Counting in a filtered list is counting in the narrower window. */
  lemma {:induction false} FilterCount(points: seq<Point>, from: int, to: int, lo: int, hi: int)
    ensures CountIn(Filter(points, from, to), lo, hi) == CountIn(points, Max(lo, from), Min(hi, to + 1))
    ensures SumIn(Filter(points, from, to), lo, hi) == SumIn(points, Max(lo, from), Min(hi, to + 1))
    decreases |points|
  {
    if points != [] {
      var n := |points| - 1;
      FilterCount(points[..n], from, to, lo, hi);
      if InRange(points[n], from, to) {
        SnocIn(Filter(points[..n], from, to), points[n], lo, hi);
      } else {
        assert Filter(points, from, to) == Filter(points[..n], from, to);
      }
    }
  }

  // ── A persisted bucket against the stored points ─────────────────────────────

  /** No stored point of the window lies outside the rebuilt range. */
  ghost predicate WindowCovered(whole: seq<Point>, lo: int, hi: int, from: int, to: int) {
    forall p :: p in whole && Inside(p, lo, hi) ==> InRange(p, from, to)
  }

  lemma CoveredSame(whole: seq<Point>, from: int, to: int, lo: int, hi: int, b: Bucket)
    requires Ascending(whole) && WindowCovered(whole, lo, hi, from, to)
    requires Describes(b, Filter(whole, from, to), lo, hi)
    ensures Describes(b, whole, lo, hi)
  {
    FilterIs(whole, from, to);
    FilterCount(whole, from, to, lo, hi);
    var a, c := Max(lo, from), Min(hi, to + 1);
    var p :| p in Filter(whole, from, to) && Inside(p, lo, hi) && p.value == b.min;
    assert a <= p.ts < c;
    NoneInside(whole, lo, a);
    NoneInside(whole, c, hi);
    SplitIn(whole, lo, a, hi);
    SplitIn(whole, a, c, hi);
  }

  lemma UncoveredDiffers(whole: seq<Point>, from: int, to: int, lo: int, hi: int, b: Bucket, p: Point)
    requires Ascending(whole) && p in whole && Inside(p, lo, hi) && !InRange(p, from, to)
    requires Describes(b, Filter(whole, from, to), lo, hi)
    ensures !Describes(b, whole, lo, hi)
  {
    FilterIs(whole, from, to);
    FilterCount(whole, from, to, lo, hi);
    var a, c := Max(lo, from), Min(hi, to + 1);
    var q :| q in Filter(whole, from, to) && Inside(q, lo, hi) && q.value == b.min;
    assert a <= q.ts < c;
    SomeInside(whole, lo, a);
    SomeInside(whole, c, hi);
    SplitIn(whole, lo, a, hi);
    SplitIn(whole, a, c, hi);
  }

  /** A rebuild over [from, to] leaves a bucket that agrees with all stored points of its window exactly
      when every stored point of the window lies in that range; in particular for every window of a range
      that starts and ends with the window. */
  lemma RebuiltBucketAgreesIff(points: map<RawKey, Point>, kind: Kind, subject: string, from: int, to: int,
                               raw: seq<Point>, whole: seq<Point>, lo: int, hi: int, b: Bucket)
    requires IsQuery(points, kind, subject, from, to, raw) && IsSeries(points, kind, subject, whole)
    requires Describes(b, raw, lo, hi)
    ensures Describes(b, whole, lo, hi) <==> WindowCovered(whole, lo, hi, from, to)
    ensures from <= lo && hi <= to + 1 ==> Describes(b, whole, lo, hi)
  {
    FilterIs(whole, from, to);
    AscendingUnique(raw, Filter(whole, from, to));
    if WindowCovered(whole, lo, hi, from, to) {
      CoveredSame(whole, from, to, lo, hi, b);
    } else {
      var p :| p in whole && Inside(p, lo, hi) && !InRange(p, from, to);
      UncoveredDiffers(whole, from, to, lo, hi, b, p);
    }
  }

  lemma WeekStartsWindow(at: int, g: Granularity)
    requires Aligned(at, GridOf(Weekly))
    ensures Regular(GridOf(g)) && Aligned(at, GridOf(g))
  {
    GridIsRegular(g);
    GranularitiesNest();
  }

  /** No window crosses a timestamp at which one begins. */
  lemma WindowsDoNotCross(ts: int, at: int, grid: Grid)
    requires Regular(grid) && Aligned(at, grid)
    ensures at <= ts ==> at <= grid.start(ts)
    ensures ts < at ==> grid.start(ts) + grid.width <= at
  {
    var start := grid.start(ts);
    WindowOf(ts, grid);
    assert grid.start(at) == start <==> Within(at, start, grid);
  }

  /** After a rebuild over a range that begins and ends with a week, the persisted hourly, daily and weekly
      bucket of every stored point in the range is the aggregate of all stored points of its window. */
  lemma WeekAlignedRebuildAgrees(points: map<RawKey, Point>, buckets: map<BucketKey, Bucket>, kind: Kind,
      subject: string, from: int, to: int, raw: seq<Point>, whole: seq<Point>, g: Granularity, p: Point)
    requires IsQuery(points, kind, subject, from, to, raw) && IsSeries(points, kind, subject, whole)
    requires AllRebuilt(buckets, kind, subject, raw)
    requires Aligned(from, GridOf(Weekly)) && Aligned(to + 1, GridOf(Weekly))
    requires p in whole && InRange(p, from, to)
    ensures var grid := GridOf(g); var start := grid.start(p.ts);
      && (kind, subject, g, start) in buckets
      && Describes(buckets[(kind, subject, g, start)], whole, start, start + grid.width)
  {
    var grid := GridOf(g);
    var start := grid.start(p.ts);
    WeekStartsWindow(from, g);
    WeekStartsWindow(to + 1, g);
    WindowsDoNotCross(p.ts, from, grid);
    WindowsDoNotCross(p.ts, to + 1, grid);
    assert p in raw;
    assert Rebuilt(buckets, kind, subject, raw, g, grid);
    RebuiltBucketAgreesIff(points, kind, subject, from, to, raw, whole, start, start + grid.width,
      buckets[(kind, subject, g, start)]);
  }

  // ── The store and the service ────────────────────────────────────────────────

  predicate InSeries(k: BucketKey, kind: Kind, subject: string) { k.0 == kind && k.1 == subject }

  /** Every window holding one of the points has a persisted bucket that describes exactly them. */
  ghost predicate Rebuilt(buckets: map<BucketKey, Bucket>, kind: Kind, subject: string, raw: seq<Point>, g: Granularity,
      grid: Grid)
  {
    forall p {:trigger grid.start(p.ts)} :: p in raw ==>
      var start := grid.start(p.ts);
      && (kind, subject, g, start) in buckets
      && Describes(buckets[(kind, subject, g, start)], raw, start, start + grid.width)
  }

  lemma ProducedRebuilds(produced: seq<Bucket>, buckets: map<BucketKey, Bucket>, kind: Kind, subject: string,
                         raw: seq<Point>, g: Granularity, grid: Grid)
    requires IsDownsample(raw, grid, produced)
    requires forall b :: b in produced ==>
      b.kind == kind && b.subject == subject && b.granularity == g && BucketKeyOf(b) in buckets
        && buckets[BucketKeyOf(b)] == b
    ensures Rebuilt(buckets, kind, subject, raw, g, grid)
  {
    forall p | p in raw
      ensures var start := grid.start(p.ts);
        && (kind, subject, g, start) in buckets
        && Describes(buckets[(kind, subject, g, start)], raw, start, start + grid.width)
    {
      var b := FindBucket(raw, grid, produced, p);
    }
  }

  lemma FindBucket(raw: seq<Point>, grid: Grid, produced: seq<Bucket>, p: Point) returns (b: Bucket)
    requires IsDownsample(raw, grid, produced) && p in raw
    ensures b in produced && b.start == grid.start(p.ts) && Describes(b, raw, b.start, b.start + grid.width)
  {
    assert HasBucket(produced, grid.start(p.ts));
    b :| b in produced && b.start == grid.start(p.ts);
  }

  /** Some of the points lies in the window of the key. */
  ghost predicate Holds(raw: seq<Point>, k: BucketKey) { exists p :: p in raw && GridOf(k.2).start(p.ts) == k.3 }

  lemma BucketHolds(produced: seq<Bucket>, raw: seq<Point>, grid: Grid, b: Bucket) returns (p: Point)
    requires Regular(grid) && IsDownsample(raw, grid, produced) && b in produced
    ensures p in raw && grid.start(p.ts) == b.start
  {
    assert Aligned(b.start, grid) && IsLeast(b.min, raw, b.start, b.start + grid.width);
    p :| p in raw && Inside(p, b.start, b.start + grid.width) && p.value == b.min;
    assert grid.start(p.ts) == b.start <==> Within(p.ts, b.start, grid);
  }

  /** Only windows that hold a point get a bucket. */
  lemma ProducedHold(produced: seq<Bucket>, raw: seq<Point>, g: Granularity, b: Bucket)
    requires IsDownsample(raw, GridOf(g), produced) && b in produced && b.granularity == g
    ensures Holds(raw, BucketKeyOf(b))
  {
    GridIsRegular(g);
    var p := BucketHolds(produced, raw, GridOf(g), b);
  }

  function InsertPoint(p: Point, sorted: seq<Point>): (r: seq<Point>)
    requires Ascending(sorted) && forall x :: x in sorted ==> x.ts != p.ts
    ensures Ascending(r) && forall x :: x in r <==> x == p || x in sorted
  {
    if sorted == [] then [p]
    else if p.ts < sorted[0].ts then [p] + sorted
    else
      var rest := InsertPoint(p, sorted[1..]);
      assert forall i :: 0 <= i < |rest| ==> rest[i] in rest;
      [sorted[0]] + rest
  }

  class TimeSeriesStore {
    var points: map<RawKey, Point>
    var buckets: map<BucketKey, Bucket>

    ghost predicate Valid()
      reads this
    {
      && Keyed(points)
      && forall k :: k in buckets ==> BucketKeyOf(buckets[k]) == k
    }

    constructor ()
      ensures Valid() && points == map[] && buckets == map[]
    {
      points, buckets := map[], map[];
    }

    method InsertBatch(batch: seq<Point>) returns (written: nat)
      requires Valid()
      modifies this`points
      ensures Valid() && points == InsertAll(old(points), batch)
      ensures written == |points| - |old(points)|
    {
      written := 0;
      var i := 0;
      while i < |batch|
        invariant 0 <= i <= |batch| && Valid()
        invariant points == InsertAll(old(points), batch[..i])
        invariant written == |points| - |old(points)|
      {
        assert batch[..i + 1][..i] == batch[..i];
        var key := KeyOf(batch[i]);
        if key !in points {
          points := points[key := batch[i]];
          written := written + 1;
        }
        i := i + 1;
      }
      assert batch[..i] == batch;
    }

    method QueryRange(kind: Kind, subject: string, from: int, to: int) returns (r: seq<Point>)
      requires Valid()
      ensures IsQuery(points, kind, subject, from, to, r)
    {
      r := [];
      var todo := points.Keys;
      while todo != {}
        invariant todo <= points.Keys && Ascending(r)
        invariant forall p {:trigger p in r} :: p in r <==>
          p.kind == kind && p.subject == subject && InRange(p, from, to)
          && KeyOf(p) in points && KeyOf(p) !in todo && points[KeyOf(p)] == p
        decreases |todo|
      {
        var key := Sets.Pick(todo);
        var p := points[key];
        if p.kind == kind && p.subject == subject && InRange(p, from, to) {
          r := InsertPoint(p, r);
        }
        todo := todo - {key};
      }
    }

    method UpsertBuckets(produced: seq<Bucket>)
      requires Valid()
      modifies this`buckets
      ensures Valid()
      ensures StrictlyOrdered(produced)
        && (forall b, c :: b in produced && c in produced ==> BucketKeyOf(b).2 == BucketKeyOf(c).2)
        ==> forall b :: b in produced ==> BucketKeyOf(b) in buckets && buckets[BucketKeyOf(b)] == b
      ensures SameBuckets(old(buckets), buckets, k => exists b :: b in produced && BucketKeyOf(b) == k)
    {
      var i := 0;
      while i < |produced|
        invariant 0 <= i <= |produced| && Valid()
        invariant StrictlyOrdered(produced) ==>
          forall j :: 0 <= j < i ==>
              BucketKeyOf(produced[j]) in buckets && buckets[BucketKeyOf(produced[j])] == produced[j]
        invariant SameBuckets(old(buckets), buckets, k => exists b :: b in produced && BucketKeyOf(b) == k)
      {
        buckets := buckets[BucketKeyOf(produced[i]) := produced[i]];
        i := i + 1;
      }
    }

    method RebuildGranularity(kind: Kind, subject: string, raw: seq<Point>, g: Granularity)
      requires Valid() && raw != [] && raw[0].kind == kind && raw[0].subject == subject
      modifies this`buckets
      ensures Valid() && OneRebuilt(old(buckets), buckets, kind, subject, raw, g)
    {
      var produced := Downsample(raw, g);
      UpsertBuckets(produced);
      ProducedRebuilds(produced, buckets, kind, subject, raw, g, GridOf(g));
      forall b | b in produced ensures Holds(raw, BucketKeyOf(b)) { ProducedHold(produced, raw, g, b); }
    }

    /** `_rebuildBuckets`: all three granularities over the stored points of the range, and no other bucket. */
    method RebuildBuckets(kind: Kind, subject: string, from: int, to: int) returns (ghost raw: seq<Point>)
      requires Valid()
      modifies this`buckets
      ensures Valid() && IsQuery(points, kind, subject, from, to, raw)
      ensures AllRebuilt(buckets, kind, subject, raw)
      ensures SameBuckets(old(buckets), buckets, k => InSeries(k, kind, subject) && Holds(raw, k))
    {
      var found := QueryRange(kind, subject, from, to);
      raw := found;
      if |found| == 0 { return; }
      assert found[0] in found;
      RebuildGranularity(kind, subject, found, Hourly);
      ghost var hourly := buckets;
      RebuildGranularity(kind, subject, found, Daily);
      ghost var daily := buckets;
      RebuildGranularity(kind, subject, found, Weekly);
      ThreeRebuilt(old(buckets), hourly, daily, buckets, kind, subject, found);
    }

    method RebuildSpan(s: Series, ranges: map<Series, (int, int)>)
      requires Valid() && s in ranges
      modifies this`buckets
      ensures Valid() && Refreshed(points, buckets, s, ranges[s].0, ranges[s].1)
      ensures SameElsewhere(old(buckets), buckets, s) && SameUnspanned(old(buckets), buckets, points, ranges)
    {
      ghost var raw := RebuildBuckets(s.0, s.1, ranges[s].0, ranges[s].1);
      HeldIsSpanned(points, ranges, s, raw);
    }

    /** Backfill: the new points are stored, and the buckets of each series in the batch are rebuilt over the span of
        the batch's own timestamps of that series. Every other bucket stays. */
    method Backfill(batch: seq<Point>) returns (written: nat, ghost spans: map<Series, (int, int)>)
      requires Valid()
      modifies this
      ensures Valid() && points == InsertAll(old(points), batch)
      ensures written == |points| - |old(points)|
      ensures AreSpans(batch, spans)
      ensures forall s :: s in spans ==> Refreshed(points, buckets, s, spans[s].0, spans[s].1)
      ensures SameUnspanned(old(buckets), buckets, points, spans)
    {
      spans := map[];
      if |batch| == 0 { return 0, map[]; }
      written := InsertBatch(batch);
      var ranges := Ranges(batch);
      spans := ranges;
      ghost var stored := points;
      var todo := ranges.Keys;
      while todo != {}
        invariant todo <= ranges.Keys && Valid()
        invariant points == stored && stored == InsertAll(old(points), batch) && written == |points| - |old(points)|
        invariant forall s :: s in ranges && s !in todo ==> Refreshed(stored, buckets, s, ranges[s].0, ranges[s].1)
        invariant SameUnspanned(old(buckets), buckets, stored, ranges)
        decreases |todo|
      {
        var series := Sets.Pick(todo);
        ghost var before := buckets;
        RebuildSpan(series, ranges);
        UnspannedTwice(old(buckets), before, buckets, stored, ranges);
        forall s | s in ranges && s !in todo && s != series
            ensures Refreshed(stored, buckets, s, ranges[s].0, ranges[s].1) {
          RefreshedFrame(stored, before, buckets, s, ranges[s].0, ranges[s].1, series);
        }
        todo := todo - {series};
      }
    }
  }

  // ── The spans of a batch ─────────────────────────────────────────────────────

  type Series = (Kind, string)

  predicate Of(p: Point, s: Series) { p.kind == s.0 && p.subject == s.1 }

  /** For exactly the series of the batch, the least and the greatest of its timestamps. */
  ghost predicate AreSpans(batch: seq<Point>, spans: map<Series, (int, int)>) {
    && (forall p :: p in batch ==>
      (p.kind, p.subject) in spans && spans[(p.kind, p.subject)].0 <= p.ts <= spans[(p.kind, p.subject)].1)
    && (forall s :: s in spans ==> Begins(batch, s, spans[s].0) && Begins(batch, s, spans[s].1))
  }

  /** A point of the series in the batch has this timestamp. */
  ghost predicate Begins(batch: seq<Point>, s: Series, ts: int) { exists p :: p in batch && Of(p, s) && p.ts == ts }

  method Ranges(batch: seq<Point>) returns (ranges: map<Series, (int, int)>)
    ensures AreSpans(batch, ranges)
  {
    ranges := map[];
    var i := 0;
    while i < |batch|
      invariant 0 <= i <= |batch|
      invariant AreSpans(batch[..i], ranges)
    {
      var p := batch[i];
      var series := (p.kind, p.subject);
      ghost var before := ranges;
      ranges := ranges[series := if series in ranges then (Min(ranges[series].0, p.ts), Max(ranges[series].1, p.ts))
        else (p.ts, p.ts)];
      SpansGrow(batch[..i], before, p, ranges);
      assert batch[..i + 1] == batch[..i] + [p];
      i := i + 1;
    }
    assert batch[..i] == batch;
  }

  lemma SpansGrow(batch: seq<Point>, before: map<Series, (int, int)>, p: Point, after: map<Series, (int, int)>)
    requires AreSpans(batch, before)
    requires var s := (p.kind, p.subject);
      after == before[s := if s in before then (Min(before[s].0, p.ts), Max(before[s].1, p.ts)) else (p.ts, p.ts)]
    ensures AreSpans(batch + [p], after)
  {
    assert p in batch + [p];
    forall s | s in after ensures Begins(batch + [p], s, after[s].0) && Begins(batch + [p], s, after[s].1) {
      if s in before {
        var q :| q in batch && Of(q, s) && q.ts == before[s].0;
        var r :| r in batch && Of(r, s) && r.ts == before[s].1;
        assert q in batch + [p] && r in batch + [p];
      }
    }
  }

  /** The window of the key holds a stored point of its series inside the span. */
  ghost predicate Spanned(points: map<RawKey, Point>, spans: map<Series, (int, int)>, k: BucketKey) {
    && (k.0, k.1) in spans
    && exists key :: key in points && InSpan(points[key], spans, k)
  }

  predicate InSpan(p: Point, spans: map<Series, (int, int)>, k: BucketKey)
    requires (k.0, k.1) in spans
  {
    Of(p, (k.0, k.1)) && InRange(p, spans[(k.0, k.1)].0, spans[(k.0, k.1)].1) && GridOf(k.2).start(p.ts) == k.3
  }

  /** No bucket changed but those of windows that hold a stored point inside the span of its series. */
  ghost predicate SameUnspanned(before: map<BucketKey, Bucket>, after: map<BucketKey, Bucket>,
      points: map<RawKey, Point>, spans: map<Series, (int, int)>)
  {
    SameBuckets(before, after, k => Spanned(points, spans, k))
  }

  ghost predicate SameElsewhere(before: map<BucketKey, Bucket>, after: map<BucketKey, Bucket>, s: Series) {
    SameBuckets(before, after, k => InSeries(k, s.0, s.1))
  }

  lemma UnspannedTwice(a: map<BucketKey, Bucket>, b: map<BucketKey, Bucket>, c: map<BucketKey, Bucket>,
      points: map<RawKey, Point>, spans: map<Series, (int, int)>)
    requires SameUnspanned(a, b, points, spans) && SameUnspanned(b, c, points, spans)
    ensures SameUnspanned(a, c, points, spans)
  {
  }

  lemma HeldIsSpanned(points: map<RawKey, Point>, spans: map<Series, (int, int)>, s: Series, raw: seq<Point>)
    requires s in spans && IsQuery(points, s.0, s.1, spans[s].0, spans[s].1, raw)
    ensures forall k :: InSeries(k, s.0, s.1) && Holds(raw, k) ==> Spanned(points, spans, k)
  {
    forall k | InSeries(k, s.0, s.1) && Holds(raw, k) ensures Spanned(points, spans, k) {
      var p :| p in raw && GridOf(k.2).start(p.ts) == k.3;
      assert KeyOf(p) in points && InSpan(points[KeyOf(p)], spans, k);
    }
  }

  ghost predicate AllRebuilt(buckets: map<BucketKey, Bucket>, kind: Kind, subject: string, raw: seq<Point>) {
    forall g: Granularity :: Rebuilt(buckets, kind, subject, raw, g, GridOf(g))
  }

  /** The buckets of the series describe what is stored of it in [from, to]. */
  ghost predicate Refreshed(points: map<RawKey, Point>, buckets: map<BucketKey, Bucket>, s: Series, from: int,
      to: int)
  {
    exists raw :: IsQuery(points, s.0, s.1, from, to, raw) && AllRebuilt(buckets, s.0, s.1, raw)
  }

  /** Nothing changed except under keys that satisfy `touched`. */
  ghost predicate SameBuckets(before: map<BucketKey, Bucket>, after: map<BucketKey, Bucket>,
      touched: BucketKey -> bool)
  {
    forall k :: !touched(k) ==> (k in after <==> k in before) && (k in after ==> after[k] == before[k])
  }

  lemma RebuiltFrame(before: map<BucketKey, Bucket>, after: map<BucketKey, Bucket>, kind: Kind, subject: string,
                     raw: seq<Point>, g: Granularity, grid: Grid)
    requires Rebuilt(before, kind, subject, raw, g, grid)
    requires forall k :: InSeries(k, kind, subject) && k.2 == g ==>
      (k in after <==> k in before) && (k in after ==> after[k] == before[k])
    ensures Rebuilt(after, kind, subject, raw, g, grid)
  {
    forall p | p in raw
      ensures var start := grid.start(p.ts);
        && (kind, subject, g, start) in after
        && Describes(after[(kind, subject, g, start)], raw, start, start + grid.width)
    {
      assert InSeries((kind, subject, g, grid.start(p.ts)), kind, subject);
    }
  }

  /** The buckets of one granularity are rebuilt, and no other bucket is touched. */
  ghost predicate OneRebuilt(before: map<BucketKey, Bucket>, after: map<BucketKey, Bucket>, kind: Kind, subject: string,
      raw: seq<Point>, g: Granularity)
  {
    && Rebuilt(after, kind, subject, raw, g, GridOf(g))
    && SameBuckets(before, after, k => InSeries(k, kind, subject) && k.2 == g && Holds(raw, k))
  }

  lemma ThenAnother(a: map<BucketKey, Bucket>, b: map<BucketKey, Bucket>, kind: Kind, subject: string,
      raw: seq<Point>, g: Granularity, other: Granularity)
    requires Rebuilt(a, kind, subject, raw, g, GridOf(g)) && OneRebuilt(a, b, kind, subject, raw, other) && other != g
    ensures Rebuilt(b, kind, subject, raw, g, GridOf(g))
  {
    RebuiltFrame(a, b, kind, subject, raw, g, GridOf(g));
  }

  lemma ThreeFramed(a: map<BucketKey, Bucket>, b: map<BucketKey, Bucket>, c: map<BucketKey, Bucket>,
      d: map<BucketKey, Bucket>, kind: Kind, subject: string, raw: seq<Point>)
    requires SameBuckets(a, b, k => InSeries(k, kind, subject) && k.2 == Hourly && Holds(raw, k))
    requires SameBuckets(b, c, k => InSeries(k, kind, subject) && k.2 == Daily && Holds(raw, k))
    requires SameBuckets(c, d, k => InSeries(k, kind, subject) && k.2 == Weekly && Holds(raw, k))
    ensures SameBuckets(a, d, k => InSeries(k, kind, subject) && Holds(raw, k))
  {
  }

  lemma ThreeRebuilt(a: map<BucketKey, Bucket>, b: map<BucketKey, Bucket>, c: map<BucketKey, Bucket>,
      d: map<BucketKey, Bucket>, kind: Kind, subject: string, raw: seq<Point>)
    requires OneRebuilt(a, b, kind, subject, raw, Hourly) && OneRebuilt(b, c, kind, subject, raw, Daily)
    requires OneRebuilt(c, d, kind, subject, raw, Weekly)
    ensures AllRebuilt(d, kind, subject, raw)
    ensures SameBuckets(a, d, k => InSeries(k, kind, subject) && Holds(raw, k))
  {
    ThenAnother(b, c, kind, subject, raw, Hourly, Daily);
    ThenAnother(c, d, kind, subject, raw, Hourly, Weekly);
    ThenAnother(c, d, kind, subject, raw, Daily, Weekly);
    assert SameBuckets(a, d, k => InSeries(k, kind, subject) && Holds(raw, k)) by {
      ThreeFramed(a, b, c, d, kind, subject, raw);
    }
    forall g: Granularity ensures Rebuilt(d, kind, subject, raw, g, GridOf(g)) {
      assert g == Hourly || g == Daily || g == Weekly;
    }
  }

  lemma RefreshedFrame(points: map<RawKey, Point>, before: map<BucketKey, Bucket>, after: map<BucketKey, Bucket>,
                       s: Series, from: int, to: int, other: Series)
    requires Refreshed(points, before, s, from, to) && s != other
    requires SameElsewhere(before, after, other)
    ensures Refreshed(points, after, s, from, to)
  {
    var raw :| IsQuery(points, s.0, s.1, from, to, raw) && AllRebuilt(before, s.0, s.1, raw);
    forall g: Granularity ensures Rebuilt(after, s.0, s.1, raw, g, GridOf(g)) {
      assert Rebuilt(before, s.0, s.1, raw, g, GridOf(g));
      RebuiltFrame(before, after, s.0, s.1, raw, g, GridOf(g));
    }
  }

  /** After a backfill: the bucket of a stored point inside the span of its series agrees with all stored points of its
      window if and only if none of them lies outside that span. */
  lemma BackfilledBucketAgreesIff(points: map<RawKey, Point>, buckets: map<BucketKey, Bucket>, s: Series, from: int,
      to: int, whole: seq<Point>, g: Granularity, p: Point)
    requires Refreshed(points, buckets, s, from, to) && IsSeries(points, s.0, s.1, whole)
    requires p in whole && InRange(p, from, to)
    ensures var grid := GridOf(g); var start := grid.start(p.ts);
      && (s.0, s.1, g, start) in buckets
      && (Describes(buckets[(s.0, s.1, g, start)], whole, start, start + grid.width)
          <==> WindowCovered(whole, start, start + grid.width, from, to))
  {
    var raw :| IsQuery(points, s.0, s.1, from, to, raw) && AllRebuilt(buckets, s.0, s.1, raw);
    var grid := GridOf(g);
    var start := grid.start(p.ts);
    assert p in raw;
    assert Rebuilt(buckets, s.0, s.1, raw, g, grid);
    RebuiltBucketAgreesIff(points, s.0, s.1, from, to, raw, whole, start, start + grid.width,
      buckets[(s.0, s.1, g, start)]);
  }

  // ── A backfill that overwrites ───────────────────────────────────────────────

  lemma SeriesOfTwo(p: Point, q: Point, points: map<RawKey, Point>, raw: seq<Point>)
    requires p.kind == q.kind && p.subject == q.subject && p.ts < q.ts
    requires points == map[KeyOf(p) := p, KeyOf(q) := q]
    ensures IsSeries(points, p.kind, p.subject, [p, q])
    ensures IsQuery(points, p.kind, p.subject, q.ts, q.ts, raw) ==> raw == [q]
  {
    if IsQuery(points, p.kind, p.subject, q.ts, q.ts, raw) {
      assert forall x :: x in raw <==> x == q;
      assert q in raw;
      assert forall i :: 0 <= i < |raw| ==> raw[i] in raw;
      assert |raw| > 1 ==> raw[0].ts < raw[1].ts;
    }
  }

  /** What a backfill of the later point alone leaves in the hourly bucket of both. */
  lemma LaterPointOnly(points: map<RawKey, Point>, buckets: map<BucketKey, Bucket>, p: Point, q: Point)
    requires p.kind == q.kind && p.subject == q.subject && 0 <= p.ts < q.ts < WindowMs(Hourly)
    requires points == map[KeyOf(p) := p, KeyOf(q) := q] && Refreshed(points, buckets, (q.kind, q.subject), q.ts, q.ts)
    ensures IsSeries(points, q.kind, q.subject, [p, q])
    ensures (q.kind, q.subject, Hourly, 0) in buckets
    ensures var b := buckets[(q.kind, q.subject, Hourly, 0)];
      b.count == 1 && b.min == q.value && !Describes(b, [p, q], 0, WindowMs(Hourly))
  {
    var raw :| IsQuery(points, q.kind, q.subject, q.ts, q.ts, raw) && AllRebuilt(buckets, q.kind, q.subject, raw);
    SeriesOfTwo(p, q, points, raw);
    assert Rebuilt(buckets, q.kind, q.subject, raw, Hourly, GridOf(Hourly));
    assert q in raw && GridOf(Hourly).start(q.ts) == 0;
    OnePoint(buckets[(q.kind, q.subject, Hourly, 0)], p, q);
  }

  lemma OneByOne(p: Point, q: Point)
    requires KeyOf(p) != KeyOf(q)
    ensures InsertAll(InsertAll(map[], [p]), [q]) == map[KeyOf(p) := p, KeyOf(q) := q]
  {
    assert [p][..0] == [] && [q][..0] == [];
  }

  /** Two backfills of one point each in the same hour: the second leaves an hourly bucket that counts its own point
      only. */
  method BackfillOverwrites(store: TimeSeriesStore) returns (b: Bucket)
    requires store.Valid() && store.points == map[]
    modifies store
    ensures var p, q := Point(OracleRate, "usd", 0, 1.0), Point(OracleRate, "usd", 1_000, 3.0);
      && IsSeries(store.points, OracleRate, "usd", [p, q])
      && (OracleRate, "usd", Hourly, 0) in store.buckets && b == store.buckets[(OracleRate, "usd", Hourly, 0)]
      && b.count == 1 && b.min == 3.0 && !Describes(b, [p, q], 0, WindowMs(Hourly))
  {
    var p, q := Point(OracleRate, "usd", 0, 1.0), Point(OracleRate, "usd", 1_000, 3.0);
    ghost var spans;
    var written;
    written, spans := store.Backfill([p]);
    written, spans := store.Backfill([q]);
    OneByOne(p, q);
    assert q in [q];
    assert spans[(OracleRate, "usd")] == (1_000, 1_000);
    LaterPointOnly(store.points, store.buckets, p, q);
    b := store.buckets[(OracleRate, "usd", Hourly, 0)];
  }

  lemma OnePoint(b: Bucket, p: Point, q: Point)
    requires Describes(b, [q], 0, WindowMs(Hourly)) && 0 <= p.ts < WindowMs(Hourly) && 0 <= q.ts < WindowMs(Hourly)
    ensures b.count == 1 && b.min == q.value && !Describes(b, [p, q], 0, WindowMs(Hourly))
  {
    assert [q][..0] == [] && [p, q][..1] == [p] && [p][..0] == [];
    assert CountIn([q], 0, WindowMs(Hourly)) == 1;
    assert CountIn([p, q], 0, WindowMs(Hourly)) == 2;
  }
}
