/** `services/timeseries/downsampler.ts`: aggregation of points into buckets, and why coarser buckets
    can be rebuilt from finer ones. Values are reals: floating-point rounding is not modelled. */
module Downsampling {
  import Rounding
  import Sets

  datatype Kind = PoolYield | RiskScore | OracleRate
  datatype Granularity = Hourly | Daily | Weekly
  datatype Point = Point(kind: Kind, subject: string, ts: int, value: real)
  datatype Bucket = Bucket(
    kind: Kind, subject: string, start: int, granularity: Granularity, min: real, max: real, avg: real, count: nat)

  // ── Windows ──────────────────────────────────────────────────────────────────

  /** A way of cutting time into windows: their width, and the start of the window of a timestamp. */
  datatype Grid = Grid(width: int, start: int -> int)

  /** A timestamp at which a window begins. */
  predicate Aligned(start: int, grid: Grid) { grid.start(start) == start }

  predicate Within(ts: int, start: int, grid: Grid) { start <= ts < start + grid.width }

  /** A timestamp lies in exactly one window, the one that `start` names. */
  ghost predicate Regular(grid: Grid) {
    && grid.width > 0
    && forall ts, start {:trigger Within(ts, start, grid)} ::
      grid.start(ts) == start <==> Aligned(start, grid) && Within(ts, start, grid)
  }

  /** `bucketWindowMs`: one hour, 24 hours and 7 * 24 hours. */
  function WindowMs(g: Granularity): int {
    match g
    case Hourly => 3_600_000
    case Daily => 86_400_000
    case Weekly => 604_800_000
  }

  /** `bucketStart`: rounds down, as `Math.floor` does, before 1970 too. */
  function BucketStart(ts: int, w: int): int
    requires w > 0
  {
    ts / w * w
  }

  function GridOf(g: Granularity): Grid {
    var w := WindowMs(g);
    Grid(w, ts => BucketStart(ts, w))
  }

  lemma BucketStartIff(ts: int, start: int, w: int)
    requires w > 0
    ensures BucketStart(ts, w) == start <==> BucketStart(start, w) == start && start <= ts < start + w
  {
    var q, r := ts / w, start / w;
    Rounding.DivideBounds(ts, w);
    Rounding.DivideUnique(q * w, w, q);
    if r * w == start && start <= ts < start + w { Rounding.DivideUnique(ts, w, r); }
  }

  lemma GridIsRegular(g: Granularity)
    ensures Regular(GridOf(g))
  {
    var grid := GridOf(g);
    forall ts, start
      ensures grid.start(ts) == start <==> Aligned(start, grid) && Within(ts, start, grid)
    {
      BucketStartIff(ts, start, WindowMs(g));
    }
  }

  lemma WindowOf(ts: int, grid: Grid)
    requires Regular(grid)
    ensures Aligned(grid.start(ts), grid) && Within(ts, grid.start(ts), grid)
  {
    assert Within(ts, grid.start(ts), grid) || !Within(ts, grid.start(ts), grid);
  }

  lemma NextAligned(start: int, grid: Grid)
    requires Regular(grid) && Aligned(start, grid)
    ensures Aligned(start + grid.width, grid)
  {
    var next := grid.start(start + grid.width);
    WindowOf(start + grid.width, grid);
    assert grid.start(next) == start <==> Within(next, start, grid);
  }

  // ── What a bucket says about the points of its window ────────────────────────

  predicate Inside(p: Point, lo: int, hi: int) { lo <= p.ts < hi }

  /** Number of the values with a timestamp in [lo, hi). */
  function CountIn(points: seq<Point>, lo: int, hi: int): int {
    if points == [] then 0
    else
      var n := |points| - 1;
      CountIn(points[..n], lo, hi) + if Inside(points[n], lo, hi) then 1 else 0
  }

  /** Their sum. */
  function SumIn(points: seq<Point>, lo: int, hi: int): real {
    if points == [] then 0.0
    else
      var n := |points| - 1;
      SumIn(points[..n], lo, hi) + if Inside(points[n], lo, hi) then points[n].value else 0.0
  }

  lemma {:induction false} SplitIn(points: seq<Point>, lo: int, mid: int, hi: int)
    requires lo <= mid <= hi
    ensures CountIn(points, lo, hi) == CountIn(points, lo, mid) + CountIn(points, mid, hi)
    ensures SumIn(points, lo, hi) == SumIn(points, lo, mid) + SumIn(points, mid, hi)
    decreases |points|
  {
    if points != [] { SplitIn(points[..|points| - 1], lo, mid, hi); }
  }

  lemma {:induction false} NoneInside(points: seq<Point>, lo: int, hi: int)
    requires forall p :: p in points ==> !Inside(p, lo, hi)
    ensures CountIn(points, lo, hi) == 0 && SumIn(points, lo, hi) == 0.0
    decreases |points|
  {
    if points != [] {
      assert points[|points| - 1] in points;
      NoneInside(points[..|points| - 1], lo, hi);
    }
  }

  lemma {:induction false} SomeInside(points: seq<Point>, lo: int, hi: int)
    ensures CountIn(points, lo, hi) >= 0
    ensures forall p :: p in points && Inside(p, lo, hi) ==> CountIn(points, lo, hi) > 0
    decreases |points|
  {
    if points != [] {
      var n := |points| - 1;
      SomeInside(points[..n], lo, hi);
      assert forall p :: p in points ==> p in points[..n] || p == points[n];
    }
  }

  lemma {:induction false} AllInside(points: seq<Point>, lo: int, hi: int)
    requires forall p :: p in points ==> Inside(p, lo, hi)
    ensures CountIn(points, lo, hi) == |points|
    decreases |points|
  {
    if points != [] {
      assert points[|points| - 1] in points;
      AllInside(points[..|points| - 1], lo, hi);
    }
  }

  lemma SnocIn(points: seq<Point>, p: Point, lo: int, hi: int)
    ensures CountIn(points + [p], lo, hi) == CountIn(points, lo, hi) + if Inside(p, lo, hi) then 1 else 0
    ensures SumIn(points + [p], lo, hi) == SumIn(points, lo, hi) + if Inside(p, lo, hi) then p.value else 0.0
  {
    assert (points + [p])[..|points|] == points;
  }

  /** `n` times `x`, by repeated addition. */
  function Times(x: real, n: nat): real {
    if n == 0 then 0.0 else Times(x, n - 1) + x
  }

  lemma {:induction false} TimesIsProduct(x: real, n: nat)
    ensures Times(x, n) == x * n as real
  {
    if n > 0 { TimesIsProduct(x, n - 1); }
  }

  /** The sum a mean stands for. */
  function Weight(b: Bucket): real { Times(b.avg, b.count) }

  ghost predicate IsLeast(v: real, points: seq<Point>, lo: int, hi: int) {
    && (forall p :: p in points && Inside(p, lo, hi) ==> v <= p.value)
    && (exists p :: p in points && Inside(p, lo, hi) && p.value == v)
  }

  ghost predicate IsGreatest(v: real, points: seq<Point>, lo: int, hi: int) {
    && (forall p :: p in points && Inside(p, lo, hi) ==> p.value <= v)
    && (exists p :: p in points && Inside(p, lo, hi) && p.value == v)
  }

  /** Minimum, maximum, mean and count of exactly the points in [lo, hi). */
  ghost predicate Describes(b: Bucket, points: seq<Point>, lo: int, hi: int) {
    && b.count > 0
    && b.count == CountIn(points, lo, hi)
    && Weight(b) == SumIn(points, lo, hi)
    && IsLeast(b.min, points, lo, hi)
    && IsGreatest(b.max, points, lo, hi)
  }

  lemma {:induction false} TimesMonotone(a: real, b: real, n: nat)
    requires a < b && n > 0
    ensures Times(a, n) < Times(b, n)
  {
    if n > 1 { TimesMonotone(a, b, n - 1); }
  }

  /** The description leaves no choice. */
  lemma DescriptionIsUnique(a: Bucket, b: Bucket, points: seq<Point>, lo: int, hi: int)
    requires Describes(a, points, lo, hi) && Describes(b, points, lo, hi)
    ensures a.min == b.min && a.max == b.max && a.count == b.count && a.avg == b.avg
  {
    if a.avg < b.avg { TimesMonotone(a.avg, b.avg, a.count); }
    if b.avg < a.avg { TimesMonotone(b.avg, a.avg, a.count); }
  }

  predicate StrictlyOrdered(buckets: seq<Bucket>) {
    forall i, j :: 0 <= i < j < |buckets| ==> buckets[i].start < buckets[j].start
  }

  /** One bucket, in ascending order, for each window that holds a point. */
  ghost predicate IsDownsample(points: seq<Point>, grid: Grid, buckets: seq<Bucket>) {
    && StrictlyOrdered(buckets)
    && (forall b :: b in buckets ==>
      Aligned(b.start, grid) && Describes(b, points, b.start, b.start + grid.width))
    && forall p {:trigger grid.start(p.ts)} :: p in points ==> HasBucket(buckets, grid.start(p.ts))
  }

  ghost predicate HasBucket(buckets: seq<Bucket>, start: int) { exists b :: b in buckets && b.start == start }

  // ── downsample ───────────────────────────────────────────────────────────────

  function MinOf(values: seq<real>): (m: real)
    requires values != []
    ensures m in values && forall v :: v in values ==> m <= v
  {
    if |values| == 1 then values[0]
    else
      var m := MinOf(values[1..]);
      assert forall v :: v in values ==> v == values[0] || v in values[1..];
      if values[0] <= m then values[0] else m
  }

  function MaxOf(values: seq<real>): (m: real)
    requires values != []
    ensures m in values && forall v :: v in values ==> v <= m
  {
    if |values| == 1 then values[0]
    else
      var m := MaxOf(values[1..]);
      assert forall v :: v in values ==> v == values[0] || v in values[1..];
      if values[0] >= m then values[0] else m
  }

  /** JavaScript's left fold. */
  function SumOf(values: seq<real>): real {
    if values == [] then 0.0 else SumOf(values[..|values| - 1]) + values[|values| - 1]
  }

  /** JavaScript's `sort` on the bucket starts. */
  function Insert(b: Bucket, sorted: seq<Bucket>): (r: seq<Bucket>)
    requires StrictlyOrdered(sorted) && forall x :: x in sorted ==> x.start != b.start
    ensures StrictlyOrdered(r) && forall x :: x in r <==> x == b || x in sorted
  {
    if sorted == [] then [b]
    else if b.start < sorted[0].start then [b] + sorted
    else
      var rest := Insert(b, sorted[1..]);
      assert forall i :: 0 <= i < |rest| ==> rest[i] in rest;
      [sorted[0]] + rest
  }

  /** The values of the points in [lo, hi), in their order. */
  function ValuesIn(points: seq<Point>, lo: int, hi: int): seq<real> {
    if points == [] then []
    else
      var n := |points| - 1;
      ValuesIn(points[..n], lo, hi) + if Inside(points[n], lo, hi) then [points[n].value] else []
  }

  lemma ValuesSnoc(points: seq<Point>, p: Point, lo: int, hi: int)
    ensures ValuesIn(points + [p], lo, hi)
      == if Inside(p, lo, hi) then ValuesIn(points, lo, hi) + [p.value] else ValuesIn(points, lo, hi)
  {
    assert (points + [p])[..|points|] == points;
  }

  lemma {:induction false} ValuesTally(points: seq<Point>, lo: int, hi: int)
    ensures |ValuesIn(points, lo, hi)| == CountIn(points, lo, hi)
    ensures SumOf(ValuesIn(points, lo, hi)) == SumIn(points, lo, hi)
    decreases |points|
  {
    if points != [] {
      var n := |points| - 1;
      ValuesTally(points[..n], lo, hi);
      var earlier := ValuesIn(points[..n], lo, hi);
      if Inside(points[n], lo, hi) {
        assert (earlier + [points[n].value])[..|earlier|] == earlier;
      } else {
        assert ValuesIn(points, lo, hi) == earlier;
      }
    }
  }

  lemma {:induction false} ValuesAre(points: seq<Point>, lo: int, hi: int)
    ensures forall p :: p in points && Inside(p, lo, hi) ==> p.value in ValuesIn(points, lo, hi)
    ensures forall v :: v in ValuesIn(points, lo, hi) ==> exists p :: p in points && Inside(p, lo, hi) && p.value == v
    decreases |points|
  {
    if points != [] {
      var n := |points| - 1;
      ValuesAre(points[..n], lo, hi);
      assert forall p :: p in points ==> p in points[..n] || p == points[n];
      forall v | v in ValuesIn(points, lo, hi)
        ensures exists p :: p in points && Inside(p, lo, hi) && p.value == v
      {
        if v in ValuesIn(points[..n], lo, hi) {
          var p :| p in points[..n] && Inside(p, lo, hi) && p.value == v;
          assert p in points;
        } else {
          assert points[n] in points;
        }
      }
    }
  }

  lemma ValuesDescribe(points: seq<Point>, lo: int, hi: int, b: Bucket)
    requires var values := ValuesIn(points, lo, hi);
      && values != [] && b.min == MinOf(values) && b.max == MaxOf(values)
      && b.count == |values| && Weight(b) == SumOf(values)
    ensures Describes(b, points, lo, hi)
  {
    ValuesTally(points, lo, hi);
    ValuesAre(points, lo, hi);
    assert exists p :: p in points && Inside(p, lo, hi) && p.value == b.min;
    assert exists p :: p in points && Inside(p, lo, hi) && p.value == b.max;
  }

  lemma MeanTimesCount(sum: real, n: nat)
    requires n > 0
    ensures Times(sum / n as real, n) == sum
  {
    TimesIsProduct(sum / n as real, n);
  }

  /** Each window that holds a point, with the values of its points. */
  ghost predicate IsGrouping(points: seq<Point>, grid: Grid, groups: map<int, seq<real>>) {
    GroupsHold(points, grid, groups) && GroupsCover(points, grid, groups)
  }

  ghost predicate GroupsHold(points: seq<Point>, grid: Grid, groups: map<int, seq<real>>) {
    forall start :: start in groups ==>
      Aligned(start, grid) && groups[start] == ValuesIn(points, start, start + grid.width) != []
  }

  ghost predicate GroupsCover(points: seq<Point>, grid: Grid, groups: map<int, seq<real>>) {
    forall p {:trigger grid.start(p.ts)} :: p in points ==> grid.start(p.ts) in groups
  }

  lemma GroupNext(points: seq<Point>, grid: Grid, groups: map<int, seq<real>>, p: Point)
    requires Regular(grid) && IsGrouping(points, grid, groups)
    ensures var start := grid.start(p.ts);
      IsGrouping(points + [p], grid, groups[start := (if start in groups then groups[start] else []) + [p.value]])
  {
    var start := grid.start(p.ts);
    WindowOf(p.ts, grid);
    if start !in groups { NewWindow(points, grid, start); }
    ValuesSnoc(points, p, start, start + grid.width);
    HoldNext(points, grid, groups, p, ValuesIn(points, start, start + grid.width) + [p.value]);
  }

  lemma HoldNext(points: seq<Point>, grid: Grid, groups: map<int, seq<real>>, p: Point, values: seq<real>)
    requires Regular(grid) && GroupsHold(points, grid, groups)
    requires var start := grid.start(p.ts);
      Aligned(start, grid) && values == ValuesIn(points + [p], start, start + grid.width) != []
    ensures GroupsHold(points + [p], grid, groups[grid.start(p.ts) := values])
  {
    forall other | other in groups && other != grid.start(p.ts)
      ensures ValuesIn(points + [p], other, other + grid.width) == groups[other]
    {
      OtherWindow(points, grid, other, p);
    }
  }

  lemma NewWindow(points: seq<Point>, grid: Grid, start: int)
    requires Regular(grid) && Aligned(start, grid)
    requires forall q {:trigger grid.start(q.ts)} :: q in points ==> grid.start(q.ts) != start
    ensures ValuesIn(points, start, start + grid.width) == []
  {
    forall q | q in points ensures !Inside(q, start, start + grid.width) {
      assert grid.start(q.ts) == start <==> Within(q.ts, start, grid);
    }
    NoneInside(points, start, start + grid.width);
    ValuesTally(points, start, start + grid.width);
  }

  lemma OtherWindow(points: seq<Point>, grid: Grid, other: int, p: Point)
    requires Regular(grid) && Aligned(other, grid) && other != grid.start(p.ts)
    ensures ValuesIn(points + [p], other, other + grid.width) == ValuesIn(points, other, other + grid.width)
  {
    assert grid.start(p.ts) == other <==> Within(p.ts, other, grid);
    ValuesSnoc(points, p, other, other + grid.width);
  }

  method Group(points: seq<Point>, grid: Grid) returns (groups: map<int, seq<real>>)
    requires Regular(grid)
    ensures IsGrouping(points, grid, groups)
  {
    groups := map[];
    var i := 0;
    while i < |points|
      invariant 0 <= i <= |points|
      invariant IsGrouping(points[..i], grid, groups)
    {
      var p := points[i];
      var start := grid.start(p.ts);
      GroupNext(points[..i], grid, groups, p);
      assert points[..i + 1] == points[..i] + [p];
      groups := groups[start := (if start in groups then groups[start] else []) + [p.value]];
      i := i + 1;
    }
    assert points[..i] == points;
  }

  method Downsample(points: seq<Point>, g: Granularity) returns (buckets: seq<Bucket>)
    ensures IsDownsample(points, GridOf(g), buckets)
    ensures forall b :: b in buckets ==>
      points != [] && b.kind == points[0].kind && b.subject == points[0].subject && b.granularity == g
  {
    if points == [] { return []; }
    GridIsRegular(g);
    buckets := DownsampleOn(points, points[0].kind, points[0].subject, g, GridOf(g));
  }

  method MakeBucket(points: seq<Point>, kind: Kind, subject: string, start: int, g: Granularity, grid: Grid,
      values: seq<real>)
    returns (b: Bucket)
    requires values == ValuesIn(points, start, start + grid.width) != [] && Aligned(start, grid)
    ensures b.start == start && IsBucketOf(b, points, kind, subject, g, grid)
  {
    MeanTimesCount(SumOf(values), |values|);
    b := Bucket(kind, subject, start, g, MinOf(values), MaxOf(values), SumOf(values) / |values| as real, |values|);
    ValuesDescribe(points, start, start + grid.width, b);
  }

  method DownsampleOn(points: seq<Point>, kind: Kind, subject: string, g: Granularity, grid: Grid)
      returns (buckets: seq<Bucket>)
    requires Regular(grid)
    ensures IsDownsample(points, grid, buckets)
    ensures forall b :: b in buckets ==> b.kind == kind && b.subject == subject && b.granularity == g
  {
    var groups := Group(points, grid);
    var todo := groups.Keys;
    ghost var done: set<int> := {};
    buckets := [];
    while todo != {}
      invariant todo !! done && todo + done == groups.Keys
      invariant Covers(buckets, done, points, kind, subject, g, grid)
      decreases |todo|
    {
      var start := Sets.Pick(todo);
      var b := MakeBucket(points, kind, subject, start, g, grid, groups[start]);
      CoversNext(buckets, done, points, kind, subject, g, grid, b);
      buckets := Insert(b, buckets);
      todo := todo - {start};
      done := done + {start};
    }
    CoversAll(buckets, done, points, kind, subject, g, grid);
  }

  lemma CoversAll(buckets: seq<Bucket>, done: set<int>, points: seq<Point>, kind: Kind, subject: string,
                  g: Granularity, grid: Grid)
    requires forall p {:trigger grid.start(p.ts)} :: p in points ==> grid.start(p.ts) in done
    requires Covers(buckets, done, points, kind, subject, g, grid)
    ensures IsDownsample(points, grid, buckets)
    ensures forall b :: b in buckets ==> b.kind == kind && b.subject == subject && b.granularity == g
  {
  }

  /** One bucket for each of the windows `done` and for no other. */
  ghost predicate Covers(buckets: seq<Bucket>, done: set<int>, points: seq<Point>, kind: Kind, subject: string,
                         g: Granularity, grid: Grid) {
    && StrictlyOrdered(buckets)
    && (forall b :: b in buckets ==> b.start in done && IsBucketOf(b, points, kind, subject, g, grid))
    && (forall start :: start in done ==> HasBucket(buckets, start))
  }

  lemma CoversNext(buckets: seq<Bucket>, done: set<int>, points: seq<Point>, kind: Kind, subject: string,
                   g: Granularity, grid: Grid, b: Bucket)
    requires Covers(buckets, done, points, kind, subject, g, grid)
    requires b.start !in done && IsBucketOf(b, points, kind, subject, g, grid)
    ensures forall x :: x in buckets ==> x.start != b.start
    ensures Covers(Insert(b, buckets), done + {b.start}, points, kind, subject, g, grid)
  {
    var after := Insert(b, buckets);
    forall start | start in done + {b.start} ensures HasBucket(after, start) {
      if start == b.start {
        assert b in after;
      } else {
        var x :| x in buckets && x.start == start;
        assert x in after;
      }
    }
  }

  ghost predicate IsBucketOf(b: Bucket, points: seq<Point>, kind: Kind, subject: string, g: Granularity, grid: Grid) {
    && b.kind == kind && b.subject == subject && b.granularity == g
    && Aligned(b.start, grid) && Describes(b, points, b.start, b.start + grid.width)
  }

  // ── Coarser from finer ───────────────────────────────────────────────────────

  predicate Starts(b: Bucket, lo: int, hi: int) { lo <= b.start < hi }

  /** Summed counts of the buckets that start in [lo, hi). */
  function MergedCount(buckets: seq<Bucket>, lo: int, hi: int): int {
    if buckets == [] then 0
    else
      var n := |buckets| - 1;
      MergedCount(buckets[..n], lo, hi) + if Starts(buckets[n], lo, hi) then buckets[n].count else 0
  }

  /** Their count-weighted means, summed. */
  function MergedWeight(buckets: seq<Bucket>, lo: int, hi: int): real {
    if buckets == [] then 0.0
    else
      var n := |buckets| - 1;
      MergedWeight(buckets[..n], lo, hi) + if Starts(buckets[n], lo, hi) then Weight(buckets[n]) else 0.0
  }

  lemma {:induction false} SplitMerged(buckets: seq<Bucket>, lo: int, mid: int, hi: int)
    requires lo <= mid <= hi
    ensures MergedCount(buckets, lo, hi) == MergedCount(buckets, lo, mid) + MergedCount(buckets, mid, hi)
    ensures MergedWeight(buckets, lo, hi) == MergedWeight(buckets, lo, mid) + MergedWeight(buckets, mid, hi)
    decreases |buckets|
  {
    if buckets != [] { SplitMerged(buckets[..|buckets| - 1], lo, mid, hi); }
  }

  lemma {:induction false} MergedNone(buckets: seq<Bucket>, lo: int, hi: int)
    requires forall b :: b in buckets ==> !Starts(b, lo, hi)
    ensures MergedCount(buckets, lo, hi) == 0 && MergedWeight(buckets, lo, hi) == 0.0
    decreases |buckets|
  {
    if buckets != [] {
      assert buckets[|buckets| - 1] in buckets;
      MergedNone(buckets[..|buckets| - 1], lo, hi);
    }
  }

  lemma {:induction false} MergedOne(buckets: seq<Bucket>, lo: int, hi: int, b: Bucket)
    requires StrictlyOrdered(buckets) && b in buckets && Starts(b, lo, hi)
    requires forall x :: x in buckets && Starts(x, lo, hi) ==> x.start == b.start
    ensures MergedCount(buckets, lo, hi) == b.count && MergedWeight(buckets, lo, hi) == Weight(b)
    decreases |buckets|
  {
    var n := |buckets| - 1;
    var init := buckets[..n];
    if b == buckets[n] {
      forall x | x in init ensures !Starts(x, lo, hi) {
        var i :| 0 <= i < n && buckets[i] == x;
      }
      MergedNone(init, lo, hi);
    } else {
      var i :| 0 <= i < n && buckets[i] == b;
      assert b == init[i] && buckets[n] in buckets;
      MergedOne(init, lo, hi, b);
    }
  }

  lemma FullWindow(points: seq<Point>, buckets: seq<Bucket>, lo: int, hi: int, b: Bucket)
    requires StrictlyOrdered(buckets) && b in buckets && Starts(b, lo, hi) && Describes(b, points, lo, hi)
    requires forall x :: x in buckets && Starts(x, lo, hi) ==> x.start == b.start
    ensures MergedCount(buckets, lo, hi) == CountIn(points, lo, hi)
      && MergedWeight(buckets, lo, hi) == SumIn(points, lo, hi)
  {
    MergedOne(buckets, lo, hi, b);
  }

  lemma OneStart(points: seq<Point>, grid: Grid, buckets: seq<Bucket>, b: Bucket)
    requires Regular(grid) && IsDownsample(points, grid, buckets) && b in buckets
    ensures StrictlyOrdered(buckets) && Starts(b, b.start, b.start + grid.width)
    ensures Describes(b, points, b.start, b.start + grid.width)
    ensures forall x :: x in buckets && Starts(x, b.start, b.start + grid.width) ==> x.start == b.start
  {
    StartsOnly(points, grid, buckets, b.start);
  }

  /** A single fine window: its bucket, or nothing, carries the count and sum of its points. */
  lemma OneWindow(points: seq<Point>, grid: Grid, buckets: seq<Bucket>, start: int)
    requires Regular(grid) && IsDownsample(points, grid, buckets) && Aligned(start, grid)
    ensures MergedCount(buckets, start, start + grid.width) == CountIn(points, start, start + grid.width)
    ensures MergedWeight(buckets, start, start + grid.width) == SumIn(points, start, start + grid.width)
  {
    if b :| b in buckets && b.start == start {
      OneStart(points, grid, buckets, b);
      FullWindow(points, buckets, start, start + grid.width, b);
    } else {
      StartsOnly(points, grid, buckets, start);
      MergedNone(buckets, start, start + grid.width);
      EmptyWindow(points, grid, buckets, start);
    }
  }

  lemma StartsOnly(points: seq<Point>, grid: Grid, buckets: seq<Bucket>, start: int)
    requires Regular(grid) && IsDownsample(points, grid, buckets) && Aligned(start, grid)
    ensures forall b :: b in buckets && Starts(b, start, start + grid.width) ==> b.start == start
  {
    forall b | b in buckets && Starts(b, start, start + grid.width) ensures b.start == start {
      OnlyStart(grid, b.start, start);
    }
  }

  lemma EmptyWindow(points: seq<Point>, grid: Grid, buckets: seq<Bucket>, start: int)
    requires Regular(grid) && IsDownsample(points, grid, buckets) && Aligned(start, grid)
    requires forall b :: b in buckets ==> b.start != start
    ensures CountIn(points, start, start + grid.width) == 0 && SumIn(points, start, start + grid.width) == 0.0
  {
    forall p | p in points ensures !Inside(p, start, start + grid.width) {
      NoBucketNoPoint(points, grid, buckets, start, p);
    }
    NoneInside(points, start, start + grid.width);
  }

  lemma OnlyStart(grid: Grid, a: int, start: int)
    requires Regular(grid) && Aligned(a, grid) && Aligned(start, grid) && Within(a, start, grid)
    ensures a == start
  {
    assert grid.start(a) == start <==> Within(a, start, grid);
  }

  lemma NoBucketNoPoint(points: seq<Point>, grid: Grid, buckets: seq<Bucket>, start: int, p: Point)
    requires Regular(grid) && IsDownsample(points, grid, buckets) && Aligned(start, grid) && p in points
    requires forall b :: b in buckets ==> b.start != start
    ensures !Inside(p, start, start + grid.width)
  {
    assert grid.start(p.ts) == start <==> Within(p.ts, start, grid);
  }

  /** `hi` lies a whole number of windows behind `lo`. */
  ghost predicate WholeWindows(lo: int, hi: int, windows: nat, grid: Grid)
    decreases windows
  {
    Aligned(hi, grid) && if windows == 0 then hi == lo
      else lo < hi && WholeWindows(lo, hi - grid.width, windows - 1, grid)
  }

  lemma {:induction false} MergeWindows(points: seq<Point>, grid: Grid, buckets: seq<Bucket>, lo: int, hi: int,
      windows: nat)
    requires Regular(grid) && IsDownsample(points, grid, buckets) && WholeWindows(lo, hi, windows, grid)
    ensures lo <= hi
    ensures MergedCount(buckets, lo, hi) == CountIn(points, lo, hi)
    ensures MergedWeight(buckets, lo, hi) == SumIn(points, lo, hi)
    decreases windows
  {
    if windows == 0 {
      MergedNone(buckets, lo, lo);
      NoneInside(points, lo, lo);
    } else {
      var last := hi - grid.width;
      MergeWindows(points, grid, buckets, lo, last, windows - 1);
      OneWindow(points, grid, buckets, last);
      SplitMerged(buckets, lo, last, hi);
      SplitIn(points, lo, last, hi);
    }
  }

  lemma {:induction false} TileWindows(lo: int, windows: nat, grid: Grid)
    requires Regular(grid) && Aligned(lo, grid)
    ensures 0 <= windows * grid.width
    ensures WholeWindows(lo, lo + windows * grid.width, windows, grid)
    decreases windows
  {
    if windows > 0 {
      var last := lo + (windows - 1) * grid.width;
      TileWindows(lo, windows - 1, grid);
      assert windows * grid.width == (windows - 1) * grid.width + grid.width;
      NextAligned(last, grid);
      assert WholeWindows(lo, last, windows - 1, grid);
    }
  }

  /** The coarse windows are unions of fine ones, `n` each. */
  ghost predicate Nests(fine: Grid, coarse: Grid, n: nat) {
    && Regular(fine) && Regular(coarse)
    && n * fine.width == coarse.width
    && forall start :: Aligned(start, coarse) ==> Aligned(start, fine)
  }

  lemma FineWithin(ts: int, fineStart: int, fine: Grid, coarseStart: int, coarse: Grid, n: nat)
    requires Nests(fine, coarse, n) && Aligned(fineStart, fine) && Aligned(coarseStart, coarse)
    requires Within(ts, fineStart, fine)
    ensures Within(ts, coarseStart, coarse) <==> Within(fineStart, coarseStart, coarse)
  {
    NextAligned(coarseStart, coarse);
    var next := coarseStart + coarse.width;
    assert Aligned(coarseStart, fine) && Aligned(next, fine);
    assert fine.start(coarseStart) == fineStart <==> Within(coarseStart, fineStart, fine);
    assert fine.start(next) == fineStart <==> Within(next, fineStart, fine);
  }

  lemma FineInCoarse(points: seq<Point>, fine: Grid, coarse: Grid, n: nat, f: Bucket, b: Bucket)
    requires Nests(fine, coarse, n) && Aligned(f.start, fine) && Aligned(b.start, coarse)
      && Within(f.start, b.start, coarse)
    requires Describes(f, points, f.start, f.start + fine.width)
      && Describes(b, points, b.start, b.start + coarse.width)
    ensures b.min <= f.min && f.max <= b.max
  {
    var p :| p in points && Inside(p, f.start, f.start + fine.width) && p.value == f.min;
    FineWithin(p.ts, f.start, fine, b.start, coarse, n);
    var q :| q in points && Inside(q, f.start, f.start + fine.width) && q.value == f.max;
    FineWithin(q.ts, f.start, fine, b.start, coarse, n);
  }

  lemma FineBucketOf(points: seq<Point>, fine: Grid, coarse: Grid, n: nat, fines: seq<Bucket>, start: int, p: Point)
    returns (f: Bucket)
    requires Nests(fine, coarse, n) && IsDownsample(points, fine, fines) && Aligned(start, coarse)
    requires p in points && Within(p.ts, start, coarse)
    ensures f in fines && Within(f.start, start, coarse) && f.min <= p.value <= f.max
  {
    WindowOf(p.ts, fine);
    f :| f in fines && f.start == fine.start(p.ts);
    FineWithin(p.ts, f.start, fine, start, coarse, n);
  }

  /** The least minimum among the fine buckets is the coarse one; likewise the greatest maximum. */
  lemma ExtremesCompose(points: seq<Point>, fine: Grid, coarse: Grid, n: nat, fines: seq<Bucket>, b: Bucket)
    requires Nests(fine, coarse, n) && IsDownsample(points, fine, fines)
    requires Aligned(b.start, coarse) && Describes(b, points, b.start, b.start + coarse.width)
    ensures exists f :: f in fines && Within(f.start, b.start, coarse) && f.min == b.min
    ensures exists f :: f in fines && Within(f.start, b.start, coarse) && f.max == b.max
  {
    var p :| p in points && Inside(p, b.start, b.start + coarse.width) && p.value == b.min;
    var f := FineBucketOf(points, fine, coarse, n, fines, b.start, p);
    FineInCoarse(points, fine, coarse, n, f, b);
    var q :| q in points && Inside(q, b.start, b.start + coarse.width) && q.value == b.max;
    var h := FineBucketOf(points, fine, coarse, n, fines, b.start, q);
    FineInCoarse(points, fine, coarse, n, h, b);
  }

  /** Downsampling composes: the coarse bucket computed from the raw points has the summed counts, the
      count-weighted mean, the least minimum and the greatest maximum of the fine buckets in its window. */
  lemma DownsamplingComposes(points: seq<Point>, fine: Grid, coarse: Grid, n: nat,
                             fines: seq<Bucket>, coarses: seq<Bucket>, b: Bucket)
    requires Nests(fine, coarse, n)
    requires IsDownsample(points, fine, fines) && IsDownsample(points, coarse, coarses) && b in coarses
    ensures b.count == MergedCount(fines, b.start, b.start + coarse.width)
    ensures Weight(b) == MergedWeight(fines, b.start, b.start + coarse.width)
    ensures forall f :: f in fines && Within(f.start, b.start, coarse) ==> b.min <= f.min && f.max <= b.max
    ensures exists f :: f in fines && Within(f.start, b.start, coarse) && f.min == b.min
    ensures exists f :: f in fines && Within(f.start, b.start, coarse) && f.max == b.max
  {
    TileWindows(b.start, n, fine);
    MergeWindows(points, fine, fines, b.start, b.start + coarse.width, n);
    ExtremesCompose(points, fine, coarse, n, fines, b);
    forall f | f in fines && Within(f.start, b.start, coarse)
      ensures b.min <= f.min && f.max <= b.max
    {
      FineInCoarse(points, fine, coarse, n, f, b);
    }
  }

  /** Hours tile days and weeks, and days tile weeks: the composition holds between all granularities. */
  lemma GranularitiesNest()
    ensures Nests(GridOf(Hourly), GridOf(Daily), 24)
    ensures Nests(GridOf(Hourly), GridOf(Weekly), 168)
    ensures Nests(GridOf(Daily), GridOf(Weekly), 7)
  {
    GridIsRegular(Hourly);
    GridIsRegular(Daily);
    GridIsRegular(Weekly);
    forall start | Aligned(start, GridOf(Daily)) ensures Aligned(start, GridOf(Hourly)) {
      CoarserMultiple(start, WindowMs(Hourly), 24);
    }
    forall start | Aligned(start, GridOf(Weekly))
        ensures Aligned(start, GridOf(Hourly)) && Aligned(start, GridOf(Daily)) {
      CoarserMultiple(start, WindowMs(Hourly), 168);
      CoarserMultiple(start, WindowMs(Daily), 7);
    }
  }

  lemma CoarserMultiple(start: int, w: int, n: int)
    requires w > 0 && n > 0 && n * w > 0 && BucketStart(start, n * w) == start
    ensures BucketStart(start, w) == start
  {
    var q := start / (n * w);
    assert q * (n * w) == q * n * w;
    Rounding.DivideUnique(start, w, q * n);
  }

  /** Every point is counted in exactly one bucket: over any whole number of windows that covers the
      points the counts add up to their number. */
  lemma CountsAddUp(points: seq<Point>, grid: Grid, buckets: seq<Bucket>, lo: int, hi: int, windows: nat)
    requires Regular(grid) && IsDownsample(points, grid, buckets) && WholeWindows(lo, hi, windows, grid)
    requires forall p :: p in points ==> Inside(p, lo, hi)
    ensures MergedCount(buckets, lo, hi) == |points|
  {
    MergeWindows(points, grid, buckets, lo, hi, windows);
    AllInside(points, lo, hi);
  }
}
