/**
 * The analytics page's integer derivations (`src/pages/Analytics.tsx`): the time window, the
 * half-split period-over-period change, and the content-performance rows.
 */
module Analytics {
  import opened Seqs
  import opened Data

  /** The number of days a time-range value selects; 30 for anything unrecognised. */
  function WindowDays(timeRange: string): (days: nat)
    ensures timeRange == "7d" ==> days == 7
    ensures timeRange == "30d" ==> days == 30
    ensures timeRange == "90d" ==> days == 90
    ensures timeRange != "7d" && timeRange != "90d" ==> days == 30
  {
    if timeRange == "7d" then 7 else if timeRange == "90d" then 90 else 30
  }

  /** The page's two selectors. */
  datatype View = View(timeRange: string, platformFilter: string)

  const InitialView := View("30d", "all")

  /** `getFilteredData`: the last `min(days, n)` days, in order. */
  function FilteredData(v: View, data: seq<DayStats>): (r: seq<DayStats>)
    ensures |r| == Min(WindowDays(v.timeRange), |data|)
    ensures data == data[..|data| - |r|] + r
  {
    TakeLast(data, WindowDays(v.timeRange))
  }

  /** The platform selector never reaches the data. */
  lemma PlatformFilterIgnored(v: View, platformFilter: string, data: seq<DayStats>)
    ensures FilteredData(v.(platformFilter := platformFilter), data) == FilteredData(v, data)
  {
  }

  /** A shorter range shows the most recent part of a longer one. */
  lemma WindowsNest(data: seq<DayStats>)
    ensures var w7 := FilteredData(View("7d", "all"), data);
      var w30 := FilteredData(View("30d", "all"), data);
      var w90 := FilteredData(View("90d", "all"), data);
      w30 == w30[..|w30| - |w7|] + w7 && w90 == w90[..|w90| - |w30|] + w30
  {
    TakeLastNest(data, 7, 30);
    TakeLastNest(data, 30, 90);
  }

  datatype Metric = Likes | Comments | Shares | Followers

  function MetricValue(d: DayStats, m: Metric): nat {
    match m
    case Likes => d.likes
    case Comments => d.comments
    case Shares => d.shares
    case Followers => d.followers
  }

  /** The `reduce` that adds up one metric. */
  function SumMetric(ds: seq<DayStats>, m: Metric): nat
    decreases |ds|
  {
    if |ds| == 0 then 0 else SumMetric(ds[..|ds| - 1], m) + MetricValue(ds[|ds| - 1], m)
  }

  lemma {:induction false} SumMetricAppend(a: seq<DayStats>, b: seq<DayStats>, m: Metric)
    ensures SumMetric(a + b, m) == SumMetric(a, m) + SumMetric(b, m)
    decreases |b|
  {
    if |b| > 0 {
      var ab := a + b;
      assert ab[..|ab| - 1] == a + b[..|b| - 1];
      assert ab[|ab| - 1] == b[|b| - 1];
      SumMetricAppend(a, b[..|b| - 1], m);
      assert SumMetric(ab, m) == SumMetric(ab[..|ab| - 1], m) + MetricValue(ab[|ab| - 1], m);
    } else {
      assert a + b == a;
    }
  }

  /** The earlier and the later half of the window; the later half takes the odd day. */
  function Halves(window: seq<DayStats>): (r: (seq<DayStats>, seq<DayStats>))
    ensures r.0 + r.1 == window
    ensures |r.0| == |window| / 2
    ensures |r.0| <= |r.1| <= |r.0| + 1
  {
    (window[..|window| / 2], window[|window| / 2..])
  }

  /** The two halves together account for the whole window's total. */
  lemma HalvesSplitTotal(window: seq<DayStats>, m: Metric)
    ensures SumMetric(Halves(window).0, m) + SumMetric(Halves(window).1, m) == SumMetric(window, m)
  {
    SumMetricAppend(Halves(window).0, Halves(window).1, m);
  }

  /** `Math.round(n / d)` for a positive `d`: the nearest integer, halves rounded up. */
  function RoundHalfUp(n: int, d: int): (r: int)
    requires d > 0
    ensures 2 * d * r <= 2 * n + d < 2 * d * (r + 1)
  {
    (2 * n + d) / (2 * d)
  }

  /** `calculateChange`: the later half's total against the earlier half's, in percent. */
  function CalculateChange(window: seq<DayStats>, m: Metric): (r: int)
    ensures |window| < 2 ==> r == 0
    ensures |window| >= 2 && SumMetric(Halves(window).0, m) == 0 ==> r == 100
    ensures |window| >= 2 && SumMetric(Halves(window).0, m) > 0 ==>
      var p := SumMetric(Halves(window).0, m);
      var c := SumMetric(Halves(window).1, m);
      2 * p * r <= 200 * (c - p) + p < 2 * p * (r + 1)
  {
    if |window| < 2 then 0
    else
      var halves := Halves(window);
      var previous := SumMetric(halves.0, m);
      var current := SumMetric(halves.1, m);
      if previous == 0 then 100 else RoundHalfUp(100 * (current - previous), previous)
  }

  /** Multiplying by a positive factor keeps a strict order both ways. */
  lemma ScaleStrict(q: int, x: int, y: int)
    requires q > 0
    ensures q * x < q * y <==> x < y
  {
    if x < y {
      PositiveProduct(q, y - x);
      assert q * (y - x) == q * y - q * x;
    } else if x > y {
      PositiveProduct(q, x - y);
      assert q * (x - y) == q * x - q * y;
    }
  }

  lemma {:induction false} PositiveProduct(q: int, d: int)
    requires q > 0 && d > 0
    ensures q * d > 0
    decreases d
  {
    if d > 1 {
      PositiveProduct(q, d - 1);
      assert q * d == q * (d - 1) + q;
    }
  }

  /** The rounded percentage never drops below -100. */
  lemma PercentAtLeastMinusHundred(p: int, c: int, r: int)
    requires p > 0 && c >= 0
    requires 200 * (c - p) + p < 2 * p * (r + 1)
    ensures r >= -100
  {
    ScaleStrict(2 * p, -100, r + 1);
  }

  /** A total that did not fall cannot be reported as a fall. */
  lemma PercentNotNegative(p: int, c: int, r: int)
    requires p > 0 && c >= p
    requires 200 * (c - p) + p < 2 * p * (r + 1)
    ensures r >= 0
  {
    ScaleStrict(2 * p, 0, r + 1);
  }

  /** A total that did not rise cannot be reported as a rise. */
  lemma PercentNotPositive(p: int, c: int, r: int)
    requires p > 0 && c <= p
    requires 2 * p * r <= 200 * (c - p) + p
    ensures r <= 0
  {
    ScaleStrict(2 * p, r, 1);
  }

  /**
   * What the rounding bounds say about the sign and size of the percentage, for a positive
   * earlier total `p` and a non-negative later total `c`.
   */
  lemma RoundedPercentBounds(p: int, c: int, r: int)
    requires p > 0 && c >= 0
    requires 2 * p * r <= 200 * (c - p) + p < 2 * p * (r + 1)
    ensures c == p ==> r == 0
    ensures c > p ==> r >= 0
    ensures c < p ==> r <= 0
    ensures r >= -100
  {
    PercentAtLeastMinusHundred(p, c, r);
    if c >= p {
      PercentNotNegative(p, c, r);
    }
    if c <= p {
      PercentNotPositive(p, c, r);
    }
  }

  /** With equal halves the change is 0; otherwise it never points the wrong way and never drops below -100. */
  lemma ChangeFollowsDifference(window: seq<DayStats>, m: Metric)
    requires |window| >= 2 && SumMetric(Halves(window).0, m) > 0
    ensures var p := SumMetric(Halves(window).0, m);
      var c := SumMetric(Halves(window).1, m);
      var r := CalculateChange(window, m);
      (c == p ==> r == 0) && (c > p ==> r >= 0) && (c < p ==> r <= 0) && r >= -100
  {
    RoundedPercentBounds(SumMetric(Halves(window).0, m), SumMetric(Halves(window).1, m), CalculateChange(window, m));
  }

  /** The previous period is empty of activity: a rise is reported as 100, whatever the current total. */
  lemma FromNothingIsHundred(window: seq<DayStats>, m: Metric)
    requires |window| >= 2 && SumMetric(Halves(window).0, m) == 0
    ensures CalculateChange(window, m) == 100
  {
  }

  /** One bar of the content-performance chart. */
  datatype PerformanceRow = PerformanceRow(name: string, likes: int, comments: int, shares: int, platform: Platform)

  function RowOf(p: Post): PerformanceRow {
    match p.stats
    case Some(s) => PerformanceRow(p.title, s.likes, s.comments, s.shares, p.platform)
    case None => PerformanceRow(p.title, 0, 0, 0, p.platform)
  }

  function HasStats(p: Post): bool {
    p.stats.Some?
  }

  /** `contentPerformanceData`: one row per post that has stats, in order. */
  function ContentPerformance(posts: seq<Post>): (rows: seq<PerformanceRow>)
    ensures |rows| <= |posts|
    ensures forall i :: 0 <= i < |rows| ==>
      exists p :: p in posts && p.stats.Some? && rows[i] == RowOf(p)
  {
    var withStats := Filter(posts, HasStats);
    var rows := Map(withStats, RowOf);
    assert forall i :: 0 <= i < |rows| ==> withStats[i] in posts && withStats[i].stats.Some? && rows[i] == RowOf(withStats[i]);
    rows
  }

  /** A single post gives its row when it has stats and nothing otherwise. */
  lemma ContentPerformanceSingle(p: Post)
    ensures ContentPerformance([p]) == if p.stats.Some? then [RowOf(p)] else []
  {
    FilterStep([p], HasStats);
  }

  /** The rows of a concatenation are the rows of each part, in order. */
  lemma ContentPerformanceAppend(a: seq<Post>, b: seq<Post>)
    ensures ContentPerformance(a + b) == ContentPerformance(a) + ContentPerformance(b)
  {
    FilterAppend(a, b, HasStats);
  }

  /** Rows copy the likes, comments and shares of their post. */
  lemma RowsCopyStats(p: Post)
    requires p.stats.Some?
    ensures var row := RowOf(p);
      row.name == p.title && row.likes == p.stats.value.likes && row.comments == p.stats.value.comments
      && row.shares == p.stats.value.shares && row.platform == p.platform
  {
  }
}
