/**
 * The dashboard's derived figures (`src/pages/Dashboard.tsx`): the active-post count, the
 * seven-day window, its engagement total and follower growth, and the recent-posts list.
 */
module Dashboard {
  import opened Wrappers
  import opened Seqs
  import opened Data
  import opened Analytics

  function IsActive(p: Post): bool {
    p.status == Scheduled || p.status == Published
  }

  /** The number of posts with status `s`. */
  function CountStatus(posts: seq<Post>, s: Status): nat
    decreases |posts|
  {
    if |posts| == 0 then 0 else (if posts[0].status == s then 1 else 0) + CountStatus(posts[1..], s)
  }

  lemma {:induction false} ActiveIsScheduledPlusPublished(posts: seq<Post>)
    ensures |Filter(posts, IsActive)| == CountStatus(posts, Scheduled) + CountStatus(posts, Published)
    decreases |posts|
  {
    if |posts| > 0 {
      FilterStep(posts, IsActive);
      ActiveIsScheduledPlusPublished(posts[1..]);
    }
  }

  /** `activePostsCount`: the scheduled posts plus the published ones. */
  function ActivePostsCount(posts: seq<Post>): (n: nat)
    ensures n <= |posts|
    ensures n == CountStatus(posts, Scheduled) + CountStatus(posts, Published)
  {
    ActiveIsScheduledPlusPublished(posts);
    |Filter(posts, IsActive)|
  }

  /** Of the mock posts, one is scheduled and two are published. */
  lemma MockActivePosts(dayAt: int -> Date)
    ensures ActivePostsCount(MockPosts(dayAt)) == 3
  {
    var posts := MockPosts(dayAt);
    assert CountStatus(posts[4..], Scheduled) == 0 && CountStatus(posts[4..], Published) == 1;
    assert posts[3..][1..] == posts[4..];
    assert CountStatus(posts[3..], Scheduled) == 0 && CountStatus(posts[3..], Published) == 2;
    assert posts[2..][1..] == posts[3..];
    assert CountStatus(posts[2..], Scheduled) == 0 && CountStatus(posts[2..], Published) == 2;
    assert posts[1..][1..] == posts[2..];
    assert CountStatus(posts[1..], Scheduled) == 0 && CountStatus(posts[1..], Published) == 2;
  }

  /** `latestAnalytics`: the last `min(7, n)` days. */
  function LatestAnalytics(data: seq<DayStats>): (r: seq<DayStats>)
    ensures |r| == Min(7, |data|)
    ensures data == data[..|data| - |r|] + r
  {
    TakeLast(data, 7)
  }

  /** The dashboard's window is the analytics page's seven-day window. */
  lemma LatestIsSevenDayView(data: seq<DayStats>, platformFilter: string)
    ensures LatestAnalytics(data) == FilteredData(View("7d", platformFilter), data)
  {
  }

  function DayEngagement(d: DayStats): nat {
    d.likes + d.comments + d.shares
  }

  /** `totalEngagement`: likes, comments and shares added over the window. */
  function TotalEngagement(window: seq<DayStats>): (t: nat)
    ensures |window| == 0 ==> t == 0
    ensures t == SumMetric(window, Likes) + SumMetric(window, Comments) + SumMetric(window, Shares)
    decreases |window|
  {
    if |window| == 0 then 0
    else TotalEngagement(window[..|window| - 1]) + DayEngagement(window[|window| - 1])
  }

  /** The differences in followers from each day to the next. */
  function DailyFollowerChanges(window: seq<DayStats>): (r: seq<int>)
    ensures |r| == if |window| == 0 then 0 else |window| - 1
    ensures forall i :: 0 <= i < |r| ==> r[i] == window[i + 1].followers - window[i].followers
  {
    if |window| <= 1 then []
    else seq(|window| - 1, i requires 0 <= i < |window| - 1 => window[i + 1].followers - window[i].followers)
  }

  function SumInts(xs: seq<int>): int
    decreases |xs|
  {
    if |xs| == 0 then 0 else SumInts(xs[..|xs| - 1]) + xs[|xs| - 1]
  }

  /** `followerGrowth`: the last day's followers minus the first day's (the page fails on an empty window). */
  function FollowerGrowth(window: seq<DayStats>): (g: int)
    requires |window| > 0
    ensures (forall i :: 0 <= i < |window| - 1 ==> window[i].followers <= window[i + 1].followers) ==> g >= 0
    ensures |window| == 1 ==> g == 0
    ensures g == SumInts(DailyFollowerChanges(window))
  {
    var g := window[|window| - 1].followers - window[0].followers;
    FollowerGrowthTelescopes(window);
    if forall i :: 0 <= i < |window| - 1 ==> window[i].followers <= window[i + 1].followers then
      SumNonNegative(DailyFollowerChanges(window));
      g
    else
      g
  }

  lemma {:induction false} SumNonNegative(xs: seq<int>)
    requires forall i :: 0 <= i < |xs| ==> xs[i] >= 0
    ensures SumInts(xs) >= 0
    decreases |xs|
  {
    if |xs| > 0 {
      SumNonNegative(xs[..|xs| - 1]);
    }
  }

  /** The growth is the sum of the day-to-day changes. */
  lemma {:induction false} FollowerGrowthTelescopes(window: seq<DayStats>)
    requires |window| > 0
    ensures SumInts(DailyFollowerChanges(window)) == window[|window| - 1].followers - window[0].followers
    decreases |window|
  {
    if |window| > 1 {
      var init := window[..|window| - 1];
      FollowerGrowthTelescopes(init);
      var changes := DailyFollowerChanges(window);
      var initChanges := DailyFollowerChanges(init);
      assert |changes[..|changes| - 1]| == |initChanges|;
      forall i | 0 <= i < |initChanges| ensures changes[..|changes| - 1][i] == initChanges[i] {
        assert init[i] == window[i] && init[i + 1] == window[i + 1];
      }
      assert changes[..|changes| - 1] == initChanges;
      assert SumInts(changes) == SumInts(initChanges) + changes[|changes| - 1];
      assert init[|init| - 1] == window[|window| - 2] && init[0] == window[0];
    }
  }

  /** The recent-posts card: the first `min(3, n)` posts. */
  function RecentPosts(posts: seq<Post>): (r: seq<Post>)
    ensures |r| == Min(3, |posts|)
    ensures r <= posts
  {
    Take(posts, 3)
  }

  /** The date line of a recent post, shown for scheduled posts only. */
  function ShownDate(p: Post): (d: Option<Date>)
    ensures d.Some? <==> p.status == Scheduled
    ensures d.Some? ==> d.value == p.scheduledFor
  {
    if p.status == Scheduled then Some(p.scheduledFor) else None
  }

  /** Among the mock posts, the card lists the first three and shows a date for the first only. */
  lemma MockRecentPosts(dayAt: int -> Date)
    ensures var r := RecentPosts(MockPosts(dayAt));
      |r| == 3 && r[0].id == "1" && r[1].id == "2" && r[2].id == "3"
      && ShownDate(r[0]) == Some(dayAt(1)) && ShownDate(r[1]).None? && ShownDate(r[2]).None?
  {
  }
}
