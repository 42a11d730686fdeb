/**
 * The trending-ideas page (`src/pages/TrendingIdeas.tsx`): per-platform topic lists, the
 * capped "all" list, the case-insensitive search with its synthesised fallback, and the
 * platform-icon lookup of the "all" view. Loading and searching are each a start step and
 * a completion step carrying the values captured when they began.
 */
module Trending {
  import opened Wrappers
  import opened Feedback
  import opened Seqs
  import opened Text

  datatype Trend = Up | Stable | Down

  datatype Topic = Topic(id: int, topic: string, volume: string, trend: Trend, description: string)

  const TwitterTopics: seq<Topic> := [
    Topic(1, "#ArtificialIntelligence", "234K", Up, "AI adoption in business and everyday life"),
    Topic(2, "#WorkFromHome", "189K", Up, "Remote work culture and productivity tips"),
    Topic(3, "#SustainableFashion", "156K", Up, "Eco-friendly clothing and ethical fashion brands"),
    Topic(4, "#DigitalNomad", "122K", Stable, "Working while traveling and location independence"),
    Topic(5, "#MentalHealthAwareness", "344K", Up, "Self-care and mental health discussions")
  ]

  const FacebookTopics: seq<Topic> := [
    Topic(1, "Home Cooking", "387K", Up, "Easy recipes and cooking tips for home"),
    Topic(2, "Fitness Challenges", "267K", Up, "30-day fitness routines and transformation stories"),
    Topic(3, "DIY Home Decor", "198K", Stable, "Budget-friendly home decoration ideas"),
    Topic(4, "Gardening Tips", "134K", Up, "Indoor plants and sustainable gardening"),
    Topic(5, "Family Activities", "212K", Stable, "Fun activities for kids and family bonding")
  ]

  const InstagramTopics: seq<Topic> := [
    Topic(1, "#SkincareTips", "467K", Up, "Natural skincare routines and product reviews"),
    Topic(2, "#HealthyEating", "389K", Up, "Nutritious meal prep and diet plans"),
    Topic(3, "#TravelPhotography", "277K", Down, "Stunning travel destinations and photography tips"),
    Topic(4, "#FitnessJourney", "321K", Up, "Personal fitness transformations and workout routines"),
    Topic(5, "#MindfulLiving", "189K", Up, "Wellness practices and mindfulness techniques")
  ]

  const YoutubeTopics: seq<Topic> := [
    Topic(1, "Tech Reviews", "543K", Up, "Latest gadget unboxings and honest reviews"),
    Topic(2, "Productivity Hacks", "287K", Up, "Time management and efficiency tips"),
    Topic(3, "Day in the Life", "376K", Stable, "Creator daily routines and behind-the-scenes content"),
    Topic(4, "Financial Literacy", "421K", Up, "Investment advice and money management"),
    Topic(5, "Cooking Tutorials", "332K", Up, "Step-by-step recipe guides and cooking techniques")
  ]

  const LinkedinTopics: seq<Topic> := [
    Topic(1, "Remote Work Culture", "276K", Up, "Building effective remote teams and work policies"),
    Topic(2, "Leadership Development", "312K", Up, "Modern leadership strategies and team management"),
    Topic(3, "Career Transitions", "298K", Up, "Changing industries and upskilling journeys"),
    Topic(4, "Workplace Wellness", "187K", Stable, "Mental health and well-being at work"),
    Topic(5, "AI in Business", "356K", Up, "AI applications and impact on industries")
  ]

  /** The keys of the topic table, in declaration order. */
  const TopicKeys: seq<string> := ["twitter", "facebook", "instagram", "youtube", "linkedin"]

  /** `mockTrendingData[key]`, absent for any other key. */
  function TopicsFor(key: string): (r: Option<seq<Topic>>)
    ensures r.Some? <==> key in TopicKeys
    ensures r.Some? ==> |r.value| == 5
  {
    if key == "twitter" then Some(TwitterTopics)
    else if key == "facebook" then Some(FacebookTopics)
    else if key == "instagram" then Some(InstagramTopics)
    else if key == "youtube" then Some(YoutubeTopics)
    else if key == "linkedin" then Some(LinkedinTopics)
    else None
  }

  /** `mockTrendingData[key] || []`. */
  function TopicsOrEmpty(key: string): (r: seq<Topic>)
    ensures key !in TopicKeys ==> r == []
    ensures key in TopicKeys ==> r == TopicsFor(key).value
  {
    TopicsFor(key).GetOr([])
  }

  const AllTopicsCap := 15

  /** The combined list, every platform's topics in key order. */
  function AllTopics(): seq<Topic> {
    TwitterTopics + FacebookTopics + InstagramTopics + YoutubeTopics + LinkedinTopics
  }

  /** The timer body of `loadTrendingTopics`. */
  function LoadTopics(key: string): (r: seq<Topic>)
    ensures key == "all" ==> |r| == AllTopicsCap && r == AllTopics()[..AllTopicsCap]
    ensures key != "all" ==> r == TopicsOrEmpty(key)
  {
    if key == "all" then Take(AllTopics(), AllTopicsCap) else TopicsOrEmpty(key)
  }

  /** With five topics per platform, the capped list is exactly the first three platforms' topics. */
  lemma AllIsFirstThreePlatforms()
    ensures LoadTopics("all") == TwitterTopics + FacebookTopics + InstagramTopics
  {
    var all := AllTopics();
    assert all == (TwitterTopics + FacebookTopics + InstagramTopics) + (YoutubeTopics + LinkedinTopics);
  }

  /** The page state. */
  datatype Page = Page(query: string, isLoading: bool, selected: string, topics: seq<Topic>)

  const InitialPage := Page("", false, "all", [])

  /**
   * The first render: the effect on `selectedPlatform` runs once on mount and starts loading the
   * initial tab. The second component is the key the load timer will fire with.
   */
  function Mount(p: Page): (r: (Page, string))
    ensures r.0.isLoading && r.1 == p.selected
    ensures r.0.(isLoading := p.isLoading) == p
  {
    (p.(isLoading := true), p.selected)
  }

  /**
   * A click on a tab. The tabs set `selectedPlatform`, and the effect reruns only when that value
   * changes, so a click on the current tab does nothing; any other tab is recorded and its load
   * started, with the key returned for the timer.
   */
  function ClickTab(p: Page, key: string): (r: (Page, Option<string>))
    ensures r.1.Some? <==> key != p.selected
    ensures key == p.selected ==> r.0 == p
    ensures key != p.selected ==>
      r.0.selected == key && r.0.isLoading && r.1 == Some(key)
      && r.0.(selected := p.selected, isLoading := p.isLoading) == p
  {
    if key == p.selected then (p, None) else (p.(selected := key, isLoading := true), Some(key))
  }

  /** A second click on the same tab starts no further load and changes nothing. */
  lemma ClickTabTwice(p: Page, key: string)
    ensures var once := ClickTab(p, key).0;
      ClickTab(once, key) == (once, None)
  {
  }

  /** The load timer fires with the key it was started for. */
  function CompleteLoad(p: Page, key: string): (r: Page)
    ensures r.topics == LoadTopics(key) && !r.isLoading
    ensures r.(topics := p.topics, isLoading := p.isLoading) == p
  {
    p.(topics := LoadTopics(key), isLoading := false)
  }

  /** What the search timer's callback sees: the query and platform at the time of the click. */
  datatype SearchJob = SearchJob(query: string, platform: string)

  datatype SearchStart = SearchStart(next: Page, notice: Notice, job: Option<SearchJob>)

  /** `handleSearch`, up to the timer: a blank query is refused and changes nothing. */
  function StartSearch(p: Page): (r: SearchStart)
    ensures IsBlank(p.query) ==> r == SearchStart(p, Error("Please enter a search term"), None)
    ensures !IsBlank(p.query) ==> r.next == p.(isLoading := true)
    ensures !IsBlank(p.query) ==> r.job == Some(SearchJob(p.query, p.selected))
    ensures !IsBlank(p.query) ==>
      r.notice == Info("Searching for trending topics related to \"" + p.query + "\"...")
  {
    if IsBlank(p.query) then SearchStart(p, Error("Please enter a search term"), None)
    else SearchStart(p.(isLoading := true), Info("Searching for trending topics related to \"" + p.query + "\"..."),
      Some(SearchJob(p.query, p.selected)))
  }

  /** The Search button: disabled while topics or results are loading. */
  function PressSearch(p: Page): (r: Option<SearchStart>)
    ensures r.None? <==> p.isLoading
    ensures r.Some? ==> r.value == StartSearch(p)
  {
    if p.isLoading then None else Some(StartSearch(p))
  }

  /** Once a search or a tab's load is under way, the button refuses until it completes. */
  lemma AtMostOneSearch(p: Page, key: string)
    ensures StartSearch(p).job.Some? ==> PressSearch(StartSearch(p).next).None?
    ensures key != p.selected ==> PressSearch(ClickTab(p, key).0).None?
    ensures PressSearch(Mount(p).0).None?
  {
  }

  /** The list a search looks in: the Twitter list for "all", otherwise the selected one. */
  function SearchSource(key: string): (r: seq<Topic>)
    ensures key == "all" ==> r == TwitterTopics
    ensures key != "all" ==> r == TopicsOrEmpty(key)
  {
    TopicsOrEmpty(if key == "all" then "twitter" else key)
  }

  /** The topic or the description contains the query, ignoring ASCII case. */
  predicate Matches(t: Topic, q: string) {
    Includes(ToLower(t.topic), ToLower(q)) || Includes(ToLower(t.description), ToLower(q))
  }

  /** The three entries shown when nothing matches. */
  function Fallback(q: string): (r: seq<Topic>)
    ensures |r| == 3
    ensures r[0].id == 99 && r[1].id == 100 && r[2].id == 101
    ensures r[0].topic == q && r[1].topic == q + " Guide" && r[2].topic == q + " Tips"
  {
    [Topic(99, q, "87K", Up, "New trending topic related to \"" + q + "\""),
     Topic(100, q + " Guide", "56K", Up, "How-to guides about \"" + q + "\""),
     Topic(101, q + " Tips", "43K", Stable, "Tips and tricks for \"" + q + "\"")]
  }

  /** The search filter: the matching topics in order, or the fallback when none match. */
  function SearchResults(source: seq<Topic>, q: string): (r: seq<Topic>)
    ensures |r| > 0
    ensures (exists t :: t in source && Matches(t, q)) ==>
      (forall t :: t in r <==> t in source && Matches(t, q)) &&
      IsSubsequence(r, source) &&
      (forall t :: multiset(r)[t] == if Matches(t, q) then multiset(source)[t] else 0)
    ensures (forall t :: t in source ==> !Matches(t, q)) ==> r == Fallback(q)
  {
    var keep := (t: Topic) => Matches(t, q);
    var found := Filter(source, keep);
    FilterIsSubsequence(source, keep);
    FilterMultiset(source, keep);
    if |found| > 0 then found
    else
      assert forall t :: t in source ==> !Matches(t, q) by {
        forall t | t in source ensures !Matches(t, q) {
          assert t !in found;
        }
      }
      Fallback(q)
  }

  /** The search timer fires with the captured query and platform. */
  function CompleteSearch(p: Page, job: SearchJob): (r: Page)
    ensures r.topics == SearchResults(SearchSource(job.platform), job.query) && !r.isLoading
    ensures |r.topics| > 0
    ensures r.(topics := p.topics, isLoading := p.isLoading) == p
  {
    p.(topics := SearchResults(SearchSource(job.platform), job.query), isLoading := false)
  }

  /** A search in the "all" view only ever returns Twitter topics or the fallback. */
  lemma AllViewSearchesTwitterOnly(q: string)
    ensures var r := SearchResults(SearchSource("all"), q);
      r == Fallback(q) || forall t :: t in r ==> t in TwitterTopics
  {
  }

  function Ids(ts: seq<Topic>): seq<int> {
    Map(ts, (t: Topic) => t.id)
  }

  /** The first key, in table order, whose list has a topic with this id; "twitter" when none does. */
  function IconKey(id: int): (key: string)
    ensures key in TopicKeys
  {
    IconKeyFrom(TopicKeys, id)
  }

  function IconKeyFrom(keys: seq<string>, id: int): (key: string)
    requires forall k :: k in keys ==> k in TopicKeys
    ensures key in TopicKeys
    decreases |keys|
  {
    if |keys| == 0 then "twitter"
    else if id in Ids(TopicsOrEmpty(keys[0])) then keys[0]
    else IconKeyFrom(keys[1..], id)
  }

  /** Every list numbers its topics 1 to 5. */
  lemma TopicIdsOneToFive(key: string)
    requires key in TopicKeys
    ensures Ids(TopicsOrEmpty(key)) == [1, 2, 3, 4, 5]
  {
  }

  /**
   * The "all" view's icon lookup always lands on Twitter: every list shares the ids 1 to 5
   * and Twitter comes first, while the fallback ids appear in no list.
   */
  lemma IconAlwaysTwitter(id: int)
    ensures IconKey(id) == "twitter"
  {
    TopicIdsOneToFive("twitter");
    if id !in Ids(TwitterTopics) {
      TopicIdsOneToFive("facebook");
      TopicIdsOneToFive("instagram");
      TopicIdsOneToFive("youtube");
      TopicIdsOneToFive("linkedin");
    }
  }
}
