/** The closed enumerations, records and constant tables of `src/lib/data.ts`. */
module Data {
  import opened Wrappers

  /** `PlatformType`: the six social platforms. */
  datatype Platform = Facebook | Instagram | Twitter | Youtube | Pinterest | Linkedin

  const AllPlatforms: seq<Platform> := [Facebook, Instagram, Twitter, Youtube, Pinterest, Linkedin]

  /** The string literal the source uses for each platform. */
  function PlatformId(p: Platform): string {
    match p
    case Facebook => "facebook"
    case Instagram => "instagram"
    case Twitter => "twitter"
    case Youtube => "youtube"
    case Pinterest => "pinterest"
    case Linkedin => "linkedin"
  }

  /** Reads a platform literal back; any other string names no platform. */
  function ParsePlatform(id: string): (r: Option<Platform>)
    ensures r.Some? ==> PlatformId(r.value) == id
    ensures r.None? ==> forall p :: PlatformId(p) != id
  {
    if id == "facebook" then Some(Facebook)
    else if id == "instagram" then Some(Instagram)
    else if id == "twitter" then Some(Twitter)
    else if id == "youtube" then Some(Youtube)
    else if id == "pinterest" then Some(Pinterest)
    else if id == "linkedin" then Some(Linkedin)
    else None
  }

  lemma PlatformIdRoundTrip(p: Platform)
    ensures ParsePlatform(PlatformId(p)) == Some(p)
  {
  }

  /** `PlatformType` has exactly six members, each listed once. */
  lemma PlatformsEnumerated()
    ensures |AllPlatforms| == 6
    ensures forall p :: p in AllPlatforms
    ensures forall i, j :: 0 <= i < j < |AllPlatforms| ==> AllPlatforms[i] != AllPlatforms[j]
  {
    forall p: Platform ensures p in AllPlatforms {
      match p
      case Facebook => assert AllPlatforms[0] == p;
      case Instagram => assert AllPlatforms[1] == p;
      case Twitter => assert AllPlatforms[2] == p;
      case Youtube => assert AllPlatforms[3] == p;
      case Pinterest => assert AllPlatforms[4] == p;
      case Linkedin => assert AllPlatforms[5] == p;
    }
  }

  /** `Post.status`. */
  datatype Status = Draft | Pending | Scheduled | Published

  const AllStatuses: seq<Status> := [Draft, Pending, Scheduled, Published]

  lemma StatusesEnumerated()
    ensures |AllStatuses| == 4
    ensures forall s :: s in AllStatuses
    ensures forall i, j :: 0 <= i < j < |AllStatuses| ==> AllStatuses[i] != AllStatuses[j]
  {
    forall s: Status ensures s in AllStatuses {
      match s
      case Draft => assert AllStatuses[0] == s;
      case Pending => assert AllStatuses[1] == s;
      case Scheduled => assert AllStatuses[2] == s;
      case Published => assert AllStatuses[3] == s;
    }
  }

  /** A local calendar day: what `getFullYear`, `getMonth` and `getDate` read off a `Date`. */
  datatype Date = Date(year: int, month: int, day: int)

  datatype Stats = Stats(likes: int, comments: int, shares: int, views: int)

  datatype Post = Post(
    id: string,
    title: string,
    content: string,
    image: Option<string>,
    platform: Platform,
    scheduledFor: Date,
    status: Status,
    stats: Option<Stats>)

  /** One day of `AnalyticsData`. */
  datatype DayStats = DayStats(date: string, likes: nat, comments: nat, shares: nat, followers: nat)

  /**
   * `mockPosts`. Their scheduled days are offsets from today (tomorrow, the day after,
   * three days on, today, yesterday); `dayAt(k)` is the calendar day `k` days from today.
   */
  function MockPosts(dayAt: int -> Date): seq<Post> {
    [ Post("1", "New Product Launch",
           "Excited to announce our new product line! Coming soon to stores near you.",
           Some("https://images.unsplash.com/photo-1511556532299-8f662fc26c06"),
           Instagram, dayAt(1), Scheduled, Some(Stats(125, 23, 12, 1200))),
      Post("2", "Customer Testimonial",
           "Our customers love our services! Check out this testimonial from Jane D.",
           None, Facebook, dayAt(2), Draft, None),
      Post("3", "Weekly Tips",
           "Here are 5 tips to improve your productivity this week!",
           Some("https://images.unsplash.com/photo-1484480974693-6ca0a78fb36b"),
           Twitter, dayAt(3), Pending, None),
      Post("4", "Tutorial Video",
           "Watch our new tutorial on how to use our product effectively.",
           None, Youtube, dayAt(0), Published, Some(Stats(85, 12, 5, 750))),
      Post("5", "Inspirational Design",
           "Get inspired by these beautiful designs for your next project.",
           Some("https://images.unsplash.com/photo-1517245386807-bb43f82c33c4"),
           Pinterest, dayAt(-1), Published, Some(Stats(210, 15, 45, 2300)))
    ]
  }

  ghost predicate StatsNonNegative(s: Stats) {
    s.likes >= 0 && s.comments >= 0 && s.shares >= 0 && s.views >= 0
  }

  function PostIds(posts: seq<Post>): (ids: seq<string>)
    ensures |ids| == |posts|
    ensures forall i :: 0 <= i < |posts| ==> ids[i] == posts[i].id
  {
    seq(|posts|, i requires 0 <= i < |posts| => posts[i].id)
  }

  /** The mock posts have pairwise distinct ids. */
  lemma MockPostIdsDistinct(dayAt: int -> Date)
    ensures var posts := MockPosts(dayAt);
      forall i, j :: 0 <= i < j < |posts| ==> posts[i].id != posts[j].id
  {
    var posts := MockPosts(dayAt);
    assert PostIds(posts) == ["1", "2", "3", "4", "5"];
  }

  /** Every counter present on a mock post is non-negative. */
  lemma MockPostStatsNonNegative(dayAt: int -> Date)
    ensures var posts := MockPosts(dayAt);
      forall i :: 0 <= i < |posts| && posts[i].stats.Some? ==> StatsNonNegative(posts[i].stats.value)
  {
  }

  const DefaultColor := "#9b87f5"

  /** The `switch` of `getPlatformColor` over whatever string reaches it, default branch included. */
  function ColorForId(id: string): string {
    if id == "facebook" then "#1877F2"
    else if id == "instagram" then "#E1306C"
    else if id == "twitter" then "#1DA1F2"
    else if id == "youtube" then "#FF0000"
    else if id == "pinterest" then "#E60023"
    else if id == "linkedin" then "#0077B5"
    else DefaultColor
  }

  /** `getPlatformColor`: a six-digit hex colour, never the fallback purple. */
  function PlatformColor(p: Platform): (c: string)
    ensures |c| == 7 && c[0] == '#'
    ensures c != DefaultColor
  {
    ColorForId(PlatformId(p))
  }

  /** No two platforms share a colour. */
  lemma ColorsDistinct(p: Platform, q: Platform)
    requires p != q
    ensures PlatformColor(p) != PlatformColor(q)
  {
  }

  const DefaultIcon := "Globe"

  /** The `switch` of `getPlatformIcon`, default branch included. */
  function IconForId(id: string): string {
    if id == "facebook" then "Facebook"
    else if id == "instagram" then "Instagram"
    else if id == "twitter" then "Twitter"
    else if id == "youtube" then "Youtube"
    else if id == "pinterest" then "PinIcon"
    else if id == "linkedin" then "Linkedin"
    else DefaultIcon
  }

  /** `getPlatformIcon`: never the fallback globe; Pinterest is drawn with the pin icon. */
  function PlatformIcon(p: Platform): (icon: string)
    ensures icon != DefaultIcon
    ensures p == Pinterest <==> icon == "PinIcon"
  {
    IconForId(PlatformId(p))
  }

  /** Every platform has its own icon. */
  lemma IconsDistinct(p: Platform, q: Platform)
    requires p != q
    ensures PlatformIcon(p) != PlatformIcon(q)
  {
  }

  datatype AiModel = AiModel(id: string, name: string, description: string, isDefault: bool)

  const AiModels: seq<AiModel> := [
    AiModel("gpt4o", "GPT-4o", "Most powerful model for diverse content creation", true),
    AiModel("claude", "Claude 3.5 Sonnet", "Excellent for nuanced, creative, and factual content", false)
  ]

  function CountDefaults(models: seq<AiModel>): nat {
    if |models| == 0 then 0
    else (if models[0].isDefault then 1 else 0) + CountDefaults(models[1..])
  }

  /** Exactly one model is marked as the default. */
  lemma OneDefaultModel()
    ensures CountDefaults(AiModels) == 1
  {
    assert AiModels[1..][1..] == [];
  }
}
