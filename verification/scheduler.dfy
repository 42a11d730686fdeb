/**
 * The decision logic of the Scheduler page (`src/pages/Scheduler.tsx`): composing a
 * post, the preview it opens, the list filters and the calendar day list. None of its
 * handlers changes the catalogue of posts.
 */
module Scheduler {
  import opened Wrappers
  import opened Feedback
  import opened Seqs
  import opened Selection
  import opened Text
  import opened Data

  /** A filter select: "all" or one value. */
  datatype Choice<T> = All | Only(value: T)

  /** The "Create New Post" dialog and the preview dialog it leads to. */
  datatype Composer = Composer(
    createOpen: bool,
    previewOpen: bool,
    content: string,
    platforms: seq<Platform>,
    postType: string)

  datatype Page = Page(
    posts: seq<Post>,
    composer: Composer,
    statusFilter: Choice<Status>,
    platformFilter: Choice<Platform>,
    date: Option<Date>,
    detailOpen: bool,
    selectedPostId: Option<string>)

  /** A handler's resulting page and the toast it raises, if any. */
  datatype Transition = Transition(next: Page, notice: Option<Notice>)

  /** The page as first rendered: empty composer on the text tab, both filters on "all", today selected. */
  function InitialPage(posts: seq<Post>, today: Date): (p: Page)
    ensures p.posts == posts && p.date == Some(today)
    ensures p.statusFilter == All && p.platformFilter == All
    ensures p.composer.content == "" && p.composer.platforms == [] && p.composer.postType == "text"
    ensures !p.composer.createOpen && !p.composer.previewOpen
  {
    Page(posts, Composer(false, false, "", [], "text"), All, All, Some(today), false, None)
  }

  /** `handlePlatformToggle`: selects or deselects one platform for the new post. */
  function TogglePlatform(page: Page, p: Platform): (r: Page)
    ensures p in r.composer.platforms <==> p !in page.composer.platforms
    ensures forall q :: q != p ==> (q in r.composer.platforms <==> q in page.composer.platforms)
    ensures p !in page.composer.platforms ==> r.composer.platforms == page.composer.platforms + [p]
    ensures NoDuplicates(page.composer.platforms) ==> NoDuplicates(r.composer.platforms)
    ensures r.(composer := r.composer.(platforms := page.composer.platforms)) == page
  {
    page.(composer := page.composer.(platforms := Toggle(page.composer.platforms, p)))
  }

  const ContentMissing := "Please enter content for your post"
  const PlatformMissing := "Please select at least one platform"

  /**
   * `handleCreatePost` and `handlePostNow`, which share one body: open the preview when
   * there is content and a platform. Content is checked first, and only for emptiness.
   */
  function RequestPreview(page: Page): (t: Transition)
    ensures page.composer.content == "" ==> t == Transition(page, Some(Error(ContentMissing)))
    ensures page.composer.content != "" && |page.composer.platforms| == 0 ==>
      t == Transition(page, Some(Error(PlatformMissing)))
    ensures t.notice.None? <==> page.composer.content != "" && |page.composer.platforms| > 0
    ensures t.notice.None? ==> t.next == page.(composer := page.composer.(previewOpen := true))
    ensures t.next.posts == page.posts
  {
    if page.composer.content == "" then Transition(page, Some(Error(ContentMissing)))
    else if |page.composer.platforms| == 0 then Transition(page, Some(Error(PlatformMissing)))
    else Transition(page.(composer := page.composer.(previewOpen := true)), None)
  }

  /**
   * The create dialog's `onOpenChange`: the "Create Post" trigger opens it, Cancel and
   * dismissal close it. The draft is kept either way.
   */
  function SetCreateOpen(page: Page, open: bool): (r: Page)
    ensures r.composer.createOpen == open
    ensures r.(composer := r.composer.(createOpen := page.composer.createOpen)) == page
  {
    page.(composer := page.composer.(createOpen := open))
  }

  /** The preview dialog's `onOpenChange`; "Back to Edit" closes it with the draft kept. */
  function SetPreviewOpen(page: Page, open: bool): (r: Page)
    ensures r.composer.previewOpen == open
    ensures r.(composer := r.composer.(previewOpen := page.composer.previewOpen)) == page
  {
    page.(composer := page.composer.(previewOpen := open))
  }

  /** Opening the preview and going back to edit returns to exactly the page before. */
  lemma BackToEditRoundTrip(page: Page)
    requires !page.composer.previewOpen
    ensures RequestPreview(page).notice.None? ==> SetPreviewOpen(RequestPreview(page).next, false) == page
  {
  }

  /** Cancelling a freshly opened create dialog returns to exactly the page before. */
  lemma CancelCreateRoundTrip(page: Page)
    requires !page.composer.createOpen
    ensures SetCreateOpen(SetCreateOpen(page, true), false) == page
  {
  }

  datatype Confirmation = PostNow | ScheduleIt

  /**
   * `handleConfirmPost` / `handleConfirmSchedule`: announce, close both dialogs and clear
   * the composer. No post is created or changed.
   */
  function Confirm(page: Page, kind: Confirmation): (t: Transition)
    ensures t.next.posts == page.posts
    ensures !t.next.composer.createOpen && !t.next.composer.previewOpen
    ensures t.next.composer.content == "" && t.next.composer.platforms == []
    ensures t.next.composer.postType == page.composer.postType
    ensures t.next.(composer := page.composer) == page
    ensures t.notice.Some? && t.notice.value.Success?
    ensures kind == PostNow ==>
      t.notice.value.message == "Post published immediately to " + NatToString(|page.composer.platforms|) + " platforms!"
    ensures kind == ScheduleIt ==> t.notice.value.message == "Post scheduled successfully!"
  {
    var message := match kind
      case PostNow => "Post published immediately to " + NatToString(|page.composer.platforms|) + " platforms!"
      case ScheduleIt => "Post scheduled successfully!";
    Transition(page.(composer := page.composer.(createOpen := false, previewOpen := false, content := "", platforms := [])),
               Some(Success(message)))
  }

  datatype PostAction = Approve | Reject | Delete

  /** `handleApprove`, `handleReject`, `handleDeleteClick`: a toast and nothing else. */
  function ActOnPost(page: Page, action: PostAction, postId: string): (t: Transition)
    ensures t.next == page
    ensures t.notice.Some?
    ensures t.notice.value.Error? <==> action == Reject
  {
    match action
    case Approve => Transition(page, Some(Success("Post approved successfully!")))
    case Reject => Transition(page, Some(Error("Post rejected")))
    case Delete => Transition(page, Some(Success("Post deleted successfully!")))
  }

  /** No sequence of approvals, rejections and deletions changes any post. */
  lemma {:induction false} PostActionsKeepPosts(page: Page, actions: seq<(PostAction, string)>)
    ensures ApplyPostActions(page, actions) == page
    decreases |actions|
  {
    if |actions| > 0 {
      PostActionsKeepPosts(ActOnPost(page, actions[0].0, actions[0].1).next, actions[1..]);
    }
  }

  function ApplyPostActions(page: Page, actions: seq<(PostAction, string)>): Page
    decreases |actions|
  {
    if |actions| == 0 then page
    else ApplyPostActions(ActOnPost(page, actions[0].0, actions[0].1).next, actions[1..])
  }

  /** `handlePostClick`: open the detail dialog on one post. */
  function OpenDetail(page: Page, postId: string): (r: Page)
    ensures r.detailOpen && r.selectedPostId == Some(postId)
    ensures r.(detailOpen := page.detailOpen, selectedPostId := page.selectedPostId) == page
  {
    page.(selectedPostId := Some(postId), detailOpen := true)
  }

  /** The detail dialog's Close button, or dismissing the dialog: it closes and nothing else changes. */
  function CloseDetail(page: Page): (r: Page)
    ensures !r.detailOpen
    ensures r.(detailOpen := page.detailOpen) == page
  {
    page.(detailOpen := false)
  }

  /**
   * The detail dialog's Approve and Reject buttons: the handler, then the dialog closes. The
   * buttons are shown for a pending post only; the handlers never look at the status.
   */
  function DialogAction(page: Page, action: PostAction, postId: string): (t: Transition)
    requires action != Delete
    ensures !t.next.detailOpen
    ensures t.next.(detailOpen := page.detailOpen) == page
    ensures t.notice.Some? && (t.notice.value.Error? <==> action == Reject)
  {
    var acted := ActOnPost(page, action, postId);
    Transition(CloseDetail(acted.next), acted.notice)
  }

  /** Opening a post and acting on it from the dialog leaves the page as it was, except the selected id. */
  lemma DialogRoundTrip(page: Page, action: PostAction, postId: string)
    requires action != Delete && !page.detailOpen
    ensures DialogAction(OpenDetail(page, postId), action, postId).next == page.(selectedPostId := Some(postId))
  {
  }


  /** `mockPosts.find(post => post.id === selectedPostId)`. */
  function FindPost(posts: seq<Post>, postId: string): (r: Option<Post>)
    ensures r.Some? ==> r.value in posts && r.value.id == postId
    ensures r.Some? ==>
      exists i :: 0 <= i < |posts| && posts[i] == r.value && forall j :: 0 <= j < i ==> posts[j].id != postId
    ensures r.None? <==> forall p :: p in posts ==> p.id != postId
    decreases |posts|
  {
    if |posts| == 0 then None
    else if posts[0].id == postId then Some(posts[0])
    else
      var r := FindPost(posts[1..], postId);
      assert forall p :: p in posts[1..] ==> p in posts;
      assert r.Some? ==> forall j :: 0 <= j < 1 ==> posts[j].id != postId;
      r
  }

  predicate StatusMatches(f: Choice<Status>, s: Status) {
    f.All? || f.value == s
  }

  predicate PlatformMatches(f: Choice<Platform>, p: Platform) {
    f.All? || f.value == p
  }

  predicate MatchesFilters(sf: Choice<Status>, pf: Choice<Platform>, p: Post) {
    StatusMatches(sf, p.status) && PlatformMatches(pf, p.platform)
  }

  /** `filteredPosts`: the posts passing both filters, in catalogue order. */
  function FilteredPosts(posts: seq<Post>, sf: Choice<Status>, pf: Choice<Platform>): (r: seq<Post>)
    ensures forall p :: p in r <==> p in posts && StatusMatches(sf, p.status) && PlatformMatches(pf, p.platform)
    ensures forall p :: multiset(r)[p] == if MatchesFilters(sf, pf, p) then multiset(posts)[p] else 0
    ensures IsSubsequence(r, posts)
    ensures sf == All && pf == All ==> r == posts
  {
    var keep := (p: Post) => MatchesFilters(sf, pf, p);
    FilterIsSubsequence(posts, keep);
    FilterMultiset(posts, keep);
    Filter(posts, keep)
  }

  /** The two filters compose: filtering by status and then by platform is the combined filter. */
  lemma {:induction false} FiltersCompose(posts: seq<Post>, sf: Choice<Status>, pf: Choice<Platform>)
    ensures FilteredPosts(FilteredPosts(posts, sf, All), All, pf) == FilteredPosts(posts, sf, pf)
    decreases |posts|
  {
    if |posts| > 0 {
      FiltersCompose(posts[1..], sf, pf);
    }
  }

  /** The calendar list: the filtered posts scheduled on the selected day; none when no day is selected. */
  function DayPosts(filtered: seq<Post>, date: Option<Date>): (r: seq<Post>)
    ensures forall p :: p in r <==> p in filtered && date == Some(p.scheduledFor)
    ensures forall p :: multiset(r)[p] == if date == Some(p.scheduledFor) then multiset(filtered)[p] else 0
    ensures IsSubsequence(r, filtered)
    ensures date.None? ==> r == []
  {
    var keep := (p: Post) => date.Some? && p.scheduledFor.day == date.value.day
      && p.scheduledFor.month == date.value.month && p.scheduledFor.year == date.value.year;
    FilterIsSubsequence(filtered, keep);
    FilterMultiset(filtered, keep);
    Filter(filtered, keep)
  }

  /** "No posts scheduled for this date" shows exactly when no visible post falls on the selected day. */
  lemma EmptyDayMessage(page: Page)
    ensures var visible := FilteredPosts(page.posts, page.statusFilter, page.platformFilter);
      |DayPosts(visible, page.date)| == 0 <==>
        forall p :: p in page.posts && MatchesFilters(page.statusFilter, page.platformFilter, p) ==>
          page.date != Some(p.scheduledFor)
  {
    var visible := FilteredPosts(page.posts, page.statusFilter, page.platformFilter);
    var day := DayPosts(visible, page.date);
    if |day| > 0 {
      assert day[0] in day;
    }
  }

  /** The platform buttons of the composer, in display order. */
  const PlatformButtons: seq<Platform> := AllPlatforms

  /** Whether a post type offers a platform's button: threads are Twitter-only, YouTube uploads YouTube-only. */
  predicate Offers(postType: string, p: Platform) {
    if postType == "thread" then p == Twitter
    else if postType == "youtube" then p == Youtube
    else true
  }

  /** The buttons offered for a post type, in display order. */
  function OfferedPlatforms(postType: string): (r: seq<Platform>)
    ensures forall p :: p in r <==> Offers(postType, p)
    ensures IsSubsequence(r, PlatformButtons)
  {
    var keep := (p: Platform) => Offers(postType, p);
    PlatformsEnumerated();
    FilterIsSubsequence(PlatformButtons, keep);
    Filter(PlatformButtons, keep)
  }

  /** The offered lists, written out. */
  lemma OfferedPlatformsByType(postType: string)
    ensures postType == "thread" ==> OfferedPlatforms(postType) == [Twitter]
    ensures postType == "youtube" ==> OfferedPlatforms(postType) == [Youtube]
    ensures postType != "thread" && postType != "youtube" ==> OfferedPlatforms(postType) == PlatformButtons
  {
    var keep := (p: Platform) => Offers(postType, p);
    if postType == "thread" {
      assert multiset(PlatformButtons)[Twitter] == 1;
      FilterSingle(PlatformButtons, keep, Twitter);
    } else if postType == "youtube" {
      assert multiset(PlatformButtons)[Youtube] == 1;
      FilterSingle(PlatformButtons, keep, Youtube);
    }
  }

  /** `getPlatformName`: the platform literal with its first letter capitalised. */
  function PlatformName(p: Platform): (name: string)
    ensures var id := PlatformId(p); |name| == |id| && name[0] == UpperChar(id[0]) && name[1..] == id[1..]
    ensures ToLower(name) == PlatformId(p)
  {
    var id := PlatformId(p);
    var name := [UpperChar(id[0])] + id[1..];
    assert forall i :: 0 <= i < |id| ==> 'a' <= id[i] <= 'z';
    assert ToLower(name) == id;
    name
  }

  /** No two platforms are displayed under the same name. */
  lemma PlatformNamesDistinct(p: Platform, q: Platform)
    requires p != q
    ensures PlatformName(p) != PlatformName(q)
  {
    PlatformIdRoundTrip(p);
    PlatformIdRoundTrip(q);
  }

  /** The detail dialog spells LinkedIn as "Linkedin", unlike the composer button. */
  lemma LinkedinName()
    ensures PlatformName(Linkedin) == "Linkedin"
  {
  }

  const TweetSeparator := "\n\n"

  /** The thread preview: one tweet card per blank-line separated segment. */
  function ThreadTweets(content: string): (tweets: seq<string>)
    ensures |tweets| >= 1
    ensures Join(tweets, TweetSeparator) == content
    ensures SeparatorFree(tweets, TweetSeparator)
    ensures LeftmostCuts(tweets, TweetSeparator)
  {
    Split(content, TweetSeparator)
  }

  /** Three newlines make an empty first tweet and a second holding one newline, never the reverse. */
  lemma ThreeNewlines()
    ensures ThreadTweets("\n\n\n") == ["", "\n"]
  {
    var parts := ["", "\n"];
    assert Join(parts, TweetSeparator) == "\n\n\n";
    assert !OccursAt("\n", TweetSeparator, 0);
    SplitUnique("\n\n\n", TweetSeparator, parts);
  }

  datatype Attachment = NoAttachment | ImagePlaceholder | VideoPlaceholder

  datatype PanelBody =
    | ThreadCards(tweets: seq<string>)
    | VideoCard(description: string)
    | FeedCard(text: string, attachment: Attachment)

  datatype Panel = Panel(platform: Platform, body: PanelBody)

  function PanelFor(p: Platform, content: string, postType: string): PanelBody {
    if postType == "thread" && p == Twitter then ThreadCards(ThreadTweets(content))
    else if postType == "youtube" && p == Youtube then VideoCard(content)
    else FeedCard(content,
      if postType == "image" then ImagePlaceholder
      else if postType == "video" then VideoPlaceholder
      else NoAttachment)
  }

  /** The preview dialog: one panel per selected platform, each showing the whole content. */
  function Preview(c: Composer): (panels: seq<Panel>)
    ensures |panels| == |c.platforms|
    ensures forall i :: 0 <= i < |panels| ==> panels[i].platform == c.platforms[i]
    ensures forall i :: 0 <= i < |panels| ==>
      (panels[i].body.ThreadCards? <==> c.postType == "thread" && c.platforms[i] == Twitter)
    ensures forall i :: 0 <= i < |panels| && panels[i].body.ThreadCards? ==>
      Join(panels[i].body.tweets, TweetSeparator) == c.content
    ensures forall i :: 0 <= i < |panels| && !panels[i].body.ThreadCards? ==>
      (panels[i].body.VideoCard? && panels[i].body.description == c.content)
      || (panels[i].body.FeedCard? && panels[i].body.text == c.content)
  {
    Map(c.platforms, (p: Platform) => Panel(p, PanelFor(p, c.content, c.postType)))
  }
}
