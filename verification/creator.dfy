/**
 * The Creator page (`src/pages/Creator.tsx`): platform selection, the formats offered
 * for it, the generate buttons and the templated results they produce. Each generation
 * is a start step (validation, the busy flag) and a completion step that receives the
 * values captured when the button was pressed.
 */
module Creator {
  import opened Wrappers
  import opened Feedback
  import opened Seqs
  import opened Selection
  import opened Text
  import opened Data

  datatype PlatformEntry = PlatformEntry(platform: Platform, name: string, formats: seq<string>)

  /** The text-content platforms and their formats, in table order. */
  const TextPlatforms: seq<PlatformEntry> := [
    PlatformEntry(Facebook, "Facebook", ["post", "article"]),
    PlatformEntry(Instagram, "Instagram", ["post"]),
    PlatformEntry(Twitter, "Twitter", ["tweet", "thread"]),
    PlatformEntry(Youtube, "Youtube", ["description", "thumbnail", "heading"]),
    PlatformEntry(Linkedin, "LinkedIn", ["post", "article"])
  ]

  /** The image platforms; they carry no formats. */
  const ImagePlatforms: seq<PlatformEntry> := [
    PlatformEntry(Facebook, "Facebook", []),
    PlatformEntry(Instagram, "Instagram", []),
    PlatformEntry(Twitter, "Twitter", []),
    PlatformEntry(Pinterest, "Pinterest", [])
  ]

  /** The video platforms; they carry no formats. */
  const VideoPlatforms: seq<PlatformEntry> := [
    PlatformEntry(Facebook, "Facebook", []),
    PlatformEntry(Instagram, "Instagram", []),
    PlatformEntry(Youtube, "Youtube", [])
  ]

  /** The page state. */
  datatype Studio = Studio(
    isGenerating: bool,
    contentType: string,
    prompt: string,
    generated: string,
    selected: seq<Platform>,
    creativity: int,
    format: string,
    imageType: string,
    viralTopic: string,
    viralIdeas: string)

  const InitialStudio := Studio(false, "text", "", "", [], 50, "post", "aiImage", "", "")

  /** `handlePlatformToggle`, the same toggle as the Scheduler's. */
  function TogglePlatform(s: Studio, p: Platform): (r: Studio)
    ensures p in r.selected <==> p !in s.selected
    ensures forall q :: q != p ==> (q in r.selected <==> q in s.selected)
    ensures p !in s.selected ==> r.selected == s.selected + [p]
    ensures r.(selected := s.selected) == s
  {
    s.(selected := Toggle(s.selected, p))
  }

  /** `getPlatformsList`: the platform table for the content type, the text table by default. */
  function PlatformsList(contentType: string): (r: seq<PlatformEntry>)
    ensures contentType == "image" ==> r == ImagePlatforms
    ensures contentType == "video" ==> r == VideoPlatforms
    ensures contentType != "image" && contentType != "video" ==> r == TextPlatforms
  {
    if contentType == "image" then ImagePlatforms
    else if contentType == "video" then VideoPlatforms
    else TextPlatforms
  }

  function EntryPlatforms(entries: seq<PlatformEntry>): seq<Platform> {
    Map(entries, (e: PlatformEntry) => e.platform)
  }

  /** Pinterest is only offered for images and LinkedIn only for text. */
  lemma PlatformListMembership(contentType: string)
    ensures Pinterest in EntryPlatforms(PlatformsList(contentType)) <==> contentType == "image"
    ensures Linkedin in EntryPlatforms(PlatformsList(contentType)) <==> contentType != "image" && contentType != "video"
  {
    assert EntryPlatforms(TextPlatforms) == [Facebook, Instagram, Twitter, Youtube, Linkedin];
    assert EntryPlatforms(ImagePlatforms) == [Facebook, Instagram, Twitter, Pinterest];
    assert EntryPlatforms(VideoPlatforms) == [Facebook, Instagram, Youtube];
  }

  /** `textPlatforms.find(p => p.id === id)`. */
  function FindEntry(entries: seq<PlatformEntry>, p: Platform): (r: Option<PlatformEntry>)
    ensures r.Some? ==> r.value in entries && r.value.platform == p
    ensures r.None? ==> forall e :: e in entries ==> e.platform != p
    decreases |entries|
  {
    if |entries| == 0 then None
    else if entries[0].platform == p then Some(entries[0])
    else FindEntry(entries[1..], p)
  }

  /** The first element of a filtered sequence is the first element that passes. */
  lemma {:induction false} FilterHead<T(!new)>(s: seq<T>, keep: T -> bool)
    requires |Filter(s, keep)| > 0
    ensures exists k ::
      0 <= k < |s| && Filter(s, keep)[0] == s[k] && keep(s[k]) && (forall j :: 0 <= j < k ==> !keep(s[j]))
    decreases |s|
  {
    if !keep(s[0]) {
      FilterHead(s[1..], keep);
      var k :| 0 <= k < |s[1..]| && Filter(s[1..], keep)[0] == s[1..][k] && keep(s[1..][k])
        && forall j :: 0 <= j < k ==> !keep(s[1..][j]);
      assert forall j :: 1 <= j < k + 1 ==> s[j] == s[1..][j - 1];
      assert Filter(s, keep)[0] == s[k + 1];
    }
  }

  /** The formats of the first text platform, in table order, that is selected. */
  ghost predicate FirstSelectedFormats(selected: seq<Platform>, r: seq<string>) {
    if exists k :: 0 <= k < |TextPlatforms| && TextPlatforms[k].platform in selected then
      exists k :: 0 <= k < |TextPlatforms| && TextPlatforms[k].platform in selected
        && (forall j :: 0 <= j < k ==> TextPlatforms[j].platform !in selected)
        && r == TextPlatforms[k].formats
    else r == []
  }

  /**
   * `getAvailableFormats`: nothing without a selection; the selected platform's formats for a
   * single selection; for several, the formats of the first selected text platform in table order.
   */
  function AvailableFormats(selected: seq<Platform>): (r: seq<string>)
    ensures |selected| == 0 ==> r == []
    ensures |selected| == 1 ==> r == (match FindEntry(TextPlatforms, selected[0])
      case Some(e) => e.formats
      case None => [])
    ensures |selected| > 1 ==> FirstSelectedFormats(selected, r)
  {
    if |selected| == 0 then []
    else if |selected| > 1 then
      var keep := (e: PlatformEntry) => e.platform in selected;
      var data := Filter(TextPlatforms, keep);
      if |data| > 0 then
        FilterHead(TextPlatforms, keep);
        data[0].formats
      else
        assert forall k :: 0 <= k < |TextPlatforms| ==> TextPlatforms[k] in TextPlatforms;
        []
    else
      match FindEntry(TextPlatforms, selected[0])
      case Some(e) => e.formats
      case None => []
  }

  /** Row `k` is the first selected text platform, so its formats are the several-platform answer. */
  lemma FirstSelectedAt(selected: seq<Platform>, k: nat, r: seq<string>)
    requires k < |TextPlatforms| && TextPlatforms[k].platform in selected
    requires forall j :: 0 <= j < k ==> TextPlatforms[j].platform !in selected
    requires r == TextPlatforms[k].formats
    ensures FirstSelectedFormats(selected, r)
  {
  }

  /** The text table lists each platform once. */
  lemma TextPlatformsDistinct()
    ensures forall i, j :: 0 <= i < j < |TextPlatforms| ==> TextPlatforms[i].platform != TextPlatforms[j].platform
  {
  }

  /** A single selection of the platform in row `k` gets that row's formats under both rules. */
  lemma SingleSelectionAt(p: Platform, k: nat)
    requires k < |TextPlatforms| && TextPlatforms[k].platform == p
    ensures FirstSelectedFormats([p], AvailableFormats([p]))
  {
    TextPlatformsDistinct();
    assert TextPlatforms[k] in TextPlatforms;
    var e := FindEntry(TextPlatforms, p).value;
    var i :| 0 <= i < |TextPlatforms| && TextPlatforms[i] == e;
    assert i == k;
    FirstSelectedAt([p], k, AvailableFormats([p]));
  }

  /** A single selection gets what the several-platform rule would give it. */
  lemma SingleSelectionAgrees(p: Platform)
    ensures FirstSelectedFormats([p], AvailableFormats([p]))
  {
    match p
    case Facebook => SingleSelectionAt(p, 0);
    case Instagram => SingleSelectionAt(p, 1);
    case Twitter => SingleSelectionAt(p, 2);
    case Youtube => SingleSelectionAt(p, 3);
    case Linkedin => SingleSelectionAt(p, 4);
    case Pinterest =>
      assert forall k :: 0 <= k < |TextPlatforms| ==> TextPlatforms[k].platform != p;
      assert FindEntry(TextPlatforms, p).None?;
  }

  /** Switching tabs: new content type, and selection, format and image mode back to their defaults. */
  function ChangeTab(s: Studio, value: string): (r: Studio)
    ensures r.contentType == value
    ensures r.selected == [] && r.format == "post" && r.imageType == "aiImage"
    ensures r.prompt == s.prompt && r.generated == s.generated && r.isGenerating == s.isGenerating
    ensures r.(contentType := s.contentType, selected := s.selected, format := s.format, imageType := s.imageType) == s
  {
    s.(contentType := value, selected := [], format := "post", imageType := "aiImage")
  }

  /** What the generation timer's callback sees: the values at the time of the click. */
  datatype GenerateJob = GenerateJob(
    contentType: string,
    format: string,
    platforms: seq<Platform>,
    prompt: string,
    imageType: string)

  /** A start step either refuses with a toast, changing nothing, or sets the busy flag and leaves a job. */
  datatype Launch<J> = Refused(notice: Notice) | Launched(next: Studio, job: J)

  /** `handleGenerate`, up to the timer. */
  function StartGenerate(s: Studio): (l: Launch<GenerateJob>)
    ensures s.prompt == "" ==> l == Refused(Error("Please enter a prompt for the AI"))
    ensures s.prompt != "" && |s.selected| == 0 && s.contentType != "ideas" ==>
      l == Refused(Error("Please select at least one platform"))
    ensures l.Launched? <==> s.prompt != "" && (|s.selected| > 0 || s.contentType == "ideas")
    ensures l.Launched? ==> l.next == s.(isGenerating := true)
    ensures l.Launched? ==>
      l.job == GenerateJob(s.contentType, s.format, s.selected, s.prompt, s.imageType)
  {
    if s.prompt == "" then Refused(Error("Please enter a prompt for the AI"))
    else if |s.selected| == 0 && s.contentType != "ideas" then Refused(Error("Please select at least one platform"))
    else Launched(s.(isGenerating := true), GenerateJob(s.contentType, s.format, s.selected, s.prompt, s.imageType))
  }

  /** The Generate button: disabled while a generation is in flight. */
  function PressGenerate(s: Studio): (r: Option<Launch<GenerateJob>>)
    ensures r.None? <==> s.isGenerating
    ensures r.Some? ==> r.value == StartGenerate(s)
  {
    if s.isGenerating then None else Some(StartGenerate(s))
  }

  /** Once a generation has started, pressing again does nothing until it completes. */
  lemma AtMostOneGeneration(s: Studio)
    requires StartGenerate(s).Launched?
    ensures PressGenerate(StartGenerate(s).next).None?
  {
  }

  function PlatformIds(ps: seq<Platform>): seq<string> {
    Map(ps, PlatformId)
  }

  function TextHeader(format: string, platforms: seq<Platform>): string {
    "Here's your generated " + format + " for " + Join(PlatformIds(platforms), ", ") + ":\n\n\U{2728} "
  }

  const TextFooter := "\n\nOur team has been working hard to bring you the best experience possible. We can't wait to share more exciting updates with you soon! #Innovation #Growth #SocialMedia"

  const AiImagePlaceholder := "AI-generated image would be displayed here"

  const VideoScript :=
    "Video script and storyboard generated based on your prompt. Use this with video creation tools like Veed.io:\n\n"
    + "Scene 1: Intro - Brief overview of the topic\n"
    + "Scene 2: Problem statement\n"
    + "Scene 3: Solution reveal\n"
    + "Scene 4: Benefits showcase\n"
    + "Scene 5: Call to action\n\n"
    + "Recommended visuals: bright colors, minimal text overlays, authentic footage"

  function ImagePromptText(imageType: string, prompt: string): string {
    "Here's a prompt to use on " + imageType + ":\n\n\"" + prompt
      + "\" - Create a vibrant, professional image showing " + prompt
      + " with natural lighting and engaging composition. Use colors that align with your brand identity."
  }

  /** The templated result the timer's callback stores. */
  function GeneratedContent(job: GenerateJob): (r: string)
    ensures job.contentType == "text" ==> r == TextHeader(job.format, job.platforms) + job.prompt + TextFooter
    ensures job.contentType == "image" && job.imageType == "aiImage" ==> r == AiImagePlaceholder
    ensures job.contentType == "image" && job.imageType != "aiImage" ==> Includes(r, job.prompt) && Includes(r, job.imageType)
    ensures job.contentType == "video" ==> r == VideoScript
    ensures job.contentType !in {"text", "image", "video"} ==> r == ""
  {
    if job.contentType == "text" then TextHeader(job.format, job.platforms) + job.prompt + TextFooter
    else if job.contentType == "image" then
      if job.imageType == "aiImage" then AiImagePlaceholder
      else
        var r := ImagePromptText(job.imageType, job.prompt);
        var pre := "Here's a prompt to use on " + job.imageType + ":\n\n\"";
        assert OccursAt(r, job.imageType, |"Here's a prompt to use on "|);
        assert OccursAt(r, job.prompt, |pre|);
        r
    else if job.contentType == "video" then VideoScript
    else ""
  }

  /** The text result determines the prompt: different prompts give different results. */
  lemma TextResultDeterminesPrompt(j1: GenerateJob, j2: GenerateJob)
    requires j1.contentType == "text" && j2.contentType == "text"
    requires j1.format == j2.format && j1.platforms == j2.platforms
    requires GeneratedContent(j1) == GeneratedContent(j2)
    ensures j1.prompt == j2.prompt
  {
    var h := TextHeader(j1.format, j1.platforms);
    var r1 := GeneratedContent(j1);
    assert r1[|h|..|r1| - |TextFooter|] == j1.prompt;
    assert GeneratedContent(j2)[|h|..|r1| - |TextFooter|] == j2.prompt;
  }

  /** The video outline does not depend on the prompt, the format or the platforms. */
  lemma VideoIgnoresPrompt(j1: GenerateJob, j2: GenerateJob)
    requires j1.contentType == "video" && j2.contentType == "video"
    ensures GeneratedContent(j1) == GeneratedContent(j2)
  {
  }

  /** The timer's callback: store the result and clear the busy flag. */
  function CompleteGenerate(s: Studio, job: GenerateJob): (r: (Studio, Notice))
    ensures r.0.generated == GeneratedContent(job) && !r.0.isGenerating
    ensures r.0.(generated := s.generated, isGenerating := s.isGenerating) == s
    ensures r.1 == Success("Content generated successfully!")
  {
    (s.(generated := GeneratedContent(job), isGenerating := false), Success("Content generated successfully!"))
  }

  const ViralHeader := "Here are 5 viral content ideas based on your topic:\n\n"

  /**
   * The text before and after the topic on each of the five idea lines, written a word at a
   * time so that the absence of line breaks can be checked word by word.
   */
  const ViralPrefixes: seq<string> := [
    "1." + " \"5" + " Surprising" + " Facts" + " About ",
    "2." + " \"The ",
    "3." + " \"How ",
    "4." + " \"What" + " Nobody" + " Tells" + " You" + " About ",
    "5." + " \"I" + " Tried "
  ]
  const ViralSuffixes: seq<string> := [
    " That" + " Will" + " Blow" + " Your" + " Mind\"",
    " Challenge" + " That's" + " Taking" + " Over" + " Social" + " Media\"",
    " Is" + " Changing" + " The" + " Way" + " We" + " Think" + " About" + " Business\"",
    " -" + " Industry" + " Secrets" + " Revealed\"",
    " For" + " 30" + " Days" + " -" + " Here's" + " What" + " Happened\""
  ]

  /** Each prefix opens with the line's number, a full stop, a space and a quote. */
  lemma ViralPrefixesNumbered()
    ensures forall i :: 0 <= i < 5 ==> |ViralPrefixes[i]| >= 4 && ViralPrefixes[i][..4] == [DigitChar(i + 1)] + ". \""
  {
    forall i | 0 <= i < 5
      ensures |ViralPrefixes[i]| >= 4 && ViralPrefixes[i][..4] == [DigitChar(i + 1)] + ". \""
    {
      if i == 0 { } else if i == 1 { } else if i == 2 { } else if i == 3 { } else { }
    }
  }

  /** The prefix and suffix of line `i` hold no line break. */
  lemma ViralPartSingleLine(i: nat)
    requires i < 5
    ensures '\n' !in ViralPrefixes[i] && '\n' !in ViralSuffixes[i]
  {
    if i == 0 {
      assert '\n' !in "1." && '\n' !in " \"5" && '\n' !in " Surprising" && '\n' !in " Facts" && '\n' !in " About ";
      assert '\n' !in " That" && '\n' !in " Will" && '\n' !in " Blow" && '\n' !in " Your" && '\n' !in " Mind\"";
    } else if i == 1 {
      assert '\n' !in "2." && '\n' !in " \"The ";
      assert '\n' !in " Challenge" && '\n' !in " That's" && '\n' !in " Taking" && '\n' !in " Over" && '\n' !in " Social" && '\n' !in " Media\"";
    } else if i == 2 {
      assert '\n' !in "3." && '\n' !in " \"How ";
      assert '\n' !in " Is" && '\n' !in " Changing" && '\n' !in " The" && '\n' !in " Way" && '\n' !in " We" && '\n' !in " Think" && '\n' !in " About" && '\n' !in " Business\"";
    } else if i == 3 {
      assert '\n' !in "4." && '\n' !in " \"What" && '\n' !in " Nobody" && '\n' !in " Tells" && '\n' !in " You" && '\n' !in " About ";
      assert '\n' !in " -" && '\n' !in " Industry" && '\n' !in " Secrets" && '\n' !in " Revealed\"";
    } else {
      assert '\n' !in "5." && '\n' !in " \"I" && '\n' !in " Tried ";
      assert '\n' !in " For" && '\n' !in " 30" && '\n' !in " Days" && '\n' !in " -" && '\n' !in " Here's" && '\n' !in " What" && '\n' !in " Happened\"";
    }
  }

  /** The five numbered idea lines, each naming the topic. */
  function ViralLines(topic: string): (lines: seq<string>)
    ensures |lines| == 5
    ensures forall i :: 0 <= i < 5 ==> |lines[i]| >= 4 && lines[i][..4] == [DigitChar(i + 1)] + ". \""
    ensures forall i :: 0 <= i < 5 ==> Includes(lines[i], topic)
  {
    var lines := seq(5, i requires 0 <= i < 5 => ViralPrefixes[i] + topic + ViralSuffixes[i]);
    ViralPrefixesNumbered();
    forall i | 0 <= i < 5 ensures Includes(lines[i], topic) && lines[i][..4] == ViralPrefixes[i][..4] {
      assert lines[i][|ViralPrefixes[i]|..|ViralPrefixes[i]| + |topic|] == topic;
      assert OccursAt(lines[i], topic, |ViralPrefixes[i]|);
    }
    lines
  }

  /** The viral ideas text: a header, then the five lines separated by line breaks. */
  function ViralIdeas(topic: string): string {
    ViralHeader + Join(ViralLines(topic), "\n")
  }

  /** For a one-line topic, the text after the header splits into exactly the five idea lines. */
  lemma ViralIdeasFiveLines(topic: string)
    requires '\n' !in topic
    ensures var body := ViralIdeas(topic)[|ViralHeader|..];
      Split(body, "\n") == ViralLines(topic) && |Split(body, "\n")| == 5
  {
    var lines := ViralLines(topic);
    forall k | 0 <= k < 5 ensures '\n' !in lines[k] {
      ViralPartSingleLine(k);
    }
    assert forall k :: 0 <= k < 5 ==> lines[k] == ViralPrefixes[k] + topic + ViralSuffixes[k];
    var body := ViralIdeas(topic)[|ViralHeader|..];
    assert body == Join(lines, "\n");
    SplitJoinOneChar(lines, '\n');
  }

  /**
   * `handleGenerateViralIdeas`, up to the timer. The handler itself does not look at the busy
   * flag; the button in front of it does (`PressViralIdeas`).
   */
  function StartViralIdeas(s: Studio): (l: Launch<string>)
    ensures s.viralTopic == "" ==> l == Refused(Error("Please enter a topic for viral content ideas"))
    ensures s.viralTopic != "" ==> l == Launched(s.(isGenerating := true), s.viralTopic)
  {
    if s.viralTopic == "" then Refused(Error("Please enter a topic for viral content ideas"))
    else Launched(s.(isGenerating := true), s.viralTopic)
  }
  /** The viral-ideas button: disabled, like the Generate button, while any generation is in flight. */
  function PressViralIdeas(s: Studio): (r: Option<Launch<string>>)
    ensures r.None? <==> s.isGenerating
    ensures r.Some? ==> r.value == StartViralIdeas(s)
  {
    if s.isGenerating then None else Some(StartViralIdeas(s))
  }

  /** The two buttons share one busy flag: once either launches, neither responds until completion. */
  lemma ButtonsShareBusyFlag(s: Studio)
    ensures StartGenerate(s).Launched? ==>
      PressGenerate(StartGenerate(s).next).None? && PressViralIdeas(StartGenerate(s).next).None?
    ensures StartViralIdeas(s).Launched? ==>
      PressGenerate(StartViralIdeas(s).next).None? && PressViralIdeas(StartViralIdeas(s).next).None?
  {
  }


  /** The viral-ideas timer's callback. */
  function CompleteViralIdeas(s: Studio, topic: string): (r: (Studio, Notice))
    ensures r.0.viralIdeas == ViralIdeas(topic) && !r.0.isGenerating
    ensures r.0.(viralIdeas := s.viralIdeas, isGenerating := s.isGenerating) == s
    ensures r.1 == Success("Viral ideas generated successfully!")
  {
    (s.(viralIdeas := ViralIdeas(topic), isGenerating := false), Success("Viral ideas generated successfully!"))
  }
}
