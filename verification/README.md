# AI Studio decision logic in Dafny

AI Studio is a React front end for managing social-media content. It has no real back end:
sign-in is a fixed demo account kept in `localStorage`, the "AI" answers come from string
templates, and posts, topics and analytics are mock tables. This project models the decision
logic inside its pages as immutable Dafny datatypes and pure transition functions, and proves
their properties:

- the session state machine and the access gates in front of the app and the onboarding wizard;
- the Scheduler's composer, filters, calendar list, per-post-type platform buttons and thread preview;
- the Creator's format lookup, platform tables, generate gate and result templates;
- the four-step onboarding wizard;
- the trending-topics loader and search;
- the append-only chat log of the assistant;
- the integer figures of the Analytics and Dashboard pages;
- the closed lookup tables of `src/lib/data.ts`.

Modules, one per file:

| module | file | models |
|---|---|---|
| `Wrappers`, `Feedback` | `wrappers.dfy` | `Option`, and the toast kinds (success, error, info) |
| `Seqs` | `seqs.dfy` | `filter`, `map` and `slice` on sequences |
| `Selection` | `selection.dfy` | the toggle-in-a-list used by three pages |
| `Text` | `text.dfy` | `trim`, ASCII `toLowerCase`, `includes`, `split`/`join`, decimal printing |
| `Data` | `data.dfy` | `src/lib/data.ts` |
| `Auth` | `auth.dfy` | `src/contexts/AuthContext.tsx` |
| `Layout` | `layout.dfy` | `src/components/layout/AppLayout.tsx` and the gate at the top of `Onboarding` |
| `Scheduler` | `scheduler.dfy` | `src/pages/Scheduler.tsx` |
| `Creator` | `creator.dfy` | `src/pages/Creator.tsx` |
| `Onboarding` | `onboarding.dfy` | `src/pages/Onboarding.tsx` |
| `Trending` | `trending.dfy` | `src/pages/TrendingIdeas.tsx` |
| `Assistant` | `assistant.dfy` | `src/pages/AIAssistant.tsx` |
| `Analytics` | `analytics.dfy` | `src/pages/Analytics.tsx` |
| `Dashboard` | `dashboard.dfy` | `src/pages/Dashboard.tsx` |

How the outside world is represented:

- `localStorage` is an `Option<User>` cell. A failing `setItem` is the `storageWritable` flag.
- Every `setTimeout` is split into a start function and a completion function. The completion takes
  the values the callback closed over when the button was pressed (`GenerateJob`, `SearchJob`,
  the viral topic, the load key).
- `Date.now()` message ids, the `Math.random` reply choice and the "today" of the mock posts are
  parameters (`id`, `pick`, `dayAt`).
- Toasts are a returned `Notice` value and navigation is a returned route.

Where the code differs from a plain reading of the page, the model follows the code:

- Approve, reject, delete and both confirm buttons only raise a toast. No post changes status
  or disappears.
- The create/post-now gate only checks that the content is empty. Content made only of spaces
  passes.
- The Scheduler's platform filter menu offers no LinkedIn entry. The filter function still
  handles LinkedIn, and the model keeps that generality.
- `getPlatformName` capitalises only the first letter, so LinkedIn is shown as "Linkedin".
- The restore effect parses the stored user without a `try`, so a corrupt entry would throw.
  The model treats the stored cell as always holding a user or nothing.
- On the trending page the "all" view searches only the Twitter list.
- In the chat, the send button is disabled while a reply is pending, but Enter still sends.
- Skip is only offered on the first wizard step, so company and industry can stay empty while
  the wizard still finishes.

## Model

| member | source | states |
|---|---|---|
| Data.ParsePlatform | src/lib/data.ts:3 | a platform literal is read back to the platform it names, and any other string names none |
| Data.PlatformIdRoundTrip | src/lib/data.ts:3 | reading a platform's literal gives the same platform back |
| Data.PlatformsEnumerated | src/lib/data.ts:3 | `PlatformType` has exactly six members, each listed once |
| Data.StatusesEnumerated | src/lib/data.ts:12 | a post status is one of exactly four values: draft, pending, scheduled, published |
| Data.MockPostIdsDistinct | src/lib/data.ts:30-92 | the mock posts have pairwise distinct ids |
| Data.MockPostStatsNonNegative | src/lib/data.ts:30-92 | every counter present on a mock post is non-negative |
| Data.PlatformColor | src/lib/data.ts:108-125 | every platform gets a `#`-prefixed six-digit colour, and never the default purple, so the default branch is unreachable |
| Data.ColorsDistinct | src/lib/data.ts:108-121 | the six platform colours are pairwise distinct |
| Data.PlatformIcon | src/lib/data.ts:128-145 | no platform gets the fallback "Globe"; Pinterest and only Pinterest gets "PinIcon" |
| Data.IconsDistinct | src/lib/data.ts:128-141 | every platform has its own icon name |
| Data.OneDefaultModel | src/lib/data.ts:148-161 | exactly one AI model is marked as the default |
| Auth.Initial | src/contexts/AuthContext.tsx:24-26 | the provider starts with no user, loading, and not authenticated, with storage untouched |
| Auth.Restore | src/contexts/AuthContext.tsx:28-36 | a stored user becomes the signed-in user; without one the session stays anonymous; loading is over in both cases |
| Auth.RestoreEstablishesConsistency | src/contexts/AuthContext.tsx:28-36 | after start-up, "authenticated", "has a user" and "storage holds that user" agree, and the user is authenticated exactly when one was stored |
| Auth.SignIn | src/contexts/AuthContext.tsx:50-62 | a successful write signs the user in and stores them; a failed write changes nothing but the loading flag and raises the failure toast |
| Auth.Login | src/contexts/AuthContext.tsx:38-63 | success exactly for the demo credentials with a working store, which sets the demo user; any other pair raises "Invalid credentials" and leaves the session and storage alone; loading ends in every branch; consistency is kept |
| Auth.Signup | src/contexts/AuthContext.tsx:65-86 | any name and email become user "1" with an empty avatar when the store works; otherwise nothing changes but loading; consistency is kept |
| Auth.SignupIgnoresPassword | src/contexts/AuthContext.tsx:65-79 | the password has no effect on signup |
| Auth.Logout | src/contexts/AuthContext.tsx:88-93 | storage and user are cleared, the session is anonymous, and the success toast is always raised |
| Auth.LogoutIdempotent | src/contexts/AuthContext.tsx:88-93 | logging out twice is the same as logging out once |
| Auth.SignupSurvivesReload | src/contexts/AuthContext.tsx:28-36 | after a successful signup, a reload restores the same user, authenticated |
| Auth.LogoutSurvivesReload | src/contexts/AuthContext.tsx:28-36 | after logout, a reload starts anonymous |
| Auth.RunPreservesConsistency | src/contexts/AuthContext.tsx:28-93 | any sequence of login, signup, logout and page reload (the provider mounted afresh over the stored cell) keeps authenticated ⇔ user present ⇔ storage holds the user |
| Auth.ConsistentAfterAnyActions | src/contexts/AuthContext.tsx:28-93 | from any start-up storage, every session reached by logins, signups, logouts and reloads is consistent |
| Layout.AppLayoutGate | src/components/layout/AppLayout.tsx:16-44 | loading shows the loading view without redirecting; anonymous renders nothing and redirects to /login; signed in renders the shell; exactly one of the three |
| Layout.ShellIffStoredUser | src/components/layout/AppLayout.tsx:34-44 | after start-up the shell is rendered exactly when a user was stored |
| Layout.OnboardingGate | src/pages/Onboarding.tsx:32-42 | the wizard's gate: loading view while loading, redirect to /login when anonymous, the wizard otherwise |
| Layout.GatesAgree | src/pages/Onboarding.tsx:32-42 | the onboarding gate makes the same three-way decision as the app shell |
| Selection.Remove | src/pages/Scheduler.tsx:99 | removing an id drops every copy of it, keeps the other ids in order, and keeps a duplicate-free list duplicate-free |
| Selection.Toggle | src/pages/Scheduler.tsx:96-102 | an absent id is appended at the end and a present one removed; other ids keep their membership; no duplicates are introduced |
| Selection.ToggleTwiceSameMembers | src/pages/Scheduler.tsx:96-102 | toggling the same id twice gives back the same set of ids |
| Selection.RemoveAppended | src/pages/Scheduler.tsx:96-102 | removing an id that was just appended gives back the list before |
| Selection.ToggleTwiceRestores | src/pages/Scheduler.tsx:96-102 | toggling an absent id twice gives back exactly the same list |
| Text.BlankIffAllWhitespace | src/pages/TrendingIdeas.tsx:86 | a string trims to nothing exactly when every character is white space |
| Text.IncludesIffOccurs | src/pages/TrendingIdeas.tsx:99-102 | `includes` holds exactly when the substring occurs at some position |
| Text.Split | src/pages/Scheduler.tsx:450 | splitting gives at least one part, no part contains the separator, joining the parts gives the input back, and every cut is at the leftmost occurrence of the separator, as `split` cuts |
| Text.SplitUnique | src/pages/Scheduler.tsx:450 | any separator-free parts that join back to the input and are cut at leftmost occurrences are exactly what `split` returns |
| Text.SplitJoinOneChar | src/pages/Creator.tsx:143-148 | joining separator-free parts with a one-character separator and splitting again gives the same parts |
| Text.NatToStringRoundTrip | src/pages/Scheduler.tsx:152 | the decimal text of a count reads back as the same number |
| Scheduler.InitialPage | src/pages/Scheduler.tsx:76-85 | the page starts on today with both filters at "all", an empty closed composer, and post type "text" |
| Scheduler.TogglePlatform | src/pages/Scheduler.tsx:96-102 | the composer's platform list toggles one platform and nothing else changes |
| Scheduler.SetCreateOpen | src/pages/Scheduler.tsx:201-206 | the create dialog opens or closes as asked and nothing else on the page changes, so Cancel keeps the draft |
| Scheduler.CancelCreateRoundTrip | src/pages/Scheduler.tsx:396 | opening the create dialog and pressing Cancel returns to exactly the page before |
| Scheduler.SetPreviewOpen | src/pages/Scheduler.tsx:412 | the preview opens or closes as asked and nothing else on the page changes |
| Scheduler.BackToEditRoundTrip | src/pages/Scheduler.tsx:505 | a successful preview request followed by "Back to Edit" returns to exactly the page before |
| Scheduler.RequestPreview | src/pages/Scheduler.tsx:121-149 | empty content is refused first, then an empty platform list; otherwise only the preview opens; posts never change |
| Scheduler.Confirm | src/pages/Scheduler.tsx:151-165 | both dialogs close and content and platforms are cleared; nothing else changes, posts included; the post-now toast names the platform count |
| Scheduler.ActOnPost | src/pages/Scheduler.tsx:104-119 | approve, reject and delete leave the page exactly as it was and only raise a toast, an error only for reject |
| Scheduler.PostActionsKeepPosts | src/pages/Scheduler.tsx:104-119 | any sequence of approve, reject and delete leaves the page unchanged |
| Scheduler.OpenDetail | src/pages/Scheduler.tsx:112-115 | clicking a post opens the detail dialog on that post and changes nothing else |
| Scheduler.CloseDetail | src/pages/Scheduler.tsx:824-828 | the dialog's Close button closes it and changes nothing else |
| Scheduler.DialogAction | src/pages/Scheduler.tsx:798-815 | the dialog's Approve and Reject buttons raise the handler's toast (an error only for reject), close the dialog and change nothing else |
| Scheduler.DialogRoundTrip | src/pages/Scheduler.tsx:798-815 | opening a post and approving or rejecting it from the dialog leaves the page as before, apart from the remembered post id |
| Scheduler.FindPost | src/pages/Scheduler.tsx:188 | the selected post is the first post with that id, and none exactly when no post has it |
| Scheduler.FilteredPosts | src/pages/Scheduler.tsx:167-171 | a post is kept exactly when it passes both filters; every copy of a kept post survives in order; ("all", "all") keeps everything |
| Scheduler.FiltersCompose | src/pages/Scheduler.tsx:167-171 | filtering by status and then by platform is the same as filtering by both at once |
| Scheduler.DayPosts | src/pages/Scheduler.tsx:541-548 | the calendar list is the part of the filtered posts scheduled on the selected day, in order and with every copy of such a post kept, and empty with no day selected |
| Scheduler.EmptyDayMessage | src/pages/Scheduler.tsx:572-582 | the "no posts" message shows exactly when the calendar list is empty |
| Scheduler.OfferedPlatforms | src/pages/Scheduler.tsx:371-377 | the platform buttons are the listed platforms that the post type allows, in list order |
| Scheduler.OfferedPlatformsByType | src/pages/Scheduler.tsx:371-377 | "thread" offers only Twitter, "youtube" only YouTube, and any other type all six |
| Scheduler.PlatformName | src/pages/Scheduler.tsx:71-73 | the display name is the platform literal with its first letter upper-cased, and lower-casing it gives the literal back |
| Scheduler.PlatformNamesDistinct | src/pages/Scheduler.tsx:71-73 | no two platforms are displayed under the same name |
| Scheduler.LinkedinName | src/pages/Scheduler.tsx:71-73 | LinkedIn is displayed as "Linkedin" |
| Scheduler.ThreadTweets | src/pages/Scheduler.tsx:448-463 | a thread shows at least one tweet, no tweet contains a blank line, joining the tweets with a blank line gives the content back, and each tweet ends at the first blank line after it starts |
| Scheduler.ThreeNewlines | src/pages/Scheduler.tsx:450 | three newlines make an empty first tweet followed by a tweet holding one newline |
| Scheduler.Preview | src/pages/Scheduler.tsx:424-500 | one preview per selected platform, in order; a thread layout exactly for Twitter in a thread post, whose tweets join back to the content; every other preview shows the content |
| Creator.TogglePlatform | src/pages/Creator.tsx:62-68 | the same toggle as the Scheduler's; nothing else in the page state changes |
| Creator.PlatformsList | src/pages/Creator.tsx:163-174 | image and video get their own tables; every other content type gets the text table |
| Creator.PlatformListMembership | src/pages/Creator.tsx:41-60 | Pinterest is offered only for images and LinkedIn only for text |
| Creator.FindEntry | src/pages/Creator.tsx:82 | the lookup returns an entry for that platform from the table, and none exactly when the table lacks it |
| Creator.AvailableFormats | src/pages/Creator.tsx:70-84 | no selection gives no formats; one selection gives that platform's text formats, or none; several give the formats of the first selected text platform in table order, not selection order |
| Creator.SingleSelectionAgrees | src/pages/Creator.tsx:70-84 | for a single platform the two branches agree |
| Creator.ChangeTab | src/pages/Creator.tsx:297-302 | switching tabs sets the content type, clears the selection, resets the format to "post" and the image mode to "aiImage", and keeps everything else |
| Creator.StartGenerate | src/pages/Creator.tsx:86-97 | an empty prompt is refused first, then an empty selection unless the type is "ideas"; otherwise the busy flag is set and the current values are captured |
| Creator.PressGenerate | src/pages/Creator.tsx:478-480 | the generate button does nothing while a generation is in flight |
| Creator.AtMostOneGeneration | src/pages/Creator.tsx:97 | once a generation starts, pressing again does nothing until it completes |
| Creator.GeneratedContent | src/pages/Creator.tsx:103-122 | text is the template around the format, the comma-joined platforms and the prompt; "aiImage" gives the placeholder; other image modes contain the prompt and the mode; video is the fixed outline; other types give the empty string |
| Creator.TextResultDeterminesPrompt | src/pages/Creator.tsx:105 | two text results for the same format and platforms are equal only if the prompts are |
| Creator.VideoIgnoresPrompt | src/pages/Creator.tsx:115-122 | the video outline does not depend on the prompt |
| Creator.CompleteGenerate | src/pages/Creator.tsx:125-127 | the completion stores the result of the captured values, clears the busy flag and changes nothing else |
| Creator.ViralLines | src/pages/Creator.tsx:143-148 | five idea lines, numbered 1 to 5, each containing the topic |
| Creator.ViralIdeasFiveLines | src/pages/Creator.tsx:143-148 | for a one-line topic, the text after the header splits into exactly the five idea lines |
| Creator.StartViralIdeas | src/pages/Creator.tsx:131-139 | an empty topic is refused; otherwise the busy flag is set and the topic captured |
| Creator.PressViralIdeas | src/pages/Creator.tsx:245-247 | the viral-ideas button does nothing while a generation is in flight |
| Creator.ButtonsShareBusyFlag | src/pages/Creator.tsx:86-139 | once either generation launches, neither button responds until it completes |
| Creator.CompleteViralIdeas | src/pages/Creator.tsx:141-151 | the completion stores the ideas for the captured topic and clears the busy flag |
| Onboarding.StepError | src/pages/Onboarding.tsx:61-74 | step 1 needs company and industry, step 2 an audience, step 3 a platform, each with its own message |
| Onboarding.Continue | src/pages/Onboarding.tsx:60-83 | an incomplete step raises its error and stays; a complete one advances by one below step 4 and at step 4 leaves for /dashboard with the success toast |
| Onboarding.Skip | src/pages/Onboarding.tsx:85-91 | skip advances without checks and leaves for /dashboard at step 4, with no toast |
| Onboarding.ContinueIsValidatedSkip | src/pages/Onboarding.tsx:60-91 | a valid continue moves exactly like skip |
| Onboarding.PressLeft | src/pages/Onboarding.tsx:347-359 | the left button goes back one step after the first step and skips on the first |
| Onboarding.ProgressClick | src/pages/Onboarding.tsx:117 | a progress circle moves only backwards, to that step, and changes nothing else |
| Onboarding.TogglePlatform | src/pages/Onboarding.tsx:52-58 | the wizard's platform toggle flips one platform only |
| Onboarding.InitialInvariant | src/pages/Onboarding.tsx:25 | the wizard starts at step 1 inside the invariant |
| Onboarding.ApplyPreservesInvariant | src/pages/Onboarding.tsx:60-117 | every control keeps the step within 1 to 4, an audience from step 3 on, and a platform on step 4 |
| Onboarding.RunPreservesInvariant | src/pages/Onboarding.tsx:60-117 | the invariant holds after any sequence of user actions |
| Onboarding.RunNavigatesFromLastStep | src/pages/Onboarding.tsx:76-91 | the wizard is only ever left from step 4, and only for /dashboard |
| Onboarding.FinishedWizardHasAudienceAndPlatforms | src/pages/Onboarding.tsx:60-91 | a finished wizard had a target audience and at least one platform |
| Onboarding.FirstStepCanBeSkipped | src/pages/Onboarding.tsx:85-91 | the wizard can finish with company and industry still empty |
| Trending.TopicsFor | src/pages/TrendingIdeas.tsx:19-55 | the five platform keys each have five topics, and no other key the tabs produce (that is, "all") has a list of its own |
| Trending.TopicsOrEmpty | src/pages/TrendingIdeas.tsx:79 | a platform key loads its own list, and a key without a list of its own loads the empty list |
| Trending.LoadTopics | src/pages/TrendingIdeas.tsx:62-83 | "all" loads the first 15 of the combined lists; any other key loads its own list |
| Trending.AllIsFirstThreePlatforms | src/pages/TrendingIdeas.tsx:67-76 | the capped list is exactly Twitter, then Facebook, then Instagram |
| Trending.Mount | src/pages/TrendingIdeas.tsx:57-63 | on mount the effect starts loading the initial tab's topics and changes nothing else |
| Trending.ClickTab | src/pages/TrendingIdeas.tsx:57-63 | a click on the current tab changes nothing and starts no load; a click on another tab records it, starts loading and hands its key to the timer, changing nothing else |
| Trending.ClickTabTwice | src/pages/TrendingIdeas.tsx:57-60 | a second click on the same tab starts no further load |
| Trending.CompleteLoad | src/pages/TrendingIdeas.tsx:65-82 | the load completion shows the key's topics and stops loading |
| Trending.StartSearch | src/pages/TrendingIdeas.tsx:85-93 | a query that trims to nothing raises the error and changes nothing; otherwise loading starts, the info toast names the query, and query and platform are captured |
| Trending.PressSearch | src/pages/TrendingIdeas.tsx:164-168 | the Search button does nothing while loading; otherwise it runs the search handler |
| Trending.AtMostOneSearch | src/pages/TrendingIdeas.tsx:164-168 | once a search, a tab's load or the first load is under way, the Search button does nothing |
| Trending.SearchSource | src/pages/TrendingIdeas.tsx:96 | the search looks in the Twitter list for "all" and in the selected list otherwise |
| Trending.Fallback | src/pages/TrendingIdeas.tsx:104-108 | three made-up topics with ids 99, 100 and 101: the query, the query plus " Guide", and the query plus " Tips" |
| Trending.SearchResults | src/pages/TrendingIdeas.tsx:99-108 | when something matches, the result is exactly the matching topics, in order and with their multiplicities; otherwise it is the fallback; it is never empty |
| Trending.CompleteSearch | src/pages/TrendingIdeas.tsx:95-111 | the search completion shows the results for the captured query and platform and stops loading |
| Trending.AllViewSearchesTwitterOnly | src/pages/TrendingIdeas.tsx:96 | in the "all" view a search returns Twitter topics or the fallback |
| Trending.TopicIdsOneToFive | src/pages/TrendingIdeas.tsx:19-55 | every platform list numbers its topics 1 to 5 |
| Trending.IconAlwaysTwitter | src/pages/TrendingIdeas.tsx:239-241 | the "all" view's icon lookup resolves to Twitter for every id |
| Assistant.Send | src/pages/AIAssistant.tsx:53-66 | blank input changes nothing; otherwise exactly one user message with the untrimmed input is appended, the input is cleared and typing starts |
| Assistant.Reply | src/pages/AIAssistant.tsx:69-87 | a reply appends one assistant message holding the chosen canned answer and stops typing |
| Assistant.SendEnabled | src/pages/AIAssistant.tsx:217 | the send button is enabled exactly for non-blank input with no reply pending |
| Assistant.ClickSend | src/pages/AIAssistant.tsx:217 | clicking while a reply is pending does nothing; otherwise it is a send |
| Assistant.KeyDown | src/pages/AIAssistant.tsx:90-95 | Enter without Shift sends; any other key, Shift+Enter included, changes nothing |
| Assistant.QuickPrompt | src/pages/AIAssistant.tsx:97-99 | a quick prompt only fills the input |
| Assistant.EnterBypassesDisabledButton | src/pages/AIAssistant.tsx:90-95 | with a reply pending, the button does nothing but Enter still sends |
| Assistant.InitialLogWellFormed | src/pages/AIAssistant.tsx:34-41 | the log starts with the single assistant greeting |
| Assistant.ApplyAppends | src/pages/AIAssistant.tsx:53-99 | one event appends at most one message, keeps the earlier log as a prefix, and keeps the log well formed |
| Assistant.RunOnlyAppends | src/pages/AIAssistant.tsx:64-85 | over any sequence of events the log only grows, by at most one message per event, earlier messages stay as a prefix, and a well-formed log (no blank user message; assistant messages are the greeting or a canned answer) stays well formed |
| Analytics.WindowDays | src/pages/Analytics.tsx:43-55 | "7d", "30d" and "90d" select 7, 30 and 90 days, and anything else 30 |
| Analytics.FilteredData | src/pages/Analytics.tsx:43-58 | the window is the last min(days, n) days, in order |
| Analytics.PlatformFilterIgnored | src/pages/Analytics.tsx:40-58 | changing the platform filter leaves the window unchanged |
| Analytics.WindowsNest | src/pages/Analytics.tsx:43-58 | the 7-day window ends the 30-day one, which ends the 90-day one |
| Analytics.SumMetricAppend | src/pages/Analytics.tsx:69-70 | a metric's total over two stretches of days is the sum of their totals |
| Analytics.Halves | src/pages/Analytics.tsx:66-67 | the previous half is the first ⌊n/2⌋ days and the current half the rest; together they are the window, and the current half is never shorter |
| Analytics.HalvesSplitTotal | src/pages/Analytics.tsx:66-70 | the two halves' totals add up to the window's total |
| Analytics.RoundHalfUp | src/pages/Analytics.tsx:73 | `Math.round` of a quotient: the nearest integer, with halves rounded up |
| Analytics.CalculateChange | src/pages/Analytics.tsx:63-74 | fewer than two days give 0; an empty previous total gives 100; otherwise the result is the rounded percentage change |
| Analytics.RoundedPercentBounds | src/pages/Analytics.tsx:73 | a rounded percentage is 0 for equal totals, never has the opposite sign of the difference, and is at least -100 |
| Analytics.ChangeFollowsDifference | src/pages/Analytics.tsx:63-74 | equal halves give 0, a rise never reports a fall, a fall never reports a rise, and no drop goes below -100 |
| Analytics.FromNothingIsHundred | src/pages/Analytics.tsx:72 | a previous total of 0 reports 100, whatever the current total |
| Analytics.ContentPerformance | src/pages/Analytics.tsx:88-96 | no more rows than posts, and each row comes from a post that has stats |
| Analytics.ContentPerformanceSingle | src/pages/Analytics.tsx:88-96 | a post gives its row when it has stats and nothing otherwise |
| Analytics.ContentPerformanceAppend | src/pages/Analytics.tsx:88-96 | the rows of a concatenation are the rows of each part, in order |
| Analytics.RowsCopyStats | src/pages/Analytics.tsx:90-95 | a row copies its post's title, likes, comments, shares and platform |
| Dashboard.ActiveIsScheduledPlusPublished | src/pages/Dashboard.tsx:25-27 | the active posts are the scheduled ones plus the published ones |
| Dashboard.ActivePostsCount | src/pages/Dashboard.tsx:25-27 | the active count is the scheduled count plus the published count, and at most the number of posts |
| Dashboard.MockActivePosts | src/lib/data.ts:30-92 | the mock data has three active posts |
| Dashboard.LatestAnalytics | src/pages/Dashboard.tsx:30 | the dashboard window is the last min(7, n) days |
| Dashboard.LatestIsSevenDayView | src/pages/Dashboard.tsx:30 | it is the analytics page's seven-day window |
| Dashboard.TotalEngagement | src/pages/Dashboard.tsx:33-36 | total engagement is the window's likes total plus its comments total plus its shares total |
| Dashboard.DailyFollowerChanges | src/pages/Dashboard.tsx:38-39 | one change per consecutive pair of days, giving the difference in followers |
| Dashboard.FollowerGrowth | src/pages/Dashboard.tsx:38-39 | growth is the sum of the day-to-day follower changes; it is 0 over a single day and never negative when followers never fall |
| Dashboard.FollowerGrowthTelescopes | src/pages/Dashboard.tsx:38-39 | the day-to-day changes add up to the last day's followers minus the first day's |
| Dashboard.RecentPosts | src/pages/Dashboard.tsx:211 | the recent-posts card lists the first min(3, n) posts |
| Dashboard.ShownDate | src/pages/Dashboard.tsx:225-234 | a post's date is shown exactly when it is scheduled |
| Dashboard.MockRecentPosts | src/pages/Dashboard.tsx:211-234 | with the mock data the card lists posts 1, 2 and 3 and shows a date only for the first |

## Left out

- Rendering: markup, styling, icons, charts, dialogs and tabs as widgets. Only the state and the derived values they consume are modelled.
- The Settings and Landing pages, the landing layout, the sidebar, the top bar (page titles and the theme switch) and the route table. They hold no decision logic.
- JSON serialisation of the stored user. The cell holds a `User` directly, so the restore step's uncaught parse failure on a corrupt entry is outside the model.
- Assistant: a reply may arrive in the model with no send pending, which the page cannot produce. The log properties are proved for this larger set of runs.
- Timing of the timers. The order in which pending completions fire is the caller's choice.
- Auth.Login: the source's catch branch can only be reached through a throwing `setItem`, which is the `storageWritable = false` case. No other exception is modelled.
- The randomly generated analytics series and the clock behind it. The Analytics and Dashboard functions take any series of days.
- The time of day, time zone and locale formatting of dates. A date is a (year, month, day) triple, and `dayAt` gives the mock posts' days.
- Message ids and timestamps in the chat. Ids are parameters and timestamps are dropped.
- Text.ToLower: only ASCII letters are lower-cased. JavaScript's `toLowerCase` also maps other Unicode letters, so the trending search is modelled for ASCII case differences only.
- Analytics.CalculateChange: exact rational rounding, not IEEE floating point. Quotients that floating point represents inexactly are not modelled.
- The displayed floating-point figures: the engagement rate, the "from last week" figures, the progress-bar width and the bar widths.
- The clipboard copy, the save and create buttons of the trending cards, and the Creator's creativity slider, which feeds no computation.
- Dashboard.FollowerGrowth: requires a non-empty window. On an empty series the source reads past the end and throws; the mock analytics series always has 30 days, so that case is not modelled.
- Trending.TopicsFor: keys are compared as plain strings. In the source, a key naming an inherited object property ("constructor", "toString") would produce that property rather than the empty list. The tabs only produce "all" and the five platform keys, so this is not modelled.
- Trending.IconKey: duplicate React keys in the "all" view (ids 1 to 5 occur three times) are a rendering matter and are not modelled.
- Onboarding: the optional "about" text and the AI-preference step feed no decision, so they are only carried along.
