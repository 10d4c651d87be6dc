# NexusGrowth store and views, modelled in Dafny

This project models NexusGrowth AI, a single-page social-media assistant, as pure Dafny functions over
immutable state. The model covers:

- **The application store** (`store/appStore.ts`): its state record, its four validators, the
  fail-closed `loadFromStorage` hydration and every action. The store is modelled as a `World`: the
  in-memory `AppState` together with `localStorage`, itself a map from strings to strings.
  Each storage write takes a `writeOk` flag, and `false` is the outcome in which `setItem` throws.
  `JSON.parse` and `JSON.stringify` are an abstract `Codec`.
- **The A/B-test lifecycle** of the scheduler (`components/Scheduler.tsx`): a post is created
  pending, resolved lazily with synthetic metrics, written back through `updatePost` and shown in
  the result modal (`components/modals/ABTestResultModal.tsx`). Every `Math.random()` draw is a
  real-number parameter in [0, 1).
- **The create-post modal** (`components/modals/CreatePostModal.tsx`): its initial form and the
  record it hands to the scheduler.
- **The views.** Settings, Engagement, Dashboard, StrategicPlanner, ContentStudio,
  ContentMultiplier, OnboardingModal and `App.tsx` are modelled as transitions of a view-local state
  together with the store. A reply from the AI generator is a parameter: it either returned a text or
  threw a value.

Persisted values stay untyped JSON (`JsonValues.Json`), because the store keeps whatever passes its
loose validators: extra fields, any platform string, any winner string. Typed records are used only
where the code builds the value itself, such as notifications, handoff drafts and generator outcomes.

Modules, one per source concern: `Wrappers`, `JsonValues`, `Text` (decimal rendering, `join`,
string ordering), `Seeds` (default data), `Validators`, `Storage`, `Platforms`, `AppStore`, `ABTest`,
`CreatePost`, `ResultModal`, `Scheduler`, `Calls` (generator replies), `Settings`, `Engagement`,
`Dashboard`, `StrategicPlanner`, `ContentStudio`, `ContentMultiplier`, `Onboarding`, `App`.

Behaviour of the code that the model reproduces as written, though a reader might expect otherwise:

- A failed `updatePost` or `updateAnalyticsData` raises an error notification. The caller then
  raises its own success notification at once ("A/B test results are in!", "Analytics data has been
  refreshed!"), which replaces the error. The resolved A/B numbers are also shown even when their
  write failed. See `Scheduler.OpenResult` and `Dashboard.FailedRefreshReadsAsSuccess`.
- The winner draw gives A with odds 0.45, B with odds 0.55 × 0.9 = 0.495, and a tie with odds
  0.055, so B is slightly favoured.
- A resolution whose write fails is shown but not stored. The grid still holds the pending post,
  and the next click on it draws new numbers and possibly a new winner
  (`Scheduler.FailedWriteRedraws`).
- When the second write of `updateAnalyticsData` fails, the in-memory series are unchanged, but the
  first write stays in storage.
- A connection toggle in Settings updates the view's local copy even when the store's write fails,
  so the two then disagree (`Settings.FailedDisconnectDiverges`).

## Model

| member | source | states |
|---|---|---|
| Validators.IsValidPost | store/appStore.ts:73-112 | accepted exactly when the item is an object with numeric id, string platform/day/time and boolean isABTest and either is a plain post with string content, or an A/B post with two variants holding string content and a string-or-null winner, with both performances (numeric counters) once the winner is neither 'Pending' nor null |
| Validators.IsValidFollowerItem | store/appStore.ts:115-120 | accepted exactly when the item is an object with a string name and numeric LinkedIn and Instagram counts |
| Validators.IsValidEngagementItem | store/appStore.ts:122-126 | accepted exactly when the item is an object with a string name and a numeric rate |
| Validators.Every | store/appStore.ts:128-130 | the left-to-right scan accepts exactly when the check holds at every index |
| Validators.IsValidArray | store/appStore.ts:128-130 | an array validator accepts exactly the arrays whose every element passes the item check |
| Validators.NonObjectsRejected | store/appStore.ts:73-74 | null, booleans, numbers and strings are never posts or series items |
| Validators.MissingWinnerRejected | store/appStore.ts:90-91 | an A/B post without a winner property is rejected (undefined is not null) |
| Validators.AnyWinnerStringAccepted | store/appStore.ts:90-106 | any winner string, on any platform string, passes as long as both performances are present |
| Validators.PerformanceNeededExactlyWhenDecided | store/appStore.ts:93-106 | for a well-formed A/B post with a string winner, validity is equivalent to: decided implies both performances present |
| Validators.ArrayValidatorBoundaries | store/appStore.ts:128-130 | the empty array passes every array validator and a non-array passes none |
| Storage.SetItem | store/appStore.ts:240 | a successful write sets exactly the one key and leaves every other key alone; a failed write changes nothing |
| Storage.IndexEntries | store/appStore.ts:156 | spreading an array yields its elements under the keys "0", "1", ..., and only under digit-string keys |
| Storage.DefaultKeysAreNotIndices | store/appStore.ts:7-15 | no default profile field name is a digit string, so spreading a non-object cannot overwrite a default |
| Storage.MergeOverDefaults | store/appStore.ts:155-156 | the merged profile has every default field; for an object, each field comes from the parsed value if present and from the defaults otherwise |
| Storage.LoadFromStorage | store/appStore.ts:140-174 | absent or empty entries give the fallback and leave storage alone; unparsable or invalid entries are evicted and give the fallback; valid entries are returned as parsed (merged over the defaults for the profile key); storage only ever loses the one key |
| Storage.SaveThenLoad | store/appStore.ts:145-159 | for a codec that reads back what it writes, loading a value just saved returns it (merged over the defaults for the profile) |
| Storage.CorruptEntryEvicted | store/appStore.ts:161-173 | an entry that fails to parse or to validate is removed and the fallback is returned |
| Platforms.ConnectionKey | store/appStore.ts:251-256 | each platform's flag is a default profile field whose default is false |
| Platforms.ConnectionKeyInjective | store/appStore.ts:251-255 | distinct platforms own distinct flags |
| Platforms.RankedIsInDisplayOrder | components/Scheduler.tsx:50-54 | names with strictly increasing display positions are in the fixed LinkedIn, Instagram, Twitter order |
| Platforms.OnlyInOrder | components/Scheduler.tsx:50-54 | the three optional one-name lists, concatenated, hold exactly the chosen platforms, in display order |
| Platforms.ConnectedPlatforms | components/Scheduler.tsx:50-54 | a platform's name is listed exactly when its flag is truthy; only platform names appear, in display order |
| AppStore.SinglePostValid | store/appStore.ts:17-21 | every seed-shaped plain post is valid |
| AppStore.PendingTestValid | store/appStore.ts:39-48 | every seed-shaped pending A/B post is valid without performances |
| AppStore.MeasuredTestValid | store/appStore.ts:22-37 | every seed-shaped A/B post with both performances is valid, whatever its winner string |
| AppStore.SeedPostsValid | store/appStore.ts:17-49 | the four seed posts all pass the post validator |
| AppStore.SeedFollowerItemsValid | store/appStore.ts:51-59 | every seed follower point passes its item validator |
| AppStore.SeedEngagementItemsValid | store/appStore.ts:61-66 | every seed engagement point passes its item validator |
| AppStore.SeedSeriesValid | store/appStore.ts:51-66 | both seed series pass their array validators |
| AppStore.SeedsValid | store/appStore.ts:17-66 | the fallbacks pass the validators that guard what is loaded in their place |
| AppStore.LoadProfile | store/appStore.ts:212 | the hydrated profile always has every default field; at most the profile key is evicted |
| AppStore.LoadPosts | store/appStore.ts:213 | every hydrated post is valid, whether loaded or seeded; at most the posts key is evicted |
| AppStore.LoadFollowers | store/appStore.ts:214 | every hydrated follower point is valid; at most its key is evicted |
| AppStore.LoadEngagement | store/appStore.ts:215 | every hydrated engagement point is valid; at most its key is evicted |
| AppStore.Hydrate | store/appStore.ts:210-222 | start-up establishes the store invariant, on the dashboard, not launched, with no handoff or notification, and storage only shrinks |
| AppStore.HydrateKeepsOtherKeys | store/appStore.ts:212-215 | a key start-up does not read (such as the onboarding flag) survives it with its value |
| AppStore.SetCurrentView | store/appStore.ts:225 | only the current view changes; storage is untouched |
| AppStore.LaunchApp | store/appStore.ts:226 | the app is marked launched and nothing else changes, storage included |
| AppStore.SetSidebarOpen | store/appStore.ts:227 | the sidebar takes the given state and nothing else changes |
| AppStore.StartOnboarding | store/appStore.ts:228 | onboarding shows and nothing else changes; storage is not touched |
| AppStore.ShowNotification | store/appStore.ts:301 | the given notice replaces any other and nothing else changes |
| AppStore.ClearNotification | store/appStore.ts:302 | the notice is dismissed and nothing else changes |
| AppStore.ScreenActionsKeepInv | store/appStore.ts:226-228 | launching, the sidebar, onboarding and notices keep the store invariant, which is about the data alone |
| AppStore.CompleteOnboarding | store/appStore.ts:229-236 | onboarding is hidden either way; the flag is stored as "true" when the write succeeds, and storage is untouched when it fails |
| AppStore.SchedulePost | store/appStore.ts:295-297 | the draft is put in the handoff slot and the scheduler selected; nothing else changes, storage included |
| AppStore.ClearPostToSchedule | store/appStore.ts:299 | the handoff slot is emptied and nothing else changes |
| AppStore.SaveBrandProfile | store/appStore.ts:238-247 | on success the profile is stored under its key and committed with the success notice; on failure only the failure notice changes; the invariant is kept for full profiles |
| AppStore.WithConnection | store/appStore.ts:257 | exactly the platform's flag is set; every other field is kept |
| AppStore.UpdateConnectionStatus | store/appStore.ts:249-259 | on success the platform's connection reads as requested, every other platform's is unchanged and no other field changes; it is a profile save; the invariant is kept |
| AppStore.AddPost | store/appStore.ts:261-271 | on success the post is appended at the end, the whole list is stored and the success notice shown; on failure nothing but the failure notice changes; a valid post keeps the invariant |
| AppStore.AppendKeepsPostsValid | store/appStore.ts:262 | appending a valid post to valid posts keeps every post valid |
| AppStore.ReplaceById | store/appStore.ts:274 | same length; each position holds the update when the ids match and the old post otherwise |
| AppStore.ReplaceByIdNoMatch | store/appStore.ts:274 | when no id matches, the list comes back identical |
| AppStore.UpdatePost | store/appStore.ts:273-282 | on success every post with the id is replaced and stored, silently; on failure only the failure notice changes; a valid update keeps the invariant |
| AppStore.UpdateAnalyticsData | store/appStore.ts:284-293 | the two series change together or not at all; both writes succeeding commits both; a failed second write keeps the first in storage and shows the failure; valid series keep the invariant |
| AppStore.FailedWritesKeepData | store/appStore.ts:238-293 | no failed write changes the profile, the posts or the series a view sees |
| AppStore.AddedPostSurvivesReload | store/appStore.ts:261-265 | after a successful add, a fresh start-up loads the extended list |
| AppStore.SavedProfileSurvivesReload | store/appStore.ts:238-241 | after a successful save, a fresh start-up loads the profile merged over the defaults, which is the profile itself when it has every default field |
| AppStore.MergeOverFullProfile | store/appStore.ts:155-156 | merging a profile that has every default field gives it back unchanged |
| AppStore.ScheduleThenClear | store/appStore.ts:295-299 | handing a draft over and clearing the slot leaves the scheduler selected and the posts and storage untouched |
| ABTest.PickWinner | components/Scheduler.tsx:15 | A exactly when the first draw is below 0.45; a tie exactly when the first draw is at least 0.45 and the second at least 0.9 |
| ABTest.Base | components/Scheduler.tsx:17-19 | Instagram starts from 150/20/10 likes/comments/shares and every other platform from 50/15/25 |
| ABTest.Metric | components/Scheduler.tsx:21-28 | a loser's metric lies in [base, base + spread − 1]; a winner's lies between 1.5 × base and 1.5 × (base + spread) |
| ABTest.Generate | components/Scheduler.tsx:14-38 | the winner is the one the draws pick and every metric is non-negative |
| ABTest.WinnerHasMoreShares | components/Scheduler.tsx:17-31 | on every platform a decided winner has strictly more shares than the loser |
| ABTest.InstagramWinnerDominates | components/Scheduler.tsx:17-31 | on Instagram a decided winner beats the loser on likes, comments and shares |
| ABTest.OffInstagramWinnerMayTrailOnLikes | components/Scheduler.tsx:17-31 | off Instagram a winner can have fewer likes than the loser (75 against 95 on LinkedIn) |
| ABTest.TieLeavesBothUnscaled | components/Scheduler.tsx:21-31 | after a tie both variants stay within the unscaled ranges |
| ABTest.WithPerformance | components/Scheduler.tsx:98-99 | the variant keeps every field it had and gains the new performance |
| ABTest.Resolve | components/Scheduler.tsx:96-101 | the resolved post has the drawn winner and both performances and keeps every other field of the post |
| ABTest.ResolvedPostIsValid | components/Scheduler.tsx:96-101 | resolving a valid pending post gives a valid decided post with the same id, platform, day, time and variant texts |
| CreatePost.InitialForm | components/modals/CreatePostModal.tsx:14-19 | the platform comes from the handoff, else the first connected platform, else LinkedIn; the test flag is set only by a true handoff flag; time and texts fall back to 10:00 AM and empty |
| CreatePost.SavedPost | components/modals/CreatePostModal.tsx:21-28 | the saved record has exactly day, platform, time and flag plus either two content-only variants or one content field |
| ResultModal.CompareRow | components/modals/ABTestResultModal.tsx:32-38 | a side is highlighted exactly when it is at least the other, so equal values highlight both |
| ResultModal.WinnerLabel | components/modals/ABTestResultModal.tsx:51 | a truthy winner shows as "Variant " followed by it; an empty or null winner shows as "Tie" |
| ResultModal.Show | components/modals/ABTestResultModal.tsx:11-30 | the placeholder shows exactly when the winner is pending or a performance is missing; any other post with numeric counters, a null winner included, shows the counters and totals compared side by side under the winner label |
| ResultModal.DecidedPostsShowResults | components/modals/ABTestResultModal.tsx:13-27 | a valid decided post always reaches the results, never the placeholder |
| ResultModal.EmptyWinnerLabelledTie | components/modals/ABTestResultModal.tsx:51 | an empty or null winner reads "Tie", while a stored 'Tie' reads "Variant Tie" |
| Scheduler.TodayAsWrittenIsTomorrow | components/Scheduler.tsx:58 | the day chosen as written is always tomorrow's name, never today's |
| Scheduler.Today | components/Scheduler.tsx:58 | the corrected fallback day is the name of the weekday that getDay reports |
| Scheduler.HandoffEffect | components/Scheduler.tsx:56-65 | as written: a pending handoff opens the create modal on its own day, or, when it has none, on the day after today; no handoff changes nothing |
| Scheduler.HandoffEffectOnToday | components/Scheduler.tsx:56-65 | corrected: a handoff without a day opens the create modal on today's weekday |
| Scheduler.HandoffWithoutDayOpensTomorrow | components/Scheduler.tsx:56-65 | the as-written and the corrected effect differ exactly when the handoff carries no day |
| Scheduler.CloseCreateModal | components/Scheduler.tsx:67-70 | closing also empties the handoff slot and leaves storage alone |
| Scheduler.NewPost | components/Scheduler.tsx:72-78 | the post gets the timestamp id, keeps every other field, and an A/B post is marked pending |
| Scheduler.SavedFormIsValid | components/Scheduler.tsx:72-78 | every record the create modal can save becomes a valid post, and an A/B one starts pending |
| Scheduler.HandleSavePost | components/Scheduler.tsx:72-88 | the modal closes and the slot clears; the stamped post is appended on success and the list is unchanged on failure; the invariant is kept |
| Scheduler.ClickSave | components/modals/CreatePostModal.tsx:21-83 | with no connected platform the disabled button changes nothing; otherwise a successful save appends one valid post on the selected day, a failed one leaves the posts alone; the invariant is kept |
| Scheduler.SaveNeedsConnectedPlatform | components/modals/CreatePostModal.tsx:32-83 | a save changes the posts exactly when some platform is connected |
| Scheduler.OpenResult | components/Scheduler.tsx:90-112 | a plain post does nothing; a decided test is shown as stored; a pending test is resolved, replaced by id when the write succeeds, and shown and announced either way |
| Scheduler.OpenResultKeepsInv | components/Scheduler.tsx:90-112 | opening any valid post's results keeps the store invariant, whether or not the write succeeds |
| Scheduler.ResolutionIsFinal | components/Scheduler.tsx:90-112 | after a successful write the store's post is decided, so opening it again from the grid, with any draws and any write outcome, shows it as stored and changes nothing |
| Scheduler.ResolutionReplacesStoredPost | components/Scheduler.tsx:96-103 | with a working store, the pending post at position i is replaced in place by the decided post the modal shows |
| Scheduler.FailedWriteRedraws | components/Scheduler.tsx:90-112 | after a failed write the store still holds the pending post, and opening it again shows the resolution of the new draws, with the winner those draws pick |
| Scheduler.PostsOn | components/Scheduler.tsx:132 | each post occurs in a day's list as often as in the store when it is on that day, and not at all otherwise |
| Scheduler.InsertByTime | components/Scheduler.tsx:132 | inserting into a time-sorted column keeps it sorted and adds exactly the one post |
| Scheduler.SortByTime | components/Scheduler.tsx:132 | the result is sorted by time text and is a permutation of the input |
| Scheduler.DayColumn | components/Scheduler.tsx:132 | a column holds exactly that day's posts, counted with multiplicity, in time-text order |
| Scheduler.TimesSortAsText | components/Scheduler.tsx:132 | times order as text, so "10:00 AM" sorts before "9:00 AM" |
| Calls.ParseReply | components/Engagement.tsx:64-68 | a reply counts as returned exactly when the text parses to a non-null value; a generator throw passes through and a bad parse or null throws the engine's error |
| Settings.Open | components/Settings.tsx:16 | the form starts from a copy of the store's profile, with no dialog, and keeps the default fields |
| Settings.Without | components/Settings.tsx:30 | the voice no longer occurs; every other value keeps its count; a list without the voice is unchanged |
| Settings.ToggleVoice | components/Settings.tsx:28-31 | the voice is selected afterwards exactly when it was not before; an absent voice is appended at the end and a present one is removed wherever it occurs |
| Settings.WithoutAppended | components/Settings.tsx:28-31 | filtering out a just-appended, previously absent value gives the list back |
| Settings.ToggleAbsentTwice | components/Settings.tsx:28-33 | toggling an unselected voice twice restores the original list |
| Settings.CharactersJoinBack | components/Settings.tsx:31 | spreading a string into characters loses nothing: run together they give the string back |
| Settings.HandleVoiceToggle | components/Settings.tsx:28-33 | a list of voices toggles; a value without list methods leaves the form unchanged; no other field changes and the default fields stay |
| Settings.StringVoiceSpreads | components/Settings.tsx:29-31 | a string voice field that lacks the voice is turned into its characters plus the voice |
| Settings.HandleChange | components/Settings.tsx:35-38 | the named field takes the typed text and no other field changes |
| Settings.HandleConnect | components/Settings.tsx:40-42 | the connect button only opens the dialog for the platform; the form is unchanged |
| Settings.HandleDeny | components/Settings.tsx:66 | denying closes the dialog and leaves the form, connections included, unchanged |
| Settings.HandleDisconnect | components/Settings.tsx:44-49 | the store clears the platform's flag; the local copy clears it too, keeps the other platforms and keeps unsaved edits |
| Settings.HandleOAuthAllow | components/Settings.tsx:51-59 | with a dialog open, its platform is connected in the store and in the local copy; the dialog closes either way, and without one nothing else happens |
| Settings.HandleSave | components/Settings.tsx:24-26 | the whole local copy becomes the store's profile when the write succeeds; the form is unchanged |
| Settings.ConnectThenAllow | components/Settings.tsx:40-59 | connect then allow, with a working store, connects the platform in both copies and leaves every other platform as it was |
| Settings.FailedDisconnectDiverges | components/Settings.tsx:44-49 | a failed disconnect leaves the store connected while the form shows the platform disconnected |
| Settings.DisconnectDoesNotSaveEdits | components/Settings.tsx:44-49 | a disconnect writes the store's own profile, so local edits to other fields stay out of the store |
| Engagement.CommentsOf | components/Engagement.tsx:7-20 | each platform has two comments with ids 2r+1 and 2r+2 for its display position r |
| Engagement.MockComments | components/Engagement.tsx:48 | a platform's name gives its comments and any other text gives none |
| Engagement.MockCommentIdsDistinct | components/Engagement.tsx:7-20 | no two comments, on any platforms, share an id |
| Engagement.SelectActive | components/Engagement.tsx:37-44 | a connected tab stays selected; otherwise the first connected platform is chosen, or none when there is none |
| Engagement.SelectActiveIdempotent | components/Engagement.tsx:37-44 | re-running the effect on its own result changes nothing, so the effect settles after one run |
| Engagement.OnPlatformChange | components/Engagement.tsx:46-54 | a chosen tab loads its comments and clears the reply panel; no tab clears only the comments |
| Engagement.SyncWithProfile | components/Engagement.tsx:31-54 | at mount no tab is active exactly when nothing is connected, an active tab is a connected platform, and its comments are loaded |
| Engagement.GenerateReplies | components/Engagement.tsx:59-75 | a parsed non-null reply sets the replies to its list or none; any failure shows the caught message as an error and one fallback reply; the store changes only in its notification |
| Dashboard.TwitterAloneDoesNotCount | components/Dashboard.tsx:18 | analytics show exactly when LinkedIn or Instagram is connected; Twitter does not count |
| Dashboard.ShownBars | components/Dashboard.tsx:131-132 | a bar series is drawn exactly for each connected platform other than Twitter, and some bar is drawn exactly when analytics show |
| Dashboard.FollowerDelta | components/Dashboard.tsx:56-57 | the change is the floor of draw × 200 − 100, a whole number in [−100, 99] |
| Dashboard.RefreshFollower | components/Dashboard.tsx:54-58 | a refreshed point stays valid, keeps its name and other fields, and both counts move by a whole number in [−100, 99] |
| Dashboard.RefreshRate | components/Dashboard.tsx:59-62 | a refreshed rate stays valid and keeps its name; it is at least 0.5 and is either 0.5 or within half a point of the old rate |
| Dashboard.RefreshFollowers | components/Dashboard.tsx:54-58 | the refreshed series has the same length and names, valid points, and both counts of each point moved by a whole number in [−100, 99] |
| Dashboard.RefreshRates | components/Dashboard.tsx:59-62 | the refreshed series has the same length and names, valid points, and every rate is at least 0.5 |
| Dashboard.StartRefresh | components/Dashboard.tsx:49-51 | the refresh is marked running and the insights are kept |
| Dashboard.FinishRefresh | components/Dashboard.tsx:53-66 | the refresh ends with the success notice whatever happened; when both writes succeed the store holds exactly the perturbed captured series, otherwise neither series changes; the invariant is kept |
| Dashboard.FailedRefreshReadsAsSuccess | components/Dashboard.tsx:63-65 | a refresh whose write fails keeps the old data yet shows the success notice |
| Dashboard.OverlappingRefreshesLastWins | components/Dashboard.tsx:49-76 | the button is disabled while refreshing, but a remounted dashboard can start a second refresh before the first timer fires; the two do not add up: the later one's perturbation of the captured series is the result |
| Dashboard.GenerateInsights | components/Dashboard.tsx:35-47 | a reply becomes the insights; a failure puts its message both in the panel and in an error notice |
| StrategicPlanner.SetupEffect | components/StrategicPlanner.tsx:19-25 | the setup message shows exactly when there is no profile or no company description |
| StrategicPlanner.Generate | components/StrategicPlanner.tsx:27-46 | without a profile only an error is set; otherwise the plan is the reply's list or none, and a failure shows its message inline and as a notice |
| StrategicPlanner.MissingProfileMakesNoCall | components/StrategicPlanner.tsx:28-31 | without a profile the outcome does not depend on the generator's reply |
| StrategicPlanner.StarterContent | components/StrategicPlanner.tsx:53 | the topic and the format can be read back at fixed offsets after their labels, and the text ends with the fixed tail |
| StrategicPlanner.CreatePostFrom | components/StrategicPlanner.tsx:48-55 | the item's day, platform and time, with the starter text, go to the scheduler; storage is untouched |
| StrategicPlanner.HandoffOpensOnItemDay | components/StrategicPlanner.tsx:48-55 | the handoff opens the create modal on the item's day, with the item's time and the starter text in the form |
| ContentStudio.Generate | components/ContentStudio.tsx:16-35 | an empty topic only sets an error; otherwise the ideas are the reply's list or none, and a failure shows its message inline and as a notice |
| ContentStudio.EmptyTopicMakesNoCall | components/ContentStudio.tsx:17-20 | with no topic the outcome does not depend on the generator's reply |
| ContentStudio.IdeaText | components/ContentStudio.tsx:116 | title, body and hashtags can be read back at fixed offsets, separated by blank lines |
| ContentStudio.ScheduleIdea | components/ContentStudio.tsx:116 | the studio's platform and the idea's text go to the scheduler, with no day or time |
| ContentStudio.IdeaOpensOnTomorrow | components/Scheduler.tsx:56-65 | a scheduled idea carries no day, so it opens the create modal on the as-written fallback, the day after today, with the studio's platform, the default time and the idea's text |
| ContentMultiplier.SetupEffect | components/ContentMultiplier.tsx:17-23 | the setup message shows exactly when there is no profile or no company description |
| ContentMultiplier.Generate | components/ContentMultiplier.tsx:31-54 | empty text, then a missing profile, only set an error; a parsed reply is kept whole, null included; a failure clears the result and shows its message inline and as a notice |
| ContentMultiplier.Encode | services/geminiService.ts:206-228 | every result corresponds to a reply that fits the response schema |
| ContentMultiplier.Rendered | components/ContentMultiplier.tsx:83-151 | the panels show only for a truthy reply that fits the schema |
| ContentMultiplier.RenderedEncode | components/ContentMultiplier.tsx:83-151 | every result is shown exactly as the reply that carries it: rendering inverts encoding |
| ContentMultiplier.NumberedTweetReadsBack | components/ContentMultiplier.tsx:108 | a numbered tweet parses back into its position, the thread length and the tweet |
| ContentMultiplier.ThreadCopyText | components/ContentMultiplier.tsx:108 | an empty thread copies as empty text; otherwise the copy starts with the first numbered tweet and is as long as all numbered tweets plus one blank line between each pair |
| ContentMultiplier.NumberedTweets | components/ContentMultiplier.tsx:108 | one entry per tweet, each numbered with its position and the thread's length |
| ContentMultiplier.ThreadCopyTextHoldsEveryTweet | components/ContentMultiplier.tsx:108 | every numbered tweet sits at its offset in the copy text, followed by a blank line unless it is the last |
| ContentMultiplier.ScheduleFirstTweet | components/ContentMultiplier.tsx:119 | the first tweet goes to the scheduler for Twitter; on an empty thread nothing happens |
| ContentMultiplier.SlideTextsDifferAfterColon | components/ContentMultiplier.tsx:144 | a slide's copy and schedule texts differ only in the character after the colon: a line break against a space |
| ContentMultiplier.CarouselTextsSameLength | components/ContentMultiplier.tsx:130 | the copied and the scheduled carousel texts have the same length |
| ContentMultiplier.ScheduleCarousel | components/ContentMultiplier.tsx:144 | every slide, in schedule form, goes to the scheduler for Instagram |
| ContentMultiplier.ScheduleArticle | components/ContentMultiplier.tsx:97 | the whole article goes to the scheduler for LinkedIn |
| ContentMultiplier.HandleCopy | components/ContentMultiplier.tsx:25-29 | the copied panel is marked and the result and error are kept |
| Onboarding.Next | components/OnboardingModal.tsx:32-38 | before the last step a press advances by one step and stays in range; on the last step it closes |
| Onboarding.Walk | components/OnboardingModal.tsx:30-38 | the press after k presses from the first step is the press at step k, so each press moves exactly one step |
| Onboarding.WalkVisitsEveryStep | components/OnboardingModal.tsx:30-38 | presses from the first step visit every step in order and close after the last |
| Onboarding.Dots | components/OnboardingModal.tsx:47-51 | one dot per step, lit exactly at the current one |
| Onboarding.ButtonLabel | components/OnboardingModal.tsx:57 | the button reads "Next" exactly when pressing it advances, and "Let's Go!" otherwise |
| App.RenderView | App.tsx:45-66 | a page's own name selects it and any other name selects the dashboard |
| App.RenderViewOfName | App.tsx:45-66 | every page is reached through its own name, so no two pages share one |
| App.StoreViewsRender | App.tsx:45-66 | the view names the store uses select the scheduler and the dashboard |
| App.Render | App.tsx:68-75 | only the landing page before launch; after it the selected page, with the carousel exactly while onboarding shows |
| App.OnboardingCheck | App.tsx:30-43 | after launch onboarding starts exactly when the flag is missing or empty, or when storage cannot be read; nothing else changes |
| App.Launch | App.tsx:68-70 | launching always leaves the landing page for the shell |
| App.HydrateKeepsOnboardingFlag | store/appStore.ts:212-215 | start-up neither sets nor clears the onboarding flag |
| App.LaunchShowsOnboardingIff | App.tsx:30-43 | after start-up and launch the dashboard shows, with the carousel exactly when the stored flag is missing or empty |
| App.OnboardingShownOnce | App.tsx:30-43 | a first visit shows the carousel; once it is closed with a working store, the next start-up goes straight to the dashboard |
| Text.DigitChar | components/ContentMultiplier.tsx:108 | a digit value renders as the digit character whose code is that far past '0' |
| Text.NatToString | components/ContentMultiplier.tsx:108 | a number renders as a non-empty digit string without leading zeros |
| Text.SumLengthsPointwise | components/ContentMultiplier.tsx:130 | part lists of the same lengths, position by position, have the same total length |
| Text.ParseNatOfNatToString | components/ContentMultiplier.tsx:108 | decimal rendering of a number parses back to the number |
| Text.NatToStringInjective | components/ContentMultiplier.tsx:108 | distinct numbers render as distinct strings |
| Text.IntToStringInjective | components/ContentMultiplier.tsx:130 | distinct integers, of either sign, render as distinct strings |
| Text.Join | components/ContentMultiplier.tsx:108 | the joined text starts with the first part, equals a lone part, and has the parts' total length plus one separator between each pair |
| Text.JoinPartAt | components/ContentMultiplier.tsx:108 | every part sits in the joined text at the offset given by the parts and separators before it |
| Text.JoinSeparatorAfter | components/ContentMultiplier.tsx:108 | every part but the last is followed by the separator |
| Text.JoinSameShape | components/ContentMultiplier.tsx:130 | part lists of the same lengths, position by position, join to texts of the same length |
| Text.LexLeTotal | components/Scheduler.tsx:132 | any two time texts are comparable |
| Text.LexLeTransitive | components/Scheduler.tsx:132 | the text order on times is transitive |

## Left out

- Storage.LoadFromStorage: a `getItem` that itself throws is not modelled. In the code it falls into the same catch, returns the fallback and tries to remove the key.
- The `typeof window === 'undefined'` branch of the loader is not modelled. Under it every load returns its fallback, and the store's initial sidebar state is only the `wideWindow` parameter.
- JavaScript numbers are modelled as exact reals, so floating-point rounding in `Math.floor((base + r * spread) * 1.5)` and in the rate arithmetic is not modelled.
- `localeCompare` is modelled as code-point order on the time text (`Text.LexLe`), not locale collation. `Array.prototype.sort` is modelled as an insertion sort; the order of posts with equal times is not stated.
- The internals of `JSON.parse` and `JSON.stringify` are not modelled. They are an abstract `Codec`, and the reload lemmas assume it reads back what it writes.
- Timers are not modelled: the one-second refresh delay, the notification auto-dismiss and the two-second reset of the copied marker. The refresh is modelled as a start step and a finish step.
- The clipboard write of `handleCopy` is not modelled; only the marker change is.
- The prompts and model calls in `services/geminiService.ts` are not modelled. A generator call is a parameter: the text it returned or what it threw.
- The text of the JavaScript engine's own error messages is a parameter. These come from a bad parse, or from reading a property of `null`.
- Replies that do not fit the generators' response schemas are not modelled. This covers a non-string field the views interpolate, and a slide whose number is not a whole number; the model treats such a reply as showing nothing.
- Comment avatars, icons, styling and console logging are not modelled.
- The Referrals view, the landing page, the sidebar, the notification component and the mock OAuth dialog's markup are not part of this model. The dialog is modelled only through its allow and deny callbacks.
- `Dashboard.RefreshRate`: the contract bounds the new rate to half a point around the old one or 0.5, rather than stating the exact arithmetic.
- `ABTest.Generate`: the contract states only the winner and non-negative metrics; the ranges are stated by `ABTest.Metric` and the lemmas after it.

## Findings

| source | as written | input that shows it | evidently intended | confidence | as-written member | corrected member |
|---|---|---|---|---|---|---|
| components/Scheduler.tsx:58 | `daysOfWeek[new Date().getDay()]` indexes a Monday-first list with the Sunday-first `getDay()` | on a Wednesday `getDay()` is 3 and `daysOfWeek[3]` is "Thursday"; on a Sunday it is "Monday" | the create modal opens on today's weekday when the handoff has no day | high; not executed | Scheduler.TodayAsWrittenIsTomorrow | Scheduler.HandoffEffectOnToday |
