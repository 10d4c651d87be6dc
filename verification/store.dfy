/**
 * The application state store (store/appStore.ts:176-303): one state record, the
 * durable storage beside it, and every action as a transition between the two.
 * A storage write that throws is the `writeOk = false` outcome.
 */
module AppStore {
  import opened Wrappers
  import opened JsonValues
  import opened Storage
  import opened Validators
  import opened Platforms
  import Seeds

  datatype Kind = Success | Error

  datatype Notification = Notification(message: string, kind: Kind)

  /**
   * `Partial<ScheduledPost>` as it travels through the handoff slot: the fields the
   * create-post modal reads.
   */
  datatype Draft = Draft(day: Option<string>, platform: Option<string>, scheduledTime: Option<string>,
                         isABTest: Option<bool>, content: Option<string>,
                         variantA: Option<string>, variantB: Option<string>)

  /** A draft that sets only the given platform and content. */
  function ContentDraft(platform: string, content: string): Draft {
    Draft(None, Some(platform), None, None, Some(content), None, None)
  }

  const DashboardView := "Dashboard"
  const SchedulerView := "Scheduler"

  datatype AppState = AppState(
    currentView: string,
    isAppLaunched: bool,
    isSidebarOpen: bool,
    showOnboarding: bool,
    brandProfile: map<string, Json>,
    posts: seq<Json>,
    followerData: seq<Json>,
    engagementData: seq<Json>,
    postToSchedule: Option<Draft>,
    notification: Option<Notification>)

  /** The in-memory state together with `localStorage`. */
  datatype World = World(app: AppState, storage: LocalStorage)

  /** What hydration establishes and every action keeps. */
  predicate Inv(app: AppState) {
    && Seeds.DefaultProfile.Keys <= app.brandProfile.Keys
    && AllPostsValid(app.posts)
    && (forall i :: 0 <= i < |app.followerData| ==> IsValidFollowerItem(app.followerData[i]))
    && (forall i :: 0 <= i < |app.engagementData| ==> IsValidEngagementItem(app.engagementData[i]))
  }

  const ProfileSaved := Notification("Brand profile saved!", Success)
  const ProfileSaveFailed := Notification("Failed to save settings.", Error)
  const PostScheduled := Notification("Post scheduled successfully!", Success)
  const PostScheduleFailed := Notification("Failed to schedule post.", Error)
  const PostUpdateFailed := Notification("Failed to update post data.", Error)
  const AnalyticsFailed := Notification("Failed to refresh analytics.", Error)

  /** A failed action: nothing persisted, nothing committed, only the error is shown. */
  predicate RolledBack(w: World, r: World, failure: Notification) {
    r.storage == w.storage && r.app == w.app.(notification := Some(failure))
  }

  lemma SinglePostValid(id: real, platform: string, content: string, time: string, day: string)
    ensures IsValidPost(Seeds.SinglePost(id, platform, content, time, day))
  {
  }

  lemma PendingTestValid(id: real, platform: string, time: string, day: string, a: string, b: string)
    ensures IsValidPost(Seeds.ABPost(id, platform, time, day, Seeds.Variant(a), Seeds.Variant(b), "Pending"))
  {
  }

  lemma MeasuredTestValid(id: real, platform: string, time: string, day: string, a: string, b: string,
                          la: real, ca: real, sa: real, lb: real, cb: real, sb: real, winner: string)
    ensures IsValidPost(Seeds.ABPost(id, platform, time, day,
                                     Seeds.MeasuredVariant(a, Seeds.Perf(la, ca, sa)),
                                     Seeds.MeasuredVariant(b, Seeds.Perf(lb, cb, sb)), winner))
  {
    var p := Seeds.ABPost(id, platform, time, day, Seeds.MeasuredVariant(a, Seeds.Perf(la, ca, sa)),
                          Seeds.MeasuredVariant(b, Seeds.Perf(lb, cb, sb)), winner);
    assert HasPerformance(p.fields["variantA"]);
    assert HasPerformance(p.fields["variantB"]);
  }

  /** The seed data passes the same validators as anything loaded from storage. */
  lemma SeedsValid()
    ensures AllPostsValid(Seeds.InitialPosts)
    ensures IsValidPostsArray(Arr(Seeds.InitialPosts))
    ensures IsValidFollowerData(Arr(Seeds.InitialFollowerData))
    ensures IsValidEngagementData(Arr(Seeds.InitialEngagementData))
  {
    SeedPostsValid();
    SeedSeriesValid();
  }

  lemma SeedSeriesValid()
    ensures IsValidFollowerData(Arr(Seeds.InitialFollowerData))
    ensures IsValidEngagementData(Arr(Seeds.InitialEngagementData))
  {
    SeedFollowerItemsValid();
    SeedEngagementItemsValid();
  }

  lemma SeedFollowerItemsValid()
    ensures forall i :: 0 <= i < |Seeds.InitialFollowerData| ==> IsValidFollowerItem(Seeds.InitialFollowerData[i])
  {
    forall name: string, linkedIn: real, instagram: real
      ensures IsValidFollowerItem(Seeds.FollowerPoint(name, linkedIn, instagram))
    {
    }
  }

  lemma SeedEngagementItemsValid()
    ensures forall i :: 0 <= i < |Seeds.InitialEngagementData| ==> IsValidEngagementItem(Seeds.InitialEngagementData[i])
  {
    forall name: string, rate: real ensures IsValidEngagementItem(Seeds.RatePoint(name, rate)) {
    }
  }

  lemma SeedPostsValid()
    ensures AllPostsValid(Seeds.InitialPosts)
  {
    SinglePostValid(1.0, "LinkedIn",
      "Excited to share our Q3 growth report! We've seen a 25% increase in user engagement...", "9:00 AM", "Monday");
    MeasuredTestValid(4.0, "Instagram", "2:00 PM", "Tuesday",
      "Our new A/B testing feature is a game-changer! See how it works.",
      "Boost your engagement with our powerful new A/B testing feature. Check it out.",
      120.0, 15.0, 8.0, 180.0, 25.0, 12.0, "B");
    SinglePostValid(2.0, "Instagram", "Behind the scenes at NexusGrowth!", "12:00 PM", "Wednesday");
    PendingTestValid(3.0, "LinkedIn", "11:00 AM", "Friday",
      "Top 5 tips for leveraging AI in your content strategy. Tip #1: Personalize at scale.",
      "Unlock the power of AI in your content strategy with these 5 essential tips.");
    assert AllPostsValid(Seeds.InitialPosts);
  }

  /** The storage left after some loads: a sub-map of the original. */
  predicate Shrunk(before: LocalStorage, after: LocalStorage) {
    after.Keys <= before.Keys && forall k :: k in after ==> after[k] == before[k]
  }

  datatype LoadedProfile = LoadedProfile(profile: map<string, Json>, storage: LocalStorage)

  datatype LoadedSeries = LoadedSeries(items: seq<Json>, storage: LocalStorage)

  function LoadProfile(storage: LocalStorage, codec: Codec): (r: LoadedProfile)
    ensures Seeds.DefaultProfile.Keys <= r.profile.Keys
    ensures r.storage == storage || r.storage == storage - {Seeds.BrandProfileKey}
  {
    var l := LoadFromStorage(storage, Seeds.BrandProfileKey, Obj(Seeds.DefaultProfile), IsProfileObject, codec);
    LoadedProfile(if l.value.Obj? then l.value.fields else Seeds.DefaultProfile, l.storage)
  }

  function LoadPosts(storage: LocalStorage, codec: Codec): (r: LoadedSeries)
    ensures AllPostsValid(r.items)
    ensures r.storage == storage || r.storage == storage - {Seeds.PostsKey}
  {
    SeedPostsValid();
    var l := LoadFromStorage(storage, Seeds.PostsKey, Arr(Seeds.InitialPosts), IsValidPostsArray, codec);
    LoadedSeries(if l.value.Arr? then l.value.items else Seeds.InitialPosts, l.storage)
  }

  function LoadFollowers(storage: LocalStorage, codec: Codec): (r: LoadedSeries)
    ensures forall i :: 0 <= i < |r.items| ==> IsValidFollowerItem(r.items[i])
    ensures r.storage == storage || r.storage == storage - {Seeds.FollowerKey}
  {
    SeedFollowerItemsValid();
    var l := LoadFromStorage(storage, Seeds.FollowerKey, Arr(Seeds.InitialFollowerData), IsValidFollowerData, codec);
    LoadedSeries(if l.value.Arr? then l.value.items else Seeds.InitialFollowerData, l.storage)
  }

  function LoadEngagement(storage: LocalStorage, codec: Codec): (r: LoadedSeries)
    ensures forall i :: 0 <= i < |r.items| ==> IsValidEngagementItem(r.items[i])
    ensures r.storage == storage || r.storage == storage - {Seeds.EngagementKey}
  {
    SeedEngagementItemsValid();
    var l := LoadFromStorage(storage, Seeds.EngagementKey, Arr(Seeds.InitialEngagementData), IsValidEngagementData, codec);
    LoadedSeries(if l.value.Arr? then l.value.items else Seeds.InitialEngagementData, l.storage)
  }

  /** The storage keys the store reads at start-up, and may evict. */
  const HydratedKeys := {Seeds.BrandProfileKey, Seeds.PostsKey, Seeds.FollowerKey, Seeds.EngagementKey}

  /**
   * The store's initialiser: hydrate profile, posts and both series through the
   * fail-closed loader, in that order; `wideWindow` is `window.innerWidth >= 768`.
   */
  function Hydrate(storage: LocalStorage, codec: Codec, wideWindow: bool): (w: World)
    ensures Inv(w.app)
    ensures w.app.currentView == DashboardView && !w.app.isAppLaunched && !w.app.showOnboarding
    ensures w.app.postToSchedule == None && w.app.notification == None
    ensures Shrunk(storage, w.storage)
  {
    var profile := LoadProfile(storage, codec);
    var posts := LoadPosts(profile.storage, codec);
    var followers := LoadFollowers(posts.storage, codec);
    var engagement := LoadEngagement(followers.storage, codec);
    World(AppState(DashboardView, false, wideWindow, false, profile.profile, posts.items,
                   followers.items, engagement.items, None, None),
          engagement.storage)
  }

  /** Start-up evicts only the keys it reads: every other key, such as the onboarding flag, survives. */
  lemma {:induction false} HydrateKeepsOtherKeys(storage: LocalStorage, codec: Codec, wideWindow: bool, k: string)
    requires k in storage && k !in HydratedKeys
    ensures var w := Hydrate(storage, codec, wideWindow);
            k in w.storage && w.storage[k] == storage[k]
  {
    var profile := LoadProfile(storage, codec);
    var posts := LoadPosts(profile.storage, codec);
    var followers := LoadFollowers(posts.storage, codec);
    assert k in profile.storage && k in posts.storage && k in followers.storage;
  }

  // ---- Pure state changes ----

  function SetCurrentView(w: World, view: string): (r: World)
    ensures r.storage == w.storage && r.app == w.app.(currentView := view)
  {
    w.(app := w.app.(currentView := view))
  }

  /** Leaves the landing page; nothing else changes. */
  function LaunchApp(w: World): (r: World)
    ensures r.app.isAppLaunched && r.storage == w.storage
    ensures r.app.(isAppLaunched := w.app.isAppLaunched) == w.app
  {
    w.(app := w.app.(isAppLaunched := true))
  }

  /** Opens or closes the sidebar; nothing else changes. */
  function SetSidebarOpen(w: World, isOpen: bool): (r: World)
    ensures r.app.isSidebarOpen == isOpen && r.storage == w.storage
    ensures r.app.(isSidebarOpen := w.app.isSidebarOpen) == w.app
  {
    w.(app := w.app.(isSidebarOpen := isOpen))
  }

  /** Shows the onboarding carousel; storage is not read or written. */
  function StartOnboarding(w: World): (r: World)
    ensures r.app.showOnboarding && r.storage == w.storage
    ensures r.app.(showOnboarding := w.app.showOnboarding) == w.app
  {
    w.(app := w.app.(showOnboarding := true))
  }

  /** Persists the completion flag (a failed write is only logged) and hides onboarding. */
  function CompleteOnboarding(w: World, writeOk: bool): (r: World)
    ensures !r.app.showOnboarding
    ensures writeOk ==> Seeds.OnboardingKey in r.storage && r.storage[Seeds.OnboardingKey] == "true"
    ensures !writeOk ==> r.storage == w.storage
    ensures r.app.(showOnboarding := w.app.showOnboarding) == w.app
  {
    World(w.app.(showOnboarding := false), SetItem(w.storage, Seeds.OnboardingKey, "true", writeOk))
  }

  /** Replaces whatever notice is showing; nothing else changes. */
  function ShowNotification(w: World, n: Notification): (r: World)
    ensures r.app.notification == Some(n) && r.storage == w.storage
    ensures r.app.(notification := w.app.notification) == w.app
  {
    w.(app := w.app.(notification := Some(n)))
  }

  /** Dismisses the notice; nothing else changes. */
  function ClearNotification(w: World): (r: World)
    ensures r.app.notification.None? && r.storage == w.storage
    ensures r.app.(notification := w.app.notification) == w.app
  {
    w.(app := w.app.(notification := None))
  }

  /** The actions that touch only screen state keep the store's invariant: it is about data alone. */
  lemma {:induction false} ScreenActionsKeepInv(w: World, isOpen: bool, n: Notification)
    requires Inv(w.app)
    ensures Inv(LaunchApp(w).app) && Inv(SetSidebarOpen(w, isOpen).app) && Inv(StartOnboarding(w).app)
    ensures Inv(ShowNotification(w, n).app) && Inv(ClearNotification(w).app)
  {
    assert LaunchApp(w).app.brandProfile == w.app.brandProfile && LaunchApp(w).app.posts == w.app.posts;
  }

  /** Hands a partial post to the scheduler: switches view, touches no storage. */
  function SchedulePost(w: World, d: Draft): (r: World)
    ensures r.storage == w.storage
    ensures r.app.postToSchedule == Some(d) && r.app.currentView == SchedulerView
    ensures r.app.(postToSchedule := w.app.postToSchedule, currentView := w.app.currentView) == w.app
  {
    w.(app := w.app.(postToSchedule := Some(d), currentView := SchedulerView))
  }

  function ClearPostToSchedule(w: World): (r: World)
    ensures r.storage == w.storage && r.app.postToSchedule == None
    ensures r.app.(postToSchedule := w.app.postToSchedule) == w.app
  {
    w.(app := w.app.(postToSchedule := None))
  }

  // ---- Persist-then-commit actions ----

  /** `saveBrandProfile`: write, then commit and announce; on failure only the error shows. */
  function SaveBrandProfile(w: World, profile: map<string, Json>, codec: Codec, writeOk: bool): (r: World)
    ensures writeOk ==> r.app.brandProfile == profile && r.app.notification == Some(ProfileSaved)
                        && r.storage == w.storage[Seeds.BrandProfileKey := codec.stringify(Obj(profile))]
                        && r.app.(brandProfile := w.app.brandProfile, notification := w.app.notification) == w.app
    ensures !writeOk ==> RolledBack(w, r, ProfileSaveFailed)
    ensures Inv(w.app) && Seeds.DefaultProfile.Keys <= profile.Keys ==> Inv(r.app)
  {
    if writeOk then
      World(w.app.(brandProfile := profile, notification := Some(ProfileSaved)),
            SetItem(w.storage, Seeds.BrandProfileKey, codec.stringify(Obj(profile)), true))
    else
      w.(app := w.app.(notification := Some(ProfileSaveFailed)))
  }

  /** The current profile with one connection flag set to `connected`. */
  function WithConnection(profile: map<string, Json>, p: Platform, connected: bool): (r: map<string, Json>)
    ensures r.Keys == profile.Keys + {ConnectionKey(p)}
    ensures r[ConnectionKey(p)] == Bool(connected)
    ensures forall k :: k in profile && k != ConnectionKey(p) ==> r[k] == profile[k]
  {
    profile[ConnectionKey(p) := Bool(connected)]
  }

  /** `updateConnectionStatus`: saves the current profile with exactly one flag changed. */
  function UpdateConnectionStatus(w: World, p: Platform, connected: bool, codec: Codec, writeOk: bool): (r: World)
    ensures writeOk ==> r.app.brandProfile.Keys == w.app.brandProfile.Keys + {ConnectionKey(p)}
    ensures writeOk ==> r.app.brandProfile[ConnectionKey(p)] == Bool(connected)
    ensures writeOk ==> forall k :: k in w.app.brandProfile && k != ConnectionKey(p) ==>
                          r.app.brandProfile[k] == w.app.brandProfile[k]
    ensures writeOk ==> forall q :: q != p ==> (Connected(r.app.brandProfile, q) <==> Connected(w.app.brandProfile, q))
    ensures writeOk ==> (Connected(r.app.brandProfile, p) <==> connected)
    ensures r == SaveBrandProfile(w, WithConnection(w.app.brandProfile, p, connected), codec, writeOk)
    ensures Inv(w.app) ==> Inv(r.app)
  {
    var updated := WithConnection(w.app.brandProfile, p, connected);
    forall q | q != p ensures ConnectionKey(q) != ConnectionKey(p) {
      ConnectionKeyInjective(p, q);
    }
    SaveBrandProfile(w, updated, codec, writeOk)
  }

  /** `addPost`: append at the end, persist the whole list, then commit and announce. */
  function AddPost(w: World, post: Json, codec: Codec, writeOk: bool): (r: World)
    ensures writeOk ==> |r.app.posts| == |w.app.posts| + 1 && r.app.posts[|w.app.posts|] == post
                        && r.app.posts[..|w.app.posts|] == w.app.posts
                        && r.app.notification == Some(PostScheduled)
                        && r.storage == w.storage[Seeds.PostsKey := codec.stringify(Arr(r.app.posts))]
                        && r.app.(posts := w.app.posts, notification := w.app.notification) == w.app
    ensures !writeOk ==> RolledBack(w, r, PostScheduleFailed)
    ensures Inv(w.app) && IsValidPost(post) ==> Inv(r.app)
  {
    var updated := w.app.posts + [post];
    assert Inv(w.app) && IsValidPost(post) ==> AllPostsValid(updated) by {
      if Inv(w.app) && IsValidPost(post) {
        AppendKeepsPostsValid(w.app.posts, post);
      }
    }
    if writeOk then
      World(w.app.(posts := updated, notification := Some(PostScheduled)),
            SetItem(w.storage, Seeds.PostsKey, codec.stringify(Arr(updated)), true))
    else
      w.(app := w.app.(notification := Some(PostScheduleFailed)))
  }

  /** Appending a valid post to valid posts keeps every post valid. */
  lemma AppendKeepsPostsValid(posts: seq<Json>, post: Json)
    requires AllPostsValid(posts) && IsValidPost(post)
    ensures AllPostsValid(posts + [post])
  {
    var updated := posts + [post];
    assert forall i :: 0 <= i < |updated| ==> updated[i] == if i < |posts| then posts[i] else post;
  }

  /** The numeric id of a post; on valid posts `p.id === q.id` is equality of these. */
  function IdOf(p: Json): Option<real> {
    match Get(p, "id")
    case Some(Num(n)) => Some(n)
    case _ => None
  }

  predicate SameId(p: Json, q: Json) {
    IdOf(p).Some? && IdOf(p) == IdOf(q)
  }

  /** `posts.map(p => p.id === updated.id ? updated : p)`. */
  function ReplaceById(posts: seq<Json>, updated: Json): (r: seq<Json>)
    ensures |r| == |posts|
    ensures forall i :: 0 <= i < |posts| ==> r[i] == if SameId(posts[i], updated) then updated else posts[i]
  {
    if |posts| == 0 then [] else [if SameId(posts[0], updated) then updated else posts[0]] + ReplaceById(posts[1..], updated)
  }

  /** No post carries the id: the list comes back identical. */
  lemma {:induction false} ReplaceByIdNoMatch(posts: seq<Json>, updated: Json)
    requires forall i :: 0 <= i < |posts| ==> !SameId(posts[i], updated)
    ensures ReplaceById(posts, updated) == posts
  {
    var r := ReplaceById(posts, updated);
    assert forall i :: 0 <= i < |posts| ==> r[i] == posts[i];
  }

  /** `updatePost`: replace every post with the same id, persist, then commit silently. */
  function UpdatePost(w: World, post: Json, codec: Codec, writeOk: bool): (r: World)
    ensures writeOk ==> r.app.posts == ReplaceById(w.app.posts, post)
                        && r.storage == w.storage[Seeds.PostsKey := codec.stringify(Arr(r.app.posts))]
                        && r.app.(posts := w.app.posts) == w.app
    ensures !writeOk ==> RolledBack(w, r, PostUpdateFailed)
    ensures r.app.notification == w.app.notification || r.app.notification == Some(PostUpdateFailed)
    ensures Inv(w.app) && IsValidPost(post) ==> Inv(r.app)
  {
    var updated := ReplaceById(w.app.posts, post);
    if writeOk then
      World(w.app.(posts := updated), SetItem(w.storage, Seeds.PostsKey, codec.stringify(Arr(updated)), true))
    else
      w.(app := w.app.(notification := Some(PostUpdateFailed)))
  }

  /**
   * `updateAnalyticsData`: two writes, then one commit. The in-memory series change
   * together or not at all, but a failure of the second write leaves the first one
   * in storage.
   */
  function UpdateAnalyticsData(w: World, followers: seq<Json>, engagement: seq<Json>, codec: Codec,
                               followerOk: bool, engagementOk: bool): (r: World)
    ensures (r.app.followerData == followers && r.app.engagementData == engagement)
            || (r.app.followerData == w.app.followerData && r.app.engagementData == w.app.engagementData)
    ensures followerOk && engagementOk ==>
              r.app == w.app.(followerData := followers, engagementData := engagement)
              && r.storage == w.storage[Seeds.FollowerKey := codec.stringify(Arr(followers))]
                                       [Seeds.EngagementKey := codec.stringify(Arr(engagement))]
    ensures followerOk && !engagementOk ==>
              r.app == w.app.(notification := Some(AnalyticsFailed))
              && r.storage == w.storage[Seeds.FollowerKey := codec.stringify(Arr(followers))]
    ensures !followerOk ==> RolledBack(w, r, AnalyticsFailed)
    ensures r.app.notification == w.app.notification || r.app.notification == Some(AnalyticsFailed)
    ensures (Inv(w.app) && (forall i :: 0 <= i < |followers| ==> IsValidFollowerItem(followers[i]))
             && (forall i :: 0 <= i < |engagement| ==> IsValidEngagementItem(engagement[i]))) ==> Inv(r.app)
  {
    var s1 := SetItem(w.storage, Seeds.FollowerKey, codec.stringify(Arr(followers)), followerOk);
    if !followerOk then
      w.(app := w.app.(notification := Some(AnalyticsFailed)))
    else
      var s2 := SetItem(s1, Seeds.EngagementKey, codec.stringify(Arr(engagement)), engagementOk);
      if engagementOk then
        World(w.app.(followerData := followers, engagementData := engagement), s2)
      else
        World(w.app.(notification := Some(AnalyticsFailed)), s1)
  }

  // ---- Properties across actions ----

  /** A failed write never changes the data a view can see. */
  lemma FailedWritesKeepData(w: World, profile: map<string, Json>, post: Json, followers: seq<Json>,
                             engagement: seq<Json>, codec: Codec)
    ensures SaveBrandProfile(w, profile, codec, false).app.brandProfile == w.app.brandProfile
    ensures AddPost(w, post, codec, false).app.posts == w.app.posts
    ensures UpdatePost(w, post, codec, false).app.posts == w.app.posts
    ensures UpdateAnalyticsData(w, followers, engagement, codec, false, false).app.followerData == w.app.followerData
    ensures UpdateAnalyticsData(w, followers, engagement, codec, true, false).app.engagementData == w.app.engagementData
  {
  }

  /** Reloading after a successful `addPost` yields the extended list. */
  lemma {:induction false} AddedPostSurvivesReload(w: World, post: Json, codec: Codec, wideWindow: bool)
    requires Inv(w.app) && IsValidPost(post)
    requires RoundTrips(codec, Arr(w.app.posts + [post]))
    ensures Hydrate(AddPost(w, post, codec, true).storage, codec, wideWindow).app.posts == w.app.posts + [post]
  {
    var r := AddPost(w, post, codec, true);
    var v := Arr(w.app.posts + [post]);
    assert IsValidPostsArray(v);
    assert r.storage[Seeds.PostsKey] == codec.stringify(v);
    var profile := LoadFromStorage(r.storage, Seeds.BrandProfileKey, Obj(Seeds.DefaultProfile), IsProfileObject, codec);
    assert Seeds.PostsKey in profile.storage && profile.storage[Seeds.PostsKey] == codec.stringify(v);
    var posts := LoadFromStorage(profile.storage, Seeds.PostsKey, Arr(Seeds.InitialPosts), IsValidPostsArray, codec);
    assert posts.value == v;
  }

  /** Reloading after a successful `saveBrandProfile` yields the profile merged over the defaults. */
  lemma {:induction false} SavedProfileSurvivesReload(w: World, profile: map<string, Json>, codec: Codec, wideWindow: bool)
    requires RoundTrips(codec, Obj(profile))
    ensures Hydrate(SaveBrandProfile(w, profile, codec, true).storage, codec, wideWindow).app.brandProfile
            == MergeOverDefaults(Obj(profile))
    ensures Seeds.DefaultProfile.Keys <= profile.Keys ==>
              Hydrate(SaveBrandProfile(w, profile, codec, true).storage, codec, wideWindow).app.brandProfile == profile
  {
    var r := SaveBrandProfile(w, profile, codec, true);
    SaveThenLoad(w.storage, Seeds.BrandProfileKey, Obj(profile), Obj(Seeds.DefaultProfile), IsProfileObject, codec);
    assert LoadProfile(r.storage, codec).profile == MergeOverDefaults(Obj(profile));
    if Seeds.DefaultProfile.Keys <= profile.Keys {
      MergeOverFullProfile(profile);
    }
  }

  /** A profile that already has every default field comes back unchanged from the merge. */
  lemma MergeOverFullProfile(profile: map<string, Json>)
    requires Seeds.DefaultProfile.Keys <= profile.Keys
    ensures MergeOverDefaults(Obj(profile)) == profile
  {
    var m := MergeOverDefaults(Obj(profile));
    assert m.Keys == profile.Keys;
    assert forall k :: k in m ==> m[k] == profile[k];
  }

  /** Handing a post over and clearing the slot again leaves the scheduler view selected. */
  lemma ScheduleThenClear(w: World, d: Draft)
    ensures var r := ClearPostToSchedule(SchedulePost(w, d));
            r.app.postToSchedule == None && r.app.currentView == SchedulerView && r.storage == w.storage
            && r.app.posts == w.app.posts
  {
  }
}
