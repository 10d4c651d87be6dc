/**
 * The application shell (App.tsx): the landing page before launch, the onboarding check
 * after it, and the choice of main view.
 */
module App {
  import opened Wrappers
  import opened Storage
  import opened AppStore
  import Seeds

  /** The eight main views. */
  datatype Page = DashboardPage | StudioPage | SchedulerPage | EngagementPage | ReferralsPage
                | PlannerPage | MultiplierPage | SettingsPage

  /** The `View` name that selects a page. */
  function ViewName(p: Page): string {
    match p
    case DashboardPage => "Dashboard"
    case StudioPage => "Content Studio"
    case SchedulerPage => "Scheduler"
    case EngagementPage => "Engagement"
    case ReferralsPage => "Referrals"
    case PlannerPage => "Strategic Planner"
    case MultiplierPage => "Multiplier"
    case SettingsPage => "Settings"
  }

  /** `renderView`: the page a view name selects, the dashboard for any other name. */
  function RenderView(currentView: string): (p: Page)
    ensures forall q :: ViewName(q) == currentView ==> p == q
    ensures (forall q :: ViewName(q) != currentView) ==> p == DashboardPage
  {
    if currentView == ViewName(StudioPage) then StudioPage
    else if currentView == ViewName(SchedulerPage) then SchedulerPage
    else if currentView == ViewName(EngagementPage) then EngagementPage
    else if currentView == ViewName(ReferralsPage) then ReferralsPage
    else if currentView == ViewName(PlannerPage) then PlannerPage
    else if currentView == ViewName(MultiplierPage) then MultiplierPage
    else if currentView == ViewName(SettingsPage) then SettingsPage
    else DashboardPage
  }

  /** Every page is reached through its own name, so no two pages share one. */
  lemma RenderViewOfName(p: Page)
    ensures RenderView(ViewName(p)) == p
  {
  }

  /** The views the scheduler handoff and the start-up state name are the ones they mean. */
  lemma StoreViewsRender()
    ensures RenderView(SchedulerView) == SchedulerPage && RenderView(DashboardView) == DashboardPage
  {
  }

  /** What the shell shows. */
  datatype Screen = Landing | Shell(page: Page, onboardingModal: bool)

  /** Before launch only the landing page; after it the selected page, with the carousel over it while onboarding. */
  function Render(app: AppState): (s: Screen)
    ensures !app.isAppLaunched <==> s == Landing
    ensures s.Shell? ==> s.page == RenderView(app.currentView) && (s.onboardingModal <==> app.showOnboarding)
  {
    if !app.isAppLaunched then Landing else Shell(RenderView(app.currentView), app.showOnboarding)
  }

  /**
   * The onboarding effect. `readable` is false when reading storage throws; then, as when
   * the completion flag is missing or empty, onboarding starts.
   */
  function OnboardingCheck(w: World, readable: bool): (r: World)
    ensures r.storage == w.storage && r.app.(showOnboarding := w.app.showOnboarding) == w.app
    ensures !w.app.isAppLaunched ==> r == w
    ensures w.app.isAppLaunched && !readable ==> r.app.showOnboarding
    ensures w.app.isAppLaunched && readable ==>
              (r.app.showOnboarding <==>
                 w.app.showOnboarding || Seeds.OnboardingKey !in w.storage || w.storage[Seeds.OnboardingKey] == "")
  {
    if !w.app.isAppLaunched then w
    else if !readable then StartOnboarding(w)
    else if Seeds.OnboardingKey !in w.storage || w.storage[Seeds.OnboardingKey] == "" then StartOnboarding(w)
    else w
  }

  /** The landing page's button, followed by the effect it triggers. */
  function Launch(w: World, readable: bool): (r: World)
    ensures r.app.isAppLaunched
    ensures Render(r.app).Shell?
  {
    OnboardingCheck(LaunchApp(w), readable)
  }

  /**
   * Start-up and launch with readable storage: the dashboard, with the carousel over it
   * exactly when the completion flag is missing or empty.
   */
  lemma {:induction false} LaunchShowsOnboardingIff(storage: LocalStorage, codec: Codec, wide: bool)
    ensures Render(Launch(Hydrate(storage, codec, wide), true).app)
            == Shell(DashboardPage, Seeds.OnboardingKey !in storage || storage[Seeds.OnboardingKey] == "")
  {
    var h := Hydrate(storage, codec, wide);
    HydrateKeepsOnboardingFlag(storage, codec, wide);
    StoreViewsRender();
    var r := Launch(h, true);
    assert r.app.currentView == DashboardView;
  }

  /** Start-up neither sets nor clears the completion flag. */
  lemma {:induction false} HydrateKeepsOnboardingFlag(storage: LocalStorage, codec: Codec, wide: bool)
    ensures var h := Hydrate(storage, codec, wide);
            (Seeds.OnboardingKey !in h.storage || h.storage[Seeds.OnboardingKey] == "")
            == (Seeds.OnboardingKey !in storage || storage[Seeds.OnboardingKey] == "")
  {
    var h := Hydrate(storage, codec, wide);
    assert Seeds.OnboardingKey !in HydratedKeys;
    if Seeds.OnboardingKey in storage {
      HydrateKeepsOtherKeys(storage, codec, wide, Seeds.OnboardingKey);
    } else {
      assert Shrunk(storage, h.storage);
    }
  }

  /**
   * A first visit shows the carousel; once it is closed with a working store, the next
   * start-up, however the other keys fare, launches straight into the dashboard.
   */
  lemma {:induction false} OnboardingShownOnce(storage: LocalStorage, codec: Codec, wide: bool)
    requires Seeds.OnboardingKey !in storage
    ensures var first := Launch(Hydrate(storage, codec, wide), true);
            var closed := CompleteOnboarding(first, true);
            var again := Launch(Hydrate(closed.storage, codec, wide), true);
            Render(first.app) == Shell(DashboardPage, true)
            && Render(closed.app) == Shell(DashboardPage, false)
            && Render(again.app) == Shell(DashboardPage, false)
  {
    var first := Launch(Hydrate(storage, codec, wide), true);
    LaunchShowsOnboardingIff(storage, codec, wide);
    var closed := CompleteOnboarding(first, true);
    LaunchShowsOnboardingIff(closed.storage, codec, wide);
  }
}
