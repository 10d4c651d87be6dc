/**
 * The dashboard (components/Dashboard.tsx): whether analytics are shown at all, the
 * simulated refresh that perturbs both series, and the AI insights panel.
 */
module Dashboard {
  import opened Wrappers
  import opened JsonValues
  import opened Storage
  import opened Validators
  import opened Platforms
  import opened AppStore
  import opened Calls
  import ABTest

  datatype DashboardState = DashboardState(insights: string, isLoading: bool, isRefreshing: bool)

  const Refreshed := Notification("Analytics data has been refreshed!", Success)


  /** `brandProfile?.linkedInConnected || brandProfile?.instagramConnected`. */
  predicate HasConnectedAccounts(profile: map<string, Json>) {
    Connected(profile, LinkedIn) || Connected(profile, Instagram)
  }

  /** The analytics need LinkedIn or Instagram; a Twitter connection alone shows the connect prompt. */
  lemma TwitterAloneDoesNotCount(profile: map<string, Json>)
    ensures HasConnectedAccounts(profile) <==> (exists p :: p != Twitter && Connected(profile, p))
  {
    if HasConnectedAccounts(profile) {
      if Connected(profile, LinkedIn) {
        assert LinkedIn != Twitter;
      } else {
        assert Instagram != Twitter;
      }
    }
  }

  /** The bar series drawn: one per connected account among LinkedIn and Instagram. */
  function ShownBars(profile: map<string, Json>): (r: seq<string>)
    ensures |r| > 0 <==> HasConnectedAccounts(profile)
    ensures Name(Twitter) !in r
    ensures forall p :: p != Twitter ==> (Name(p) in r <==> Connected(profile, p))
  {
    Only(Connected(profile, LinkedIn), LinkedIn) + Only(Connected(profile, Instagram), Instagram)
  }

  // ---- The simulated refresh ----

  /** `Math.floor(Math.random() * 200 - 100)`. */
  function FollowerDelta(draw: real): (d: int)
    requires ABTest.InUnit(draw)
    ensures -100 <= d <= 99
    ensures d as real <= draw * 200.0 - 100.0 < d as real + 1.0
  {
    (draw * 200.0 - 100.0).Floor
  }

  /** The two draws one follower point consumes. */
  datatype FollowerDraw = FollowerDraw(linkedIn: real, instagram: real)

  /** Adds a whole number in [-100, 99] to a count. */
  predicate Perturbed(before: Option<Json>, after: Option<Json>) {
    IsNum(before) && IsNum(after)
    && var delta := after.value.n - before.value.n;
       -100.0 <= delta <= 99.0 && delta == delta.Floor as real
  }

  /** `{ ...d, LinkedIn: d.LinkedIn + delta, Instagram: d.Instagram + delta' }`. */
  function RefreshFollower(item: Json, d: FollowerDraw): (r: Json)
    requires IsValidFollowerItem(item) && ABTest.InUnit(d.linkedIn) && ABTest.InUnit(d.instagram)
    ensures IsValidFollowerItem(r) && r.fields.Keys == item.fields.Keys
    ensures forall k :: k in item.fields && k != "LinkedIn" && k != "Instagram" ==> r.fields[k] == item.fields[k]
    ensures Perturbed(Get(item, "LinkedIn"), Get(r, "LinkedIn")) && Perturbed(Get(item, "Instagram"), Get(r, "Instagram"))
  {
    var li := FollowerDelta(d.linkedIn);
    var ig := FollowerDelta(d.instagram);
    Obj(item.fields["LinkedIn" := Num(item.fields["LinkedIn"].n + li as real)]
                   ["Instagram" := Num(item.fields["Instagram"].n + ig as real)])
  }

  /** `Math.max(0.5, d.rate + Math.random() * 1 - 0.5)`. */
  function RefreshRate(item: Json, draw: real): (r: Json)
    requires IsValidEngagementItem(item) && ABTest.InUnit(draw)
    ensures IsValidEngagementItem(r) && r.fields.Keys == item.fields.Keys
    ensures forall k :: k in item.fields && k != "rate" ==> r.fields[k] == item.fields[k]
    ensures Get(r, "name") == Get(item, "name")
    ensures var before := item.fields["rate"].n;
            var after := r.fields["rate"].n;
            after >= 0.5 && (after == 0.5 || before - 0.5 <= after < before + 0.5)
  {
    var rate := item.fields["rate"].n + draw * 1.0 - 0.5;
    Obj(item.fields["rate" := Num(if 0.5 >= rate then 0.5 else rate)])
  }

  predicate AtLeastHalf(rate: Option<Json>) {
    IsNum(rate) && rate.value.n >= 0.5
  }

  /** `followerData.map(...)`: one pair of draws per point. */
  function RefreshFollowers(items: seq<Json>, draws: seq<FollowerDraw>): (r: seq<Json>)
    requires |draws| == |items|
    requires forall i :: 0 <= i < |items| ==> IsValidFollowerItem(items[i])
    requires forall i :: 0 <= i < |draws| ==> ABTest.InUnit(draws[i].linkedIn) && ABTest.InUnit(draws[i].instagram)
    ensures |r| == |items|
    ensures forall i :: 0 <= i < |r| ==> IsValidFollowerItem(r[i]) && Get(r[i], "name") == Get(items[i], "name")
    ensures forall i :: 0 <= i < |r| ==> Perturbed(Get(items[i], "LinkedIn"), Get(r[i], "LinkedIn"))
                                         && Perturbed(Get(items[i], "Instagram"), Get(r[i], "Instagram"))
  {
    seq(|items|, i requires 0 <= i < |items| => RefreshFollower(items[i], draws[i]))
  }

  /** `engagementData.map(...)`: one draw per point. */
  function RefreshRates(items: seq<Json>, draws: seq<real>): (r: seq<Json>)
    requires |draws| == |items|
    requires forall i :: 0 <= i < |items| ==> IsValidEngagementItem(items[i])
    requires forall i :: 0 <= i < |draws| ==> ABTest.InUnit(draws[i])
    ensures |r| == |items|
    ensures forall i :: 0 <= i < |r| ==> IsValidEngagementItem(r[i]) && Get(r[i], "name") == Get(items[i], "name")
    ensures forall i :: 0 <= i < |r| ==> AtLeastHalf(Get(r[i], "rate"))
  {
    var r := seq(|items|, i requires 0 <= i < |items| => RefreshRate(items[i], draws[i]));
    assert forall i :: 0 <= i < |r| ==> r[i] == RefreshRate(items[i], draws[i]);
    r
  }

  /** Draws for every point of the captured series. */
  predicate DrawsFit(followers: seq<Json>, engagement: seq<Json>, fd: seq<FollowerDraw>, ed: seq<real>) {
    && |fd| == |followers| && |ed| == |engagement|
    && (forall i :: 0 <= i < |fd| ==> ABTest.InUnit(fd[i].linkedIn) && ABTest.InUnit(fd[i].instagram))
    && (forall i :: 0 <= i < |ed| ==> ABTest.InUnit(ed[i]))
  }

  /** The button: mark the refresh as running. The series are captured now, at click time. */
  function StartRefresh(s: DashboardState): (r: DashboardState)
    ensures r.isRefreshing && r.insights == s.insights && r.isLoading == s.isLoading
  {
    s.(isRefreshing := true)
  }

  /**
   * The timer callback: both series, perturbed from what was captured at the click, go
   * through one `updateAnalyticsData`, and the success notice follows whatever happened.
   */
  function FinishRefresh(w: World, s: DashboardState, followers: seq<Json>, engagement: seq<Json>,
                         fd: seq<FollowerDraw>, ed: seq<real>, codec: Codec,
                         followerOk: bool, engagementOk: bool): (r: (World, DashboardState))
    requires forall i :: 0 <= i < |followers| ==> IsValidFollowerItem(followers[i])
    requires forall i :: 0 <= i < |engagement| ==> IsValidEngagementItem(engagement[i])
    requires DrawsFit(followers, engagement, fd, ed)
    ensures !r.1.isRefreshing && r.1.insights == s.insights
    ensures r.0.app.notification == Some(Refreshed)
    ensures followerOk && engagementOk ==>
              |r.0.app.followerData| == |followers| && |r.0.app.engagementData| == |engagement|
              && (forall i :: 0 <= i < |followers| ==> Get(r.0.app.followerData[i], "name") == Get(followers[i], "name"))
              && (forall i :: 0 <= i < |engagement| ==> Get(r.0.app.engagementData[i], "name") == Get(engagement[i], "name"))
    ensures followerOk && engagementOk ==>
              r.0.app.followerData == RefreshFollowers(followers, fd)
              && r.0.app.engagementData == RefreshRates(engagement, ed)
    ensures !(followerOk && engagementOk) ==>
              r.0.app.followerData == w.app.followerData && r.0.app.engagementData == w.app.engagementData
    ensures Inv(w.app) ==> Inv(r.0.app)
  {
    var nf := RefreshFollowers(followers, fd);
    var ne := RefreshRates(engagement, ed);
    var updated := UpdateAnalyticsData(w, nf, ne, codec, followerOk, engagementOk);
    (ShowNotification(updated, Refreshed), s.(isRefreshing := false))
  }

  /**
   * The failure notice of `updateAnalyticsData` never stays on screen: the refresh's success
   * notice replaces it, so a refresh whose write fails still reads as a success.
   */
  lemma FailedRefreshReadsAsSuccess(w: World, s: DashboardState, fd: seq<FollowerDraw>, ed: seq<real>, codec: Codec)
    requires Inv(w.app) && DrawsFit(w.app.followerData, w.app.engagementData, fd, ed)
    ensures var r := FinishRefresh(w, s, w.app.followerData, w.app.engagementData, fd, ed, codec, false, true);
            r.0.app.followerData == w.app.followerData && r.0.app.notification == Some(Refreshed)
  {
  }

  /**
   * The button is disabled while a refresh runs, but leaving the dashboard and coming back
   * within the delay mounts a fresh screen whose refresh can start while the old timer is
   * still pending. Both timers build on the series they captured, so the later one's result
   * simply replaces the earlier one's: the two perturbations do not add up.
   */
  lemma {:induction false} OverlappingRefreshesLastWins(w: World, s: DashboardState, fd1: seq<FollowerDraw>, ed1: seq<real>,
                                                        fd2: seq<FollowerDraw>, ed2: seq<real>, codec: Codec)
    requires Inv(w.app)
    requires DrawsFit(w.app.followerData, w.app.engagementData, fd1, ed1)
    requires DrawsFit(w.app.followerData, w.app.engagementData, fd2, ed2)
    ensures var first := FinishRefresh(w, s, w.app.followerData, w.app.engagementData, fd1, ed1, codec, true, true);
            var second := FinishRefresh(first.0, first.1, w.app.followerData, w.app.engagementData, fd2, ed2, codec, true, true);
            second.0.app.followerData == RefreshFollowers(w.app.followerData, fd2)
            && second.0.app.engagementData == RefreshRates(w.app.engagementData, ed2)
  {
    var first := FinishRefresh(w, s, w.app.followerData, w.app.engagementData, fd1, ed1, codec, true, true);
    assert Inv(first.0.app);
  }

  // ---- Insights ----

  /** `handleGenerateInsights`: the reply text, or the error's message both as a notice and in the panel. */
  function GenerateInsights(w: World, s: DashboardState, call: Call<string>): (r: (World, DashboardState))
    ensures !r.1.isLoading && r.1.isRefreshing == s.isRefreshing
    ensures r.0.storage == w.storage && r.0.app.(notification := w.app.notification) == w.app
    ensures call.Returned? ==> r.0 == w && r.1.insights == call.value
    ensures call.Threw? ==>
              r.0.app.notification == Some(Notification(r.1.insights, Error))
              && (call.thrown.ErrorWithMessage? ==> r.1.insights == call.thrown.message)
              && (call.thrown.NotAnError? ==> r.1.insights == UnexpectedError)
  {
    match call
    case Returned(text) => (w, s.(insights := text, isLoading := false))
    case Threw(e) =>
      var message := CaughtMessage(e, UnexpectedError);
      (ShowNotification(w, Notification(message, Error)), s.(insights := message, isLoading := false))
  }
}
