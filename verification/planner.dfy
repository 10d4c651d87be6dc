/**
 * The strategic planner (components/StrategicPlanner.tsx): a setup check on the brand
 * profile, a weekly plan from the AI generator, and a handoff of one plan item to the
 * scheduler.
 */
module StrategicPlanner {
  import opened Wrappers
  import opened JsonValues
  import opened AppStore
  import opened Calls
  import Scheduler
  import CreatePost

  datatype PlannerState = PlannerState(plan: Json, isLoading: bool, error: string)

  const SetupNeeded := "Please set up your Brand Profile in Settings first to generate a strategic plan."
  const ProfileRequired := "Brand Profile is required. Please go to Settings."
  const PlanFailed := "Failed to generate plan. Please try again."

  /** `!brandProfile || !brandProfile.companyDescription`. */
  predicate NeedsSetup(profile: Option<map<string, Json>>) {
    profile.None? || !Truthy(Get(Obj(profile.value), "companyDescription"))
  }

  /** The effect on the brand profile: the setup message while the description is empty, no error otherwise. */
  function SetupEffect(s: PlannerState, profile: Option<map<string, Json>>): (r: PlannerState)
    ensures r.plan == s.plan && r.isLoading == s.isLoading
    ensures r.error == "" <==> !NeedsSetup(profile)
    ensures r.error != "" ==> r.error == SetupNeeded
  {
    s.(error := if NeedsSetup(profile) then SetupNeeded else "")
  }

  /**
   * `handleGenerate`. Without a profile it only sets an error; otherwise the plan is the
   * reply's `plan` or `[]`, and a failure puts its message both in the error line and in
   * an error notification.
   */
  function Generate(w: World, s: PlannerState, profile: Option<map<string, Json>>, reply: Call<string>,
                    parse: string -> Option<Json>, engineMessage: string): (r: (World, PlannerState))
    ensures profile.None? ==> r == (w, s.(error := ProfileRequired))
    ensures r.0.storage == w.storage && r.0.app.(notification := w.app.notification) == w.app
    ensures profile.Some? ==> !r.1.isLoading
    ensures profile.Some? ==>
              match ParseReply(reply, parse, engineMessage)
              case Returned(parsed) => r.0 == w && r.1.plan == ListOr(parsed, "plan") && r.1.error == ""
              case Threw(e) =>
                r.1.plan == Arr([]) && r.1.error == CaughtMessage(e, PlanFailed)
                && r.0.app.notification == Some(Notification(r.1.error, Error))
  {
    if profile.None? then (w, s.(error := ProfileRequired))
    else
      var started := PlannerState(Arr([]), true, "");
      match ParseReply(reply, parse, engineMessage)
      case Returned(parsed) => (w, started.(plan := ListOr(parsed, "plan"), isLoading := false))
      case Threw(e) =>
        var message := CaughtMessage(e, PlanFailed);
        (ShowNotification(w, Notification(message, Error)), started.(error := message, isLoading := false))
  }

  /** Without a profile no generator is consulted: the outcome does not depend on its reply. */
  lemma MissingProfileMakesNoCall(w: World, s: PlannerState, r1: Call<string>, r2: Call<string>,
                                  parse: string -> Option<Json>, m1: string, m2: string)
    ensures Generate(w, s, None, r1, parse, m1) == Generate(w, s, None, r2, parse, m2)
  {
  }

  /** A plan item as the response schema describes it: each field the view reads is a string or absent. */
  predicate FitsItemSchema(item: Json) {
    && StringOrAbsent(Get(item, "day")) && StringOrAbsent(Get(item, "time"))
    && StringOrAbsent(Get(item, "platform")) && StringOrAbsent(Get(item, "topic"))
    && StringOrAbsent(Get(item, "format"))
  }

  const ContentTail := "\n\n[Start writing your post here...]\n\n#SocialMediaStrategy #ContentMarketing"

  /** The starter text of a post created from a plan item. */
  function StarterContent(topic: string, format: string): (c: string)
    ensures |c| == 7 + |topic| + 9 + |format| + |ContentTail|
    ensures c[..7] == "Topic: " && c[7..7 + |topic|] == topic
    ensures c[7 + |topic|..16 + |topic|] == "\nFormat: " && c[16 + |topic|..16 + |topic| + |format|] == format
    ensures c[|c| - |ContentTail|..] == ContentTail
  {
    "Topic: " + topic + "\nFormat: " + format + ContentTail
  }

  /** `handleCreatePost`: the item's day, platform and time, and starter text, go to the scheduler. */
  function CreatePostFrom(w: World, item: Json): (r: World)
    requires FitsItemSchema(item)
    ensures r.storage == w.storage && r.app.currentView == SchedulerView
    ensures r.app.postToSchedule.Some?
    ensures var d := r.app.postToSchedule.value;
            d.day == StringField(item, "day") && d.platform == StringField(item, "platform")
            && d.scheduledTime == StringField(item, "time") && d.isABTest.None?
            && d.content == Some(StarterContent(TemplateText(Get(item, "topic")), TemplateText(Get(item, "format"))))
  {
    SchedulePost(w, Draft(StringField(item, "day"), StringField(item, "platform"), StringField(item, "time"), None,
                          Some(StarterContent(TemplateText(Get(item, "topic")), TemplateText(Get(item, "format")))),
                          None, None))
  }

  /**
   * Handing off an item with a day opens the scheduler's create modal on that day, and the
   * modal's form starts from the item's time and the starter text.
   */
  lemma {:induction false} HandoffOpensOnItemDay(w: World, v: Scheduler.SchedulerState, item: Json, getDay: nat,
                                                 available: seq<string>, day: string)
    requires FitsItemSchema(item) && getDay < 7
    requires Get(item, "day") == Some(Str(day)) && day != ""
    ensures var r := CreatePostFrom(w, item);
            var shown := Scheduler.HandoffEffect(r, v, getDay);
            var form := CreatePost.InitialForm(r.app.postToSchedule, available);
            shown.createOpen && shown.selectedDay == day
            && !form.isABTest && form.scheduledTime == CreatePost.OrElse(StringField(item, "time"), "10:00 AM")
            && form.content == StarterContent(TemplateText(Get(item, "topic")), TemplateText(Get(item, "format")))
  {
    var r := CreatePostFrom(w, item);
    var d := r.app.postToSchedule.value;
    assert d.day == Some(day);
  }
}
