/**
 * The content studio (components/ContentStudio.tsx): post ideas from the AI generator for
 * a topic, and a handoff of one idea to the scheduler.
 */
module ContentStudio {
  import opened Wrappers
  import opened JsonValues
  import opened AppStore
  import opened Calls
  import Scheduler
  import CreatePost

  datatype StudioState = StudioState(topic: string, platform: string, tone: string, ideas: Json,
                                     isLoading: bool, error: string)

  const TopicRequired := "Please enter a topic."
  const IdeasFailed := "Failed to parse response from AI. Please try again."

  /** The form opens on LinkedIn, a professional tone and no topic. */
  const Initial := StudioState("", "LinkedIn", "Professional", Arr([]), false, "")

  /**
   * `handleGenerate`. An empty topic only sets an error; otherwise the ideas are the reply's
   * `ideas` or `[]`, and a failure puts its message in the error line and in an error
   * notification.
   */
  function Generate(w: World, s: StudioState, reply: Call<string>, parse: string -> Option<Json>,
                    engineMessage: string): (r: (World, StudioState))
    ensures s.topic == "" ==> r == (w, s.(error := TopicRequired))
    ensures r.1.topic == s.topic && r.1.platform == s.platform && r.1.tone == s.tone
    ensures r.0.storage == w.storage && r.0.app.(notification := w.app.notification) == w.app
    ensures s.topic != "" ==> !r.1.isLoading
    ensures s.topic != "" ==>
              match ParseReply(reply, parse, engineMessage)
              case Returned(parsed) => r.0 == w && r.1.ideas == ListOr(parsed, "ideas") && r.1.error == ""
              case Threw(e) =>
                r.1.ideas == Arr([]) && r.1.error == CaughtMessage(e, IdeasFailed)
                && r.0.app.notification == Some(Notification(r.1.error, Error))
  {
    if s.topic == "" then (w, s.(error := TopicRequired))
    else
      var started := s.(error := "", isLoading := true, ideas := Arr([]));
      match ParseReply(reply, parse, engineMessage)
      case Returned(parsed) => (w, started.(ideas := ListOr(parsed, "ideas"), isLoading := false))
      case Threw(e) =>
        var message := CaughtMessage(e, IdeasFailed);
        (ShowNotification(w, Notification(message, Error)), started.(error := message, isLoading := false))
  }

  /** With no topic no generator is consulted: the outcome does not depend on its reply. */
  lemma EmptyTopicMakesNoCall(w: World, s: StudioState, r1: Call<string>, r2: Call<string>,
                              parse: string -> Option<Json>, m1: string, m2: string)
    requires s.topic == ""
    ensures Generate(w, s, r1, parse, m1) == Generate(w, s, r2, parse, m2)
  {
  }

  /** An idea as the response schema describes it. */
  predicate FitsIdeaSchema(idea: Json) {
    StringOrAbsent(Get(idea, "title")) && StringOrAbsent(Get(idea, "content")) && StringOrAbsent(Get(idea, "hashtags"))
  }

  /** Title, body and hashtags, separated by blank lines. */
  function IdeaText(title: string, content: string, hashtags: string): (t: string)
    ensures |t| == |title| + |content| + |hashtags| + 4
    ensures t[..|title|] == title && t[|title|..|title| + 2] == "\n\n"
    ensures t[|title| + 2..|title| + 2 + |content|] == content
    ensures t[|title| + 2 + |content|..|title| + 4 + |content|] == "\n\n" && t[|t| - |hashtags|..] == hashtags
  {
    title + "\n\n" + content + "\n\n" + hashtags
  }

  /** The "Schedule Idea" button: the selected platform and the idea's text go to the scheduler, with no day or time. */
  function ScheduleIdea(w: World, s: StudioState, idea: Json): (r: World)
    requires FitsIdeaSchema(idea)
    ensures r.storage == w.storage && r.app.currentView == SchedulerView
    ensures r.app.postToSchedule == Some(ContentDraft(s.platform, IdeaText(TemplateText(Get(idea, "title")),
                                                                          TemplateText(Get(idea, "content")),
                                                                          TemplateText(Get(idea, "hashtags")))))
  {
    SchedulePost(w, ContentDraft(s.platform, IdeaText(TemplateText(Get(idea, "title")),
                                                      TemplateText(Get(idea, "content")),
                                                      TemplateText(Get(idea, "hashtags")))))
  }

  /**
   * A scheduled idea carries no day, so the scheduler opens its create modal on the fallback
   * day, which as written is tomorrow; the form starts on the studio's platform with the
   * idea's text, at the default time.
   */
  lemma {:induction false} IdeaOpensOnTomorrow(w: World, s: StudioState, v: Scheduler.SchedulerState, idea: Json,
                                            getDay: nat, available: seq<string>)
    requires FitsIdeaSchema(idea) && getDay < 7 && s.platform != ""
    ensures var r := ScheduleIdea(w, s, idea);
            var shown := Scheduler.HandoffEffect(r, v, getDay);
            var form := CreatePost.InitialForm(r.app.postToSchedule, available);
            shown.createOpen && shown.selectedDay == Scheduler.WeekdayName((getDay + 1) % 7)
            && form.platform == s.platform && form.scheduledTime == "10:00 AM" && !form.isABTest
            && form.content == IdeaText(TemplateText(Get(idea, "title")), TemplateText(Get(idea, "content")),
                                        TemplateText(Get(idea, "hashtags")))
  {
    var r := ScheduleIdea(w, s, idea);
    assert r.app.postToSchedule.value.day.None?;
  }
}
