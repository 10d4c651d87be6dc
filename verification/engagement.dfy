/**
 * The engagement assistant (components/Engagement.tsx): platform tabs for the connected
 * accounts, canned comments per platform, and reply suggestions from the AI generator.
 */
module Engagement {
  import opened Wrappers
  import opened JsonValues
  import opened Storage
  import opened Platforms
  import opened AppStore
  import opened Calls

  /** A mock comment; the avatar picture is display-only and left out. */
  datatype Comment = Comment(id: int, user: string, text: string)

  datatype EngagementState = EngagementState(activePlatform: string, comments: seq<Comment>,
                                             activeCommentId: Option<int>, replies: Json, isLoading: bool)

  const ReplyFailed := "Could not generate replies."

  const BenCarter := Comment(1, "Ben Carter", "This is a great analysis. How do you see this evolving with the rise of AI tools?")
  const PriyaSingh := Comment(2, "Priya Singh", "Excellent points on data-driven strategy. We implemented a similar approach and saw a 30% uplift in conversions.")
  const OliviaChen := Comment(3, "Olivia Chen", "Thanks for sharing! Really insightful post. \U{2764}\U{FE0F}")
  const CaseyLee := Comment(4, "Casey Lee", "Love the aesthetic in this shot! What camera did you use?")
  const MarcusReid := Comment(5, "Marcus Reid", "I have a different perspective. I think the human element will become even more critical in the age of AI. #FutureOfWork")
  const ZoeKim := Comment(6, "Zoe Kim", "Quick question - does this apply to B2C as well or is it more of a B2B strategy?")

  /** The two canned comments shown under a platform's tab. */
  function CommentsOf(p: Platform): (r: seq<Comment>)
    ensures |r| == 2 && forall i :: 0 <= i < |r| ==> r[i].id == 2 * Rank(p) + i + 1
  {
    match p
    case LinkedIn => [BenCarter, PriyaSingh]
    case Instagram => [OliviaChen, CaseyLee]
    case Twitter => [MarcusReid, ZoeKim]
  }

  /** `mockCommentsByPlatform[activePlatform] || []`: a platform's comments, none for any other text. */
  function MockComments(platform: string): (r: seq<Comment>)
    ensures forall p :: Name(p) == platform ==> r == CommentsOf(p)
    ensures (forall p :: Name(p) != platform) ==> r == []
  {
    if platform == Name(LinkedIn) then CommentsOf(LinkedIn)
    else if platform == Name(Instagram) then CommentsOf(Instagram)
    else if platform == Name(Twitter) then CommentsOf(Twitter)
    else []
  }

  /** No two canned comments, on any platforms, share an id, so one active id selects one comment. */
  lemma MockCommentIdsDistinct(p: Platform, q: Platform, i: nat, j: nat)
    requires i < 2 && j < 2 && CommentsOf(p)[i].id == CommentsOf(q)[j].id
    ensures p == q && i == j
  {
  }

  /**
   * The first effect: a tab that is not among the connected platforms moves to the first
   * connected one, or to `''` when none is connected; otherwise it stays.
   */
  function SelectActive(connected: seq<string>, active: string): (r: string)
    ensures |connected| == 0 ==> r == ""
    ensures |connected| > 0 ==> r in connected
    ensures active in connected ==> r == active
    ensures |connected| > 0 && active !in connected ==> r == connected[0]
  {
    if |connected| > 0 && active !in connected then connected[0]
    else if |connected| == 0 then ""
    else active
  }

  /** The effect re-runs when the active tab changes; its second run changes nothing. */
  lemma SelectActiveIdempotent(connected: seq<string>, active: string)
    ensures SelectActive(connected, SelectActive(connected, active)) == SelectActive(connected, active)
  {
  }

  /** The second effect: a chosen tab loads its comments and clears the reply panel; no tab clears the comments. */
  function OnPlatformChange(s: EngagementState): (r: EngagementState)
    ensures r.activePlatform == s.activePlatform && r.isLoading == s.isLoading
    ensures r.comments == MockComments(s.activePlatform)
    ensures s.activePlatform != "" ==> r.activeCommentId.None? && r.replies == Arr([])
    ensures s.activePlatform == "" ==> r == s.(comments := [])
  {
    if s.activePlatform != "" then
      s.(comments := MockComments(s.activePlatform), activeCommentId := None, replies := Arr([]))
    else
      s.(comments := [])
  }

  /**
   * Both effects as they run at mount: the tab follows the connected platforms and its
   * comments load, with the reply panel cleared. After a later profile change that keeps
   * the tab, the second effect would not run again; that case is not modelled.
   */
  function SyncWithProfile(s: EngagementState, profile: map<string, Json>): (r: EngagementState)
    ensures r.activePlatform == "" <==> (forall p :: !Connected(profile, p))
    ensures r.activePlatform != "" ==> exists p :: Name(p) == r.activePlatform && Connected(profile, p)
    ensures r.comments == MockComments(r.activePlatform)
  {
    var connected := ConnectedPlatforms(profile);
    var active := SelectActive(connected, s.activePlatform);
    OnPlatformChange(s.(activePlatform := active))
  }

  /** The text the generator is asked to reply under. */
  function MockPost(active: string): string {
    "Your latest " + active + " Post: The Importance of Data-Driven Content Strategy in 2024."
  }

  /**
   * `handleGenerateReplies`. `reply` is the generator's text or what it threw; `parse` is
   * `JSON.parse` (`None` when it throws a `SyntaxError`), and `engineMessage` is the message
   * the engine puts on its own errors (a bad parse, reading `replies` of `null`).
   */
  function GenerateReplies(w: World, s: EngagementState, comment: Comment, reply: Call<string>,
                           parse: string -> Option<Json>, engineMessage: string): (r: (World, EngagementState))
    ensures r.1.activeCommentId == Some(comment.id) && !r.1.isLoading
    ensures r.1.activePlatform == s.activePlatform && r.1.comments == s.comments
    ensures r.0.storage == w.storage && r.0.app.(notification := w.app.notification) == w.app
    ensures r.0.app.notification == w.app.notification ||
            (r.0.app.notification.Some? && r.0.app.notification.value.kind == Error && r.1.replies == Arr([Str(ReplyFailed)]))
    ensures reply.Threw? ==>
              r.0.app.notification == Some(Notification(CaughtMessage(reply.thrown, UnexpectedError), Error))
              && r.1.replies == Arr([Str(ReplyFailed)])
    ensures reply.Returned? && parse(reply.value).Some? && parse(reply.value).value != Null ==>
              r.0 == w && r.1.replies == ListOr(parse(reply.value).value, "replies")
  {
    var started := s.(activeCommentId := Some(comment.id), isLoading := true, replies := Arr([]));
    match ParseReply(reply, parse, engineMessage)
    case Returned(parsed) => (w, started.(replies := ListOr(parsed, "replies"), isLoading := false))
    case Threw(e) =>
      (ShowNotification(w, Notification(CaughtMessage(e, UnexpectedError), Error)),
       started.(replies := Arr([Str(ReplyFailed)]), isLoading := false))
  }
}
