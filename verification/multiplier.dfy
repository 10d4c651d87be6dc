/**
 * The content multiplier (components/ContentMultiplier.tsx): one long text turned by the
 * AI generator into a LinkedIn article, a Twitter thread and an Instagram carousel, each
 * with a copy text and a handoff to the scheduler.
 */
module ContentMultiplier {
  import opened Wrappers
  import opened JsonValues
  import opened Text
  import opened AppStore
  import opened Calls
  import StrategicPlanner

  datatype MultiplierState = MultiplierState(longForm: string, content: Json, isLoading: bool, error: string,
                                             copied: Option<string>)

  const SetupNeeded := "Please set up your Brand Profile in Settings first to use the Multiplier."
  const LongFormRequired := "Please paste your long-form content first."
  const MultiplyFailed := "Failed to multiply content. Please try again."

  /** The effect on the brand profile: the setup message while the description is empty, no error otherwise. */
  function SetupEffect(s: MultiplierState, profile: Option<map<string, Json>>): (r: MultiplierState)
    ensures r.content == s.content && r.longForm == s.longForm
    ensures r.error == "" <==> !StrategicPlanner.NeedsSetup(profile)
    ensures r.error != "" ==> r.error == SetupNeeded
  {
    s.(error := if StrategicPlanner.NeedsSetup(profile) then SetupNeeded else "")
  }

  /**
   * `handleGenerate`. Empty text, then a missing profile, only set an error. Otherwise the
   * parsed reply is kept whole (even `null`, which then shows nothing); a failure puts its
   * message in the error line and in an error notification.
   */
  function Generate(w: World, s: MultiplierState, profile: Option<map<string, Json>>, reply: Call<string>,
                    parse: string -> Option<Json>, engineMessage: string): (r: (World, MultiplierState))
    ensures s.longForm == "" ==> r == (w, s.(error := LongFormRequired))
    ensures s.longForm != "" && profile.None? ==> r == (w, s.(error := StrategicPlanner.ProfileRequired))
    ensures r.0.storage == w.storage && r.0.app.(notification := w.app.notification) == w.app
    ensures r.1.longForm == s.longForm && r.1.copied == s.copied
    ensures s.longForm != "" && profile.Some? ==>
              !r.1.isLoading
              && match reply
                 case Returned(text) =>
                   (parse(text).Some? ==> r.0 == w && r.1.content == parse(text).value && r.1.error == "")
                   && (parse(text).None? ==>
                         r.1.content == Null && r.1.error == engineMessage
                         && r.0.app.notification == Some(Notification(engineMessage, Error)))
                 case Threw(e) =>
                   r.1.content == Null && r.1.error == CaughtMessage(e, MultiplyFailed)
                   && r.0.app.notification == Some(Notification(r.1.error, Error))
  {
    if s.longForm == "" then (w, s.(error := LongFormRequired))
    else if profile.None? then (w, s.(error := StrategicPlanner.ProfileRequired))
    else
      var started := s.(error := "", isLoading := true, content := Null);
      var thrown := match reply
                    case Threw(e) => Some(e)
                    case Returned(text) => if parse(text).None? then Some(ErrorWithMessage(engineMessage)) else None;
      match thrown
      case Some(e) =>
        var message := CaughtMessage(e, MultiplyFailed);
        (ShowNotification(w, Notification(message, Error)), started.(error := message, isLoading := false))
      case None => (w, started.(content := parse(reply.value).value, isLoading := false))
  }

  // ---- The three results ----

  datatype Slide = Slide(number: int, content: string)

  /** The reply in the shape of its response schema. */
  datatype Multiplied = Multiplied(article: string, tweets: seq<string>, slides: seq<Slide>)

  predicate IsTweet(t: Json) {
    IsStr(Get(t, "tweet"))
  }

  /** A slide whose number is whole; other numbers render in ways the model leaves out. */
  predicate IsSlide(t: Json) {
    IsNum(Get(t, "slide")) && Get(t, "slide").value.n == Get(t, "slide").value.n.Floor as real && IsStr(Get(t, "content"))
  }

  function SlideNumber(t: Json): int {
    match Get(t, "slide")
    case Some(Num(n)) => n.Floor
    case _ => 0
  }

  predicate FitsSchema(v: Json) {
    && IsStr(Get(v, "linkedInArticle"))
    && Get(v, "twitterThread").Some? && Get(v, "twitterThread").value.Arr?
    && (forall i :: 0 <= i < |Get(v, "twitterThread").value.items| ==> IsTweet(Get(v, "twitterThread").value.items[i]))
    && Get(v, "instagramCarousel").Some? && Get(v, "instagramCarousel").value.Arr?
    && (forall i :: 0 <= i < |Get(v, "instagramCarousel").value.items| ==>
          IsSlide(Get(v, "instagramCarousel").value.items[i]))
  }

  function TweetJson(t: string): Json {
    Obj(map["tweet" := Str(t)])
  }

  function SlideJson(s: Slide): Json {
    Obj(map["slide" := Num(s.number as real), "content" := Str(s.content)])
  }

  /** The reply a result corresponds to. */
  function Encode(m: Multiplied): (v: Json)
    ensures FitsSchema(v)
  {
    Obj(map["linkedInArticle" := Str(m.article),
            "twitterThread" := Arr(seq(|m.tweets|, i requires 0 <= i < |m.tweets| => TweetJson(m.tweets[i]))),
            "instagramCarousel" := Arr(seq(|m.slides|, i requires 0 <= i < |m.slides| => SlideJson(m.slides[i])))])
  }

  /** What the three panels show: nothing unless the kept reply is truthy, and here only a reply that fits the schema. */
  function Rendered(content: Json): (r: Option<Multiplied>)
    ensures r.Some? ==> Truthy(Some(content)) && FitsSchema(content)
  {
    if Truthy(Some(content)) && FitsSchema(content) then
      var tweets := Get(content, "twitterThread").value.items;
      var slides := Get(content, "instagramCarousel").value.items;
      Some(Multiplied(Get(content, "linkedInArticle").value.s,
                      seq(|tweets|, i requires 0 <= i < |tweets| => StrOf(tweets[i], "tweet")),
                      seq(|slides|, i requires 0 <= i < |slides| => Slide(SlideNumber(slides[i]), StrOf(slides[i], "content")))))
    else None
  }

  /** Every result is shown exactly as the reply that carries it. */
  lemma {:induction false} RenderedEncode(m: Multiplied)
    ensures Rendered(Encode(m)) == Some(m)
  {
    var v := Encode(m);
    var tj := seq(|m.tweets|, i requires 0 <= i < |m.tweets| => TweetJson(m.tweets[i]));
    var sj := seq(|m.slides|, i requires 0 <= i < |m.slides| => SlideJson(m.slides[i]));
    assert Get(v, "linkedInArticle") == Some(Str(m.article));
    assert Get(v, "twitterThread") == Some(Arr(tj));
    assert Get(v, "instagramCarousel") == Some(Arr(sj));
    var tweets := seq(|tj|, i requires 0 <= i < |tj| => StrOf(tj[i], "tweet"));
    assert tweets == m.tweets by {
      forall i | 0 <= i < |tj| ensures tweets[i] == m.tweets[i] {
        assert Get(tj[i], "tweet") == Some(Str(m.tweets[i]));
      }
    }
    var slides := seq(|sj|, i requires 0 <= i < |sj| => Slide(SlideNumber(sj[i]), StrOf(sj[i], "content")));
    assert slides == m.slides by {
      forall i | 0 <= i < |sj| ensures slides[i] == m.slides[i] {
        assert Get(sj[i], "slide") == Some(Num(m.slides[i].number as real));
        assert Get(sj[i], "content") == Some(Str(m.slides[i].content));
      }
    }
  }

  // ---- Copy texts and handoffs ----

  /** `${i+1}/${n}\n${tweet}`. */
  function NumberedTweet(i: nat, n: nat, tweet: string): string {
    NatToString(i + 1) + "/" + NatToString(n) + "\n" + tweet
  }

  /** A numbered tweet reads back as its position, the thread length and the tweet. */
  lemma {:induction false} NumberedTweetReadsBack(i: nat, n: nat, tweet: string)
    ensures var p := NumberedTweet(i, n, tweet);
            var a := |NatToString(i + 1)|;
            var b := |NatToString(n)|;
            |p| == a + b + 2 + |tweet|
            && AllDigits(p[..a]) && ParseNat(p[..a]) == i + 1 && p[a] == '/'
            && AllDigits(p[a + 1..a + 1 + b]) && ParseNat(p[a + 1..a + 1 + b]) == n && p[a + 1 + b] == '\n'
            && p[a + 2 + b..] == tweet
  {
    var p := NumberedTweet(i, n, tweet);
    var a := |NatToString(i + 1)|;
    var b := |NatToString(n)|;
    assert p[..a] == NatToString(i + 1);
    assert p[a + 1..a + 1 + b] == NatToString(n);
    ParseNatOfNatToString(i + 1);
    ParseNatOfNatToString(n);
  }

  /** The thread's tweets, each numbered against the thread's length. */
  function NumberedTweets(tweets: seq<string>): (r: seq<string>)
    ensures |r| == |tweets| && forall i :: 0 <= i < |r| ==> r[i] == NumberedTweet(i, |tweets|, tweets[i])
  {
    seq(|tweets|, i requires 0 <= i < |tweets| => NumberedTweet(i, |tweets|, tweets[i]))
  }

  /** The Twitter copy text: the numbered tweets separated by blank lines. */
  function ThreadCopyText(tweets: seq<string>): (t: string)
    ensures |tweets| == 0 ==> t == ""
    ensures |tweets| >= 1 ==> var first := NumberedTweet(0, |tweets|, tweets[0]);
                              |first| <= |t| && t[..|first|] == first
    ensures |tweets| >= 1 ==> |t| == SumLengths(NumberedTweets(tweets)) + 2 * (|tweets| - 1)
  {
    Join(NumberedTweets(tweets), "\n\n")
  }

  /**
   * The copy text holds every tweet, numbered, at its offset, with a blank line after
   * each one but the last; so it reads back as the whole thread in order.
   */
  lemma {:induction false} ThreadCopyTextHoldsEveryTweet(tweets: seq<string>, k: nat)
    requires k < |tweets|
    ensures var t := ThreadCopyText(tweets);
            var o := Offset(NumberedTweets(tweets), k, "\n\n");
            var p := NumberedTweet(k, |tweets|, tweets[k]);
            o + |p| <= |t| && t[o..o + |p|] == p
            && (k + 1 < |tweets| ==> o + |p| + 2 <= |t| && t[o + |p|..o + |p| + 2] == "\n\n")
  {
    JoinPartAt(NumberedTweets(tweets), "\n\n", k);
    if k + 1 < |tweets| {
      JoinSeparatorAfter(NumberedTweets(tweets), "\n\n", k);
    }
  }

  /**
   * "Schedule 1st Tweet": only the first tweet goes to the scheduler; on an empty thread
   * reading it throws and nothing happens.
   */
  function ScheduleFirstTweet(w: World, m: Multiplied): (r: World)
    ensures |m.tweets| == 0 ==> r == w
    ensures |m.tweets| > 0 ==> r.app.postToSchedule == Some(ContentDraft("Twitter", m.tweets[0]))
                               && r.app.currentView == SchedulerView && r.storage == w.storage
  {
    if |m.tweets| == 0 then w else SchedulePost(w, ContentDraft("Twitter", m.tweets[0]))
  }

  /** `Slide ${k}:\n${content}`, as copied. */
  function SlideCopy(s: Slide): string {
    "Slide " + IntToString(s.number) + ":\n" + s.content
  }

  /** `Slide ${k}: ${content}`, as scheduled. */
  function SlideSchedule(s: Slide): string {
    "Slide " + IntToString(s.number) + ": " + s.content
  }

  /** A slide's copy and schedule texts differ in one character only: the line break after the colon is a space. */
  lemma {:induction false} SlideTextsDifferAfterColon(s: Slide)
    ensures var c := SlideCopy(s);
            var d := SlideSchedule(s);
            var k := 7 + |IntToString(s.number)|;
            |c| == |d| && k < |c| && c[k] == '\n' && d[k] == ' '
            && forall j :: 0 <= j < |c| && j != k ==> c[j] == d[j]
  {
    var head := "Slide " + IntToString(s.number) + ":";
    assert SlideCopy(s) == head + "\n" + s.content;
    assert SlideSchedule(s) == head + " " + s.content;
  }

  function CarouselCopyText(slides: seq<Slide>): string {
    Join(seq(|slides|, i requires 0 <= i < |slides| => SlideCopy(slides[i])), "\n\n")
  }

  function CarouselScheduleText(slides: seq<Slide>): string {
    Join(seq(|slides|, i requires 0 <= i < |slides| => SlideSchedule(slides[i])), "\n\n")
  }

  /** The copied and the scheduled carousel are texts of one length, slide by slide. */
  lemma {:induction false} CarouselTextsSameLength(slides: seq<Slide>)
    ensures |CarouselCopyText(slides)| == |CarouselScheduleText(slides)|
  {
    var c := seq(|slides|, i requires 0 <= i < |slides| => SlideCopy(slides[i]));
    var d := seq(|slides|, i requires 0 <= i < |slides| => SlideSchedule(slides[i]));
    forall i | 0 <= i < |slides| ensures |c[i]| == |d[i]| {
      SlideTextsDifferAfterColon(slides[i]);
    }
    JoinSameShape(c, d, "\n\n");
  }

  /** "Schedule Carousel": every slide, in the schedule form, goes to Instagram. */
  function ScheduleCarousel(w: World, m: Multiplied): (r: World)
    ensures r.app.postToSchedule == Some(ContentDraft("Instagram", CarouselScheduleText(m.slides)))
    ensures r.app.currentView == SchedulerView && r.storage == w.storage
  {
    SchedulePost(w, ContentDraft("Instagram", CarouselScheduleText(m.slides)))
  }

  /** "Schedule on LinkedIn": the whole article. */
  function ScheduleArticle(w: World, m: Multiplied): (r: World)
    ensures r.app.postToSchedule == Some(ContentDraft("LinkedIn", m.article))
    ensures r.app.currentView == SchedulerView && r.storage == w.storage
  {
    SchedulePost(w, ContentDraft("LinkedIn", m.article))
  }

  /** `handleCopy`: marks which panel was copied (the clipboard and the reset timer are outside the model). */
  function HandleCopy(s: MultiplierState, id: string): (r: MultiplierState)
    ensures r.copied == Some(id) && r.content == s.content && r.error == s.error
  {
    s.(copied := Some(id))
  }
}
