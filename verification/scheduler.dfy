/**
 * The scheduler view (components/Scheduler.tsx): the week grid, the handoff effect,
 * saving a new post and opening an A/B test's results, which resolves a pending test
 * once its write succeeds.
 */
module Scheduler {
  import opened Wrappers
  import opened JsonValues
  import opened Text
  import opened Validators
  import opened Storage
  import opened Platforms
  import opened AppStore
  import opened ABTest
  import CreatePost

  /** The view's local state. */
  datatype SchedulerState = SchedulerState(createOpen: bool, resultOpen: bool, selectedDay: string,
                                           selectedPost: Option<Json>)

  /** A scheduler event's effect on the store and on the view. */
  datatype Step = Step(world: World, view: SchedulerState)

  const DaysOfWeek: seq<string> := ["Monday", "Tuesday", "Wednesday", "Thursday", "Friday", "Saturday", "Sunday"]

  const ResultsIn := Notification("A/B test results are in!", Success)

  /** The weekday name for a `Date.prototype.getDay()` value, which counts from Sunday = 0. */
  function WeekdayName(getDay: nat): string
    requires getDay < 7
  {
    ["Sunday", "Monday", "Tuesday", "Wednesday", "Thursday", "Friday", "Saturday"][getDay]
  }

  /** `daysOfWeek[new Date().getDay()]` as written: the Monday-first list indexed Sunday-first. */
  function TodayAsWritten(getDay: nat): string
    requires getDay < 7
  {
    DaysOfWeek[getDay]
  }

  /** As written, the fallback day is always the day after today. */
  lemma TodayAsWrittenIsTomorrow(getDay: nat)
    requires getDay < 7
    ensures TodayAsWritten(getDay) == WeekdayName((getDay + 1) % 7)
    ensures TodayAsWritten(getDay) != WeekdayName(getDay)
  {
  }

  /** Today's name, with the Sunday-first index shifted onto the Monday-first list. */
  function Today(getDay: nat): (name: string)
    requires getDay < 7
    ensures name == WeekdayName(getDay)
    ensures name in DaysOfWeek
  {
    DaysOfWeek[(getDay + 6) % 7]
  }

  function OpenCreateModal(v: SchedulerState, day: string): SchedulerState {
    v.(selectedDay := day, createOpen := true)
  }

  /**
   * The handoff effect as written: a pending handoff opens the create modal on its day,
   * or, when it has none, on the as-written fallback, which is tomorrow.
   */
  function HandoffEffect(w: World, v: SchedulerState, getDay: nat): (r: SchedulerState)
    requires getDay < 7
    ensures w.app.postToSchedule.None? ==> r == v
    ensures w.app.postToSchedule.Some? ==> r.createOpen && r.resultOpen == v.resultOpen && r.selectedPost == v.selectedPost
    ensures w.app.postToSchedule.Some? ==>
              r.selectedDay == CreatePost.OrElse(w.app.postToSchedule.value.day, WeekdayName((getDay + 1) % 7))
  {
    TodayAsWrittenIsTomorrow(getDay);
    match w.app.postToSchedule
    case None => v
    case Some(d) => OpenCreateModal(v, CreatePost.OrElse(d.day, TodayAsWritten(getDay)))
  }

  /** The handoff effect with the corrected fallback: a handoff without a day opens on today. */
  function HandoffEffectOnToday(w: World, v: SchedulerState, getDay: nat): (r: SchedulerState)
    requires getDay < 7
    ensures w.app.postToSchedule.None? ==> r == v
    ensures w.app.postToSchedule.Some? ==> r.createOpen && r.resultOpen == v.resultOpen && r.selectedPost == v.selectedPost
    ensures w.app.postToSchedule.Some? ==>
              r.selectedDay == CreatePost.OrElse(w.app.postToSchedule.value.day, WeekdayName(getDay))
  {
    match w.app.postToSchedule
    case None => v
    case Some(d) => OpenCreateModal(v, CreatePost.OrElse(d.day, Today(getDay)))
  }

  /** The two effects differ exactly on a handoff without a day, where the code opens a day late. */
  lemma {:induction false} HandoffWithoutDayOpensTomorrow(w: World, v: SchedulerState, getDay: nat)
    requires getDay < 7 && w.app.postToSchedule.Some?
    ensures var d := w.app.postToSchedule.value.day;
            (d.None? || d.value == "") <==> HandoffEffect(w, v, getDay) != HandoffEffectOnToday(w, v, getDay)
  {
    TodayAsWrittenIsTomorrow(getDay);
    var d := w.app.postToSchedule.value.day;
    if d.None? || d.value == "" {
      assert HandoffEffect(w, v, getDay).selectedDay == TodayAsWritten(getDay);
      assert HandoffEffectOnToday(w, v, getDay).selectedDay == Today(getDay);
    }
  }

  /** Closing the create modal also empties the handoff slot. */
  function CloseCreateModal(s: Step): (r: Step)
    ensures !r.view.createOpen && r.world.app.postToSchedule.None? && r.world.storage == s.world.storage
  {
    Step(ClearPostToSchedule(s.world), s.view.(createOpen := false))
  }

  /** `{ ...post, id: Date.now() }`, marked pending when it is an A/B test. */
  function NewPost(post: Json, now: nat): (r: Json)
    ensures r.Obj? && Get(r, "id") == Some(Num(now as real))
    ensures Truthy(Get(post, "isABTest")) ==> Get(r, "winner") == Some(Str("Pending"))
    ensures post.Obj? ==> forall k :: k in post.fields && k != "id" && k != "winner" ==> k in r.fields && r.fields[k] == post.fields[k]
    ensures post.Obj? && !Truthy(Get(post, "isABTest")) ==> r.fields == post.fields["id" := Num(now as real)]
    ensures post.Obj? && Truthy(Get(post, "isABTest")) ==>
              r.fields == post.fields["id" := Num(now as real)]["winner" := Str("Pending")]
  {
    var stamped := SpreadEntries(post)["id" := Num(now as real)];
    Obj(if Truthy(Get(post, "isABTest")) then stamped["winner" := Str("Pending")] else stamped)
  }

  /** Every post the create modal can hand over becomes a valid post; an A/B one starts pending. */
  lemma {:induction false} SavedFormIsValid(f: CreatePost.PostForm, day: string, now: nat)
    ensures IsValidPost(NewPost(CreatePost.SavedPost(f, day), now))
    ensures f.isABTest ==> Get(NewPost(CreatePost.SavedPost(f, day), now), "winner") == Some(Str("Pending"))
    ensures Get(NewPost(CreatePost.SavedPost(f, day), now), "isABTest") == Some(Bool(f.isABTest))
  {
    var saved := CreatePost.SavedPost(f, day);
    var p := NewPost(saved, now);
    if f.isABTest {
      assert p.fields == saved.fields["id" := Num(now as real)]["winner" := Str("Pending")];
      assert HasVariant(Get(p, "variantA")) && HasVariant(Get(p, "variantB"));
    } else {
      assert p.fields == saved.fields["id" := Num(now as real)];
    }
  }

  /** `handleSavePost`: stamp, add to the store, close the modal, clear the handoff. */
  function HandleSavePost(s: Step, post: Json, now: nat, codec: Codec, writeOk: bool): (r: Step)
    ensures !r.view.createOpen && r.world.app.postToSchedule.None?
    ensures writeOk ==> r.world.app.posts == s.world.app.posts + [NewPost(post, now)]
    ensures !writeOk ==> r.world.app.posts == s.world.app.posts
    ensures Inv(s.world.app) && IsValidPost(NewPost(post, now)) ==> Inv(r.world.app)
  {
    var newPost := NewPost(post, now);
    CloseCreateModal(Step(AddPost(s.world, newPost, codec, writeOk), s.view))
  }

  /**
   * The modal's "Save Post" button: disabled, so nothing happens, while no platform is
   * connected; otherwise the form's record for the selected day is saved.
   */
  function ClickSave(s: Step, f: CreatePost.PostForm, now: nat, codec: Codec, writeOk: bool): (r: Step)
    ensures !CreatePost.CanSave(ConnectedPlatforms(s.world.app.brandProfile)) ==> r == s
    ensures r.world.app.posts != s.world.app.posts <==>
              CreatePost.CanSave(ConnectedPlatforms(s.world.app.brandProfile)) && writeOk
    ensures CreatePost.CanSave(ConnectedPlatforms(s.world.app.brandProfile)) && writeOk ==>
              |r.world.app.posts| == |s.world.app.posts| + 1
              && IsValidPost(r.world.app.posts[|s.world.app.posts|])
              && Get(r.world.app.posts[|s.world.app.posts|], "day") == Some(Str(s.view.selectedDay))
    ensures Inv(s.world.app) ==> Inv(r.world.app)
  {
    if !CreatePost.CanSave(ConnectedPlatforms(s.world.app.brandProfile)) then s
    else
      var post := CreatePost.SavedPost(f, s.view.selectedDay);
      SavedFormIsValid(f, s.view.selectedDay, now);
      var r := HandleSavePost(s, post, now, codec, writeOk);
      assert writeOk ==> r.world.app.posts[|s.world.app.posts|] == NewPost(post, now);
      assert writeOk ==> |r.world.app.posts| != |s.world.app.posts|;
      r
  }

  /** A save is possible exactly when some platform is connected. */
  lemma {:induction false} SaveNeedsConnectedPlatform(s: Step, f: CreatePost.PostForm, now: nat, codec: Codec)
    ensures ClickSave(s, f, now, codec, true).world.app.posts != s.world.app.posts
            <==> exists p :: Connected(s.world.app.brandProfile, p)
  {
    var available := ConnectedPlatforms(s.world.app.brandProfile);
    if exists p :: Connected(s.world.app.brandProfile, p) {
      var p :| Connected(s.world.app.brandProfile, p);
      assert Name(p) in available;
    }
  }

  /** The post is an A/B test whose winner is still `'Pending'`. */
  predicate IsPending(post: Json) {
    Truthy(Get(post, "isABTest")) && Get(post, "winner") == Some(Str("Pending"))
  }

  /**
   * `handleOpenResultModal`: a pending test is resolved with fresh draws, written back
   * through `updatePost` and announced; a resolved one is shown as stored. The result
   * and the announcement appear even when the write fails.
   */
  function OpenResult(s: Step, post: Json, d: Draws, codec: Codec, writeOk: bool): (r: Step)
    requires ValidDraws(d)
    ensures !Truthy(Get(post, "isABTest")) ==> r == s
    ensures Truthy(Get(post, "isABTest")) && !IsPending(post) ==>
              r.world == s.world && r.view == s.view.(selectedPost := Some(post), resultOpen := true)
    ensures IsPending(post) ==>
              var resolved := Resolve(post, Generate(StrOf(post, "platform"), d));
              r.view == s.view.(selectedPost := Some(resolved), resultOpen := true)
              && r.world.app.notification == Some(ResultsIn)
              && (writeOk ==> r.world.app.posts == ReplaceById(s.world.app.posts, resolved))
              && (!writeOk ==> r.world.app.posts == s.world.app.posts && r.world.storage == s.world.storage)
  {
    if !Truthy(Get(post, "isABTest")) then s
    else if Get(post, "winner") == Some(Str("Pending")) then
      var resolved := Resolve(post, Generate(StrOf(post, "platform"), d));
      var w := ShowNotification(UpdatePost(s.world, resolved, codec, writeOk), ResultsIn);
      Step(w, s.view.(selectedPost := Some(resolved), resultOpen := true))
    else
      Step(s.world, s.view.(selectedPost := Some(post), resultOpen := true))
  }

  /** Opening any valid post's results keeps the store's invariant, whether or not the write succeeds. */
  lemma {:induction false} OpenResultKeepsInv(s: Step, post: Json, d: Draws, codec: Codec, writeOk: bool)
    requires ValidDraws(d) && Inv(s.world.app) && IsValidPost(post)
    ensures Inv(OpenResult(s, post, d, codec, writeOk).world.app)
  {
    if IsPending(post) {
      ResolvedPostIsValid(post, Generate(StrOf(post, "platform"), d));
    }
  }

  /** A stored pending post is replaced in place by its resolution when the write succeeds. */
  lemma {:induction false} ResolutionReplacesStoredPost(s: Step, i: nat, d: Draws, codec: Codec)
    requires ValidDraws(d) && i < |s.world.app.posts|
    requires IsValidPost(s.world.app.posts[i]) && IsPending(s.world.app.posts[i])
    ensures var post := s.world.app.posts[i];
            var r := OpenResult(s, post, d, codec, true);
            |r.world.app.posts| == |s.world.app.posts|
            && r.world.app.posts[i] == r.view.selectedPost.value
            && IsDecided(Get(r.world.app.posts[i], "winner"))
  {
    var post := s.world.app.posts[i];
    var o := Generate(StrOf(post, "platform"), d);
    ResolvedPostIsValid(post, o);
    var resolved := Resolve(post, o);
    assert SameId(post, resolved);
  }

  /**
   * Resolution happens once when the write succeeds: the stored post is then decided, so
   * opening it again from the grid, with any draws and any write outcome, shows it as
   * stored and touches nothing.
   */
  lemma {:induction false} ResolutionIsFinal(s: Step, i: nat, d1: Draws, d2: Draws, codec: Codec, ok2: bool)
    requires ValidDraws(d1) && ValidDraws(d2) && i < |s.world.app.posts|
    requires IsValidPost(s.world.app.posts[i]) && IsPending(s.world.app.posts[i])
    ensures var first := OpenResult(s, s.world.app.posts[i], d1, codec, true);
            i < |first.world.app.posts|
            && var stored := first.world.app.posts[i];
               !IsPending(stored) && Truthy(Get(stored, "isABTest"))
               && OpenResult(first, stored, d2, codec, ok2)
                  == Step(first.world, first.view.(selectedPost := Some(stored), resultOpen := true))
  {
    ResolutionReplacesStoredPost(s, i, d1, codec);
    var first := OpenResult(s, s.world.app.posts[i], d1, codec, true);
    var stored := first.world.app.posts[i];
    assert Get(stored, "isABTest") == Some(Bool(true)) by {
      ResolvedPostIsValid(s.world.app.posts[i], Generate(StrOf(s.world.app.posts[i], "platform"), d1));
    }
  }

  /**
   * When the write fails the store keeps the pending post, so the next click on it from
   * the grid draws again: the modal shows the resolution of the second draws.
   */
  lemma {:induction false} FailedWriteRedraws(s: Step, i: nat, d1: Draws, d2: Draws, codec: Codec, ok2: bool)
    requires ValidDraws(d1) && ValidDraws(d2) && i < |s.world.app.posts|
    requires IsPending(s.world.app.posts[i])
    ensures var post := s.world.app.posts[i];
            var first := OpenResult(s, post, d1, codec, false);
            first.world.app.posts[i] == post
            && var second := OpenResult(first, first.world.app.posts[i], d2, codec, ok2);
               second.view.selectedPost == Some(Resolve(post, Generate(StrOf(post, "platform"), d2)))
               && Get(second.view.selectedPost.value, "winner") == Some(Str(WinnerName(PickWinner(d2.first, d2.second))))
  {
  }

  // ---- The week grid ----

  predicate OnDay(p: Json, day: string) {
    Get(p, "day") == Some(Str(day))
  }

  function TimeOf(p: Json): string {
    StrOf(p, "scheduledTime")
  }

  /** `posts.filter(p => p.day === day)`. */
  function PostsOn(posts: seq<Json>, day: string): (r: seq<Json>)
    ensures forall p :: multiset(r)[p] == if OnDay(p, day) then multiset(posts)[p] else 0
  {
    if |posts| == 0 then []
    else
      assert posts == [posts[0]] + posts[1..];
      (if OnDay(posts[0], day) then [posts[0]] else []) + PostsOn(posts[1..], day)
  }

  predicate SortedByTime(s: seq<Json>) {
    forall i, j :: 0 <= i < j < |s| ==> LexLe(TimeOf(s[i]), TimeOf(s[j]))
  }

  /** Insert before the first post whose time is not earlier. */
  function InsertByTime(p: Json, s: seq<Json>): (r: seq<Json>)
    requires SortedByTime(s)
    ensures SortedByTime(r)
    ensures multiset(r) == multiset(s) + multiset{p}
    ensures |r| == |s| + 1 && (r[0] == p || (|s| > 0 && r[0] == s[0]))
  {
    if |s| == 0 then [p]
    else if LexLe(TimeOf(p), TimeOf(s[0])) then
      assert forall j :: 0 < j < |s| ==> LexLe(TimeOf(p), TimeOf(s[j])) by {
        forall j | 0 < j < |s| ensures LexLe(TimeOf(p), TimeOf(s[j])) {
          LexLeTransitive(TimeOf(p), TimeOf(s[0]), TimeOf(s[j]));
        }
      }
      [p] + s
    else
      LexLeTotal(TimeOf(p), TimeOf(s[0]));
      var rest := InsertByTime(p, s[1..]);
      assert LexLe(TimeOf(s[0]), TimeOf(rest[0]));
      assert forall j :: 0 <= j < |rest| ==> LexLe(TimeOf(s[0]), TimeOf(rest[j])) by {
        forall j | 0 < j < |rest| ensures LexLe(TimeOf(s[0]), TimeOf(rest[j])) {
          LexLeTransitive(TimeOf(s[0]), TimeOf(rest[0]), TimeOf(rest[j]));
        }
      }
      assert s == [s[0]] + s[1..];
      [s[0]] + rest
  }

  /** An insertion sort by `scheduledTime`. */
  function SortByTime(s: seq<Json>): (r: seq<Json>)
    ensures SortedByTime(r)
    ensures multiset(r) == multiset(s)
  {
    if |s| == 0 then []
    else
      assert s == [s[0]] + s[1..];
      InsertByTime(s[0], SortByTime(s[1..]))
  }

  /** One day column: exactly that day's posts, ordered by their time text. */
  function DayColumn(posts: seq<Json>, day: string): (r: seq<Json>)
    ensures SortedByTime(r)
    ensures forall p :: multiset(r)[p] == if OnDay(p, day) then multiset(posts)[p] else 0
  {
    SortByTime(PostsOn(posts, day))
  }

  /** Times sort as text, so "10:00 AM" comes before "9:00 AM" in a column. */
  lemma TimesSortAsText()
    ensures LexLe("10:00 AM", "9:00 AM") && !LexLe("9:00 AM", "10:00 AM")
  {
  }
}
