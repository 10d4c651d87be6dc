/**
 * The create-post modal (components/modals/CreatePostModal.tsx): its initial form,
 * the record it hands to `onSave`, and when saving is possible.
 */
module CreatePost {
  import opened Wrappers
  import opened JsonValues
  import opened AppStore

  datatype PostForm = PostForm(isABTest: bool, platform: string, scheduledTime: string,
                               content: string, variantA: string, variantB: string)

  /** `value || fallback` on an optional string: both `undefined` and `''` fall back. */
  function OrElse(value: Option<string>, fallback: string): (s: string)
    ensures value.Some? && value.value != "" ==> s == value.value
    ensures value.None? || value.value == "" ==> s == fallback
  {
    if value.Some? && value.value != "" then value.value else fallback
  }

  /** `initialData` with every field `undefined` when there is none. */
  function Given(initial: Option<Draft>): Draft {
    initial.GetOr(Draft(None, None, None, None, None, None, None))
  }

  /** The form's initial state from the optional handoff and the connected platforms. */
  function InitialForm(initial: Option<Draft>, available: seq<string>): (f: PostForm)
    ensures Given(initial).platform.Some? && Given(initial).platform.value != "" ==>
              f.platform == Given(initial).platform.value
    ensures (Given(initial).platform.None? || Given(initial).platform.value == "") && |available| > 0 && available[0] != "" ==>
              f.platform == available[0]
    ensures (Given(initial).platform.None? || Given(initial).platform.value == "") && (|available| == 0 || available[0] == "") ==>
              f.platform == "LinkedIn"
    ensures initial.None? ==> f.isABTest == false && f.scheduledTime == "10:00 AM"
                              && f.content == "" && f.variantA == "" && f.variantB == ""
    ensures f.isABTest <==> Given(initial).isABTest == Some(true)
    ensures f.scheduledTime == OrElse(Given(initial).scheduledTime, "10:00 AM")
    ensures f.content == OrElse(Given(initial).content, "")
    ensures f.variantA == OrElse(Given(initial).variantA, "")
    ensures f.variantB == OrElse(Given(initial).variantB, "")
  {
    var d := Given(initial);
    var first := if |available| > 0 then Some(available[0]) else None;
    PostForm(
      d.isABTest.GetOr(false),
      OrElse(d.platform, OrElse(first, "LinkedIn")),
      OrElse(d.scheduledTime, "10:00 AM"),
      OrElse(d.content, ""),
      OrElse(d.variantA, ""),
      OrElse(d.variantB, ""))
  }

  /** `canSave`: at least one platform is connected; the save button is disabled otherwise. */
  predicate CanSave(available: seq<string>) {
    |available| > 0
  }

  /**
   * `handleSave`'s record: day, platform, time and the test flag, plus either two
   * content-only variants or one content field. Never an id, winner or performance.
   */
  function SavedPost(f: PostForm, day: string): (r: Json)
    ensures r.Obj?
    ensures f.isABTest ==> r.fields.Keys == {"day", "platform", "scheduledTime", "isABTest", "variantA", "variantB"}
    ensures !f.isABTest ==> r.fields.Keys == {"day", "platform", "scheduledTime", "isABTest", "content"}
    ensures Get(r, "day") == Some(Str(day)) && Get(r, "platform") == Some(Str(f.platform))
    ensures Get(r, "scheduledTime") == Some(Str(f.scheduledTime)) && Get(r, "isABTest") == Some(Bool(f.isABTest))
    ensures f.isABTest ==> Get(r, "variantA") == Some(Obj(map["content" := Str(f.variantA)]))
                           && Get(r, "variantB") == Some(Obj(map["content" := Str(f.variantB)]))
    ensures !f.isABTest ==> Get(r, "content") == Some(Str(f.content))
  {
    var common := map["day" := Str(day), "platform" := Str(f.platform),
                      "scheduledTime" := Str(f.scheduledTime), "isABTest" := Bool(f.isABTest)];
    if f.isABTest then
      Obj(common["variantA" := Obj(map["content" := Str(f.variantA)])]
                ["variantB" := Obj(map["content" := Str(f.variantB)])])
    else
      Obj(common["content" := Str(f.content)])
  }
}
