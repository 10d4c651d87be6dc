/**
 * The strict validators that decide whether persisted JSON may be trusted
 * (store/appStore.ts:69-130). They check only what the code checks: `platform` is any
 * string, `winner` any string or null, and performance counters any numbers.
 */
module Validators {
  import opened Wrappers
  import opened JsonValues

  /** A variant: a non-null object whose `content` is a string. */
  predicate HasVariant(v: Option<Json>) {
    v.Some? && IsObjectLike(v.value) && IsStr(Get(v.value, "content"))
  }

  /** `variant.performance` is a non-null object with numeric likes, comments and shares. */
  predicate HasPerformance(variant: Json) {
    var p := Get(variant, "performance");
    p.Some? && IsObjectLike(p.value)
    && IsNum(Get(p.value, "likes")) && IsNum(Get(p.value, "comments")) && IsNum(Get(p.value, "shares"))
  }

  /** The winner is decided: neither `'Pending'` nor `null` (an absent winner never gets this far). */
  predicate IsDecided(winner: Option<Json>) {
    winner != Some(Str("Pending")) && winner != Some(Null)
  }

  /** The fields every post carries: a numeric id, string platform, day and time, and a boolean test flag. */
  predicate HasPostFields(item: Json) {
    IsNum(Get(item, "id")) && IsStr(Get(item, "platform")) && IsStr(Get(item, "day"))
    && IsStr(Get(item, "scheduledTime")) && IsBool(Get(item, "isABTest"))
  }

  /**
   * `isValidPost`. The first group of clauses says what acceptance guarantees; the last two
   * say that every post of either shape is accepted, so together they characterise it.
   */
  function IsValidPost(item: Json): (ok: bool)
    ensures ok ==> item.Obj? && HasPostFields(item)
    ensures ok && !Get(item, "isABTest").value.b ==> IsStr(Get(item, "content"))
    ensures ok && Get(item, "isABTest").value.b ==>
              var w := Get(item, "winner");
              w.Some? && (w.value.Str? || w.value.Null?)
              && HasVariant(Get(item, "variantA")) && HasVariant(Get(item, "variantB"))
              && (IsDecided(w) ==> HasPerformance(item.fields["variantA"]) && HasPerformance(item.fields["variantB"]))
    ensures (item.Obj? && HasPostFields(item) && Get(item, "isABTest") == Some(Bool(false))
             && IsStr(Get(item, "content"))) ==> ok
    ensures (item.Obj? && HasPostFields(item) && Get(item, "isABTest") == Some(Bool(true))
             && HasVariant(Get(item, "variantA")) && HasVariant(Get(item, "variantB"))
             && (IsStr(Get(item, "winner")) || Get(item, "winner") == Some(Null))
             && (IsDecided(Get(item, "winner")) ==>
                   HasPerformance(item.fields["variantA"]) && HasPerformance(item.fields["variantB"]))) ==> ok
  {
    if !IsObjectLike(item) then false
    else if !HasPostFields(item) then false
    else if Get(item, "isABTest").value.b then
      var a := Get(item, "variantA");
      var b := Get(item, "variantB");
      var w := Get(item, "winner");
      if !(HasVariant(a) && HasVariant(b)) then false
      else if !(w.Some? && (w.value.Str? || w.value.Null?)) then false
      else if IsDecided(w) then HasPerformance(a.value) && HasPerformance(b.value)
      else true
    else
      IsStr(Get(item, "content"))
  }

  /** `isValidFollowerDataItem`. */
  function IsValidFollowerItem(item: Json): (ok: bool)
    ensures ok <==> item.Obj? && IsStr(Get(item, "name"))
                    && IsNum(Get(item, "LinkedIn")) && IsNum(Get(item, "Instagram"))
  {
    IsObjectLike(item) && IsStr(Get(item, "name")) && IsNum(Get(item, "LinkedIn")) && IsNum(Get(item, "Instagram"))
  }

  /** `isValidEngagementDataItem`. */
  function IsValidEngagementItem(item: Json): (ok: bool)
    ensures ok <==> item.Obj? && IsStr(Get(item, "name")) && IsNum(Get(item, "rate"))
  {
    IsObjectLike(item) && IsStr(Get(item, "name")) && IsNum(Get(item, "rate"))
  }

  /** `Array.prototype.every`, scanning left to right. */
  function Every(items: seq<Json>, check: Json -> bool): (ok: bool)
    ensures ok <==> forall i :: 0 <= i < |items| ==> check(items[i])
  {
    if |items| == 0 then true else check(items[0]) && Every(items[1..], check)
  }

  /** `Array.isArray(data) && data.every(check)`. */
  function IsValidArray(data: Json, check: Json -> bool): (ok: bool)
    ensures ok <==> data.Arr? && forall i :: 0 <= i < |data.items| ==> check(data.items[i])
  {
    data.Arr? && Every(data.items, check)
  }

  function IsValidPostsArray(data: Json): bool { IsValidArray(data, IsValidPost) }
  function IsValidFollowerData(data: Json): bool { IsValidArray(data, IsValidFollowerItem) }
  function IsValidEngagementData(data: Json): bool { IsValidArray(data, IsValidEngagementItem) }

  /** The brand-profile check of the store's initialiser: any non-null object. */
  function IsProfileObject(data: Json): bool { IsObjectLike(data) }

  /** Every element of a list of posts is valid. */
  predicate AllPostsValid(posts: seq<Json>) {
    forall i :: 0 <= i < |posts| ==> IsValidPost(posts[i])
  }

  // ---- Characterising lemmas: what is accepted and what is rejected ----

  /** `null`, booleans, numbers and strings are never posts or series items. */
  lemma NonObjectsRejected(item: Json)
    requires !IsObjectLike(item)
    ensures !IsValidPost(item) && !IsValidFollowerItem(item) && !IsValidEngagementItem(item)
  {
  }

  /** An A/B post without a `winner` property is rejected; `undefined` is not `null`. */
  lemma MissingWinnerRejected(item: Json)
    requires item.Obj? && Get(item, "isABTest") == Some(Bool(true)) && "winner" !in item.fields
    ensures !IsValidPost(item)
  {
  }

  /** Any string is accepted as a winner: the check is only on the type. */
  lemma AnyWinnerStringAccepted(id: real, platform: string, day: string, time: string, a: string, b: string, w: string)
    ensures
      var perf := Obj(map["likes" := Num(0.0), "comments" := Num(0.0), "shares" := Num(0.0)]);
      IsValidPost(Obj(map["id" := Num(id), "platform" := Str(platform), "day" := Str(day),
                          "scheduledTime" := Str(time), "isABTest" := Bool(true),
                          "variantA" := Obj(map["content" := Str(a), "performance" := perf]),
                          "variantB" := Obj(map["content" := Str(b), "performance" := perf]),
                          "winner" := Str(w)]))
  {
  }

  /**
   * A pending or null-winner A/B post is valid with bare variants, whatever its platform
   * string; once decided it is valid only with both performances present.
   */
  lemma PerformanceNeededExactlyWhenDecided(item: Json)
    requires item.Obj? && IsNum(Get(item, "id")) && IsStr(Get(item, "platform")) && IsStr(Get(item, "day"))
             && IsStr(Get(item, "scheduledTime")) && Get(item, "isABTest") == Some(Bool(true))
             && HasVariant(Get(item, "variantA")) && HasVariant(Get(item, "variantB"))
             && IsStr(Get(item, "winner"))
    ensures IsValidPost(item) <==>
              (IsDecided(Get(item, "winner")) ==>
                 HasPerformance(item.fields["variantA"]) && HasPerformance(item.fields["variantB"]))
  {
  }

  /** The empty array passes every array validator; a non-array passes none. */
  lemma ArrayValidatorBoundaries(data: Json, check: Json -> bool)
    ensures IsValidArray(Arr([]), check)
    ensures !data.Arr? ==> !IsValidArray(data, check)
  {
  }
}
