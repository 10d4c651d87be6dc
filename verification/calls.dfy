/**
 * The outcome of an awaited call into code outside the model (the AI generators,
 * `JSON.parse` on their text, storage access) and the `catch` clause the views share.
 */
module Calls {
  import opened Wrappers
  import opened JsonValues

  /** A thrown value: an `Error` carrying a message, or something that is not an `Error`. */
  datatype Thrown = ErrorWithMessage(message: string) | NotAnError

  /** A call either returns a value or throws. */
  datatype Call<T> = Returned(value: T) | Threw(thrown: Thrown)

  const UnexpectedError := "An unexpected error occurred."

  /** `e instanceof Error ? e.message : fallback`. */
  function CaughtMessage(e: Thrown, fallback: string): (m: string)
    ensures e.NotAnError? ==> m == fallback
    ensures e.ErrorWithMessage? ==> m == e.message
  {
    match e
    case ErrorWithMessage(message) => message
    case NotAnError => fallback
  }

  /**
   * The generator's reply after `JSON.parse(responseText)` and before a property of it is
   * read: `parse` is `None` where `JSON.parse` throws a `SyntaxError`, reading a property of
   * `null` throws a `TypeError`, and `engineMessage` stands for the message the engine puts
   * on either.
   */
  function ParseReply(call: Call<string>, parse: string -> Option<Json>, engineMessage: string): (r: Call<Json>)
    ensures call.Threw? ==> r == Threw(call.thrown)
    ensures r.Returned? <==> call.Returned? && parse(call.value).Some? && parse(call.value).value != Null
    ensures r.Returned? ==> Some(r.value) == parse(call.value)
    ensures call.Returned? && r.Threw? ==> r.thrown == ErrorWithMessage(engineMessage)
  {
    match call
    case Threw(e) => Threw(e)
    case Returned(text) =>
      match parse(text)
      case None => Threw(ErrorWithMessage(engineMessage))
      case Some(v) => if v == Null then Threw(ErrorWithMessage(engineMessage)) else Returned(v)
  }

  /** `parsed.<key> || []`, the list a reply carries under `key`. */
  function ListOr(parsed: Json, key: string): (r: Json)
    ensures Truthy(Get(parsed, key)) ==> Some(r) == Get(parsed, key)
    ensures !Truthy(Get(parsed, key)) ==> r == Arr([])
  {
    OrElse(Get(parsed, key), Arr([]))
  }

  /** `${value}` for a value the response schema types as a string: its text, or `undefined` when absent. */
  predicate StringOrAbsent(v: Option<Json>) {
    v.None? || v.value.Str?
  }

  function TemplateText(v: Option<Json>): (s: string)
    requires StringOrAbsent(v)
    ensures v.None? ==> s == "undefined"
    ensures v.Some? ==> v.value == Str(s)
  {
    if v.None? then "undefined" else v.value.s
  }

  /** A string field handed on as is: `None` when it is absent. */
  function StringField(item: Json, key: string): (r: Option<string>)
    requires StringOrAbsent(Get(item, key))
    ensures r.None? <==> Get(item, key).None?
    ensures r.Some? ==> Get(item, key) == Some(Str(r.value))
  {
    if Get(item, key).None? then None else Some(Get(item, key).value.s)
  }
}
