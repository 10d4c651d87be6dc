/**
 * The A/B-test result modal (components/modals/ABTestResultModal.tsx): placeholder
 * or results, per-metric highlighting and the winner label.
 */
module ResultModal {
  import opened Wrappers
  import opened JsonValues
  import opened Validators

  /** One metric row: both values and which of them is highlighted. */
  datatype Row = Row(a: real, b: real, highlightA: bool, highlightB: bool)

  /** A side is highlighted when it is at least the other side. */
  function CompareRow(a: real, b: real): (r: Row)
    ensures r.a == a && r.b == b
    ensures r.highlightA <==> a >= b
    ensures r.highlightB <==> b >= a
  {
    Row(a, b, a >= b, b >= a)
  }

  /**
   * What the modal shows. `Garbled` is a shown performance whose counters are not all
   * numbers, which the validator lets through for a `null` winner; the source renders
   * `NaN` or concatenated text there.
   */
  datatype ResultView =
    | Placeholder
    | Results(winnerLabel: string, likes: Row, comments: Row, shares: Row, total: Row)
    | Garbled

  /** `winner ? 'Variant ' + winner : 'Tie'` for a string or null winner. */
  function WinnerLabel(winner: Option<Json>): (s: string)
    requires winner.None? || winner.value.Str? || winner.value.Null?
    ensures Truthy(winner) ==> s == "Variant " + winner.value.s
    ensures !Truthy(winner) ==> s == "Tie"
  {
    if Truthy(winner) then "Variant " + winner.value.s else "Tie"
  }

  function Counter(perf: Json, key: string): real {
    match Get(perf, key)
    case Some(Num(n)) => n
    case _ => 0.0
  }

  predicate NumericCounters(perf: Json) {
    IsNum(Get(perf, "likes")) && IsNum(Get(perf, "comments")) && IsNum(Get(perf, "shares"))
  }

  function Total(perf: Json): real {
    Counter(perf, "likes") + Counter(perf, "comments") + Counter(perf, "shares")
  }

  /** The modal for an A/B post taken from the store. */
  function Show(post: Json): (v: ResultView)
    requires IsValidPost(post) && Get(post, "isABTest") == Some(Bool(true))
    ensures Get(post, "winner") == Some(Str("Pending")) ==> v == Placeholder
    ensures !Truthy(Get(post.fields["variantA"], "performance")) ==> v == Placeholder
    ensures !Truthy(Get(post.fields["variantB"], "performance")) ==> v == Placeholder
    ensures v == Placeholder <==> Get(post, "winner") == Some(Str("Pending"))
                                   || !Truthy(Get(post.fields["variantA"], "performance"))
                                   || !Truthy(Get(post.fields["variantB"], "performance"))
    ensures (Get(post, "winner") != Some(Str("Pending"))
             && Truthy(Get(post.fields["variantA"], "performance"))
             && Truthy(Get(post.fields["variantB"], "performance"))
             && NumericCounters(post.fields["variantA"].fields["performance"])
             && NumericCounters(post.fields["variantB"].fields["performance"])) ==> v.Results?
    ensures v.Results? ==>
              var pa := post.fields["variantA"].fields["performance"];
              var pb := post.fields["variantB"].fields["performance"];
              v.total == CompareRow(Total(pa), Total(pb))
              && v.likes == CompareRow(Counter(pa, "likes"), Counter(pb, "likes"))
              && v.comments == CompareRow(Counter(pa, "comments"), Counter(pb, "comments"))
              && v.shares == CompareRow(Counter(pa, "shares"), Counter(pb, "shares"))
              && v.winnerLabel == WinnerLabel(Get(post, "winner"))
  {
    var winner := Get(post, "winner");
    var a := post.fields["variantA"];
    var b := post.fields["variantB"];
    var pa := Get(a, "performance");
    var pb := Get(b, "performance");
    if winner == Some(Str("Pending")) || !Truthy(pa) || !Truthy(pb) then Placeholder
    else if !(NumericCounters(pa.value) && NumericCounters(pb.value)) then Garbled
    else
      Results(WinnerLabel(winner),
              CompareRow(Counter(pa.value, "likes"), Counter(pb.value, "likes")),
              CompareRow(Counter(pa.value, "comments"), Counter(pb.value, "comments")),
              CompareRow(Counter(pa.value, "shares"), Counter(pb.value, "shares")),
              CompareRow(Total(pa.value), Total(pb.value)))
  }

  /** The validator's guarantee: a valid, decided post always renders its results. */
  lemma DecidedPostsShowResults(post: Json)
    requires IsValidPost(post) && Get(post, "isABTest") == Some(Bool(true)) && IsDecided(Get(post, "winner"))
    ensures Show(post).Results?
  {
  }

  /** An empty-string winner passes the validator and is labelled a tie. */
  lemma EmptyWinnerLabelledTie()
    ensures WinnerLabel(Some(Str(""))) == "Tie" && WinnerLabel(Some(Null)) == "Tie"
    ensures WinnerLabel(Some(Str("Tie"))) == "Variant Tie"
  {
  }
}
