/**
 * The A/B-test lifecycle (components/Scheduler.tsx:10-38, 90-112): a lazily drawn
 * winner and synthetic metrics, and the update that turns a pending post into a
 * resolved one. `Math.random()` draws are parameters in [0, 1).
 */
module ABTest {
  import opened Wrappers
  import opened JsonValues
  import opened Validators
  import Storage

  datatype Winner = A | B | Tie

  function WinnerName(w: Winner): string {
    match w
    case A => "A"
    case B => "B"
    case Tie => "Tie"
  }

  predicate InUnit(x: real) {
    0.0 <= x < 1.0
  }

  /** The three draws of one `createVariantPerformance` call. */
  datatype MetricDraws = MetricDraws(likes: real, comments: real, shares: real)

  /**
   * All draws of one generation: the winner draw, the tie-break draw (consumed only
   * when the first is at least 0.45), then variant A's and variant B's metrics.
   */
  datatype Draws = Draws(first: real, second: real, a: MetricDraws, b: MetricDraws)

  predicate ValidDraws(d: Draws) {
    InUnit(d.first) && InUnit(d.second)
    && InUnit(d.a.likes) && InUnit(d.a.comments) && InUnit(d.a.shares)
    && InUnit(d.b.likes) && InUnit(d.b.comments) && InUnit(d.b.shares)
  }

  /** A with odds 0.45, otherwise B with odds 0.9, otherwise a tie. */
  function PickWinner(first: real, second: real): (w: Winner)
    ensures w == A <==> first < 0.45
    ensures w == Tie <==> first >= 0.45 && second >= 0.9
  {
    if first < 0.45 then A else if second < 0.9 then B else Tie
  }

  datatype Performance = Performance(likes: int, comments: int, shares: int)

  /** Instagram favours likes; every other platform favours shares. */
  function Base(platform: string): (p: Performance)
    ensures platform == "Instagram" ==> p == Performance(150, 20, 10)
    ensures platform != "Instagram" ==> p == Performance(50, 15, 25)
  {
    if platform == "Instagram" then Performance(150, 20, 10) else Performance(50, 15, 25)
  }

  /** The width of each metric's random spread. */
  const Spread := Performance(50, 10, 5)

  /** `Math.floor((base + r * spread) * multiplier)` with multiplier 1.5 for the winner. */
  function Metric(base: int, spread: int, r: real, isWinner: bool): (m: int)
    requires 0 <= base && 0 < spread && InUnit(r)
    ensures !isWinner ==> base <= m <= base + spread - 1
    ensures isWinner ==> (3 * base) / 2 <= m && 2 * m < 3 * (base + spread)
  {
    var x := base as real + r * spread as real;
    assert base as real <= x < (base + spread) as real by {
      assert (1.0 - r) * spread as real > 0.0;
    }
    if isWinner then (x * 1.5).Floor else x.Floor
  }

  function VariantPerformance(platform: string, d: MetricDraws, isWinner: bool): Performance
    requires InUnit(d.likes) && InUnit(d.comments) && InUnit(d.shares)
  {
    var base := Base(platform);
    Performance(Metric(base.likes, Spread.likes, d.likes, isWinner),
                Metric(base.comments, Spread.comments, d.comments, isWinner),
                Metric(base.shares, Spread.shares, d.shares, isWinner))
  }

  datatype Outcome = Outcome(winner: Winner, a: Performance, b: Performance)

  /** `generatePerformanceForABTest(platform)`. */
  function Generate(platform: string, d: Draws): (o: Outcome)
    requires ValidDraws(d)
    ensures o.winner == PickWinner(d.first, d.second)
    ensures o.a.likes >= 0 && o.a.comments >= 0 && o.a.shares >= 0
    ensures o.b.likes >= 0 && o.b.comments >= 0 && o.b.shares >= 0
  {
    var w := PickWinner(d.first, d.second);
    Outcome(w, VariantPerformance(platform, d.a, w == A), VariantPerformance(platform, d.b, w == B))
  }

  /** The better side of a decided outcome and the other one. */
  function WinnerPerf(o: Outcome): Performance requires o.winner != Tie {
    if o.winner == A then o.a else o.b
  }

  function LoserPerf(o: Outcome): Performance requires o.winner != Tie {
    if o.winner == A then o.b else o.a
  }

  /** On every platform the winner's shares strictly exceed the loser's. */
  lemma WinnerHasMoreShares(platform: string, d: Draws)
    requires ValidDraws(d) && Generate(platform, d).winner != Tie
    ensures WinnerPerf(Generate(platform, d)).shares > LoserPerf(Generate(platform, d)).shares
  {
    var o := Generate(platform, d);
    var base := Base(platform);
    if o.winner == A {
      assert o.a.shares == Metric(base.shares, 5, d.a.shares, true);
      assert o.b.shares == Metric(base.shares, 5, d.b.shares, false);
    } else {
      assert o.b.shares == Metric(base.shares, 5, d.b.shares, true);
      assert o.a.shares == Metric(base.shares, 5, d.a.shares, false);
    }
  }

  /** On Instagram the winner beats the loser on likes, comments and shares alike. */
  lemma InstagramWinnerDominates(d: Draws)
    requires ValidDraws(d) && Generate("Instagram", d).winner != Tie
    ensures var o := Generate("Instagram", d);
            WinnerPerf(o).likes > LoserPerf(o).likes
            && WinnerPerf(o).comments > LoserPerf(o).comments
            && WinnerPerf(o).shares > LoserPerf(o).shares
  {
    WinnerHasMoreShares("Instagram", d);
    var o := Generate("Instagram", d);
    if o.winner == A {
      assert o.a == VariantPerformance("Instagram", d.a, true);
      assert o.b == VariantPerformance("Instagram", d.b, false);
    } else {
      assert o.b == VariantPerformance("Instagram", d.b, true);
      assert o.a == VariantPerformance("Instagram", d.a, false);
    }
  }

  /** Elsewhere the winner can trail on likes: the multiplier does not cover the spread. */
  lemma OffInstagramWinnerMayTrailOnLikes()
    ensures var d := Draws(0.0, 0.0, MetricDraws(0.0, 0.0, 0.0), MetricDraws(0.9, 0.0, 0.0));
            ValidDraws(d) && Generate("LinkedIn", d).winner == A
            && Generate("LinkedIn", d).a.likes == 75 && Generate("LinkedIn", d).b.likes == 95
  {
    var d := Draws(0.0, 0.0, MetricDraws(0.0, 0.0, 0.0), MetricDraws(0.9, 0.0, 0.0));
    assert (50.0 + 0.0 * 50.0) * 1.5 == 75.0;
    assert 50.0 + 0.9 * 50.0 == 95.0;
  }

  /** A tie scales neither variant: both stay within the unscaled ranges. */
  lemma TieLeavesBothUnscaled(platform: string, d: Draws)
    requires ValidDraws(d) && Generate(platform, d).winner == Tie
    ensures var o := Generate(platform, d);
            var base := Base(platform);
            base.likes <= o.a.likes < base.likes + 50 && base.likes <= o.b.likes < base.likes + 50
            && base.comments <= o.a.comments < base.comments + 10 && base.comments <= o.b.comments < base.comments + 10
            && base.shares <= o.a.shares < base.shares + 5 && base.shares <= o.b.shares < base.shares + 5
  {
    var o := Generate(platform, d);
    assert o.a == VariantPerformance(platform, d.a, false);
    assert o.b == VariantPerformance(platform, d.b, false);
  }

  // ---- Resolving a pending post ----

  function PerformanceJson(p: Performance): Json {
    Obj(map["likes" := Num(p.likes as real), "comments" := Num(p.comments as real), "shares" := Num(p.shares as real)])
  }

  /** `{ ...variant, performance }`; spreading `undefined` copies nothing. */
  function WithPerformance(variant: Option<Json>, p: Performance): (r: Json)
    ensures r.Obj? && Get(r, "performance") == Some(PerformanceJson(p))
    ensures variant.Some? && variant.value.Obj? ==>
              forall k :: k in variant.value.fields && k != "performance" ==> k in r.fields && r.fields[k] == variant.value.fields[k]
  {
    var base := if variant.Some? then Storage.SpreadEntries(variant.value) else map[];
    Obj(base["performance" := PerformanceJson(p)])
  }

  /** `{ ...post, variantA: {...}, variantB: {...}, winner }`. */
  function Resolve(post: Json, o: Outcome): (r: Json)
    ensures r.Obj?
    ensures Get(r, "winner") == Some(Str(WinnerName(o.winner)))
    ensures Get(r, "variantA") == Some(WithPerformance(Get(post, "variantA"), o.a))
    ensures Get(r, "variantB") == Some(WithPerformance(Get(post, "variantB"), o.b))
    ensures post.Obj? ==> forall k :: k in post.fields && k !in {"variantA", "variantB", "winner"} ==>
                            k in r.fields && r.fields[k] == post.fields[k]
  {
    var fields := Storage.SpreadEntries(post);
    Obj(fields["variantA" := WithPerformance(Get(post, "variantA"), o.a)]
              ["variantB" := WithPerformance(Get(post, "variantB"), o.b)]
              ["winner" := Str(WinnerName(o.winner))])
  }

  /** A valid pending post resolves to a valid, decided post with the same identity and contents. */
  lemma {:induction false} ResolvedPostIsValid(post: Json, o: Outcome)
    requires IsValidPost(post) && Get(post, "isABTest") == Some(Bool(true))
    ensures var r := Resolve(post, o);
            IsValidPost(r) && IsDecided(Get(r, "winner"))
            && Get(r, "id") == Get(post, "id") && Get(r, "platform") == Get(post, "platform")
            && Get(r, "day") == Get(post, "day") && Get(r, "scheduledTime") == Get(post, "scheduledTime")
            && Get(r, "isABTest") == Some(Bool(true))
            && Get(Get(r, "variantA").value, "content") == Get(Get(post, "variantA").value, "content")
            && Get(Get(r, "variantB").value, "content") == Get(Get(post, "variantB").value, "content")
  {
    var r := Resolve(post, o);
    var va := WithPerformance(Get(post, "variantA"), o.a);
    var vb := WithPerformance(Get(post, "variantB"), o.b);
    assert Get(va, "content") == Get(Get(post, "variantA").value, "content");
    assert Get(vb, "content") == Get(Get(post, "variantB").value, "content");
    assert HasPerformance(va) && HasPerformance(vb);
    assert WinnerName(o.winner) != "Pending";
  }
}
