/**
 * The store's built-in defaults: the empty brand profile and the seed data used
 * whenever a persisted key is missing or corrupt (store/appStore.ts:6-66).
 */
module Seeds {
  import opened JsonValues

  const BrandProfileKey := "brandProfile"
  const PostsKey := "scheduledPosts"
  const FollowerKey := "followerData"
  const EngagementKey := "engagementData"
  const OnboardingKey := "hasCompletedOnboarding"

  /** `defaultBrandProfile`: empty texts, no voices, nothing connected. */
  const DefaultProfile: map<string, Json> := map[
    "companyDescription" := Str(""),
    "targetAudience" := Str(""),
    "brandVoice" := Arr([]),
    "knowledgeBase" := Str(""),
    "linkedInConnected" := Bool(false),
    "instagramConnected" := Bool(false),
    "twitterConnected" := Bool(false)
  ]

  function SinglePost(id: real, platform: string, content: string, time: string, day: string): Json {
    Obj(map["id" := Num(id), "platform" := Str(platform), "content" := Str(content),
            "scheduledTime" := Str(time), "day" := Str(day), "isABTest" := Bool(false)])
  }

  function Perf(likes: real, comments: real, shares: real): Json {
    Obj(map["likes" := Num(likes), "comments" := Num(comments), "shares" := Num(shares)])
  }

  function Variant(content: string): Json {
    Obj(map["content" := Str(content)])
  }

  function MeasuredVariant(content: string, performance: Json): Json {
    Obj(map["content" := Str(content), "performance" := performance])
  }

  function ABPost(id: real, platform: string, time: string, day: string, a: Json, b: Json, winner: string): Json {
    Obj(map["id" := Num(id), "platform" := Str(platform), "scheduledTime" := Str(time), "day" := Str(day),
            "isABTest" := Bool(true), "variantA" := a, "variantB" := b, "winner" := Str(winner)])
  }

  const SeedReport := SinglePost(1.0, "LinkedIn",
    "Excited to share our Q3 growth report! We've seen a 25% increase in user engagement...", "9:00 AM", "Monday")

  const SeedResolvedTest := ABPost(4.0, "Instagram", "2:00 PM", "Tuesday",
    MeasuredVariant("Our new A/B testing feature is a game-changer! See how it works.", Perf(120.0, 15.0, 8.0)),
    MeasuredVariant("Boost your engagement with our powerful new A/B testing feature. Check it out.", Perf(180.0, 25.0, 12.0)),
    "B")

  const SeedBehindScenes := SinglePost(2.0, "Instagram", "Behind the scenes at NexusGrowth!", "12:00 PM", "Wednesday")

  const SeedPendingTest := ABPost(3.0, "LinkedIn", "11:00 AM", "Friday",
    Variant("Top 5 tips for leveraging AI in your content strategy. Tip #1: Personalize at scale."),
    Variant("Unlock the power of AI in your content strategy with these 5 essential tips."),
    "Pending")

  /** `initialPostsForStore`: two single posts, one resolved and one pending A/B test. */
  const InitialPosts: seq<Json> := [SeedReport, SeedResolvedTest, SeedBehindScenes, SeedPendingTest]

  function FollowerPoint(name: string, linkedIn: real, instagram: real): Json {
    Obj(map["name" := Str(name), "LinkedIn" := Num(linkedIn), "Instagram" := Num(instagram)])
  }

  /** `initialFollowerDataForStore`: seven daily points. */
  const InitialFollowerData: seq<Json> := [
    FollowerPoint("Mon", 4000.0, 2400.0), FollowerPoint("Tue", 3000.0, 1398.0),
    FollowerPoint("Wed", 2000.0, 9800.0), FollowerPoint("Thu", 2780.0, 3908.0),
    FollowerPoint("Fri", 1890.0, 4800.0), FollowerPoint("Sat", 2390.0, 3800.0),
    FollowerPoint("Sun", 3490.0, 4300.0)
  ]

  function RatePoint(name: string, rate: real): Json {
    Obj(map["name" := Str(name), "rate" := Num(rate)])
  }

  /** `initialEngagementDataForStore`: four weekly rates. */
  const InitialEngagementData: seq<Json> := [
    RatePoint("Week 1", 2.1), RatePoint("Week 2", 3.5), RatePoint("Week 3", 2.9), RatePoint("Week 4", 4.2)
  ]
}
