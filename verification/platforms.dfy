/**
 * The three social platforms, the brand-profile flag each maps to
 * (store/appStore.ts:251-255, components/Settings.tsx:18-22, which agree), and the
 * ordered list of connected platforms several views derive from the profile.
 */
module Platforms {
  import opened Wrappers
  import opened JsonValues
  import Seeds

  datatype Platform = LinkedIn | Instagram | Twitter

  function Name(p: Platform): string {
    match p
    case LinkedIn => "LinkedIn"
    case Instagram => "Instagram"
    case Twitter => "Twitter"
  }

  /** Position in the fixed display order LinkedIn, Instagram, Twitter. */
  function Rank(p: Platform): nat {
    match p
    case LinkedIn => 0
    case Instagram => 1
    case Twitter => 2
  }

  /** `connectionKeys[platform]`. */
  function ConnectionKey(p: Platform): (k: string)
    ensures k in Seeds.DefaultProfile && Seeds.DefaultProfile[k] == Bool(false)
  {
    match p
    case LinkedIn => "linkedInConnected"
    case Instagram => "instagramConnected"
    case Twitter => "twitterConnected"
  }

  /** Each platform owns a different flag, so changing one never touches another. */
  lemma ConnectionKeyInjective(p: Platform, q: Platform)
    ensures ConnectionKey(p) == ConnectionKey(q) <==> p == q
  {
  }

  /** `brandProfile?.<flag>` read for truthiness. */
  predicate Connected(profile: map<string, Json>, p: Platform) {
    var k := ConnectionKey(p);
    Truthy(if k in profile then Some(profile[k]) else None)
  }

  function Only(b: bool, p: Platform): seq<string> {
    if b then [Name(p)] else []
  }

  /** Flag per platform. */
  function Pick(p: Platform, linkedIn: bool, instagram: bool, twitter: bool): bool {
    match p
    case LinkedIn => linkedIn
    case Instagram => instagram
    case Twitter => twitter
  }

  /** Names in the fixed order, each at most once. */
  predicate InDisplayOrder(r: seq<string>) {
    forall i, j, p, q :: 0 <= i < j < |r| && r[i] == Name(p) && r[j] == Name(q) ==> Rank(p) < Rank(q)
  }

  /** The display position of a platform name; -1 for any other string. */
  function NameRank(x: string): int {
    if x == Name(LinkedIn) then 0 else if x == Name(Instagram) then 1 else if x == Name(Twitter) then 2 else -1
  }

  /** Strictly increasing display positions put the names in display order. */
  lemma {:induction false} RankedIsInDisplayOrder(r: seq<string>)
    requires forall i, j :: 0 <= i < j < |r| ==> NameRank(r[i]) < NameRank(r[j])
    ensures InDisplayOrder(r)
  {
    forall i, j, p, q | 0 <= i < j < |r| && r[i] == Name(p) && r[j] == Name(q)
      ensures Rank(p) < Rank(q)
    {
      assert NameRank(Name(p)) == Rank(p) && NameRank(Name(q)) == Rank(q);
    }
  }

  /** The three optional names, concatenated in order, hold exactly the chosen platforms in display order. */
  lemma {:induction false} OnlyInOrder(linkedIn: bool, instagram: bool, twitter: bool)
    ensures var r := Only(linkedIn, LinkedIn) + Only(instagram, Instagram) + Only(twitter, Twitter);
            (forall p :: Name(p) in r <==> Pick(p, linkedIn, instagram, twitter))
            && (forall x :: x in r ==> exists p :: Name(p) == x)
            && InDisplayOrder(r)
  {
    var r := Only(linkedIn, LinkedIn) + Only(instagram, Instagram) + Only(twitter, Twitter);
    var a, b, c := Name(LinkedIn), Name(Instagram), Name(Twitter);
    if linkedIn && instagram && twitter { assert r == [a, b, c]; }
    else if linkedIn && instagram { assert r == [a, b]; }
    else if linkedIn && twitter { assert r == [a, c]; }
    else if instagram && twitter { assert r == [b, c]; }
    else if linkedIn { assert r == [a]; }
    else if instagram { assert r == [b]; }
    else if twitter { assert r == [c]; }
    else { assert r == []; }
    RankedIsInDisplayOrder(r);
  }

  /**
   * `availablePlatforms` / `connectedPlatforms`: the names of the connected platforms,
   * in the fixed order, each at most once.
   */
  function ConnectedPlatforms(profile: map<string, Json>): (r: seq<string>)
    ensures forall p :: Name(p) in r <==> Connected(profile, p)
    ensures forall x :: x in r ==> exists p :: Name(p) == x
    ensures InDisplayOrder(r)
  {
    var linkedIn, instagram, twitter := Connected(profile, LinkedIn), Connected(profile, Instagram), Connected(profile, Twitter);
    OnlyInOrder(linkedIn, instagram, twitter);
    assert forall p :: Pick(p, linkedIn, instagram, twitter) == Connected(profile, p);
    Only(linkedIn, LinkedIn) + Only(instagram, Instagram) + Only(twitter, Twitter)
  }
}
