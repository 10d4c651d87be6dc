/**
 * The settings view (components/Settings.tsx): a local copy of the brand profile that
 * the form edits, connection toggles that write through the store at once, and an
 * explicit save of the whole local copy.
 */
module Settings {
  import opened Wrappers
  import opened JsonValues
  import opened Storage
  import opened Platforms
  import opened AppStore
  import Seeds

  const VoiceOptions: seq<string> := ["Professional", "Casual", "Witty", "Inspirational", "Formal", "Authoritative", "Friendly"]

  /** The local profile copy and the platform whose mock OAuth dialog is open, if any. */
  datatype SettingsState = SettingsState(local: map<string, Json>, pendingOAuth: Option<Platform>)

  /** A settings event's effect on the store and on the view. */
  datatype Step = Step(world: World, view: SettingsState)

  /** The view opens with a copy of the store's profile and no dialog. */
  function Open(w: World): (s: SettingsState)
    ensures s.local == w.app.brandProfile && s.pendingOAuth.None?
    ensures Inv(w.app) ==> LocalInv(s)
  {
    SettingsState(w.app.brandProfile, None)
  }

  /** The local copy keeps every field of the default profile. */
  predicate LocalInv(s: SettingsState) {
    Seeds.DefaultProfile.Keys <= s.local.Keys
  }

  // ---- Brand voice ----

  /** `voices.filter(v => v !== voice)`. */
  function Without(voices: seq<Json>, voice: Json): (r: seq<Json>)
    ensures voice !in r
    ensures forall x :: x != voice ==> multiset(r)[x] == multiset(voices)[x]
    ensures voice !in voices ==> r == voices
  {
    if |voices| == 0 then []
    else
      assert voices == [voices[0]] + voices[1..];
      (if voices[0] == voice then [] else [voices[0]]) + Without(voices[1..], voice)
  }

  /** Selected voices: a present voice is removed everywhere, an absent one appended. */
  function ToggleVoice(voices: seq<Json>, voice: string): (r: seq<Json>)
    ensures Str(voice) in r <==> Str(voice) !in voices
    ensures Str(voice) in voices ==> forall x :: x != Str(voice) ==> multiset(r)[x] == multiset(voices)[x]
    ensures Str(voice) !in voices ==> r == voices + [Str(voice)]
  {
    if Str(voice) in voices then Without(voices, Str(voice)) else voices + [Str(voice)]
  }

  /** Filtering out a value that was appended to a list without it gives the list back. */
  lemma {:induction false} WithoutAppended(voices: seq<Json>, voice: Json)
    requires voice !in voices
    ensures Without(voices + [voice], voice) == voices
  {
    if |voices| == 0 {
      assert [] + [voice] == [voice];
    } else {
      assert (voices + [voice])[1..] == voices[1..] + [voice];
      WithoutAppended(voices[1..], voice);
      assert voices == [voices[0]] + voices[1..];
    }
  }

  /** Toggling a voice that was not selected, twice, restores the original list. */
  lemma {:induction false} ToggleAbsentTwice(voices: seq<Json>, voice: string)
    requires Str(voice) !in voices
    ensures ToggleVoice(ToggleVoice(voices, voice), voice) == voices
  {
    WithoutAppended(voices, Str(voice));
  }

  /** `sub` occurs in `s` (`String.prototype.includes`). */
  predicate Contains(s: string, sub: string)
    decreases |s|
  {
    (|sub| <= |s| && s[..|sub|] == sub) || (|s| > 0 && Contains(s[1..], sub))
  }

  /** `[...s]`: a string spreads into its characters, each a one-character string. */
  function Characters(s: string): (r: seq<Json>)
    ensures |r| == |s| && forall i :: 0 <= i < |s| ==> r[i] == Str([s[i]])
  {
    seq(|s|, i requires 0 <= i < |s| => Str([s[i]]))
  }

  /** The texts of a list's string values, run together; other values add nothing. */
  function Concat(values: seq<Json>): string {
    if |values| == 0 then "" else (if values[0].Str? then values[0].s else "") + Concat(values[1..])
  }

  /** Spreading a string loses nothing: its characters, run together, give it back. */
  lemma {:induction false} CharactersJoinBack(s: string)
    ensures Concat(Characters(s)) == s
  {
    if |s| > 0 {
      assert Characters(s)[1..] == Characters(s[1..]);
      CharactersJoinBack(s[1..]);
      assert [s[0]] + s[1..] == s;
    }
  }

  /**
   * `handleVoiceToggle`. The list method calls are made on whatever `brandVoice` holds: a
   * list toggles; a string that contains the voice has no `filter` and one that does not
   * spreads into characters; anything else has no `includes`. A call that throws leaves
   * the local copy as it was.
   */
  function HandleVoiceToggle(s: SettingsState, voice: string): (r: SettingsState)
    ensures r.pendingOAuth == s.pendingOAuth && r.local.Keys == s.local.Keys
    ensures forall k :: k in s.local && k != "brandVoice" ==> r.local[k] == s.local[k]
    ensures "brandVoice" in s.local && s.local["brandVoice"].Arr? ==>
              r.local["brandVoice"] == Arr(ToggleVoice(s.local["brandVoice"].items, voice))
    ensures ("brandVoice" !in s.local || !(s.local["brandVoice"].Arr? || s.local["brandVoice"].Str?)) ==> r == s
    ensures LocalInv(s) ==> LocalInv(r)
  {
    if "brandVoice" !in s.local then s
    else match s.local["brandVoice"]
      case Arr(items) => s.(local := s.local["brandVoice" := Arr(ToggleVoice(items, voice))])
      case Str(text) =>
        if Contains(text, voice) then s
        else s.(local := s.local["brandVoice" := Arr(Characters(text) + [Str(voice)])])
      case _ => s
  }

  /** A string voice field is turned into a list of its characters plus the new voice. */
  lemma StringVoiceSpreads()
    ensures var s := SettingsState(map["brandVoice" := Str("ab")], None);
            HandleVoiceToggle(s, "Witty").local["brandVoice"] == Arr([Str("a"), Str("b"), Str("Witty")])
  {
    var r := HandleVoiceToggle(SettingsState(map["brandVoice" := Str("ab")], None), "Witty");
    assert !Contains("ab", "Witty");
    assert Characters("ab") == [Str("a"), Str("b")];
  }

  // ---- Form fields ----

  /** `handleChange`: the named field takes the typed text; nothing else changes. */
  function HandleChange(s: SettingsState, name: string, value: string): (r: SettingsState)
    ensures r.pendingOAuth == s.pendingOAuth
    ensures r.local.Keys == s.local.Keys + {name} && r.local[name] == Str(value)
    ensures forall k :: k in s.local && k != name ==> r.local[k] == s.local[k]
    ensures LocalInv(s) ==> LocalInv(r)
  {
    s.(local := s.local[name := Str(value)])
  }

  // ---- Connections ----

  /** `handleConnect`: opens the mock OAuth dialog for the platform. */
  function HandleConnect(s: SettingsState, p: Platform): (r: SettingsState)
    ensures r.pendingOAuth == Some(p) && r.local == s.local
  {
    s.(pendingOAuth := Some(p))
  }

  /** The dialog's deny button: the dialog closes and nothing is connected. */
  function HandleDeny(s: SettingsState): (r: SettingsState)
    ensures r.pendingOAuth.None? && r.local == s.local
  {
    s.(pendingOAuth := None)
  }

  /**
   * `handleDisconnect`: the store writes its own profile with the flag cleared; the local
   * copy clears the same flag and keeps its unsaved edits.
   */
  function HandleDisconnect(st: Step, p: Platform, codec: Codec, writeOk: bool): (r: Step)
    ensures r.world == UpdateConnectionStatus(st.world, p, false, codec, writeOk)
    ensures r.view.local == WithConnection(st.view.local, p, false) && !Connected(r.view.local, p)
    ensures forall q :: q != p ==> (Connected(r.view.local, q) <==> Connected(st.view.local, q))
    ensures r.view.pendingOAuth == st.view.pendingOAuth
    ensures LocalInv(st.view) ==> LocalInv(r.view)
  {
    forall q | q != p ensures ConnectionKey(q) != ConnectionKey(p) {
      ConnectionKeyInjective(p, q);
    }
    Step(UpdateConnectionStatus(st.world, p, false, codec, writeOk),
         st.view.(local := WithConnection(st.view.local, p, false)))
  }

  /**
   * `handleOAuthAllow`: with a dialog open, its platform is connected in the store and in
   * the local copy; the dialog closes either way.
   */
  function HandleOAuthAllow(st: Step, codec: Codec, writeOk: bool): (r: Step)
    ensures r.view.pendingOAuth.None?
    ensures st.view.pendingOAuth.None? ==> r.world == st.world && r.view.local == st.view.local
    ensures st.view.pendingOAuth.Some? ==>
              var p := st.view.pendingOAuth.value;
              r.world == UpdateConnectionStatus(st.world, p, true, codec, writeOk)
              && r.view.local == WithConnection(st.view.local, p, true)
    ensures LocalInv(st.view) ==> LocalInv(r.view)
  {
    match st.view.pendingOAuth
    case None => Step(st.world, st.view.(pendingOAuth := None))
    case Some(p) =>
      Step(UpdateConnectionStatus(st.world, p, true, codec, writeOk),
           SettingsState(WithConnection(st.view.local, p, true), None))
  }

  /** `handleSave`: the whole local copy becomes the store's profile when the write succeeds. */
  function HandleSave(st: Step, codec: Codec, writeOk: bool): (r: Step)
    ensures r.view == st.view
    ensures r.world == SaveBrandProfile(st.world, st.view.local, codec, writeOk)
    ensures writeOk ==> r.world.app.brandProfile == st.view.local
    ensures Inv(st.world.app) && LocalInv(st.view) ==> Inv(r.world.app)
  {
    Step(SaveBrandProfile(st.world, st.view.local, codec, writeOk), st.view)
  }

  /**
   * Connect, then allow with a working store: the platform shows as connected in the store
   * and in the local copy, the other platforms keep their state in both, and the dialog is closed.
   */
  lemma {:induction false} ConnectThenAllow(st: Step, p: Platform, codec: Codec)
    ensures var r := HandleOAuthAllow(Step(st.world, HandleConnect(st.view, p)), codec, true);
            Connected(r.world.app.brandProfile, p) && Connected(r.view.local, p) && r.view.pendingOAuth.None?
            && (forall q :: q != p ==> (Connected(r.world.app.brandProfile, q) <==> Connected(st.world.app.brandProfile, q)))
            && (forall q :: q != p ==> (Connected(r.view.local, q) <==> Connected(st.view.local, q)))
  {
    forall q | q != p ensures ConnectionKey(q) != ConnectionKey(p) {
      ConnectionKeyInjective(p, q);
    }
  }

  /**
   * The local copy updates its flag whether or not the store's write succeeded, so after a
   * failed write the two disagree on that platform.
   */
  lemma {:induction false} FailedDisconnectDiverges(st: Step, p: Platform, codec: Codec)
    requires Connected(st.world.app.brandProfile, p)
    ensures var r := HandleDisconnect(st, p, codec, false);
            Connected(r.world.app.brandProfile, p) && !Connected(r.view.local, p)
            && r.world.app.notification == Some(ProfileSaveFailed)
  {
  }

  /**
   * Connection toggles write the store's profile, not the local copy: unsaved edits to
   * other fields stay out of the store until the explicit save.
   */
  lemma {:induction false} DisconnectDoesNotSaveEdits(st: Step, p: Platform, codec: Codec, field: string)
    requires field in st.world.app.brandProfile && field != ConnectionKey(p)
    ensures HandleDisconnect(st, p, codec, true).world.app.brandProfile[field] == st.world.app.brandProfile[field]
  {
  }
}
