/**
 * The persistence adapter over `localStorage` (store/appStore.ts:133-174): a string map,
 * an abstract JSON codec, and the fail-closed loader.
 */
module Storage {
  import opened Wrappers
  import opened JsonValues
  import opened Text
  import Seeds

  /** The contents of `localStorage`. */
  type LocalStorage = map<string, string>

  /**
   * `JSON.parse` (`None` when it throws) and `JSON.stringify`; their internals are
   * not modelled.
   */
  datatype Codec = Codec(parse: string -> Option<Json>, stringify: Json -> string)

  /** The codec reads back what it wrote and never writes the empty string. */
  predicate RoundTrips(codec: Codec, v: Json) {
    codec.parse(codec.stringify(v)) == Some(v) && codec.stringify(v) != ""
  }

  /** `localStorage.setItem(key, text)`; a failed write (quota, privacy mode) changes nothing. */
  function SetItem(storage: LocalStorage, key: string, text: string, writeOk: bool): (r: LocalStorage)
    ensures writeOk ==> key in r && r[key] == text && r - {key} == storage - {key}
    ensures !writeOk ==> r == storage
  {
    if writeOk then storage[key := text] else storage
  }

  /** Own enumerable properties of an array or string, keyed "0", "1", ... as spread copies them. */
  function IndexEntries(items: seq<Json>): (m: map<string, Json>)
    ensures forall k :: k in m ==> AllDigits(k)
    ensures forall i :: 0 <= i < |items| ==> NatToString(i) in m && m[NatToString(i)] == items[i]
  {
    if |items| == 0 then map[]
    else
      var last := |items| - 1;
      assert forall i :: 0 <= i < last ==> NatToString(i) != NatToString(last) by {
        forall i | 0 <= i < last ensures NatToString(i) != NatToString(last) {
          NatToStringInjective(i, last);
        }
      }
      IndexEntries(items[..last])[NatToString(last) := items[last]]
  }

  /** The own enumerable properties that `{...v}` copies. */
  function SpreadEntries(v: Json): map<string, Json> {
    match v
    case Obj(m) => m
    case Arr(items) => IndexEntries(items)
    case Str(s) => IndexEntries(seq(|s|, i requires 0 <= i < |s| => Str([s[i]])))
    case _ => map[]
  }

  /** None of the default profile's keys is a string of digits. */
  lemma DefaultKeysAreNotIndices(k: string)
    requires k in Seeds.DefaultProfile
    ensures !AllDigits(k)
  {
    assert !IsDigit(k[0]);
  }

  /** `{ ...defaultBrandProfile, ...parsed }`. */
  function MergeOverDefaults(parsed: Json): (m: map<string, Json>)
    ensures Seeds.DefaultProfile.Keys <= m.Keys
    ensures parsed.Obj? ==> m.Keys == Seeds.DefaultProfile.Keys + parsed.fields.Keys
    ensures parsed.Obj? ==> forall k :: k in m ==>
              m[k] == if k in parsed.fields then parsed.fields[k] else Seeds.DefaultProfile[k]
    ensures !parsed.Obj? ==> forall k :: k in Seeds.DefaultProfile ==> m[k] == Seeds.DefaultProfile[k]
  {
    var spread := SpreadEntries(parsed);
    assert forall k :: k in Seeds.DefaultProfile && !parsed.Obj? ==> k !in spread by {
      forall k | k in Seeds.DefaultProfile && !parsed.Obj? ensures k !in spread {
        DefaultKeysAreNotIndices(k);
      }
    }
    Seeds.DefaultProfile + spread
  }

  /** A load: the value handed to the store and the storage after any eviction. */
  datatype Loaded = Loaded(value: Json, storage: LocalStorage)

  /**
   * `loadFromStorage(key, fallback, validator)`. An absent or empty entry yields the
   * fallback untouched; an unparsable or invalid entry is evicted and yields the
   * fallback; a valid entry is returned as parsed, merged over the defaults for the
   * brand-profile key. A `getItem` that itself throws is not part of this model.
   */
  function LoadFromStorage(storage: LocalStorage, key: string, fallback: Json,
                           validator: Json -> bool, codec: Codec): (r: Loaded)
    ensures r.storage == storage || r.storage == storage - {key}
    ensures r.storage != storage ==> key in storage
    ensures key != Seeds.BrandProfileKey ==> r.value == fallback || validator(r.value)
    ensures key !in storage || storage[key] == "" ==> r == Loaded(fallback, storage)
    ensures r.storage == storage - {key} && key in storage ==> r.value == fallback
    ensures r.value != fallback ==>
              key in storage && codec.parse(storage[key]).Some? && validator(codec.parse(storage[key]).value)
    ensures key in storage && storage[key] != "" ==>
              match codec.parse(storage[key])
              case None => r == Loaded(fallback, storage - {key})
              case Some(v) =>
                if !validator(v) then r == Loaded(fallback, storage - {key})
                else r.storage == storage
                     && r.value == (if key == Seeds.BrandProfileKey then Obj(MergeOverDefaults(v)) else v)
  {
    if key !in storage || storage[key] == "" then
      Loaded(fallback, storage)
    else
      match codec.parse(storage[key])
      case None => Loaded(fallback, storage - {key})
      case Some(parsed) =>
        if validator(parsed) then
          if key == Seeds.BrandProfileKey then Loaded(Obj(MergeOverDefaults(parsed)), storage)
          else Loaded(parsed, storage)
        else Loaded(fallback, storage - {key})
  }

  /** What a save leaves behind is loaded back unchanged (the brand profile merged over the defaults). */
  lemma {:induction false} SaveThenLoad(storage: LocalStorage, key: string, v: Json, fallback: Json,
                                        validator: Json -> bool, codec: Codec)
    requires RoundTrips(codec, v) && validator(v)
    ensures var loaded := LoadFromStorage(SetItem(storage, key, codec.stringify(v), true), key, fallback, validator, codec);
            loaded.storage == storage[key := codec.stringify(v)]
            && loaded.value == (if key == Seeds.BrandProfileKey then Obj(MergeOverDefaults(v)) else v)
  {
    var s := SetItem(storage, key, codec.stringify(v), true);
    assert s[key] == codec.stringify(v);
  }

  /** A stored value the validator rejects is evicted and replaced by the fallback. */
  lemma {:induction false} CorruptEntryEvicted(storage: LocalStorage, key: string, fallback: Json,
                                               validator: Json -> bool, codec: Codec)
    requires key in storage && storage[key] != ""
    requires codec.parse(storage[key]).None? || !validator(codec.parse(storage[key]).value)
    ensures LoadFromStorage(storage, key, fallback, validator, codec) == Loaded(fallback, storage - {key})
  {
  }
}
