/**
 * `src/content/settings.js`: the content script's settings object, its
 * defaults, and the merge applied when settings are loaded from or changed
 * in synced storage. The stored `fieldMapping` and `noteType` are ignored
 * when truthy, so the defaults for those two keys stay in force.
 */
module Settings {
  import opened Wrappers
  import opened Js

  const DefaultFieldMapping: JsValue := Obj(map[
    "word" := Str("Front"),
    "meaning" := Str("Back"),
    "reading" := Str("Reading"),
    "kanji" := Str("Kanji")
  ])

  /** The initial value of the exported `settings`. */
  const Defaults: map<string, JsValue> := map[
    "ankiConnectUrl" := Str("http://localhost:8765"),
    "deckName" := Str("Japanese"),
    "noteType" := Str("Basic"),
    "fieldMapping" := DefaultFieldMapping,
    "darkMode" := Bool(false),
    "googleSearchTranslate" := Bool(false),
    "cacheEnabled" := Bool(true)
  ]

  /** The two keys a stored value may not override while it is truthy. */
  predicate IsLocked(k: string)
  {
    k == "fieldMapping" || k == "noteType"
  }

  /**
   * The copy of the stored object after `if (o.fieldMapping) delete
   * o.fieldMapping` and `if (o.noteType) delete o.noteType`.
   */
  function StripLocked(o: map<string, JsValue>): (r: map<string, JsValue>)
    ensures forall k :: k in r <==> k in o && !(IsLocked(k) && Truthy(o[k]))
    ensures forall k :: k in r ==> r[k] == o[k]
  {
    map k | k in o && !(IsLocked(k) && Truthy(o[k])) :: o[k]
  }

  /** `settings = { ...settings, ...stripped }`. */
  function Merge(current: map<string, JsValue>, stored: map<string, JsValue>): (r: map<string, JsValue>)
  {
    Spread(current, StripLocked(stored))
  }

  /** A truthy stored `fieldMapping` or `noteType` is discarded: the current value (or its absence) survives. */
  lemma MergeKeepsLockedKey(current: map<string, JsValue>, stored: map<string, JsValue>, k: string)
    requires IsLocked(k) && k in stored && Truthy(stored[k])
    ensures k in Merge(current, stored) <==> k in current
    ensures k in current ==> Merge(current, stored)[k] == current[k]
  {
  }

  /** Only truthy values are stripped: a falsy stored `noteType` such as `''` does override. */
  lemma MergeFalsyLockedOverrides(current: map<string, JsValue>, stored: map<string, JsValue>, k: string)
    requires IsLocked(k) && k in stored && !Truthy(stored[k])
    ensures k in Merge(current, stored) && Merge(current, stored)[k] == stored[k]
  {
  }

  /** A key absent from the stored object keeps its value. */
  lemma MergeKeepsAbsentKey(current: map<string, JsValue>, stored: map<string, JsValue>, k: string)
    requires k !in stored
    ensures k in Merge(current, stored) <==> k in current
    ensures k in current ==> Merge(current, stored)[k] == current[k]
  {
  }

  /** Every other stored key overrides. */
  lemma MergeOverridesOtherKey(current: map<string, JsValue>, stored: map<string, JsValue>, k: string)
    requires !IsLocked(k) && k in stored
    ensures k in Merge(current, stored) && Merge(current, stored)[k] == stored[k]
  {
  }

  /** Merging the same stored object twice has the effect of merging it once. */
  lemma MergeIdempotent(current: map<string, JsValue>, stored: map<string, JsValue>)
    ensures Merge(Merge(current, stored), stored) == Merge(current, stored)
  {
  }

  /**
   * What the two comments in the source promise, in the form the code keeps
   * it: the note type is still `Basic` and the field mapping still the
   * default, unless a falsy stored value replaced them.
   */
  predicate LockedKeysKept(s: map<string, JsValue>)
  {
    && "noteType" in s && (s["noteType"] == Str("Basic") || !Truthy(s["noteType"]))
    && "fieldMapping" in s && (s["fieldMapping"] == DefaultFieldMapping || !Truthy(s["fieldMapping"]))
  }

  lemma DefaultsKeepLockedKeys()
    ensures LockedKeysKept(Defaults)
  {
  }

  /** Every merge preserves LockedKeysKept. */
  lemma MergePreservesLockedKeys(current: map<string, JsValue>, stored: map<string, JsValue>)
    requires LockedKeysKept(current)
    ensures LockedKeysKept(Merge(current, stored))
  {
  }

  /** The module-level `settings` binding. */
  class SettingsStore {
    var settings: map<string, JsValue>

    ghost predicate Valid()
      reads this
    {
      LockedKeysKept(settings)
    }

    constructor ()
      ensures Valid() && settings == Defaults
    {
      settings := Defaults;
    }

    /**
     * `loadSettings()`: `stored` is the object kept under
     * `drag2anki_settings`, `None` when there is none. Always resolves with
     * the settings in force afterwards.
     */
    method LoadSettings(stored: Option<map<string, JsValue>>) returns (r: map<string, JsValue>)
      requires Valid()
      modifies this`settings
      ensures Valid()
      ensures settings == (if stored.Some? then Merge(old(settings), stored.value) else old(settings))
      ensures r == settings
    {
      if stored.Some? {
        MergePreservesLockedKeys(settings, stored.value);
        settings := Merge(settings, stored.value);
      }
      r := settings;
    }

    /**
     * The `chrome.storage.onChanged` listener: `changed` tells whether
     * `drag2anki_settings` is among the changes, `newValue` is its new value
     * (`None` for `undefined`, which spreads to `{}`).
     */
    method OnChanged(area: string, changed: bool, newValue: Option<map<string, JsValue>>)
      requires Valid()
      modifies this`settings
      ensures Valid()
      ensures settings == (if area == "sync" && changed then Merge(old(settings), newValue.GetOr(map[]))
                           else old(settings))
    {
      if area == "sync" && changed {
        var incoming := newValue.GetOr(map[]);
        MergePreservesLockedKeys(settings, incoming);
        settings := Merge(settings, incoming);
      }
    }
  }
}
