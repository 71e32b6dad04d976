/**
 * `src/content/hanja.js`: Korean readings of kanji from a bundled hanja
 * dictionary, reached either directly or through the table that maps a
 * Japanese simplified form (shinjitai) to its Korean traditional form.
 */
module Hanja {
  import opened Wrappers

  /** An entry of `data/hanja.json`. */
  datatype HanjaInfo = HanjaInfo(meaning: string, reading: string)

  const HanjaUrl: string := "data/hanja.json"
  const MappingUrl: string := "data/jp_simp_to_kr_trad.json"

  /**
   * The look-up of `getHanjaInfo` once both dictionaries are loaded: the
   * character's own entry first; otherwise the entry of its traditional form
   * when the mapping has a non-empty one that the dictionary knows; otherwise null.
   */
  function Lookup(hanja: map<string, HanjaInfo>, simpToTrad: map<string, string>, c: string): (r: Option<HanjaInfo>)
    ensures c in hanja ==> r == Some(hanja[c])
    ensures c !in hanja && c in simpToTrad && simpToTrad[c] != "" && simpToTrad[c] in hanja
            ==> r == Some(hanja[simpToTrad[c]])
    ensures r.None? <==> c !in hanja && (c !in simpToTrad || simpToTrad[c] == "" || simpToTrad[c] !in hanja)
    ensures r.Some? ==> r.value in hanja.Values
  {
    if c in hanja then Some(hanja[c])
    else if c in simpToTrad && simpToTrad[c] != "" && simpToTrad[c] in hanja then Some(hanja[simpToTrad[c]])
    else None
  }

  /**
   * The module-level state of hanja.js: the two lazily loaded dictionaries,
   * the bundled files a fetch would return (`None` when the fetch or the
   * JSON parse rejects) and the log of URLs fetched.
   */
  class HanjaStore {
    const hanjaFile: Option<map<string, HanjaInfo>>
    const mappingFile: Option<map<string, string>>
    var hanjaDict: Option<map<string, HanjaInfo>>
    var simpToTrad: Option<map<string, string>>
    var fetched: seq<string>

    /**
     * A loaded dictionary is the bundled file, and a file that can be read
     * is fetched at most once: after its first fetch it stays loaded.
     */
    ghost predicate Valid()
      reads this
    {
      && (hanjaDict.Some? ==> hanjaFile.Some? && hanjaDict.value == hanjaFile.value && HanjaUrl in fetched)
      && (simpToTrad.Some? ==> mappingFile.Some? && simpToTrad.value == mappingFile.value && MappingUrl in fetched)
      && (hanjaFile.Some? && HanjaUrl in fetched ==> hanjaDict.Some?)
      && (mappingFile.Some? && MappingUrl in fetched ==> simpToTrad.Some?)
      && (hanjaFile.Some? ==> multiset(fetched)[HanjaUrl] <= 1)
      && (mappingFile.Some? ==> multiset(fetched)[MappingUrl] <= 1)
    }

    constructor (hanjaFile: Option<map<string, HanjaInfo>>, mappingFile: Option<map<string, string>>)
      ensures Valid()
      ensures this.hanjaFile == hanjaFile && this.mappingFile == mappingFile
      ensures hanjaDict.None? && simpToTrad.None? && fetched == []
    {
      this.hanjaFile := hanjaFile;
      this.mappingFile := mappingFile;
      hanjaDict := None;
      simpToTrad := None;
      fetched := [];
    }

    /** `loadJpSimpToKrTradDict()`: return the memoised table, fetching it only if it is not loaded yet. */
    method LoadJpSimpToKrTradDict() returns (r: Result<map<string, string>>)
      requires Valid()
      modifies this`simpToTrad, this`fetched
      ensures Valid()
      ensures old(simpToTrad).Some? ==> fetched == old(fetched) && simpToTrad == old(simpToTrad)
      ensures old(simpToTrad).None? ==> fetched == old(fetched) + [MappingUrl]
      ensures simpToTrad == (if old(simpToTrad).Some? then old(simpToTrad) else mappingFile)
      ensures r == (match simpToTrad case Some(m) => Ok(m) case None => Err("fetch failed"))
    {
      if simpToTrad.Some? {
        return Ok(simpToTrad.value);
      }
      fetched := fetched + [MappingUrl];
      match mappingFile
      case None =>
        r := Err("fetch failed");
      case Some(m) =>
        simpToTrad := Some(m);
        r := Ok(m);
    }

    /**
     * `loadHanjaDict()`: return the memoised dictionary; on first load also
     * make sure the simplified-to-traditional table is loaded.
     */
    method LoadHanjaDict() returns (r: Result<map<string, HanjaInfo>>)
      requires Valid()
      modifies this`hanjaDict, this`simpToTrad, this`fetched
      ensures Valid()
      ensures old(hanjaDict).Some? ==> fetched == old(fetched) && r == Ok(old(hanjaDict).value)
      ensures old(hanjaDict).None? && hanjaFile.None? ==> fetched == old(fetched) + [HanjaUrl] && r.Err?
      ensures old(hanjaDict).None? && hanjaFile.Some? ==>
                && hanjaDict == hanjaFile
                && fetched == old(fetched) + [HanjaUrl] + (if old(simpToTrad).None? then [MappingUrl] else [])
      ensures r.Ok? ==> hanjaDict == Some(r.value)
      ensures old(hanjaDict).None? && r.Ok? ==> simpToTrad.Some?
      ensures r.Err? ==> hanjaFile.None? || mappingFile.None?
      ensures old(simpToTrad).Some? ==> simpToTrad == old(simpToTrad)
    {
      if hanjaDict.Some? {
        return Ok(hanjaDict.value);
      }
      fetched := fetched + [HanjaUrl];
      match hanjaFile
      case None =>
        r := Err("fetch failed");
      case Some(h) =>
        hanjaDict := Some(h);
        var m := LoadJpSimpToKrTradDict();
        if m.Err? {
          return Err(m.error);
        }
        r := Ok(h);
    }

    /** `getHanjaInfo(char)`: load both dictionaries, then look the character up. */
    method GetHanjaInfo(c: string) returns (r: Result<Option<HanjaInfo>>)
      requires Valid()
      modifies this`hanjaDict, this`simpToTrad, this`fetched
      ensures Valid()
      ensures r.Ok? <==> hanjaFile.Some? && mappingFile.Some?
      ensures r.Ok? ==> r.value == Lookup(hanjaFile.value, mappingFile.value, c)
      ensures old(hanjaDict).Some? && old(simpToTrad).Some? ==> fetched == old(fetched)
      ensures old(hanjaDict).None? && old(simpToTrad).None? && hanjaFile.Some? ==>
                fetched == old(fetched) + [HanjaUrl, MappingUrl]
    {
      var h := LoadHanjaDict();
      if h.Err? {
        return Err(h.error);
      }
      var m := LoadJpSimpToKrTradDict();
      if m.Err? {
        return Err(m.error);
      }
      r := Ok(Lookup(h.value, m.value, c));
    }
  }

  /** Two look-ups in a row fetch each dictionary once: the second one is served from memory. */
  method RepeatedLookupFetchesOnce(store: HanjaStore, c: string, d: string)
    requires store.Valid() && store.fetched == [] && store.hanjaDict.None? && store.simpToTrad.None?
    requires store.hanjaFile.Some? && store.mappingFile.Some?
    modifies store
    ensures store.fetched == [HanjaUrl, MappingUrl]
  {
    var first := store.GetHanjaInfo(c);
    assert store.fetched == [HanjaUrl, MappingUrl];
    var second := store.GetHanjaInfo(d);
  }
}
