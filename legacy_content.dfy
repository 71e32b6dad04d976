/**
 * The legacy content script `content.js`: its Japanese-text test, the
 * 24-hour look-up cache of `loadWordInfo`, the kanji loop of
 * `fetchKanjiData`, and the save flow `saveToAnki` (duplicate pre-check,
 * then `ADD_TO_ANKI`) with the note `createAnkiNote` builds.
 *
 * The providers (jisho, OpenAI, kanjiapi) are functions from the text or
 * character to a result; the background page is a scripted function whose
 * answer to the n-th message is `respond(message, n)`.
 */
module LegacyContent {
  import opened Wrappers
  import opened Js
  import opened Utils
  import WordCache
  import Api
  import AnkiFlow

  // ---------------------------------------------------------------------
  // isJapaneseText (content.js:93-96)
  // ---------------------------------------------------------------------

  /** `/[぀-ゟ゠-ヿ一-龯]/.test(text)`: some character is kana or kanji. */
  function IsJapaneseText(t: string): (r: bool)
    ensures r <==> exists i :: 0 <= i < |t| && (IsKana(t[i]) || IsKanji(t[i]))
  {
    if t == [] then false
    else if IsKana(t[0]) || IsKanji(t[0]) then true
    else
      var rest := IsJapaneseText(t[1..]);
      assert forall i :: 1 <= i < |t| ==> t[i] == t[1..][i - 1];
      rest
  }

  /** Japanese text followed or preceded by anything is still Japanese text: the test looks for one character. */
  lemma {:induction false} JapaneseTextAppend(a: string, b: string)
    ensures IsJapaneseText(a + b) <==> IsJapaneseText(a) || IsJapaneseText(b)
  {
    if IsJapaneseText(a) {
      var i :| 0 <= i < |a| && (IsKana(a[i]) || IsKanji(a[i]));
      assert (a + b)[i] == a[i];
    }
    if IsJapaneseText(b) {
      var i :| 0 <= i < |b| && (IsKana(b[i]) || IsKanji(b[i]));
      assert (a + b)[|a| + i] == b[i];
    }
    if IsJapaneseText(a + b) {
      var i :| 0 <= i < |a + b| && (IsKana((a + b)[i]) || IsKanji((a + b)[i]));
      if i < |a| {
        assert a[i] == (a + b)[i];
      } else {
        assert b[i - |a|] == (a + b)[i];
      }
    }
  }

  /**
   * The legacy test is weaker than `isJapaneseTextOnly`: kana-only text
   * passes both, while a Latin letter next to a kanji passes only this one.
   */
  lemma ContainsIsNotOnly()
    ensures IsJapaneseText("a\U{65E5}") && !IsJapaneseTextOnly("a\U{65E5}")
    ensures forall t :: IsKanaOnly(t) ==> IsJapaneseText(t)
  {
    assert IsKanji("a\U{65E5}"[1]);
    forall t | IsKanaOnly(t)
      ensures IsJapaneseText(t)
    {
      assert IsKana(t[0]);
    }
  }

  // ---------------------------------------------------------------------
  // Settings and the note (content.js:6-22, 406-419)
  // ---------------------------------------------------------------------

  datatype FieldMapping = FieldMapping(word: string, meaning: string, reading: string, kanji: string)

  datatype Settings = Settings(
    openaiApiKey: string,
    ankiConnectUrl: string,
    deckName: string,
    noteType: string,
    fieldMapping: FieldMapping,
    cacheEnabled: bool)

  /** The settings the script starts with. */
  const Defaults: Settings :=
    Settings("", "http://localhost:8765", "Japanese", "Basic", FieldMapping("Front", "Back", "Reading", "Kanji"), true)

  /** What `getCurrentWordInfo` reads off the popup. */
  datatype WordFields = WordFields(reading: string, meaning: string, koreanMeaning: string, kanji: string)

  datatype Note = Note(deckName: string, modelName: string, fields: map<string, string>, tags: seq<string>)

  /**
   * `createAnkiNote(text, wordInfo)`: the four mapped fields assigned in
   * order (a later one overwrites an earlier one of the same name), the
   * Korean meaning appended after `<br>` only when present, deck and model
   * taken from the settings.
   */
  function CreateAnkiNote(text: string, info: WordFields, s: Settings): (n: Note)
    ensures n.deckName == s.deckName && n.modelName == s.noteType && n.tags == ["drag2anki"]
    ensures var fm := s.fieldMapping; n.fields.Keys == {fm.word, fm.meaning, fm.reading, fm.kanji}
    ensures n.fields[s.fieldMapping.kanji] == info.kanji
    ensures s.fieldMapping.reading != s.fieldMapping.kanji ==> n.fields[s.fieldMapping.reading] == info.reading
    ensures var fm := s.fieldMapping;
            fm.meaning != fm.reading && fm.meaning != fm.kanji ==>
              n.fields[fm.meaning] == info.meaning + (if info.koreanMeaning != "" then "<br>" + info.koreanMeaning else "")
    ensures var fm := s.fieldMapping;
            fm.word != fm.meaning && fm.word != fm.reading && fm.word != fm.kanji ==> n.fields[fm.word] == text
  {
    var fm := s.fieldMapping;
    var meaning := info.meaning + (if info.koreanMeaning != "" then "<br>" + info.koreanMeaning else "");
    var fields := map[fm.word := text][fm.meaning := meaning][fm.reading := info.reading][fm.kanji := info.kanji];
    Note(s.deckName, s.noteType, fields, ["drag2anki"])
  }

  /** The meaning field holds the plain meaning exactly when there is no Korean meaning to append. */
  lemma KoreanMeaningAppended(text: string, info: WordFields, s: Settings)
    requires var fm := s.fieldMapping; fm.meaning != fm.reading && fm.meaning != fm.kanji
    ensures CreateAnkiNote(text, info, s).fields[s.fieldMapping.meaning] == info.meaning <==> info.koreanMeaning == ""
  {
    var v := CreateAnkiNote(text, info, s).fields[s.fieldMapping.meaning];
    if info.koreanMeaning != "" {
      assert |v| == |info.meaning| + 4 + |info.koreanMeaning|;
    }
  }

  // ---------------------------------------------------------------------
  // fetchKanjiData (content.js:258-273)
  // ---------------------------------------------------------------------

  /** The answers kept from fetching each kanji in turn: the ones that did not throw, in order. */
  function Collected(fetch: char -> Result<JsValue>, ks: seq<char>): (r: seq<JsValue>)
    ensures |r| <= |ks|
  {
    if ks == [] then []
    else
      var last := fetch(ks[|ks| - 1]);
      Collected(fetch, ks[..|ks| - 1]) + (if last.Ok? then [last.value] else [])
  }

  /** Every answer kept is the answer for one of the kanji. */
  lemma {:induction false} CollectedFromFetches(fetch: char -> Result<JsValue>, ks: seq<char>)
    ensures forall v :: v in Collected(fetch, ks) ==> exists i :: 0 <= i < |ks| && fetch(ks[i]) == Ok(v)
  {
    if ks != [] {
      var init := ks[..|ks| - 1];
      CollectedFromFetches(fetch, init);
      forall v | v in Collected(fetch, ks)
        ensures exists i :: 0 <= i < |ks| && fetch(ks[i]) == Ok(v)
      {
        if v in Collected(fetch, init) {
          var i :| 0 <= i < |init| && fetch(init[i]) == Ok(v);
          assert ks[i] == init[i];
        } else {
          assert fetch(ks[|ks| - 1]) == Ok(v);
        }
      }
    }
  }

  /** Nothing is skipped when no fetch throws: one answer per kanji. */
  lemma {:induction false} CollectedAllAnswered(fetch: char -> Result<JsValue>, ks: seq<char>)
    requires forall i :: 0 <= i < |ks| ==> fetch(ks[i]).Ok?
    ensures |Collected(fetch, ks)| == |ks|
  {
    if ks != [] {
      CollectedAllAnswered(fetch, ks[..|ks| - 1]);
    }
  }

  // ---------------------------------------------------------------------
  // The save flow (content.js:349-435)
  // ---------------------------------------------------------------------

  datatype Message = CheckDuplicate(url: string, query: string) | AddToAnki(url: string, note: Note)

  datatype Outcome = SaveSuccess | SaveError(message: string)

  const AlreadySaved: string := "이미 Anki에 저장된 단어입니다."
  const SaveFailed: string := "카드 저장에 실패했습니다."
  const ConnectionFailed: string := "Anki 연결에 실패했습니다."

  /** The `findNotes` query of `checkDuplicate`: the deck and the word field holding `text`. */
  function DuplicateQuery(s: Settings, text: string): string
  {
    "deck:\"" + s.deckName + "\" " + s.fieldMapping.word + ":\"" + text + "\""
  }

  /** `duplicateCheck.length > 0` for a value that has a length; `null` and `undefined` throw instead. */
  predicate LengthAboveZero(v: JsValue)
  {
    match v
    case Arr(items) => |items| > 0
    case Str(s) => |s| > 0
    case Obj(_) => Prop(v, "length").Num? && Prop(v, "length").n > 0
    case _ => false
  }

  /** `wordInfo` of `loadWordInfo`: one slot per provider, each through `safeValue`. */
  datatype WordInfo = WordInfo(jisho: Option<JsValue>, translation: Option<JsValue>, kanji: Option<JsValue>)

  /** The providers behind `fetchJishoData`, `fetchTranslation` (with a key) and kanjiapi. */
  datatype Providers = Providers(
    jisho: string -> Result<JsValue>,
    translate: string -> Result<JsValue>,
    kanjiApi: char -> Result<JsValue>)

  /** `fetchTranslation`: `null` without an OpenAI key, the provider's answer with one. */
  function Translation(p: Providers, s: Settings, text: string): (r: Utils.Settled)
    ensures s.openaiApiKey == "" ==> SafeValue(Some(r)).None?
  {
    if s.openaiApiKey == "" then Fulfilled(Null) else Api.Settle(p.translate(text))
  }

  /** The state of the legacy content script. */
  class ContentScript {
    var settings: Settings
    var cache: map<string, WordCache.Entry<WordInfo>>
    var displayed: seq<WordInfo>
    var sent: seq<Message>
    var outcomes: seq<Outcome>
    const providers: Providers
    const respond: (Message, nat) -> JsValue

    constructor (providers: Providers, respond: (Message, nat) -> JsValue)
      ensures settings == Defaults && cache == map[] && displayed == [] && sent == [] && outcomes == []
      ensures this.providers == providers && this.respond == respond
    {
      this.providers := providers;
      this.respond := respond;
      settings := Defaults;
      cache := map[];
      displayed := [];
      sent := [];
      outcomes := [];
    }

    /** `fetchKanjiData(text)`: each kanji of the text fetched in turn, a throwing fetch skipped. */
    method FetchKanjiData(text: string) returns (kanjiData: seq<JsValue>)
      ensures kanjiData == Collected(providers.kanjiApi, Api.KanjiOf(text))
    {
      var kanjiList := Api.KanjiOf(text);
      kanjiData := [];
      for i := 0 to |kanjiList|
        invariant kanjiData == Collected(providers.kanjiApi, kanjiList[..i])
      {
        assert kanjiList[..i + 1][..i] == kanjiList[..i];
        var answer := providers.kanjiApi(kanjiList[i]);
        if answer.Ok? {
          kanjiData := kanjiData + [answer.value];
        }
      }
      assert kanjiList[..|kanjiList|] == kanjiList;
    }

    /** The word information fetched afresh for `text` under settings `s`. */
    function Fetched(s: Settings, text: string): WordInfo
    {
      WordInfo(SafeValue(Some(Api.Settle(providers.jisho(text)))),
        SafeValue(Some(Translation(providers, s, text))),
        SafeValue(Some(Fulfilled(Arr(Collected(providers.kanjiApi, Api.KanjiOf(text)))))))
    }

    /**
     * `loadWordInfo(text)`, where `now` is the clock at the freshness check
     * and `storedAt` the clock read again after the providers: a cache entry
     * younger than 24 hours is shown when caching is on; otherwise the
     * providers are asked, the result is shown and, when caching is on,
     * stored with `storedAt`.
     */
    method LoadWordInfo(text: string, now: int, storedAt: int)
      modifies this`cache, this`displayed
      ensures var hit := WordCache.Fresh(old(cache), text, now, settings.cacheEnabled);
              hit.Some? ==> displayed == old(displayed) + [hit.value] && cache == old(cache)
      ensures var hit := WordCache.Fresh(old(cache), text, now, settings.cacheEnabled);
              hit.None? ==>
                && displayed == old(displayed) + [Fetched(settings, text)]
                && cache == WordCache.Store(old(cache), text, Fetched(settings, text), storedAt, settings.cacheEnabled)
    {
      var hit := WordCache.Fresh(cache, text, now, settings.cacheEnabled);
      var wordInfo;
      if hit.Some? {
        wordInfo := hit.value;
      } else {
        var kanjiData := FetchKanjiData(text);
        wordInfo := WordInfo(SafeValue(Some(Api.Settle(providers.jisho(text)))),
          SafeValue(Some(Translation(providers, settings, text))),
          SafeValue(Some(Fulfilled(Arr(kanjiData)))));
        cache := WordCache.Store(cache, text, wordInfo, storedAt, settings.cacheEnabled);
      }
      displayed := displayed + [wordInfo];
    }

    /** The kanji slot of fetched word information is never empty: `fetchKanjiData` itself never throws. */
    lemma KanjiSlotAlwaysFilled(s: Settings, text: string)
      ensures Fetched(s, text).kanji == Some(Arr(Collected(providers.kanjiApi, Api.KanjiOf(text))))
      ensures s.openaiApiKey == "" ==> Fetched(s, text).translation.None?
    {
      var v := Arr(Collected(providers.kanjiApi, Api.KanjiOf(text)));
      assert Truthy(v) && Prop(v, "error") == Undefined;
    }

    /** The outcome and the messages of `saveToAnki(text)` after the messages `h`. */
    function SaveRun(s: Settings, text: string, info: WordFields, h: seq<Message>): (Outcome, seq<Message>)
    {
      var check := CheckDuplicate(s.ankiConnectUrl, DuplicateQuery(s, text));
      var found := AnkiFlow.Answer(respond(check, |h|), "result", AnkiFlow.DuplicateCheckError);
      if found.Rejected? || found.value.Null? || found.value.Undefined? then (SaveError(ConnectionFailed), [check])
      else if LengthAboveZero(found.value) then (SaveError(AlreadySaved), [check])
      else
        var add := AddToAnki(s.ankiConnectUrl, CreateAnkiNote(text, info, s));
        var added := AnkiFlow.Answer(respond(add, |h| + 1), "result", AnkiFlow.AddError);
        (if added.Rejected? then SaveError(ConnectionFailed)
         else if Truthy(added.value) then SaveSuccess
         else SaveError(SaveFailed), [check, add])
    }

    /**
     * `saveToAnki(text)` with the popup's fields `info`: the duplicate
     * check, then the note added only when no note was found.
     */
    method SaveToAnki(text: string, info: WordFields)
      modifies this`sent, this`outcomes
      ensures var r := SaveRun(settings, text, info, old(sent));
              sent == old(sent) + r.1 && outcomes == old(outcomes) + [r.0]
    {
      var check := CheckDuplicate(settings.ankiConnectUrl, DuplicateQuery(settings, text));
      var found := AnkiFlow.Answer(respond(check, |sent|), "result", AnkiFlow.DuplicateCheckError);
      sent := sent + [check];
      if found.Rejected? || found.value.Null? || found.value.Undefined? {
        outcomes := outcomes + [SaveError(ConnectionFailed)];
        return;
      }
      if LengthAboveZero(found.value) {
        outcomes := outcomes + [SaveError(AlreadySaved)];
        return;
      }
      var add := AddToAnki(settings.ankiConnectUrl, CreateAnkiNote(text, info, settings));
      var added := AnkiFlow.Answer(respond(add, |sent|), "result", AnkiFlow.AddError);
      sent := sent + [add];
      if added.Rejected? {
        outcomes := outcomes + [SaveError(ConnectionFailed)];
      } else if Truthy(added.value) {
        outcomes := outcomes + [SaveSuccess];
      } else {
        outcomes := outcomes + [SaveError(SaveFailed)];
      }
    }

    /**
     * A note is added only after a check that found nothing, and then it
     * is the note built from the settings; a check that found a note ends
     * the save with "already saved".
     */
    lemma AddOnlyAfterCleanCheck(s: Settings, text: string, info: WordFields, h: seq<Message>)
      ensures var r := SaveRun(s, text, info, h);
              var found := AnkiFlow.Answer(respond(r.1[0], |h|), "result", AnkiFlow.DuplicateCheckError);
              && r.1[0] == CheckDuplicate(s.ankiConnectUrl, DuplicateQuery(s, text))
              && (|r.1| == 2 <==> found.Resolved? && !found.value.Null? && !found.value.Undefined? && !LengthAboveZero(found.value))
              && (|r.1| == 2 ==> r.1[1] == AddToAnki(s.ankiConnectUrl, CreateAnkiNote(text, info, s)))
              && (found.Resolved? && LengthAboveZero(found.value) ==> r == (SaveError(AlreadySaved), [CheckDuplicate(s.ankiConnectUrl, DuplicateQuery(s, text))]))
    {
    }

    /** The save succeeds exactly when a note was added and the background answered with a truthy id. */
    lemma SuccessIffAdded(s: Settings, text: string, info: WordFields, h: seq<Message>)
      ensures var r := SaveRun(s, text, info, h);
              r.0 == SaveSuccess <==>
                |r.1| == 2 && AnkiFlow.Succeeded(respond(r.1[1], |h| + 1)) && Truthy(Prop(respond(r.1[1], |h| + 1), "result"))
    {
    }
  }
}
