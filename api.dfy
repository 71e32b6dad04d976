/**
 * `src/content/api.js`: the look-up pipeline behind the popup. For a text it
 * gathers a dictionary entry (Jisho), a Korean meaning with a hiragana
 * reading (database, LLM or DeepL) and per-kanji data (database, kanjiapi,
 * hanja dictionary, LLM, placeholder), and caches the combined result for
 * 24 hours.
 *
 * Every external service is a field of `Providers`: a function from its
 * input to `Ok(answer)` or `Err(reason)` for a rejected promise. The shared
 * Firestore database is the value `Db`, threaded through the pipeline so
 * that a read sees the writes made before it.
 */
module Api {
  import opened Wrappers
  import opened Js
  import opened Utils
  import Strings
  import Hanja
  import WordCache

  // ---------------------------------------------------------------------
  // External services
  // ---------------------------------------------------------------------

  datatype Providers = Providers(
    /** `tokenize(text)` (not defined in the modelled utilities). */
    tokenize: string -> Result<seq<string>>,
    /** `isSingleWord(tokens)` (not defined in the modelled utilities). */
    isSingleWord: seq<string> -> bool,
    /** Kuroshiro's conversion to hiragana, including its lazy initialisation. */
    furigana: string -> Result<string>,
    /** The chat-completion request: `choices[0].message.content || ''`. */
    llm: string -> Result<string>,
    /** The DeepL request: `translations[0].text`, or `''` when absent. */
    deepl: string -> Result<string>,
    /** `kanjiapi.dev`: the parsed JSON object. */
    kanjiApi: string -> Result<map<string, JsValue>>,
    /** `fetchJishoData(text)`: `data.data[0] || null`. */
    jisho: string -> Result<JsValue>
  )

  /** A word document: `{ reading, meaning }`. */
  datatype WordRecord = WordRecord(reading: string, meaning: string)

  /** One entry of `fetchKanjiData`: the kanjiapi object with its `korean` property set. */
  datatype KanjiData = KanjiData(api: map<string, JsValue>, korean: Hanja.HanjaInfo)

  /**
   * The Firestore collections `words` and `kanji`. `wordsUp` (`kanjiUp`) is
   * false when the word (kanji) functions cannot reach the database: every
   * read then gives nothing and every write is lost, since the callers
   * catch every error. The word functions `api.js` imports from
   * `./firebase` are not exported there, so in the code as written every
   * call throws and `wordsUp` is false.
   */
  datatype Db = Db(wordsUp: bool, kanjiUp: bool, words: map<string, WordRecord>, kanji: map<string, KanjiData>)

  /** `getWordFromDB(text)`. */
  function GetWord(db: Db, text: string): (r: Option<WordRecord>)
    ensures r.Some? <==> db.wordsUp && text in db.words
  {
    if db.wordsUp && text in db.words then Some(db.words[text]) else None
  }

  /** `setWordToDB(text, rec)`. */
  function SetWord(db: Db, text: string, rec: WordRecord): (r: Db)
    ensures r.wordsUp == db.wordsUp && r.kanjiUp == db.kanjiUp && r.kanji == db.kanji
    ensures GetWord(r, text) == if db.wordsUp then Some(rec) else None
    ensures forall t :: t != text ==> GetWord(r, t) == GetWord(db, t)
  {
    if db.wordsUp then db.(words := db.words[text := rec]) else db
  }

  /** `getKanjiFromDB(kanji)`. */
  function GetKanji(db: Db, k: string): (r: Option<KanjiData>)
    ensures r.Some? <==> db.kanjiUp && k in db.kanji
  {
    if db.kanjiUp && k in db.kanji then Some(db.kanji[k]) else None
  }

  /** `setKanjiToDB(kanji, data)`. */
  function SetKanji(db: Db, k: string, data: KanjiData): (r: Db)
    ensures r.wordsUp == db.wordsUp && r.kanjiUp == db.kanjiUp && r.words == db.words
    ensures GetKanji(r, k) == if db.kanjiUp then Some(data) else None
    ensures forall t :: t != k ==> GetKanji(r, t) == GetKanji(db, t)
  {
    if db.kanjiUp then db.(kanji := db.kanji[k := data]) else db
  }

  /** The calls the pipeline makes, in the order it makes them. */
  datatype Call =
    | Tokenize(text: string)
    | Furigana(text: string)
    | GetWordDb(text: string)
    | Llm(text: string)
    | SetWordDb(text: string, rec: WordRecord)
    | DeepL(text: string)

  // ---------------------------------------------------------------------
  // Reading and meaning
  // ---------------------------------------------------------------------

  /** `generateFurigana(text)`: the hiragana reading, or `''` whenever anything fails. */
  function GenerateFurigana(p: Providers, text: string): (r: string)
    ensures p.furigana(text).Err? ==> r == ""
    ensures p.furigana(text).Ok? ==> r == p.furigana(text).value
  {
    match p.furigana(text)
    case Ok(s) => s
    case Err(_) => ""
  }

  const MeaningLabel: string := "뜻:"

  /**
   * The parse of `callLLMForWordMeaning`: `content.match(/뜻:\s*([\s\S]*)/)`
   * takes everything after the first label, which is then trimmed; without a
   * label the content is returned as it is.
   */
  function ParseLLMMeaning(content: string): (r: string)
  {
    match Strings.IndexOf(content, MeaningLabel)
    case Some(i) => Strings.Trim(content[i + |MeaningLabel|..])
    case None => content
  }

  /** The meaning after the first label is returned trimmed, whatever precedes the label. */
  lemma ParseLLMMeaningAfterLabel(before: string, after: string)
    requires !Strings.Contains(before, MeaningLabel)
    ensures ParseLLMMeaning(before + MeaningLabel + after) == Strings.Trim(after)
  {
    var s := before + MeaningLabel + after;
    assert Strings.OccursAt(s, MeaningLabel, |before|);
    forall j | 0 <= j < |before|
      ensures !Strings.OccursAt(s, MeaningLabel, j)
    {
      if j + 1 < |before| {
        assert s[j..j + 2] == before[j..j + 2];
        assert !Strings.OccursAt(before, MeaningLabel, j);
      } else {
        assert s[j + 1] == MeaningLabel[0] != MeaningLabel[1];
      }
    }
    var i := Strings.IndexOf(s, MeaningLabel);
    assert i == Some(|before|);
    assert s[|before| + |MeaningLabel|..] == after;
  }

  /** Content without the label is the meaning itself. */
  lemma ParseLLMMeaningWithoutLabel(content: string)
    requires !Strings.Contains(content, MeaningLabel)
    ensures ParseLLMMeaning(content) == content
  {
    Strings.ContainsIffIndexOf(content, MeaningLabel);
  }

  /** A labelled answer in the format the prompt asks for gives back its meaning. */
  lemma ParseLLMMeaningRoundTrip(meaning: string)
    requires meaning == [] || (!Strings.IsWhitespace(meaning[0]) && !Strings.IsWhitespace(meaning[|meaning| - 1]))
    ensures ParseLLMMeaning(MeaningLabel + "\n" + meaning) == meaning
  {
    var after := "\n" + meaning;
    assert !Strings.Contains([], MeaningLabel);
    ParseLLMMeaningAfterLabel([], after);
    assert [] + MeaningLabel + after == MeaningLabel + "\n" + meaning;
    TrimAfterNewline(meaning);
  }

  /** Helper: the newline after the label is trimmed away. */
  lemma TrimAfterNewline(meaning: string)
    requires meaning == [] || (!Strings.IsWhitespace(meaning[0]) && !Strings.IsWhitespace(meaning[|meaning| - 1]))
    ensures Strings.Trim("\n" + meaning) == meaning
  {
    var after := "\n" + meaning;
    assert after[1..] == meaning;
    assert Strings.TrimStart(after) == Strings.TrimStart(meaning) == meaning;
    Strings.TrimOfTrimmed(meaning);
  }

  /** `callLLMForWordMeaning(text)`: the parsed answer, or the rejection. */
  function CallLLMForWordMeaning(p: Providers, text: string): (r: Result<string>)
    ensures r.Ok? <==> p.llm(text).Ok?
    ensures r.Ok? ==> r.value == ParseLLMMeaning(p.llm(text).value)
  {
    match p.llm(text)
    case Ok(content) => Ok(ParseLLMMeaning(content))
    case Err(e) => Err(e)
  }

  /** The object `fetchLLMMeaning` resolves with. */
  datatype LLMMeaning = LLMMeaning(reading: string, meaning: string)

  /** A run of `fetchLLMMeaning`: its outcome, the database afterwards and the calls made. */
  datatype LLMRun = LLMRun(result: Result<LLMMeaning>, db: Db, calls: seq<Call>)

  /** The sentence branch's meaning: DeepL's translation, or the LLM's when DeepL threw or gave `''`. */
  function SentenceMeaning(p: Providers, text: string): (r: string)
  {
    var translated := match p.deepl(text) case Ok(t) => t case Err(_) => "";
    if translated != "" then translated
    else match CallLLMForWordMeaning(p, text) case Ok(m) => m case Err(_) => ""
  }

  /** The word branch's meaning on a database miss: the LLM's, or `''` when it threw. */
  function WordMeaning(p: Providers, text: string): (r: string)
  {
    match CallLLMForWordMeaning(p, text) case Ok(m) => m case Err(_) => ""
  }

  /**
   * `fetchLLMMeaning(text)`: tokenize (a rejection propagates), always
   * generate the reading, then either the word branch (database, else LLM
   * and a database write) or the sentence branch (DeepL, else LLM).
   */
  function FetchLLMMeaning(p: Providers, db: Db, text: string): (run: LLMRun)
    ensures run.result.Err? <==> p.tokenize(text).Err?
    ensures run.result.Err? ==> run.calls == [Tokenize(text)] && run.db == db
    ensures run.result.Ok? ==> |run.calls| >= 3 && run.calls[..2] == [Tokenize(text), Furigana(text)]
    ensures run.result.Ok? ==> run.result.value.reading in {GenerateFurigana(p, text)} + WordReadings(db)
  {
    match p.tokenize(text)
    case Err(e) => LLMRun(Err(e), db, [Tokenize(text)])
    case Ok(tokens) =>
      var reading := GenerateFurigana(p, text);
      var pre := [Tokenize(text), Furigana(text)];
      if p.isSingleWord(tokens) then
        match GetWord(db, text)
        case Some(rec) =>
          var r := if rec.reading != "" then rec.reading else reading;
          assert rec in db.words.Values;
          LLMRun(Ok(LLMMeaning(r, rec.meaning)), db, pre + [GetWordDb(text)])
        case None =>
          var meaning := WordMeaning(p, text);
          var rec := WordRecord(reading, meaning);
          LLMRun(Ok(LLMMeaning(reading, meaning)), SetWord(db, text, rec),
                 pre + [GetWordDb(text), Llm(text), SetWordDb(text, rec)])
      else
        var translated := match p.deepl(text) case Ok(t) => t case Err(_) => "";
        var calls := pre + [DeepL(text)] + (if translated != "" then [] else [Llm(text)]);
        LLMRun(Ok(LLMMeaning(reading, SentenceMeaning(p, text))), db, calls)
  }

  /** The non-empty readings stored in the word collection. */
  function WordReadings(db: Db): (r: set<string>)
    ensures forall rec :: rec in db.words.Values && rec.reading != "" ==> rec.reading in r
  {
    set rec | rec in db.words.Values && rec.reading != "" :: rec.reading
  }

  /** Whether the tokens of `text` make it a single word. */
  predicate IsWord(p: Providers, text: string)
    requires p.tokenize(text).Ok?
  {
    p.isSingleWord(p.tokenize(text).value)
  }

  /**
   * The LLM is asked exactly when a word is missing from the database, or a
   * sentence's DeepL translation threw or came back empty.
   */
  lemma LLMCalledOnlyAsFallback(p: Providers, db: Db, text: string)
    requires p.tokenize(text).Ok?
    ensures var run := FetchLLMMeaning(p, db, text);
            Llm(text) in run.calls <==>
              if IsWord(p, text) then GetWord(db, text).None?
              else p.deepl(text).Err? || p.deepl(text).value == ""
  {
  }

  /**
   * Only a word missing from the database is written to it. On such a miss
   * the run returns the generated reading with the LLM's parsed answer, or
   * `''` when the LLM threw, and writes exactly that record.
   */
  lemma DbWrittenOnlyOnWordMiss(p: Providers, db: Db, text: string)
    requires p.tokenize(text).Ok?
    ensures var run := FetchLLMMeaning(p, db, text);
            && (run.db != db ==> IsWord(p, text) && GetWord(db, text).None?)
            && (IsWord(p, text) && GetWord(db, text).None? ==>
                  var meaning := if p.llm(text).Ok? then ParseLLMMeaning(p.llm(text).value) else "";
                  && run.result == Ok(LLMMeaning(GenerateFurigana(p, text), meaning))
                  && run.db == SetWord(db, text, WordRecord(GenerateFurigana(p, text), meaning)))
  {
  }

  /** A database hit returns the stored meaning, with the stored reading unless it is empty, and asks no LLM. */
  lemma WordDbHit(p: Providers, db: Db, text: string)
    requires p.tokenize(text).Ok? && IsWord(p, text) && GetWord(db, text).Some?
    ensures var run := FetchLLMMeaning(p, db, text);
            var rec := GetWord(db, text).value;
            && run.result == Ok(LLMMeaning(if rec.reading != "" then rec.reading else GenerateFurigana(p, text), rec.meaning))
            && run.db == db
  {
  }

  /**
   * A word looked up once with the database reachable is served from the
   * database the second time, with the same answer and without the LLM.
   */
  lemma {:induction false} SecondWordLookupHitsDb(p: Providers, db: Db, text: string)
    requires db.wordsUp && p.tokenize(text).Ok? && IsWord(p, text)
    ensures var first := FetchLLMMeaning(p, db, text);
            var second := FetchLLMMeaning(p, first.db, text);
            && second.result == first.result
            && Llm(text) !in second.calls
            && second.db == first.db
  {
    var first := FetchLLMMeaning(p, db, text);
    if GetWord(db, text).None? {
      assert GetWord(first.db, text) == Some(WordRecord(first.result.value.reading, first.result.value.meaning));
    }
  }

  /**
   * The word branch as written: `getWordFromDB` and `setWordToDB` are not
   * exported by `./firebase`, so each call throws and is caught. Every
   * single word then asks the LLM, returns the generated reading with the
   * LLM's answer (or `''`), and stores nothing.
   */
  lemma WordStoreUnreachable(p: Providers, db: Db, text: string)
    requires !db.wordsUp && p.tokenize(text).Ok? && IsWord(p, text)
    ensures var run := FetchLLMMeaning(p, db, text);
            && Llm(text) in run.calls
            && run.result == Ok(LLMMeaning(GenerateFurigana(p, text),
                                           if p.llm(text).Ok? then ParseLLMMeaning(p.llm(text).value) else ""))
            && run.db == db
  {
  }

  /**
   * As written, a word looked up twice asks the LLM both times: the first
   * lookup stores nothing the second can find.
   */
  lemma {:induction false} SecondWordLookupAsksLLMAgain(p: Providers, db: Db, text: string)
    requires !db.wordsUp && p.tokenize(text).Ok? && IsWord(p, text)
    ensures var first := FetchLLMMeaning(p, db, text);
            var second := FetchLLMMeaning(p, first.db, text);
            && Llm(text) in first.calls
            && Llm(text) in second.calls
  {
    WordStoreUnreachable(p, db, text);
    WordStoreUnreachable(p, FetchLLMMeaning(p, db, text).db, text);
  }

  /**
   * As written, `tokenize` and `isSingleWord` are imported from the
   * utilities module, which does not define them: calling `tokenize` throws,
   * so every lookup rejects before the reading is generated, and neither
   * the database nor the LLM is asked.
   */
  lemma LookupWithoutTokenizerRejects(p: Providers, db: Db, text: string)
    requires forall t :: p.tokenize(t).Err?
    ensures var run := FetchLLMMeaning(p, db, text);
            && run.result.Err?
            && run.calls == [Tokenize(text)]
            && Llm(text) !in run.calls
            && run.db == db
  {
  }

  /** A sentence gets DeepL's translation when it is non-empty, and the LLM's answer (or `''`) otherwise. */
  lemma SentenceFallback(p: Providers, db: Db, text: string)
    requires p.tokenize(text).Ok? && !IsWord(p, text)
    ensures var run := FetchLLMMeaning(p, db, text);
            && run.db == db
            && run.result.value.reading == GenerateFurigana(p, text)
            && (p.deepl(text).Ok? && p.deepl(text).value != "" ==> run.result.value.meaning == p.deepl(text).value)
            && (p.deepl(text).Err? || p.deepl(text).value == "" ==>
                  run.result.value.meaning == (if p.llm(text).Ok? then ParseLLMMeaning(p.llm(text).value) else ""))
  {
  }

  // ---------------------------------------------------------------------
  // Kanji
  // ---------------------------------------------------------------------

  /** `text.match(/[一-龯]/g) || []`: the kanji of `text`, in order. */
  function KanjiOf(text: string): (ks: seq<char>)
    ensures forall i :: 0 <= i < |ks| ==> IsKanji(ks[i])
    ensures |ks| <= |text|
  {
    if text == [] then []
    else (if IsKanji(text[0]) then [text[0]] else []) + KanjiOf(text[1..])
  }

  /** The kanji are collected piecewise, so the list for joined text is the joined lists. */
  lemma {:induction false} KanjiOfAppend(a: string, b: string)
    ensures KanjiOf(a + b) == KanjiOf(a) + KanjiOf(b)
    decreases |a|
  {
    if a == [] {
      assert a + b == b;
    } else {
      assert (a + b)[1..] == a[1..] + b;
      KanjiOfAppend(a[1..], b);
    }
  }

  /** Text made only of kanji is its own kanji list; text without kanji has none. */
  lemma {:induction false} KanjiOfExact(text: string)
    ensures (forall i :: 0 <= i < |text| ==> IsKanji(text[i])) ==> KanjiOf(text) == text
    ensures (forall i :: 0 <= i < |text| ==> !IsKanji(text[i])) ==> KanjiOf(text) == []
    decreases |text|
  {
    if text != [] {
      KanjiOfExact(text[1..]);
    }
  }

  const NotUsedInKorea: string := "(이 한자는 한국에서 사용되지 않습니다.)"
  const JapaneseKanjiReading: string := "<br>[일본 한자]"

  /** The `korean` property when the hanja dictionary has no entry: the LLM's meaning or the placeholder. */
  function KoreanFromLLM(run: LLMRun): (r: Hanja.HanjaInfo)
    ensures r.reading == JapaneseKanjiReading && r.meaning != ""
    ensures run.result.Err? ==> r.meaning == NotUsedInKorea
  {
    match run.result
    case Ok(v) =>
      var m := Strings.NewlinesToBr(v.meaning);
      Hanja.HanjaInfo(if m != "" then m else NotUsedInKorea, JapaneseKanjiReading)
    case Err(_) => Hanja.HanjaInfo(NotUsedInKorea, JapaneseKanjiReading)
  }

  /**
   * One iteration of the loop of `fetchKanjiData` with both hanja
   * dictionaries loaded: a database hit is used as it is; otherwise the
   * kanjiapi object (`{}` when it threw) gets its `korean` property from the
   * hanja dictionary, else from the LLM, and is written to the database.
   */
  function KanjiStep(p: Providers, db: Db, hanja: map<string, Hanja.HanjaInfo>, simpToTrad: map<string, string>, k: char): (r: (KanjiData, Db))
  {
    match GetKanji(db, [k])
    case Some(d) => (d, db)
    case None =>
      var api := match p.kanjiApi([k]) case Ok(d) => d case Err(_) => map[];
      match Hanja.Lookup(hanja, simpToTrad, [k])
      case Some(info) =>
        var data := KanjiData(api, info);
        (data, SetKanji(db, [k], data))
      case None =>
        var run := FetchLLMMeaning(p, db, [k]);
        var data := KanjiData(api, KoreanFromLLM(run));
        (data, SetKanji(run.db, [k], data))
  }

  /** The loop of `fetchKanjiData` over the kanji `ks`: the entries pushed and the database afterwards. */
  function KanjiRun(p: Providers, db: Db, hanja: map<string, Hanja.HanjaInfo>, simpToTrad: map<string, string>, ks: seq<char>): (r: (seq<KanjiData>, Db))
    ensures |r.0| == |ks|
  {
    if ks == [] then ([], db)
    else
      var (prev, db1) := KanjiRun(p, db, hanja, simpToTrad, ks[..|ks| - 1]);
      var (d, db2) := KanjiStep(p, db1, hanja, simpToTrad, ks[|ks| - 1]);
      (prev + [d], db2)
  }

  /** A kanji the database knows is returned from it and nothing else is consulted or written. */
  lemma KanjiDbHitShortCircuits(p: Providers, db: Db, hanja: map<string, Hanja.HanjaInfo>, simpToTrad: map<string, string>, k: char)
    requires GetKanji(db, [k]).Some?
    ensures KanjiStep(p, db, hanja, simpToTrad, k) == (GetKanji(db, [k]).value, db)
  {
  }

  /**
   * On a database miss the hanja dictionary's entry is preferred; without
   * one the meaning is never empty and the reading marks a Japanese-only
   * kanji. Either way the new entry is written to the database.
   */
  lemma KanjiKoreanChain(p: Providers, db: Db, hanja: map<string, Hanja.HanjaInfo>, simpToTrad: map<string, string>, k: char)
    requires GetKanji(db, [k]).None?
    ensures var (d, db2) := KanjiStep(p, db, hanja, simpToTrad, k);
            && (Hanja.Lookup(hanja, simpToTrad, [k]).Some? ==> d.korean == Hanja.Lookup(hanja, simpToTrad, [k]).value)
            && (Hanja.Lookup(hanja, simpToTrad, [k]).None? ==>
                  d.korean.reading == JapaneseKanjiReading && d.korean.meaning != "")
            && (p.kanjiApi([k]).Ok? ==> d.api == p.kanjiApi([k]).value)
            && (p.kanjiApi([k]).Err? ==> d.api == map[])
            && GetKanji(db2, [k]) == (if db.kanjiUp then Some(d) else None)
  {
  }

  /** The same kanji twice in a text gets the same entry twice: the second time it comes from the database. */
  lemma RepeatedKanjiSameEntry(p: Providers, db: Db, hanja: map<string, Hanja.HanjaInfo>, simpToTrad: map<string, string>, k: char)
    requires db.kanjiUp
    ensures var ds := KanjiRun(p, db, hanja, simpToTrad, [k, k]).0;
            ds[0] == ds[1]
  {
    assert [k, k][..1] == [k];
    assert [k][..0] == [];
  }

  /**
   * `fetchKanjiData(text)`: one entry per kanji of `text`, in order. Only a
   * failure to load the hanja dictionaries rejects the whole call.
   */
  method FetchKanjiData(p: Providers, db: Db, store: Hanja.HanjaStore, text: string)
      returns (r: Result<seq<KanjiData>>, db': Db)
    requires store.Valid()
    modifies store
    ensures store.Valid()
    ensures store.hanjaFile.Some? && store.mappingFile.Some? ==>
              var run := KanjiRun(p, db, store.hanjaFile.value, store.mappingFile.value, KanjiOf(text));
              r == Ok(run.0) && db' == run.1
    ensures r.Ok? ==> |r.value| == |KanjiOf(text)|
    ensures r.Err? ==> store.hanjaFile.None? || store.mappingFile.None?
  {
    var ks := KanjiOf(text);
    var data: seq<KanjiData> := [];
    db' := db;
    for i := 0 to |ks|
      invariant store.Valid()
      invariant |data| == i
      invariant store.hanjaFile.Some? && store.mappingFile.Some? ==>
                  (data, db') == KanjiRun(p, db, store.hanjaFile.value, store.mappingFile.value, ks[..i])
    {
      var k := ks[i];
      assert ks[..i + 1][..i] == ks[..i];
      var hit := GetKanji(db', [k]);
      if hit.Some? {
        data := data + [hit.value];
        continue;
      }
      var api := match p.kanjiApi([k]) case Ok(d) => d case Err(_) => map[];
      var info := store.GetHanjaInfo([k]);
      if info.Err? {
        return Err(info.error), db';
      }
      var korean;
      if info.value.Some? {
        korean := info.value.value;
        var entry := KanjiData(api, korean);
        data := data + [entry];
        db' := SetKanji(db', [k], entry);
      } else {
        var run := FetchLLMMeaning(p, db', [k]);
        korean := KoreanFromLLM(run);
        var entry := KanjiData(api, korean);
        data := data + [entry];
        db' := SetKanji(run.db, [k], entry);
      }
    }
    assert ks[..|ks|] == ks;
    r := Ok(data);
  }

  // ---------------------------------------------------------------------
  // loadWordInfo
  // ---------------------------------------------------------------------

  /** The object shown by the popup: each slot is `safeValue` of its provider's settled result. */
  datatype WordInfo = WordInfo(jisho: Option<JsValue>, llmMeaning: Option<JsValue>, kanji: Option<JsValue>)

  function LLMMeaningToJs(m: LLMMeaning): (v: JsValue)
    ensures Truthy(v) && !Truthy(Prop(v, "error"))
  {
    Obj(map["reading" := Str(m.reading), "meaning" := Str(m.meaning)])
  }

  function KoreanToJs(info: Hanja.HanjaInfo): JsValue
  {
    Obj(map["meaning" := Str(info.meaning), "reading" := Str(info.reading)])
  }

  /** An entry as a JavaScript object: `data.korean = …` overrides any `korean` property kanjiapi sent. */
  function KanjiDataToJs(d: KanjiData): (v: JsValue)
    ensures v.Obj? && "korean" in v.props && v.props["korean"] == KoreanToJs(d.korean)
  {
    Obj(d.api["korean" := KoreanToJs(d.korean)])
  }

  function KanjiListToJs(ds: seq<KanjiData>): (v: JsValue)
    ensures v.Arr? && |v.items| == |ds|
    ensures forall i :: 0 <= i < |ds| ==> v.items[i] == KanjiDataToJs(ds[i])
  {
    Arr(seq(|ds|, i requires 0 <= i < |ds| => KanjiDataToJs(ds[i])))
  }

  function Settle(r: Result<JsValue>): Settled
  {
    match r
    case Ok(v) => Fulfilled(v)
    case Err(e) => Rejected(Str(e))
  }

  /** The settled result of `fetchLLMMeaning`. */
  function LLMSettled(run: LLMRun): Settled
  {
    match run.result
    case Ok(m) => Fulfilled(LLMMeaningToJs(m))
    case Err(e) => Rejected(Str(e))
  }

  /** A resolved `fetchLLMMeaning` always fills its slot, and a rejected one empties only its own. */
  lemma LLMSlot(run: LLMRun)
    ensures run.result.Ok? ==> SafeValue(Some(LLMSettled(run))) == Some(LLMMeaningToJs(run.result.value))
    ensures run.result.Err? ==> SafeValue(Some(LLMSettled(run))).None?
  {
  }

  /** A resolved `fetchKanjiData` always fills its slot, even with no kanji. */
  lemma KanjiSlot(ds: seq<KanjiData>)
    ensures SafeValue(Some(Fulfilled(KanjiListToJs(ds)))) == Some(KanjiListToJs(ds))
  {
  }

  /** The module-level state of api.js with the services it reaches. */
  class WordInfoLoader {
    var cache: map<string, WordCache.Entry<WordInfo>>
    var currentWordInfo: Option<WordInfo>
    var displayed: seq<WordInfo>
    var db: Db
    const providers: Providers
    const store: Hanja.HanjaStore

    constructor (providers: Providers, db: Db, store: Hanja.HanjaStore)
      ensures cache == map[] && currentWordInfo.None? && displayed == []
      ensures this.db == db && this.providers == providers && this.store == store
    {
      this.providers := providers;
      this.store := store;
      this.db := db;
      cache := map[];
      currentWordInfo := None;
      displayed := [];
    }

    /**
     * `loadWordInfo(text)` with `settings.cacheEnabled`, where `now` is the
     * clock at the freshness check and `storedAt` the clock read again once
     * the providers have answered. A fresh cache entry is shown as it is;
     * otherwise the three providers are settled, each slot filled through
     * `safeValue`, and the result is cached with `storedAt` whenever caching
     * is enabled, empty or not.
     */
    method LoadWordInfo(text: string, now: int, storedAt: int, cacheEnabled: bool)
      requires store.Valid()
      modifies this`cache, this`currentWordInfo, this`displayed, this`db, store
      ensures store.Valid()
      ensures var hit := WordCache.Fresh(old(cache), text, now, cacheEnabled);
              hit.Some? ==>
                && currentWordInfo == hit
                && cache == old(cache) && db == old(db)
                && store.fetched == old(store.fetched)
      ensures var hit := WordCache.Fresh(old(cache), text, now, cacheEnabled);
              hit.None? ==>
                var run := FetchLLMMeaning(providers, old(db), text);
                && currentWordInfo.Some?
                && cache == WordCache.Store(old(cache), text, currentWordInfo.value, storedAt, cacheEnabled)
                && currentWordInfo.value.jisho == SafeValue(Some(Settle(providers.jisho(text))))
                && currentWordInfo.value.llmMeaning == SafeValue(Some(LLMSettled(run)))
                && (store.hanjaFile.Some? && store.mappingFile.Some? ==>
                      var kr := KanjiRun(providers, run.db, store.hanjaFile.value, store.mappingFile.value, KanjiOf(text));
                      currentWordInfo.value.kanji == Some(KanjiListToJs(kr.0)) && db == kr.1)
      ensures displayed == old(displayed) + [currentWordInfo.value]
    {
      var hit := WordCache.Fresh(cache, text, now, cacheEnabled);
      var wordInfo;
      if hit.Some? {
        wordInfo := hit.value;
      } else {
        var jisho := Settle(providers.jisho(text));
        var run := FetchLLMMeaning(providers, db, text);
        var kanji, db' := FetchKanjiData(providers, run.db, store, text);
        var kanjiSettled := match kanji case Ok(ds) => Fulfilled(KanjiListToJs(ds)) case Err(e) => Rejected(Str(e));
        KanjiSlot(if kanji.Ok? then kanji.value else []);
        wordInfo := WordInfo(SafeValue(Some(jisho)), SafeValue(Some(LLMSettled(run))), SafeValue(Some(kanjiSettled)));
        db := db';
        cache := WordCache.Store(cache, text, wordInfo, storedAt, cacheEnabled);
      }
      currentWordInfo := Some(wordInfo);
      displayed := displayed + [wordInfo];
    }
  }
}
