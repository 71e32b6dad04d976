/**
 * The pure half of `src/content/anki.js`: ranking a note type's field names
 * against role aliases, choosing a field for each role, and building the
 * `addNote` record for a word and for a single kanji.
 */
module AnkiNotes {
  import opened Wrappers
  import opened Strings
  import opened Js
  import Utils
  import Api

  // ---------------------------------------------------------------------
  // pickByAliases
  // ---------------------------------------------------------------------

  /** `lower.find(x => x.low === al)`: the first field equal to `al` ignoring case. */
  function FirstEqual(fields: seq<string>, al: string): (r: Option<nat>)
    ensures r.Some? ==> r.value < |fields| && Lower(fields[r.value]) == al
    ensures r.Some? ==> forall i :: 0 <= i < r.value ==> Lower(fields[i]) != al
    ensures r.None? <==> forall i :: 0 <= i < |fields| ==> Lower(fields[i]) != al
    decreases |fields|
  {
    if fields == [] then None
    else if Lower(fields[0]) == al then Some(0)
    else match FirstEqual(fields[1..], al)
      case None => None
      case Some(k) => Some(k + 1)
  }

  /** `lower.find(x => x.low.includes(al))`: the first field containing `al` ignoring case. */
  function FirstContaining(fields: seq<string>, al: string): (r: Option<nat>)
    ensures r.Some? ==> r.value < |fields| && Contains(Lower(fields[r.value]), al)
    ensures r.Some? ==> forall i :: 0 <= i < r.value ==> !Contains(Lower(fields[i]), al)
    ensures r.None? <==> forall i :: 0 <= i < |fields| ==> !Contains(Lower(fields[i]), al)
    decreases |fields|
  {
    if fields == [] then None
    else if Contains(Lower(fields[0]), al) then Some(0)
    else match FirstContaining(fields[1..], al)
      case None => None
      case Some(k) => Some(k + 1)
  }

  /**
   * The first loop of `pickByAliases`: the position of the field hit by the
   * earliest alias that some field equals.
   */
  function ExactPass(fields: seq<string>, aliases: seq<string>): (r: Option<nat>)
    ensures r.Some? ==> r.value < |fields|
    ensures r.Some? ==> exists j :: 0 <= j < |aliases| && FirstEqual(fields, Lower(aliases[j])) == Some(r.value)
                                  && forall j' :: 0 <= j' < j ==> FirstEqual(fields, Lower(aliases[j'])).None?
    ensures r.None? <==> forall j :: 0 <= j < |aliases| ==> FirstEqual(fields, Lower(aliases[j])).None?
    decreases |aliases|
  {
    if aliases == [] then None
    else match FirstEqual(fields, Lower(aliases[0]))
      case Some(i) => Some(i)
      case None =>
        var r := ExactPass(fields, aliases[1..]);
        assert forall j :: 1 <= j < |aliases| ==> aliases[1..][j - 1] == aliases[j];
        r
  }

  /** The second loop of `pickByAliases`: the same with substring matching. */
  function ContainsPass(fields: seq<string>, aliases: seq<string>): (r: Option<nat>)
    ensures r.Some? ==> r.value < |fields|
    ensures r.Some? ==> exists j :: 0 <= j < |aliases| && FirstContaining(fields, Lower(aliases[j])) == Some(r.value)
                                  && forall j' :: 0 <= j' < j ==> FirstContaining(fields, Lower(aliases[j'])).None?
    ensures r.None? <==> forall j :: 0 <= j < |aliases| ==> FirstContaining(fields, Lower(aliases[j])).None?
    decreases |aliases|
  {
    if aliases == [] then None
    else match FirstContaining(fields, Lower(aliases[0]))
      case Some(i) => Some(i)
      case None =>
        var r := ContainsPass(fields, aliases[1..]);
        assert forall j :: 1 <= j < |aliases| ==> aliases[1..][j - 1] == aliases[j];
        r
  }

  /** `pickByAliases(fields, aliases)`; `None` is `null`. */
  function PickByAliases(fields: seq<string>, aliases: seq<string>): (r: Option<string>)
    ensures r.Some? ==> r.value in fields
  {
    match ExactPass(fields, aliases)
    case Some(i) => Some(fields[i])
    case None =>
      match ContainsPass(fields, aliases)
      case Some(i) => Some(fields[i])
      case None => None
  }

  /**
   * An exact hit beats every substring hit: when some field equals some
   * alias, the result is the first field equal to the earliest such alias.
   */
  lemma PickPrefersExact(fields: seq<string>, aliases: seq<string>, i: nat, j: nat)
    requires i < |fields| && j < |aliases| && EqualsIgnoreCase(fields[i], aliases[j])
    ensures exists j' :: 0 <= j' <= j
                      && FirstEqual(fields, Lower(aliases[j'])).Some?
                      && PickByAliases(fields, aliases) == Some(fields[FirstEqual(fields, Lower(aliases[j'])).value])
                      && EqualsIgnoreCase(PickByAliases(fields, aliases).value, aliases[j'])
                      && forall j'' :: 0 <= j'' < j' ==> forall k :: 0 <= k < |fields| ==> !EqualsIgnoreCase(fields[k], aliases[j''])
  {
    assert FirstEqual(fields, Lower(aliases[j])).Some?;
    var e := ExactPass(fields, aliases);
    var jj :| 0 <= jj < |aliases| && FirstEqual(fields, Lower(aliases[jj])) == Some(e.value)
              && forall j' :: 0 <= j' < jj ==> FirstEqual(fields, Lower(aliases[j'])).None?;
    assert jj <= j;
  }

  /** `null` exactly when no field contains (or equals) any alias, ignoring case. */
  lemma PickNoneIff(fields: seq<string>, aliases: seq<string>)
    ensures PickByAliases(fields, aliases).None? <==>
            forall i, j :: 0 <= i < |fields| && 0 <= j < |aliases| ==> !Contains(Lower(fields[i]), Lower(aliases[j]))
  {
    if forall i, j :: 0 <= i < |fields| && 0 <= j < |aliases| ==> !Contains(Lower(fields[i]), Lower(aliases[j])) {
      forall j | 0 <= j < |aliases|
        ensures FirstEqual(fields, Lower(aliases[j])).None?
      {
        forall i | 0 <= i < |fields|
          ensures Lower(fields[i]) != Lower(aliases[j])
        {
          ContainsSelf(Lower(fields[i]));
        }
      }
    }
  }

  // ---------------------------------------------------------------------
  // resolveFieldMapping (the choice; the memo lives in AnkiFlow)
  // ---------------------------------------------------------------------

  const WordAliases: seq<string> := ["Front", "Expression", "Term", "Word", "Vocab", "Sentence"]
  const MeaningAliases: seq<string> := ["Back", "Meaning", "Definition", "Translation", "Korean", "English"]
  const ReadingAliases: seq<string> := ["Reading", "Furigana", "Yomi", "Ruby"]
  const KanjiAliases: seq<string> := ["Kanji", "Character", "Hanzi"]

  /** `{ word, meaning, reading, kanji }`; `None` is `null` or `undefined`. */
  datatype FieldMap = FieldMap(word: Option<string>, meaning: Option<string>, reading: Option<string>, kanji: Option<string>)

  /** `x || y` on a field name. */
  function OrElse(x: Option<string>, y: string): (r: string)
    ensures x.Some? && x.value != "" ==> r == x.value
    ensures !(x.Some? && x.value != "") ==> r == y
  {
    if x.Some? && x.value != "" then x.value else y
  }

  /** A string property of `settings.fieldMapping`; any other value reads as missing. */
  function NameProp(v: JsValue, key: string): Option<string>
  {
    if Prop(v, key).Str? then Some(Prop(v, key).s) else None
  }

  /** The four roles read off `settings.fieldMapping`. */
  function FieldMapOf(fieldMapping: JsValue): FieldMap
  {
    FieldMap(NameProp(fieldMapping, "word"), NameProp(fieldMapping, "meaning"),
             NameProp(fieldMapping, "reading"), NameProp(fieldMapping, "kanji"))
  }

  /** `fields[1] || fields[0]`. */
  function SecondOrFirst(fields: seq<string>): (r: string)
    requires |fields| > 0
    ensures r in fields
  {
    if |fields| > 1 && fields[1] != "" then fields[1] else fields[0]
  }

  /**
   * The mapping `resolveFieldMapping` computes from the model's field names
   * (`[]` when they could not be fetched) and `settings.fieldMapping`.
   */
  function ResolveFromFields(fields: seq<string>, fallback: FieldMap): (r: FieldMap)
    ensures |fields| > 0 ==> r.word.Some? && r.word.value in fields
    ensures |fields| > 0 ==> r.meaning.Some? && r.meaning.value in fields
    ensures |fields| > 0 ==> r.reading == PickByAliases(fields, ReadingAliases)
    ensures |fields| > 0 ==> r.kanji == PickByAliases(fields, KanjiAliases)
    ensures r.reading.Some? && |fields| > 0 ==> r.reading.value in fields
    ensures |fields| == 0 ==> r == fallback
  {
    if |fields| > 0 then
      var word := PickByAliases(fields, WordAliases);
      var meaning := PickByAliases(fields, MeaningAliases);
      FieldMap(Some(OrElse(word, fields[0])),
               Some(OrElse(meaning, SecondOrFirst(fields))),
               PickByAliases(fields, ReadingAliases),
               PickByAliases(fields, KanjiAliases))
    else fallback
  }

  /** A non-empty alias hit for the word role wins; without one the first field is used. */
  lemma ResolveWord(fields: seq<string>, fallback: FieldMap)
    requires |fields| > 0
    ensures var p := PickByAliases(fields, WordAliases);
            ResolveFromFields(fields, fallback).word == Some(if p.Some? && p.value != "" then p.value else fields[0])
  {
  }

  /** Without a non-empty alias hit, the meaning is the second field if it is non-empty, else the first. */
  lemma ResolveMeaningFallback(fields: seq<string>, fallback: FieldMap)
    requires |fields| > 0
    requires var p := PickByAliases(fields, MeaningAliases); p.None? || p.value == ""
    ensures ResolveFromFields(fields, fallback).meaning ==
            Some(if |fields| > 1 && fields[1] != "" then fields[1] else fields[0])
  {
    assert ResolveFromFields(fields, fallback).meaning == Some(OrElse(PickByAliases(fields, MeaningAliases), SecondOrFirst(fields)));
  }

  /** With the default note type `Basic` (fields `Front`, `Back`) the word and meaning roles land on `Front` and `Back`. */
  lemma ResolveBasic(fallback: FieldMap)
    ensures ResolveFromFields(["Front", "Back"], fallback).word == Some("Front")
    ensures ResolveFromFields(["Front", "Back"], fallback).meaning == Some("Back")
  {
    var fs := ["Front", "Back"];
    assert Lower("Front") == "front";
    assert Lower("Back") == "back";
    assert FirstEqual(fs, Lower(WordAliases[0])) == Some(0);
    assert ExactPass(fs, WordAliases) == Some(0);
    assert FirstEqual(fs, Lower(MeaningAliases[0])) == Some(1);
    assert ExactPass(fs, MeaningAliases) == Some(1);
  }

  // ---------------------------------------------------------------------
  // The note record
  // ---------------------------------------------------------------------

  /** The `addNote` note: deck, model (`settings.noteType`), fields by name, options and tags. */
  datatype Note = Note(
    deckName: string,
    modelName: JsValue,
    fields: map<string, string>,
    allowDuplicate: bool,
    duplicateScope: string,
    scopeDeckName: string,
    tags: seq<string>)

  /** `fields[name]` with an `undefined` name uses the property key `"undefined"`. */
  function Key(name: Option<string>): string
  {
    match name
    case Some(s) => s
    case None => "undefined"
  }

  /** `if (fmap.reading)`: the role is mapped to a non-empty name. */
  predicate IsSet(name: Option<string>)
  {
    name.Some? && name.value != ""
  }

  /** `x || ''` on a value the source uses as a string. */
  function StrOr(v: JsValue): string
  {
    if v.Str? then v.s else ""
  }

  /** The options every note carries: no duplicates allowed within the target deck. */
  predicate DeckScoped(n: Note, deckName: string)
  {
    && n.deckName == deckName
    && !n.allowDuplicate
    && n.duplicateScope == "deck"
    && n.scopeDeckName == deckName
  }

  // createAnkiNote ------------------------------------------------------

  /** `wordInfo.llmMeaning.language === 'english'`. */
  predicate IsEnglish(info: Api.WordInfo)
  {
    info.llmMeaning.Some? && Prop(info.llmMeaning.value, "language") == Str("english")
  }

  /** `wordInfo.llmMeaning.meaning` when truthy, else `''`. */
  function LLMMeaningText(info: Api.WordInfo): string
  {
    if info.llmMeaning.Some? && Truthy(Prop(info.llmMeaning.value, "meaning"))
    then StrOr(Prop(info.llmMeaning.value, "meaning")) else ""
  }

  /** `v[0]` on a value that is neither `null` nor `undefined`. */
  function Index0(v: JsValue): JsValue
  {
    match v
    case Arr(items) => if |items| > 0 then items[0] else Undefined
    case Str(s) => if |s| > 0 then Str(s[..1]) else Undefined
    case Obj(_) => Prop(v, "0")
    case _ => Undefined
  }

  /** Whether `v` is `null` or `undefined`, on which a property read throws a `TypeError`. */
  predicate Nullish(v: JsValue)
  {
    v == Null || v == Undefined
  }

  /**
   * Whether `jisho.japanese[0].reading` throws: `japanese` is `null` or
   * `undefined`, or its first element is.
   */
  predicate JishoThrows(jisho: JsValue)
  {
    var japanese := Prop(jisho, "japanese");
    Nullish(japanese) || Nullish(Index0(japanese))
  }

  /** `wordInfo.jisho.japanese[0].reading`, where it does not throw. */
  function JishoReading(jisho: JsValue): (r: JsValue)
    ensures Prop(jisho, "japanese").Arr? && |Prop(jisho, "japanese").items| > 0 ==>
              r == Prop(Prop(jisho, "japanese").items[0], "reading")
    ensures JishoThrows(jisho) ==> r == Undefined
  {
    Prop(Index0(Prop(jisho, "japanese")), "reading")
  }

  /** The reading a word note shows: the LLM's when truthy, else Jisho's first reading, else `''`. */
  function WordReading(info: Api.WordInfo): (r: string)
    ensures info.llmMeaning.Some? && Prop(info.llmMeaning.value, "reading").Str? && Truthy(Prop(info.llmMeaning.value, "reading"))
            ==> r == Prop(info.llmMeaning.value, "reading").s
    ensures !(info.llmMeaning.Some? && Truthy(Prop(info.llmMeaning.value, "reading"))) && info.jisho.Some?
            && JishoReading(info.jisho.value).Str?
            ==> r == JishoReading(info.jisho.value).s
    ensures info.llmMeaning.None? && info.jisho.None? ==> r == ""
  {
    if info.llmMeaning.Some? && Truthy(Prop(info.llmMeaning.value, "reading")) then StrOr(Prop(info.llmMeaning.value, "reading"))
    else if info.jisho.Some? && Truthy(JishoReading(info.jisho.value)) then StrOr(JishoReading(info.jisho.value))
    else ""
  }

  /** The back of a word note before line breaks become `<br>`. */
  function WordBack(text: string, info: Api.WordInfo): (r: string)
    ensures !IsEnglish(info) && !Utils.IsKanaOnly(text) && WordReading(info) != ""
            ==> r == WordReading(info) + "\n\n" + LLMMeaningText(info)
    ensures IsEnglish(info) || Utils.IsKanaOnly(text) || WordReading(info) == ""
            ==> r == LLMMeaningText(info)
  {
    if !IsEnglish(info) && !Utils.IsKanaOnly(text) && WordReading(info) != ""
    then WordReading(info) + "\n\n" + LLMMeaningText(info)
    else LLMMeaningText(info)
  }

  /**
   * `createAnkiNote(text, wordInfo, deckName, fmap)` with `settings.noteType`
   * as `noteType`: the word goes to the word field and the (reading-prefixed)
   * meaning, line breaks turned into `<br>`, to the meaning field.
   */
  function CreateAnkiNote(text: string, info: Api.WordInfo, deckName: string, fmap: FieldMap, noteType: JsValue): (n: Note)
    ensures DeckScoped(n, deckName) && n.modelName == noteType && n.tags == ["drag2anki"]
    ensures n.fields.Keys == {Key(fmap.word), Key(fmap.meaning)}
    ensures n.fields[Key(fmap.meaning)] == NewlinesToBr(WordBack(text, info))
    ensures Key(fmap.word) != Key(fmap.meaning) ==> n.fields[Key(fmap.word)] == text
  {
    var fields := map[Key(fmap.word) := text][Key(fmap.meaning) := NewlinesToBr(WordBack(text, info))];
    Note(deckName, noteType, fields, false, "deck", deckName, ["drag2anki"])
  }

  /**
   * Whether `createAnkiNote(text, wordInfo, …)` reads the Jisho fallback
   * `wordInfo.jisho.japanese[0].reading`: the answer is not English, the LLM
   * gave no reading, and Jisho's slot is truthy.
   */
  predicate ReadsJisho(info: Api.WordInfo)
  {
    && !IsEnglish(info)
    && !(info.llmMeaning.Some? && Truthy(Prop(info.llmMeaning.value, "reading")))
    && info.jisho.Some? && Truthy(info.jisho.value)
  }

  /**
   * `createAnkiNote(text, wordInfo, deckName, fmap)` where `wordInfo` may be
   * `null` (`None`): the note, or `None` when building it throws a
   * `TypeError` — a `null` word info, or a Jisho answer without a first
   * `japanese` entry reached by the reading fallback.
   */
  function BuildWordNote(text: string, info: Option<Api.WordInfo>, deckName: string, fmap: FieldMap, noteType: JsValue): (r: Option<Note>)
    ensures r.None? <==> info.None? || (ReadsJisho(info.value) && JishoThrows(info.value.jisho.value))
    ensures r.Some? ==> r.value == CreateAnkiNote(text, info.value, deckName, fmap, noteType)
  {
    match info
    case None => None
    case Some(i) =>
      if ReadsJisho(i) && JishoThrows(i.jisho.value) then None
      else Some(CreateAnkiNote(text, i, deckName, fmap, noteType))
  }

  /** The meaning field holds no raw line break. */
  lemma WordMeaningFieldHasNoNewline(text: string, info: Api.WordInfo, deckName: string, fmap: FieldMap, noteType: JsValue)
    ensures var v := CreateAnkiNote(text, info, deckName, fmap, noteType).fields[Key(fmap.meaning)];
            forall k :: 0 <= k < |v| ==> v[k] != '\n'
  {
  }

  /**
   * For a word that is not kana only and has a reading, the meaning field is
   * the reading, a blank line, then the meaning, each with its own breaks as `<br>`.
   */
  lemma WordMeaningFieldWithReading(text: string, info: Api.WordInfo, deckName: string, fmap: FieldMap, noteType: JsValue)
    requires !IsEnglish(info) && !Utils.IsKanaOnly(text) && WordReading(info) != ""
    ensures CreateAnkiNote(text, info, deckName, fmap, noteType).fields[Key(fmap.meaning)] ==
            NewlinesToBr(WordReading(info)) + "<br><br>" + NewlinesToBr(LLMMeaningText(info))
  {
    var rd, m := WordReading(info), LLMMeaningText(info);
    NewlinesToBrAppend(rd + "\n\n", m);
    NewlinesToBrAppend(rd, "\n\n");
    assert NewlinesToBr("\n\n") == "<br><br>" by {
      NewlinesToBrAppend("\n", "\n");
      assert "\n\n" == "\n" + "\n";
    }
  }

  /** The LLM reading is used even when Jisho has another one. */
  lemma WordReadingPrefersLLM(info: Api.WordInfo, llmReading: string)
    requires info.llmMeaning.Some? && Prop(info.llmMeaning.value, "reading") == Str(llmReading) && llmReading != ""
    ensures WordReading(info) == llmReading
  {
  }

  /** A kana-only word, or an English answer, gets the meaning alone. */
  lemma WordMeaningFieldPlain(text: string, info: Api.WordInfo, deckName: string, fmap: FieldMap, noteType: JsValue)
    requires IsEnglish(info) || Utils.IsKanaOnly(text)
    ensures CreateAnkiNote(text, info, deckName, fmap, noteType).fields[Key(fmap.meaning)] ==
            NewlinesToBr(LLMMeaningText(info))
  {
  }

  // createKanjiAnkiNote -------------------------------------------------

  /**
   * The parts `join` makes of `kanji.on_readings` (or `kun_readings`): each
   * element's `String`, nothing for `null` and `undefined`; no array reads as
   * no readings.
   */
  function Readings(kanji: JsValue, key: string): (r: seq<string>)
    ensures Prop(kanji, key).Arr? ==> |r| == |Prop(kanji, key).items|
    ensures Prop(kanji, key).Arr? ==> forall i :: 0 <= i < |r| && Prop(kanji, key).items[i].Str? ==> r[i] == Prop(kanji, key).items[i].s
    ensures !Prop(kanji, key).Arr? ==> r == []
  {
    var v := Prop(kanji, key);
    if v.Arr? then seq(|v.items|, i requires 0 <= i < |v.items| => ElementString(v.items[i])) else []
  }

  /** `"<label>" + readings.join(', ') + "\n"` when there are readings. */
  function ReadingLine(heading: string, readings: seq<string>): (r: string)
  {
    if |readings| > 0 then heading + Join(readings, ", ") + "\n" else ""
  }

  /** The Korean line: meaning, then a space and the reading if there is one. */
  function KoreanLine(kanji: JsValue): string
  {
    var korean := Prop(kanji, "korean");
    var meaning, reading := Prop(korean, "meaning"), Prop(korean, "reading");
    if Truthy(meaning) || Truthy(reading)
    then StrOr(meaning) + (if Truthy(reading) then " " + StrOr(reading) else "") + "\n"
    else ""
  }

  /** The back of a kanji note before line breaks become `<br>`. */
  function KanjiBack(kanji: JsValue): (r: string)
  {
    KoreanLine(kanji) + ReadingLine("음독: ", Readings(kanji, "on_readings")) + ReadingLine("훈독: ", Readings(kanji, "kun_readings"))
  }

  /** The back is empty exactly when there is no Korean text and no reading at all. */
  lemma KanjiBackEmptyIff(kanji: JsValue)
    ensures KanjiBack(kanji) == "" <==>
            && !Truthy(Prop(Prop(kanji, "korean"), "meaning")) && !Truthy(Prop(Prop(kanji, "korean"), "reading"))
            && Readings(kanji, "on_readings") == [] && Readings(kanji, "kun_readings") == []
  {
  }

  /** A non-empty back ends with a line break, so its field ends with `<br>`. */
  lemma KanjiBackEndsWithBreak(kanji: JsValue)
    requires KanjiBack(kanji) != ""
    ensures var b := NewlinesToBr(KanjiBack(kanji)); |b| >= 4 && b[|b| - 4..] == "<br>"
  {
    var k, on, kun := KoreanLine(kanji), ReadingLine("음독: ", Readings(kanji, "on_readings")), ReadingLine("훈독: ", Readings(kanji, "kun_readings"));
    var prefix: string;
    if kun != "" {
      prefix := k + on + "훈독: " + Join(Readings(kanji, "kun_readings"), ", ");
      assert KanjiBack(kanji) == prefix + "\n";
    } else if on != "" {
      prefix := k + "음독: " + Join(Readings(kanji, "on_readings"), ", ");
      assert KanjiBack(kanji) == prefix + "\n";
    } else {
      var korean := Prop(kanji, "korean");
      prefix := StrOr(Prop(korean, "meaning")) + (if Truthy(Prop(korean, "reading")) then " " + StrOr(Prop(korean, "reading")) else "");
      assert KanjiBack(kanji) == prefix + "\n";
    }
    NewlinesToBrAppend(prefix, "\n");
    assert NewlinesToBr("\n") == "<br>";
  }

  /** The reading and kanji field names, for the roles that are mapped. */
  function OptionalKeys(fmap: FieldMap): set<string>
  {
    (if IsSet(fmap.reading) then {fmap.reading.value} else {}) + (if IsSet(fmap.kanji) then {fmap.kanji.value} else {})
  }

  /** `if (name) fields[name] = value`. */
  function SetIf(fs: map<string, string>, name: Option<string>, value: string): (r: map<string, string>)
  {
    if IsSet(name) then fs[name.value := value] else fs
  }

  /** `(kanji.kanji || '').trim() + ' [한자]'`. */
  function KanjiFront(kanji: JsValue): string
  {
    Trim(StrOr(Prop(kanji, "kanji"))) + " [한자]"
  }

  /** `(on_readings?.join(', ') || '') + '<br>' + (kun_readings?.join(', ') || '')`. */
  function KanjiReadingsField(kanji: JsValue): string
  {
    Join(Readings(kanji, "on_readings"), ", ") + "<br>" + Join(Readings(kanji, "kun_readings"), ", ")
  }

  /**
   * `createKanjiAnkiNote(kanji, deckName, fmap)` with `settings.noteType` as
   * `noteType`: front, back, then the reading and kanji fields only when
   * those roles are mapped.
   */
  function CreateKanjiAnkiNote(kanji: JsValue, deckName: string, fmap: FieldMap, noteType: JsValue): (n: Note)
    ensures DeckScoped(n, deckName) && n.modelName == noteType && n.tags == ["drag2anki", "kanji"]
    ensures n.fields.Keys == {Key(fmap.word), Key(fmap.meaning)} + OptionalKeys(fmap)
    ensures Key(fmap.word) != Key(fmap.meaning) && Key(fmap.word) !in OptionalKeys(fmap) ==>
              n.fields[Key(fmap.word)] == KanjiFront(kanji)
    ensures Key(fmap.meaning) !in OptionalKeys(fmap) ==> n.fields[Key(fmap.meaning)] == NewlinesToBr(KanjiBack(kanji))
    ensures IsSet(fmap.reading) && !(IsSet(fmap.kanji) && fmap.kanji.value == fmap.reading.value) ==>
              n.fields[fmap.reading.value] == KanjiReadingsField(kanji)
    ensures IsSet(fmap.kanji) ==> n.fields[fmap.kanji.value] == StrOr(Prop(kanji, "kanji"))
  {
    var front := map[Key(fmap.word) := KanjiFront(kanji)];
    var back := front[Key(fmap.meaning) := NewlinesToBr(KanjiBack(kanji))];
    var fields := SetIf(SetIf(back, fmap.reading, KanjiReadingsField(kanji)), fmap.kanji, StrOr(Prop(kanji, "kanji")));
    Note(deckName, noteType, fields, false, "deck", deckName, ["drag2anki", "kanji"])
  }

  /** The front of a kanji note never starts with whitespace and always ends with the ` [한자]` tag. */
  lemma KanjiFrontShape(kanji: JsValue)
    ensures var f := KanjiFront(kanji); |f| >= 5 && f[|f| - 5..] == " [한자]"
    ensures var f := KanjiFront(kanji); Trim(StrOr(Prop(kanji, "kanji"))) != "" ==> !IsWhitespace(f[0])
  {
    TrimIsSlice(StrOr(Prop(kanji, "kanji")));
  }

  /** The note of an entry produced by `fetchKanjiData` carries its hanja reading on the back. */
  lemma KanjiNoteOfFetchedEntry(d: Api.KanjiData)
    requires d.korean.meaning != ""
    ensures KoreanLine(Api.KanjiDataToJs(d)) ==
            d.korean.meaning + (if d.korean.reading != "" then " " + d.korean.reading else "") + "\n"
  {
  }
}
