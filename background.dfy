/**
 * `src/background.js`: the service worker the content script delegates
 * its AnkiConnect traffic to. Modelled here are the message handlers that
 * hold decisions (`CHECK_DUPLICATE_EXACT`, `GET_EXISTING_BY_FRONT`,
 * `ADD_TO_ANKI`, `GET_MODEL_FIELDS`, the `PROXY_DEEPL` endpoint choice)
 * and the settings migration run on install.
 *
 * AnkiConnect is a scripted function: the answer to an action is
 * `answer(action, n)`, `n` being the position of that action in the list
 * of actions the page has sent.
 */
module Background {
  import opened Wrappers
  import opened Js
  import opened Strings

  // ---------------------------------------------------------------------
  // AnkiConnect as the page sees it
  // ---------------------------------------------------------------------

  /** One field of a note: its name and its text (`fields[name].value`, or the value sent with `addNote`). */
  datatype NoteField = NoteField(name: string, value: string)

  /** A note as `notesInfo` lists it, its fields in the order Anki gives them. */
  datatype NoteInfo = NoteInfo(noteId: JsValue, id: JsValue, modelName: JsValue, fields: seq<NoteField>)

  /** A card as `cardsInfo` lists it. */
  datatype CardInfo = CardInfo(noteId: JsValue, deckName: string)

  /** The `note` of an `addNote` request, its fields in the order the content script built them. */
  datatype NoteParams = NoteParams(deckName: string, modelName: JsValue, fields: seq<NoteField>)

  /** The AnkiConnect actions the handlers send. */
  datatype Action =
    | ModelFieldNames(modelName: JsValue)
    | FindNotes(query: string)
    | NotesInfo(notes: JsValue)
    /** `findCards` with the query `nid:a or nid:b ...` naming the notes `nids`. */
    | FindCards(nids: JsValue)
    | CardsInfo(cards: JsValue)
    | AddNote(note: NoteParams)

  /** How an action's `fetch(...).then(r => r.json())` settles. */
  datatype Answer =
    /** The request or the parsing of its body failed. */
    | Threw(message: string)
    /** The parsed body of `modelFieldNames`, `findNotes`, `findCards` or `addNote`. */
    | Body(data: JsValue)
    /** The body of `notesInfo`: its `result`, `None` when that is `null` or absent. */
    | Notes(notes: Option<seq<NoteInfo>>)
    /** The body of `cardsInfo`: its `result`, `None` when that is `null` or absent. */
    | Cards(cards: Option<seq<CardInfo>>)

  /** `data.result` of a JSON body; `undefined` for any other answer. */
  function ResultOf(a: Answer): JsValue
  {
    if a.Body? then Prop(a.data, "result") else Undefined
  }

  /** `info.result || []` of a `notesInfo` answer. */
  function NotesOf(a: Answer): seq<NoteInfo>
  {
    if a.Notes? && a.notes.Some? then a.notes.value else []
  }

  /** `info.result || []` of a `cardsInfo` answer. */
  function CardsOf(a: Answer): seq<CardInfo>
  {
    if a.Cards? && a.cards.Some? then a.cards.value else []
  }

  /** The elements of an id list read from `findCards`; anything but an array counts as empty. */
  function IdList(v: JsValue): (r: seq<JsValue>)
    ensures v.Arr? ==> r == v.items
  {
    if v.Arr? then v.items else []
  }

  /** `v.length` for a `v` that is neither `null` nor `undefined`. */
  function Length(v: JsValue): (r: JsValue)
    ensures v.Arr? ==> r == Num(|v.items|)
    ensures v.Str? ==> r == Num(|v.s|)
  {
    match v
    case Arr(items) => Num(|items|)
    case Str(s) => Num(|s|)
    case Obj(_) => Prop(v, "length")
    case _ => Undefined
  }

  /** `v[0]` of an id list. */
  function First(v: JsValue): JsValue
  {
    match v
    case Arr(items) => if items == [] then Undefined else items[0]
    case Str(s) => if s == [] then Undefined else Str([s[0]])
    case _ => Undefined
  }

  /** `n.noteId || n.id`. */
  function IdOf(n: NoteInfo): JsValue
  {
    Or(n.noteId, n.id)
  }

  /** The message a `TypeError` carries (its text is not modelled). */
  const TypeErrorMessage: string := "TypeError"

  // ---------------------------------------------------------------------
  // The exact-match search query (src/background.js:171-173 and 416-418)
  // ---------------------------------------------------------------------

  /**
   * `value ? \`key:"${value}" \` : ''`: the optional deck (`deck`) and note
   * type (`note`) restrictions of a search.
   */
  function Restriction(key: string, value: string): (r: string)
    ensures r == [] <==> value == []
  {
    if value != "" then key + ":\"" + value + "\" " else ""
  }

  /** `${primaryField}` where an absent field name prints as `undefined`. */
  function Template(field: Option<string>): string
  {
    match field
    case Some(f) => f
    case None => "undefined"
  }

  /** `field:${primaryField}:"${text}"`. */
  function FieldClause(field: Option<string>, text: string): string
  {
    "field:" + Template(field) + ":\"" + text + "\""
  }

  /** The query both exact-duplicate handlers send to `findNotes`. */
  function ExactQuery(deckName: string, modelName: string, field: Option<string>, text: string): string
  {
    Restriction("deck", deckName) + Restriction("note", modelName) + FieldClause(field, text)
  }

  /**
   * The query always ends with the field restriction, starts with the deck
   * restriction exactly when a deck is given, and is the bare field
   * restriction when neither a deck nor a model is given.
   */
  lemma ExactQueryShape(deckName: string, modelName: string, field: Option<string>, text: string)
    ensures var q := ExactQuery(deckName, modelName, field, text);
            var c := FieldClause(field, text);
            && |c| <= |q| && q[|q| - |c|..] == c
            && (deckName != "" ==> q[..|Restriction("deck", deckName)|] == "deck:\"" + deckName + "\" ")
            && (deckName == "" && modelName != "" ==> q[..|Restriction("note", modelName)|] == "note:\"" + modelName + "\" ")
            && (deckName == "" && modelName == "" ==> q == c)
  {
    var q := ExactQuery(deckName, modelName, field, text);
    var c := FieldClause(field, text);
    var d, m := Restriction("deck", deckName), Restriction("note", modelName);
    assert q == d + (m + c);
    assert q[|q| - |c|..] == c;
    assert q[..|d|] == d;
    if deckName == "" {
      assert q == m + c;
      assert q[..|m|] == m;
    }
  }

  // ---------------------------------------------------------------------
  // Case-insensitive field resolution
  // ---------------------------------------------------------------------

  /** `(primaryField || '')`. */
  function NameOr(field: Option<string>): string
  {
    match field
    case Some(f) => f
    case None => ""
  }

  /** The outcome of `list.find(k => k.toLowerCase() === name.toLowerCase())`. */
  datatype Search = Hit(name: string) | Miss | TypeError

  /** Every element before position `i` is a string other than `name`, case ignored. */
  predicate MissedBefore(items: seq<JsValue>, name: string, i: nat)
    requires i <= |items|
  {
    forall j :: 0 <= j < i ==> items[j].Str? && Lower(items[j].s) != Lower(name)
  }

  /**
   * The search over the model's field list: the first name equal to `name`
   * case ignored; an element that is not a string throws, as its
   * `toLowerCase` is not a function.
   */
  function FindIgnoreCase(items: seq<JsValue>, name: string): (r: Search)
    ensures r.Hit? ==> exists i :: 0 <= i < |items| && MissedBefore(items, name, i) && items[i] == Str(r.name) && Lower(r.name) == Lower(name)
    ensures r.Miss? <==> MissedBefore(items, name, |items|)
    ensures r.TypeError? ==> exists i :: 0 <= i < |items| && MissedBefore(items, name, i) && !items[i].Str?
  {
    if items == [] then Miss
    else if !items[0].Str? then
      assert MissedBefore(items, name, 0);
      TypeError
    else if Lower(items[0].s) == Lower(name) then
      assert MissedBefore(items, name, 0);
      Hit(items[0].s)
    else
      var r := FindIgnoreCase(items[1..], name);
      assert forall i :: 0 <= i < |items| - 1 ==>
        (MissedBefore(items, name, i + 1) <==> MissedBefore(items[1..], name, i)) by {
        forall i | 0 <= i < |items| - 1
          ensures MissedBefore(items, name, i + 1) <==> MissedBefore(items[1..], name, i)
        {
          if MissedBefore(items[1..], name, i) {
            forall j | 0 <= j < i + 1 ensures items[j].Str? && Lower(items[j].s) != Lower(name) {
              if j > 0 { assert items[j] == items[1..][j - 1]; }
            }
          }
        }
      }
      if r.Hit? then
        var i :| 0 <= i < |items| - 1 && MissedBefore(items[1..], name, i) && items[1..][i] == Str(r.name) && Lower(r.name) == Lower(name);
        assert items[i + 1] == Str(r.name);
        r
      else if r.TypeError? then
        var i :| 0 <= i < |items| - 1 && MissedBefore(items[1..], name, i) && !items[1..][i].Str?;
        assert !items[i + 1].Str?;
        r
      else
        assert MissedBefore(items, name, |items|);
        r
  }

  /** The first field whose name equals `name` case ignored, as `Object.keys(fields).find(...)` finds it. */
  function FirstNamed(fields: seq<NoteField>, name: string): (r: Option<nat>)
    ensures r.Some? ==> r.value < |fields| && Lower(fields[r.value].name) == Lower(name)
    ensures r.Some? ==> forall j :: 0 <= j < r.value ==> Lower(fields[j].name) != Lower(name)
    ensures r.None? ==> forall j :: 0 <= j < |fields| ==> Lower(fields[j].name) != Lower(name)
  {
    if fields == [] then None
    else if Lower(fields[0].name) == Lower(name) then Some(0)
    else match FirstNamed(fields[1..], name)
      case None => None
      case Some(k) => Some(k + 1)
  }

  /** `fields[key]?.value || ''`: the text of the first field called `key`, or `''`. */
  function ValueOf(fields: seq<NoteField>, key: string): (r: string)
    ensures (forall j :: 0 <= j < |fields| ==> fields[j].name != key) ==> r == ""
    ensures fields != [] && fields[0].name == key ==> r == fields[0].value
  {
    if fields == [] then ""
    else if fields[0].name == key then fields[0].value
    else ValueOf(fields[1..], key)
  }

  /**
   * The key a note's primary field is read under: its first field named
   * like `primary` case ignored, or `primary` itself.
   */
  function ResolvedKey(fields: seq<NoteField>, primary: Option<string>): (r: string)
    ensures r == Template(primary) || exists j :: 0 <= j < |fields| && fields[j].name == r && Lower(r) == Lower(NameOr(primary))
  {
    match FirstNamed(fields, NameOr(primary))
    case Some(k) => if fields[k].name != "" then fields[k].name else Template(primary)
    case None => Template(primary)
  }

  // ---------------------------------------------------------------------
  // The exact-duplicate test (src/background.js:204-210, 449-455)
  // ---------------------------------------------------------------------

  /** `raw.replace(/<[^>]*>/g, '').trim()`. */
  function PlainText(raw: string): string
  {
    Trim(StripTags(raw))
  }

  /** A note matches when its primary field, tags removed and trimmed, equals the trimmed text. */
  predicate IsExactMatch(note: NoteInfo, primary: Option<string>, text: string)
  {
    PlainText(ValueOf(note.fields, ResolvedKey(note.fields, primary))) == Trim(text)
  }

  /** For a field without markup the test is plain equality of the trimmed texts: a prefix or a substring does not match. */
  lemma ExactMatchOfPlainField(note: NoteInfo, primary: Option<string>, text: string)
    requires var v := ValueOf(note.fields, ResolvedKey(note.fields, primary));
             forall k :: 0 <= k < |v| ==> v[k] != '<'
    ensures IsExactMatch(note, primary, text) <==> Trim(ValueOf(note.fields, ResolvedKey(note.fields, primary))) == Trim(text)
  {
    StripTagsPlain(ValueOf(note.fields, ResolvedKey(note.fields, primary)));
  }

  /** `notes.some(p)`. */
  function AnyNote(notes: seq<NoteInfo>, p: NoteInfo -> bool): (r: bool)
    ensures r <==> exists i :: 0 <= i < |notes| && p(notes[i])
  {
    if notes == [] then false
    else if p(notes[0]) then true
    else
      assert forall i :: 1 <= i < |notes| ==> notes[i] == notes[1..][i - 1];
      AnyNote(notes[1..], p)
  }

  /** Some note matches the text exactly. */
  function AnyMatch(notes: seq<NoteInfo>, primary: Option<string>, text: string): (r: bool)
    ensures r <==> exists i :: 0 <= i < |notes| && IsExactMatch(notes[i], primary, text)
  {
    AnyNote(notes, n => IsExactMatch(n, primary, text))
  }

  /** `notes.filter(p)`. */
  function Filter(notes: seq<NoteInfo>, p: NoteInfo -> bool): (r: seq<NoteInfo>)
    ensures |r| <= |notes|
    ensures forall i :: 0 <= i < |r| ==> p(r[i]) && r[i] in notes
    ensures (exists i :: 0 <= i < |notes| && p(notes[i])) ==> r != []
    ensures r != [] ==> exists i :: 0 <= i < |notes| && notes[i] == r[0] && p(notes[i]) && forall j :: 0 <= j < i ==> !p(notes[j])
  {
    if notes == [] then []
    else
      var rest := Filter(notes[1..], p);
      if p(notes[0]) then [notes[0]] + rest
      else
        assert forall j :: 1 <= j < |notes| ==> notes[j] == notes[1..][j - 1];
        rest
  }

  /** `candidates[0] || res[0] || null`. */
  function Choose(candidates: seq<NoteInfo>, res: seq<NoteInfo>): (r: Option<NoteInfo>)
    ensures r.None? <==> candidates == [] && res == []
  {
    if candidates != [] then Some(candidates[0])
    else if res != [] then Some(res[0])
    else None
  }

  /** The ids of `candidates`: `candidates.map(n => n.noteId || n.id).filter(Boolean)`. */
  function TruthyIds(candidates: seq<NoteInfo>): (r: seq<JsValue>)
    ensures forall i :: 0 <= i < |r| ==> Truthy(r[i])
  {
    if candidates == [] then []
    else (if Truthy(IdOf(candidates[0])) then [IdOf(candidates[0])] else []) + TruthyIds(candidates[1..])
  }

  /** `cards.find(c => (c.deckName || '') === deckName)`. */
  function CardInDeck(cards: seq<CardInfo>, deckName: string): (r: Option<CardInfo>)
    ensures r.Some? ==> r.value in cards && r.value.deckName == deckName
    ensures r.None? ==> forall c :: c in cards ==> c.deckName != deckName
  {
    if cards == [] then None
    else if cards[0].deckName == deckName then Some(cards[0])
    else CardInDeck(cards[1..], deckName)
  }

  /** `res.find(n => (n.noteId || n.id) === id)`. */
  function NoteWithId(res: seq<NoteInfo>, id: JsValue): (r: Option<NoteInfo>)
    ensures r.Some? ==> r.value in res && IdOf(r.value) == id
    ensures r.None? ==> forall n :: n in res ==> IdOf(n) != id
  {
    if res == [] then None
    else if IdOf(res[0]) == id then Some(res[0])
    else NoteWithId(res[1..], id)
  }

  /** The note of the first card in the wanted deck, when `res` holds it. */
  function PickInDeck(cards: seq<CardInfo>, deckName: string, res: seq<NoteInfo>): (r: Option<NoteInfo>)
    ensures r.Some? ==> r.value in res && exists c :: c in cards && c.deckName == deckName && IdOf(r.value) == c.noteId
  {
    match CardInDeck(cards, deckName)
    case None => None
    case Some(c) => NoteWithId(res, c.noteId)
  }

  // ---------------------------------------------------------------------
  // The back field of an existing note (src/background.js:493-500)
  // ---------------------------------------------------------------------

  /** The names of the fields, in order: `Object.keys(note.fields || {})`. */
  function Names(fields: seq<NoteField>): (r: seq<string>)
    ensures |r| == |fields| && forall i :: 0 <= i < |fields| ==> r[i] == fields[i].name
  {
    seq(|fields|, i requires 0 <= i < |fields| => fields[i].name)
  }

  /** `keys.find(k => k !== key)`. */
  function OtherThan(keys: seq<string>, key: string): (r: Option<nat>)
    ensures r.Some? ==> r.value < |keys| && keys[r.value] != key
    ensures r.Some? ==> forall j :: 0 <= j < r.value ==> keys[j] == key
    ensures r.None? ==> forall j :: 0 <= j < |keys| ==> keys[j] == key
  {
    if keys == [] then None
    else if keys[0] != key then Some(0)
    else match OtherThan(keys[1..], key)
      case None => None
      case Some(k) => Some(k + 1)
  }

  /**
   * The back field `GET_EXISTING_BY_FRONT` settles on: the model's second
   * field, else a field named `back` case ignored, else the first field that
   * is not the front, else `Back`. `None` when the model's second field is
   * truthy but not a string, whose `toLowerCase` then throws.
   */
  function BackKey(modelFields: Option<seq<JsValue>>, fields: seq<NoteField>, resolvedKey: string): (r: Option<string>)
    ensures modelFields.Some? && |modelFields.value| > 1 && Truthy(modelFields.value[1]) ==>
              r == (if modelFields.value[1].Str? then Some(modelFields.value[1].s) else None)
    ensures !(modelFields.Some? && |modelFields.value| > 1 && Truthy(modelFields.value[1])) ==> (r.Some? &&
              match FirstNamed(fields, "back")
              case Some(k) => r.value == fields[k].name
              case None =>
                match OtherThan(Names(fields), resolvedKey)
                case Some(k) => r.value == (if fields[k].name != "" then fields[k].name else "Back")
                case None => r.value == "Back")
  {
    var second := if modelFields.Some? && |modelFields.value| > 1 then modelFields.value[1] else Undefined;
    var first: JsValue :=
      if Truthy(second) then second
      else match FirstNamed(fields, "back")
        case Some(k) => Str(fields[k].name)
        case None => Undefined;
    var key: JsValue :=
      if Truthy(first) then first
      else match OtherThan(Names(fields), resolvedKey)
        case Some(k) => Or(Str(fields[k].name), Str("Back"))
        case None => Str("Back");
    if key.Str? then Some(key.s) else None
  }

  /** `fieldKeys.find(k => k.toLowerCase() === backKey.toLowerCase()) || backKey`. */
  function BackResolved(fields: seq<NoteField>, backKey: string): (r: string)
    ensures r == backKey || exists j :: 0 <= j < |fields| && fields[j].name == r && Lower(r) == Lower(backKey)
  {
    match FirstNamed(fields, backKey)
    case Some(k) => if fields[k].name != "" then fields[k].name else backKey
    case None => backKey
  }

  // ---------------------------------------------------------------------
  // ADD_TO_ANKI's reading of an AnkiConnect error (src/background.js:250-253)
  // ---------------------------------------------------------------------

  /** `/sub/i.test(s)` for a plain word `sub` written in lower case. */
  predicate ContainsIgnoreCase(s: string, sub: string)
  {
    Contains(Lower(s), sub)
  }

  /** `/not\s+found/i.test(s)`: `not`, at least one blank, then `found`. */
  predicate NotFoundIn(s: string)
  {
    var l := Lower(s);
    exists i, j :: 0 <= i < |l| && i + 3 < j <= |l| - 5 && OccursAt(l, "not", i) && OccursAt(l, "found", j) &&
      forall k :: i + 3 <= k < j ==> IsWhitespace(l[k])
  }

  /** `/(field|fields|required|missing|not\s+found)/i.test(s)`. */
  predicate LooksLikeFieldError(s: string)
  {
    ContainsIgnoreCase(s, "field") || ContainsIgnoreCase(s, "required") || ContainsIgnoreCase(s, "missing") || NotFoundIn(s)
  }

  datatype ErrorKind = FieldError | DuplicateError | OtherError

  /**
   * How an `addNote` error is handled: as invalid fields when the message
   * looks like a field error, else as a duplicate when the message says so
   * or the result is `null`, else as a plain failure.
   */
  function ClassifyError(errMsg: string, resultIsNull: bool): (r: ErrorKind)
    ensures r == FieldError <==> LooksLikeFieldError(errMsg)
    ensures r == DuplicateError <==> !LooksLikeFieldError(errMsg) && (ContainsIgnoreCase(errMsg, "duplicate") || resultIsNull)
    ensures r == OtherError <==> !LooksLikeFieldError(errMsg) && !ContainsIgnoreCase(errMsg, "duplicate") && !resultIsNull
  {
    if LooksLikeFieldError(errMsg) then FieldError
    else if ContainsIgnoreCase(errMsg, "duplicate") || resultIsNull then DuplicateError
    else OtherError
  }

  /** A message that names both a field and a duplicate is read as a field error. */
  lemma FieldErrorWinsOverDuplicate(pre: string, mid: string, post: string, resultIsNull: bool)
    ensures ClassifyError(pre + "duplicate" + mid + "field" + post, resultIsNull) == FieldError
  {
    var s := pre + "duplicate" + mid + "field" + post;
    var i := |pre| + 9 + |mid|;
    var l := Lower(s);
    assert s[i..i + 5] == "field";
    forall k | 0 <= k < 5 ensures l[i + k] == "field"[k] {
      assert s[i + k] == s[i..i + 5][k];
    }
    assert l[i..i + 5] == "field";
    assert OccursAt(l, "field", i);
  }

  /** A message without `duplicate` still means a duplicate when AnkiConnect answered with a `null` result, unless it looks like a field error. */
  lemma NullResultIsDuplicate(errMsg: string)
    requires !LooksLikeFieldError(errMsg)
    ensures ClassifyError(errMsg, true) == DuplicateError
  {
  }

  // ---------------------------------------------------------------------
  // PROXY_DEEPL (src/background.js:99-101)
  // ---------------------------------------------------------------------

  const EnglishEndpoint: string := "/deepl/translate-english"
  const JapaneseEndpoint: string := "/deepl/translate"

  /** The proxy path a translation request goes to: the English one exactly for `sourceLanguage === 'EN'`. */
  function DeepLEndpoint(sourceLanguage: JsValue): (r: string)
    ensures r == EnglishEndpoint <==> sourceLanguage == Str("EN")
    ensures r == JapaneseEndpoint <==> sourceLanguage != Str("EN")
  {
    if sourceLanguage == Str("EN") then EnglishEndpoint else JapaneseEndpoint
  }

  // ---------------------------------------------------------------------
  // The handlers' replies
  // ---------------------------------------------------------------------

  /** An exact-duplicate request: `""` stands for an absent deck or model. */
  datatype ExactRequest = ExactRequest(fieldName: Option<string>, modelName: string, text: string, deckName: string)

  /** The note an existing-note lookup describes. */
  datatype NoteSummary = NoteSummary(id: JsValue, modelName: JsValue, front: string, back: string, deckName: string)

  /** `CHECK_DUPLICATE_EXACT`'s reply. */
  datatype CheckReply = DuplicateAnswer(isDuplicate: bool) | DuplicateFailure(error: string)

  /** `GET_EXISTING_BY_FRONT`'s reply: a note, `result: null`, or a failure. */
  datatype FrontReply = Existing(note: NoteSummary) | NoExisting | FrontFailure(error: string)

  /** The `existing` of a duplicate `ADD_TO_ANKI` reply; `Unknown` when the lookup itself failed and the key is absent. */
  datatype Lookup = Found(note: NoteSummary) | NotFound | Unknown

  /** `ADD_TO_ANKI`'s reply. */
  datatype AddReply =
    | AddSuccess(result: JsValue)
    | AddInvalidFields(error: string, modelName: Option<JsValue>, modelFields: Option<seq<JsValue>>)
    | AddDuplicate(error: string, existing: Lookup)
    | AddFailure(error: string)

  /** `GET_MODEL_FIELDS`'s reply. */
  datatype FieldsReply = FieldsAnswer(fields: seq<JsValue>) | FieldsFailure(error: JsValue)

  /** The label `ADD_TO_ANKI` gives a duplicate whose deck is unknown. */
  const UnknownDeck: string := "알 수 없음"

  /** The message `GET_MODEL_FIELDS` fails with when no model is named. */
  const ModelNameRequired: string := "modelName is required"

  // ---------------------------------------------------------------------
  // Answers read by the handlers
  // ---------------------------------------------------------------------

  /** Reading `.result` of the parsed body throws: the request failed, or the body is `null`. */
  predicate Fails(a: Answer)
  {
    a.Threw? || (a.Body? && (a.data.Null? || a.data.Undefined?))
  }

  /** The message of what was thrown. */
  function FailureMessage(a: Answer): string
  {
    if a.Threw? then a.message else TypeErrorMessage
  }

  /** The parsed body; a typed answer reads as an object without `error` or `result`. */
  function DataOf(a: Answer): JsValue
  {
    if a.Body? then a.data else Obj(map[])
  }

  /** Whether a `findCards` answer names any card: `result.length > 0` when `strict`, `(result || []).length` otherwise. */
  predicate HasCards(result: JsValue, strict: bool)
  {
    if strict then Truthy(result) && Length(result).Num? && Length(result).n > 0
    else Truthy(Length(Or(result, Arr([]))))
  }

  /** `Array.isArray(v) ? v : []`. */
  function ListOr(v: JsValue): (r: seq<JsValue>)
    ensures v.Arr? ==> r == v.items
    ensures !v.Arr? ==> r == []
  {
    if v.Arr? then v.items else []
  }

  /** `Object.keys(fields)[0] || 'Front'`: the field an `addNote` request is looked up by. */
  function FrontName(fields: seq<NoteField>): (r: string)
    ensures r != ""
    ensures fields != [] && fields[0].name != "" ==> r == fields[0].name
  {
    if fields != [] && fields[0].name != "" then fields[0].name else "Front"
  }

  /** The `GET_EXISTING_BY_FRONT` candidates: the notes that match the text exactly, in order. */
  function ExactMatches(notes: seq<NoteInfo>, primary: Option<string>, text: string): (r: seq<NoteInfo>)
    ensures forall i :: 0 <= i < |r| ==> IsExactMatch(r[i], primary, text) && r[i] in notes
    ensures r == [] <==> !AnyMatch(notes, primary, text)
  {
    Filter(notes, (x: NoteInfo) => IsExactMatch(x, primary, text))
  }

  /** The `ADD_TO_ANKI` candidates: the notes whose field `fieldName`, tags removed and trimmed, is `front`. */
  function FrontMatches(notes: seq<NoteInfo>, fieldName: string, front: string): (r: seq<NoteInfo>)
    ensures forall i :: 0 <= i < |r| ==> PlainText(ValueOf(r[i].fields, fieldName)) == front && r[i] in notes
    ensures r == [] <==> forall i :: 0 <= i < |notes| ==> PlainText(ValueOf(notes[i].fields, fieldName)) != front
  {
    Filter(notes, (x: NoteInfo) => PlainText(ValueOf(x.fields, fieldName)) == front)
  }

  /** `keys.find(k => k.toLowerCase() === 'back')`, else `keys.find(k => k !== fieldName)`. */
  function AddBackKey(fields: seq<NoteField>, fieldName: string): (r: Option<string>)
    ensures r.Some? ==> exists j :: 0 <= j < |fields| && fields[j].name == r.value
    ensures r.None? ==> forall j :: 0 <= j < |fields| ==> fields[j].name == fieldName
  {
    match FirstNamed(fields, "back")
    case Some(k) => Some(fields[k].name)
    case None =>
      match OtherThan(Names(fields), fieldName)
      case Some(k) => Some(fields[k].name)
      case None => None
  }

  /** A run of a handler or a stage of one: what it yields and the actions it sends, in order. */
  datatype Run<T> = Run(value: T, calls: seq<Action>)

  lemma CallsAssoc(a: seq<Action>, b: seq<Action>, c: seq<Action>)
    ensures a + b + c == a + (b + c)
  {
  }

  /** `r` after the actions `pre`. */
  function After<T>(pre: seq<Action>, r: Run<T>): (q: Run<T>)
    ensures q.value == r.value && q.calls == pre + r.calls
  {
    Run(r.value, pre + r.calls)
  }

  /**
   * The primary field after the model's field list is consulted: a model's
   * non-empty field list without the field ends the handler; a hit
   * normalises the name; a failed or empty lookup keeps the requested name.
   */
  datatype FieldStep = Primary(field: Option<string>, modelFields: Option<seq<JsValue>>) | NoSuchField

  /** The primary field given the `modelFieldNames` answer `a`. */
  function PrimaryFrom(a: Answer, field: Option<string>): (r: FieldStep)
    ensures r.Primary? && r.field != field ==> r.modelFields.Some? && r.field.Some? && exists i :: 0 <= i < |r.modelFields.value| && r.modelFields.value[i] == Str(r.field.value) && Lower(r.field.value) == Lower(NameOr(field))
    ensures r.NoSuchField? <==> (ResultOf(a).Arr? && ResultOf(a).items != [] &&
              (FindIgnoreCase(ResultOf(a).items, NameOr(field)).Miss? || FindIgnoreCase(ResultOf(a).items, NameOr(field)) == Hit("")))
  {
    var v := ResultOf(a);
    if v.Arr? && v.items != [] then
      match FindIgnoreCase(v.items, NameOr(field))
      case Miss => NoSuchField
      case Hit(name) => if name == "" then NoSuchField else Primary(Some(name), Some(v.items))
      case TypeError => Primary(field, Some(v.items))
    else Primary(field, None)
  }

  /** What `onInstalled` writes given the stored settings, if anything. */
  function Migration(stored: JsValue): (r: Option<JsValue>)
    ensures !Truthy(stored) ==> r == Some(InstallDefaults)
    ensures stored.Obj? && IsUndefinedProp(stored.props, "deeplApiKey") ==>
              r == Some(Obj(stored.props["deeplApiKey" := Str("")]))
    ensures stored.Obj? && !IsUndefinedProp(stored.props, "deeplApiKey") ==> r == None
  {
    if !Truthy(stored) then Some(InstallDefaults)
    else if stored.Obj? then
      if IsUndefinedProp(stored.props, "deeplApiKey") then Some(Obj(stored.props["deeplApiKey" := Str("")])) else None
    else Some(stored)
  }

  /** The settings written on a first install. */
  const InstallDefaults: JsValue := Obj(map[
    "openaiApiKey" := Str(""),
    "deeplApiKey" := Str(""),
    "ankiConnectUrl" := Str("http://localhost:8765"),
    "deckName" := Str("Japanese"),
    "noteType" := Str("Basic"),
    "fieldMapping" := Obj(map["word" := Str("Front"), "meaning" := Str("Back")]),
    "darkMode" := Bool(false),
    "googleSearchTranslate" := Bool(false),
    "cacheEnabled" := Bool(true)
  ])

  /** A migrated object is left alone the next time: every write but that of a non-object leads to a settled state. */
  lemma MigrationSettles(stored: JsValue)
    requires Migration(stored).Some? && Migration(stored).value.Obj?
    ensures Migration(Migration(stored).value) == None
  {
    if !Truthy(stored) {
      assert "deeplApiKey" in InstallDefaults.props && InstallDefaults.props["deeplApiKey"] == Str("");
    }
  }

  /** The migration only adds `deeplApiKey`: every other stored key keeps its value. */
  lemma MigrationKeepsOtherKeys(stored: JsValue, k: string)
    requires stored.Obj? && k in stored.props && k != "deeplApiKey"
    requires Migration(stored).Some?
    ensures Migration(stored).value.Obj? && k in Migration(stored).value.props
    ensures Migration(stored).value.props[k] == stored.props[k]
  {
  }

  /** `chrome.storage.sync` as `onInstalled` sees it: the stored settings and the writes made. */
  class SyncStorage {
    /** `drag2anki_settings`; `Undefined` when nothing is stored. */
    var stored: JsValue
    var writes: seq<JsValue>

    constructor(stored: JsValue)
      ensures this.stored == stored && writes == []
    {
      this.stored := stored;
      writes := [];
    }

    /** The `onInstalled` listener: defaults on a first install, otherwise the `deeplApiKey` migration. */
    method OnInstalled()
      modifies this
      ensures Migration(old(stored)).Some? ==> stored == Migration(old(stored)).value && writes == old(writes) + [stored]
      ensures Migration(old(stored)).None? ==> stored == old(stored) && writes == old(writes)
    {
      if !Truthy(stored) {
        stored := InstallDefaults;
        writes := writes + [stored];
        return;
      }
      var current := stored;
      if current.Obj? {
        if IsUndefinedProp(current.props, "deeplApiKey") {
          current := Obj(current.props["deeplApiKey" := Str("")]);
          stored := current;
          writes := writes + [current];
        }
      } else {
        // a primitive or an array: the property read is `undefined` and the write stores the value unchanged
        stored := current;
        writes := writes + [current];
      }
    }
  }

  // ---------------------------------------------------------------------
  // The handlers against a scripted AnkiConnect
  // ---------------------------------------------------------------------

  /** The background page: the answers AnkiConnect gives and the actions sent to it so far. */
  class BackgroundPage {
    /** The answer to an action sent as the `n`-th one. */
    const answer: (Action, nat) -> Answer
    var calls: seq<Action>

    constructor(answer: (Action, nat) -> Answer)
      ensures this.answer == answer && calls == []
    {
      this.answer := answer;
      calls := [];
    }

    /** `fetch(ankiConnectUrl, { action, ... }).then(r => r.json())`. */
    method Call(a: Action) returns (r: Answer)
      modifies this`calls
      ensures calls == old(calls) + [a]
      ensures r == answer(a, |old(calls)|)
    {
      r := answer(a, |calls|);
      calls := calls + [a];
    }

    // ---- stages shared by the handlers ----

    /** The field-name lookup when a model is named (src/background.js:147-169, 392-415). */
    function PrimaryRun(modelName: string, field: Option<string>, h: seq<Action>): Run<FieldStep>
    {
      if modelName == "" then Run(Primary(field, None), [])
      else Run(PrimaryFrom(answer(ModelFieldNames(Str(modelName)), |h|), field), [ModelFieldNames(Str(modelName))])
    }

    method ResolvePrimaryField(modelName: string, field: Option<string>) returns (step: FieldStep)
      modifies this`calls
      ensures var r := PrimaryRun(modelName, field, old(calls));
              step == r.value && calls == old(calls) + r.calls
    {
      if modelName == "" {
        return Primary(field, None);
      }
      var a := Call(ModelFieldNames(Str(modelName)));
      step := PrimaryFrom(a, field);
    }

    /**
     * The refinement by deck (src/background.js:306-331, 458-487): the
     * cards of the candidate notes, and the note of the first one in the
     * wanted deck; any failure keeps `note`.
     */
    function RefineRun(note: NoteInfo, deckName: string, tmpIds: JsValue, res: seq<NoteInfo>, h: seq<Action>): (r: Run<NoteInfo>)
      ensures r.value != note ==> (r.value in res && |r.calls| == 2 &&
                exists c :: c in CardsOf(answer(r.calls[1], |h| + 1)) && c.deckName == deckName && IdOf(r.value) == c.noteId)
      ensures |r.calls| <= 2
    {
      if !(Truthy(tmpIds) && Truthy(Length(tmpIds))) then Run(note, [])
      else
        var a := answer(FindCards(tmpIds), |h|);
        var cardIds := Or(ResultOf(a), Arr([]));
        if Fails(a) || !Truthy(Length(cardIds)) then Run(note, [FindCards(tmpIds)])
        else
          var b := answer(CardsInfo(cardIds), |h| + 1);
          var pick := PickInDeck(CardsOf(b), deckName, res);
          Run(if pick.Some? then pick.value else note, [FindCards(tmpIds), CardsInfo(cardIds)])
    }

    method RefineByDeck(note: NoteInfo, deckName: string, tmpIds: JsValue, res: seq<NoteInfo>) returns (picked: NoteInfo)
      modifies this`calls
      ensures var r := RefineRun(note, deckName, tmpIds, res, old(calls));
              picked == r.value && calls == old(calls) + r.calls
    {
      if !(Truthy(tmpIds) && Truthy(Length(tmpIds))) {
        return note;
      }
      var a := Call(FindCards(tmpIds));
      var cardIds := Or(ResultOf(a), Arr([]));
      if Fails(a) || !Truthy(Length(cardIds)) {
        return note;
      }
      var b := Call(CardsInfo(cardIds));
      var pick := PickInDeck(CardsOf(b), deckName, res);
      picked := if pick.Some? then pick.value else note;
    }

    /**
     * The deck of a note's first card (src/background.js:339-358, 503-526):
     * `None` when any step fails or finds nothing.
     */
    function DeckRun(noteId: JsValue, strict: bool, h: seq<Action>): (r: Run<Option<string>>)
      ensures 1 <= |r.calls| <= 2 && r.calls[0] == FindCards(Arr([noteId]))
      ensures r.value.Some? ==> |r.calls| == 2
    {
      var a := answer(FindCards(Arr([noteId])), |h|);
      var ids := ResultOf(a);
      if Fails(a) || !HasCards(ids, strict) then Run(None, [FindCards(Arr([noteId]))])
      else
        var cs := CardsOf(answer(CardsInfo(Arr([First(ids)])), |h| + 1));
        Run(if cs != [] then Some(cs[0].deckName) else None, [FindCards(Arr([noteId])), CardsInfo(Arr([First(ids)]))])
    }

    method DeckOfNote(noteId: JsValue, strict: bool) returns (deck: Option<string>)
      modifies this`calls
      ensures var r := DeckRun(noteId, strict, old(calls));
              deck == r.value && calls == old(calls) + r.calls
    {
      var a := Call(FindCards(Arr([noteId])));
      var ids := ResultOf(a);
      if Fails(a) || !HasCards(ids, strict) {
        return None;
      }
      var b := Call(CardsInfo(Arr([First(ids)])));
      var cs := CardsOf(b);
      deck := if cs != [] then Some(cs[0].deckName) else None;
    }

    /** `candidates[0] || res[0] || null`, refined by deck when one is wanted. */
    function PickRun(candidates: seq<NoteInfo>, res: seq<NoteInfo>, ids: JsValue, deckName: string, h: seq<Action>): (r: Run<Option<NoteInfo>>)
      ensures r.value.None? <==> candidates == [] && res == []
      ensures deckName == "" ==> r == Run(Choose(candidates, res), [])
    {
      match Choose(candidates, res)
      case None => Run(None, [])
      case Some(first) =>
        if deckName == "" then Run(Some(first), [])
        else
          var tmpIds := if candidates != [] then Arr(TruthyIds(candidates)) else ids;
          var refined := RefineRun(first, deckName, tmpIds, res, h);
          Run(Some(refined.value), refined.calls)
    }

    method PickNote(candidates: seq<NoteInfo>, res: seq<NoteInfo>, ids: JsValue, deckName: string) returns (picked: Option<NoteInfo>)
      modifies this`calls
      ensures var r := PickRun(candidates, res, ids, deckName, old(calls));
              picked == r.value && calls == old(calls) + r.calls
    {
      var first := Choose(candidates, res);
      if first.None? || deckName == "" {
        return first;
      }
      var tmpIds := if candidates != [] then Arr(TruthyIds(candidates)) else ids;
      var note := RefineByDeck(first.value, deckName, tmpIds, res);
      picked := Some(note);
    }

    // ---- CHECK_DUPLICATE_EXACT (src/background.js:140-233) ----

    /** The search and the exact test once the primary field is known. */
    function SearchRun(req: ExactRequest, field: Option<string>, h: seq<Action>): Run<CheckReply>
    {
      var find := FindNotes(ExactQuery(req.deckName, req.modelName, field, req.text));
      var a := answer(find, |h|);
      var ids := ResultOf(a);
      if Fails(a) then Run(DuplicateFailure(FailureMessage(a)), [find])
      else if !Truthy(ids) || Length(ids) == Num(0) then Run(DuplicateAnswer(false), [find])
      else
        var b := answer(NotesInfo(ids), |h| + 1);
        Run(if b.Notes? && b.notes.Some? then DuplicateAnswer(AnyMatch(b.notes.value, field, req.text))
            else DuplicateFailure(FailureMessage(b)), [find, NotesInfo(ids)])
    }

    function CheckRun(req: ExactRequest, h: seq<Action>): Run<CheckReply>
    {
      var p := PrimaryRun(req.modelName, req.fieldName, h);
      match p.value
      case NoSuchField => Run(DuplicateAnswer(false), p.calls)
      case Primary(field, _) => After(p.calls, SearchRun(req, field, h + p.calls))
    }

    method SearchExact(req: ExactRequest, field: Option<string>) returns (reply: CheckReply)
      modifies this`calls
      ensures var r := SearchRun(req, field, old(calls));
              reply == r.value && calls == old(calls) + r.calls
    {
      var a := Call(FindNotes(ExactQuery(req.deckName, req.modelName, field, req.text)));
      var ids := ResultOf(a);
      if Fails(a) {
        return DuplicateFailure(FailureMessage(a));
      }
      if !Truthy(ids) || Length(ids) == Num(0) {
        return DuplicateAnswer(false);
      }
      var b := Call(NotesInfo(ids));
      if b.Notes? && b.notes.Some? {
        reply := DuplicateAnswer(AnyMatch(b.notes.value, field, req.text));
      } else {
        reply := DuplicateFailure(FailureMessage(b));
      }
    }

    /** The `CHECK_DUPLICATE_EXACT` handler. */
    method CheckDuplicateExact(req: ExactRequest) returns (reply: CheckReply)
      modifies this`calls
      ensures var r := CheckRun(req, old(calls));
              reply == r.value && calls == old(calls) + r.calls
    {
      ghost var before := calls;
      ghost var p := PrimaryRun(req.modelName, req.fieldName, before);
      var step := ResolvePrimaryField(req.modelName, req.fieldName);
      assert step == p.value && calls == before + p.calls;
      if step.NoSuchField? {
        return DuplicateAnswer(false);
      }
      ghost var q := SearchRun(req, step.field, calls);
      reply := SearchExact(req, step.field);
      CallsAssoc(before, p.calls, q.calls);
    }

    // ---- GET_EXISTING_BY_FRONT (src/background.js:383-545) ----

    /** The reply for the chosen note: its front and back fields and the deck of its first card. */
    function DescribeRun(req: ExactRequest, step: FieldStep, ids: JsValue, note: NoteInfo, h: seq<Action>): Run<FrontReply>
      requires step.Primary?
    {
      var key := ResolvedKey(note.fields, step.field);
      match BackKey(step.modelFields, note.fields, key)
      case None => Run(FrontFailure(TypeErrorMessage), [])
      case Some(backKey) =>
        var id := Or(IdOf(note), First(ids));
        var deck := DeckRun(id, true, h);
        var summary := NoteSummary(id, note.modelName, ValueOf(note.fields, key),
          ValueOf(note.fields, BackResolved(note.fields, backKey)), if deck.value.Some? then deck.value.value else req.deckName);
        Run(Existing(summary), deck.calls)
    }

    /** After the search: the notes' details and the choice among them. */
    function ChooseRun(req: ExactRequest, step: FieldStep, ids: JsValue, res: seq<NoteInfo>, h: seq<Action>): Run<FrontReply>
      requires step.Primary?
    {
      var pick := PickRun(ExactMatches(res, step.field, Trim(req.text)), res, ids, req.deckName, h);
      match pick.value
      case None => Run(NoExisting, pick.calls)
      case Some(note) => After(pick.calls, DescribeRun(req, step, ids, note, h + pick.calls))
    }

    function LookupRun(req: ExactRequest, step: FieldStep, h: seq<Action>): Run<FrontReply>
      requires step.Primary?
    {
      var find := FindNotes(ExactQuery(req.deckName, req.modelName, step.field, Trim(req.text)));
      var a := answer(find, |h|);
      var ids := Or(ResultOf(a), Arr([]));
      if Fails(a) then Run(FrontFailure(FailureMessage(a)), [find])
      else if !Truthy(Length(ids)) then Run(NoExisting, [find])
      else After([find], NotesRun(req, step, ids, h + [find]))
    }

    /** The details of the notes found, then the choice among them. */
    function NotesRun(req: ExactRequest, step: FieldStep, ids: JsValue, h: seq<Action>): Run<FrontReply>
      requires step.Primary?
    {
      var b := answer(NotesInfo(ids), |h|);
      if Fails(b) then Run(FrontFailure(FailureMessage(b)), [NotesInfo(ids)])
      else After([NotesInfo(ids)], ChooseRun(req, step, ids, NotesOf(b), h + [NotesInfo(ids)]))
    }

    function ExistingRun(req: ExactRequest, h: seq<Action>): Run<FrontReply>
    {
      var p := PrimaryRun(req.modelName, req.fieldName, h);
      match p.value
      case NoSuchField => Run(NoExisting, p.calls)
      case Primary(_, _) => After(p.calls, LookupRun(req, p.value, h + p.calls))
    }

    method Describe(req: ExactRequest, step: FieldStep, ids: JsValue, note: NoteInfo) returns (reply: FrontReply)
      requires step.Primary?
      modifies this`calls
      ensures var r := DescribeRun(req, step, ids, note, old(calls));
              reply == r.value && calls == old(calls) + r.calls
    {
      var key := ResolvedKey(note.fields, step.field);
      var backKey := BackKey(step.modelFields, note.fields, key);
      if backKey.None? {
        return FrontFailure(TypeErrorMessage);
      }
      var id := Or(IdOf(note), First(ids));
      var deck := DeckOfNote(id, true);
      var deckName := if deck.Some? then deck.value else req.deckName;
      reply := Existing(NoteSummary(id, note.modelName, ValueOf(note.fields, key),
        ValueOf(note.fields, BackResolved(note.fields, backKey.value)), deckName));
    }

    method ChooseExisting(req: ExactRequest, step: FieldStep, ids: JsValue, res: seq<NoteInfo>) returns (reply: FrontReply)
      requires step.Primary?
      modifies this`calls
      ensures var r := ChooseRun(req, step, ids, res, old(calls));
              reply == r.value && calls == old(calls) + r.calls
    {
      ghost var before := calls;
      ghost var pick := PickRun(ExactMatches(res, step.field, Trim(req.text)), res, ids, req.deckName, before);
      var note := PickNote(ExactMatches(res, step.field, Trim(req.text)), res, ids, req.deckName);
      assert note == pick.value && calls == before + pick.calls;
      if note.None? {
        return NoExisting;
      }
      ghost var d := DescribeRun(req, step, ids, note.value, calls);
      reply := Describe(req, step, ids, note.value);
      CallsAssoc(before, pick.calls, d.calls);
    }

    method LookUp(req: ExactRequest, step: FieldStep) returns (reply: FrontReply)
      requires step.Primary?
      modifies this`calls
      ensures var r := LookupRun(req, step, old(calls));
              reply == r.value && calls == old(calls) + r.calls
    {
      ghost var before := calls;
      var find := FindNotes(ExactQuery(req.deckName, req.modelName, step.field, Trim(req.text)));
      var a := Call(find);
      var ids := Or(ResultOf(a), Arr([]));
      if Fails(a) {
        assert LookupRun(req, step, before) == Run(FrontFailure(FailureMessage(a)), [find]);
        return FrontFailure(FailureMessage(a));
      }
      if !Truthy(Length(ids)) {
        assert LookupRun(req, step, before) == Run(NoExisting, [find]);
        return NoExisting;
      }
      ghost var n := NotesRun(req, step, ids, calls);
      reply := ReadNotes(req, step, ids);
      assert LookupRun(req, step, before) == After([find], n);
      CallsAssoc(before, [find], n.calls);
    }

    method ReadNotes(req: ExactRequest, step: FieldStep, ids: JsValue) returns (reply: FrontReply)
      requires step.Primary?
      modifies this`calls
      ensures var r := NotesRun(req, step, ids, old(calls));
              reply == r.value && calls == old(calls) + r.calls
    {
      ghost var before := calls;
      var b := Call(NotesInfo(ids));
      if Fails(b) {
        return FrontFailure(FailureMessage(b));
      }
      ghost var c := ChooseRun(req, step, ids, NotesOf(b), calls);
      reply := ChooseExisting(req, step, ids, NotesOf(b));
      CallsAssoc(before, [NotesInfo(ids)], c.calls);
    }

    /** The `GET_EXISTING_BY_FRONT` handler. */
    method GetExistingByFront(req: ExactRequest) returns (reply: FrontReply)
      modifies this`calls
      ensures var r := ExistingRun(req, old(calls));
              reply == r.value && calls == old(calls) + r.calls
    {
      ghost var before := calls;
      ghost var p := PrimaryRun(req.modelName, req.fieldName, before);
      var step := ResolvePrimaryField(req.modelName, req.fieldName);
      assert step == p.value && calls == before + p.calls;
      if step.NoSuchField? {
        return NoExisting;
      }
      ghost var q := LookupRun(req, step, calls);
      reply := LookUp(req, step);
      CallsAssoc(before, p.calls, q.calls);
    }

    // ---- ADD_TO_ANKI (src/background.js:234-382) ----

    /** The summary of the duplicate found: its fields, and the deck of its first card. */
    function SummaryRun(deckName: string, fieldName: string, ids: JsValue, m: NoteInfo, h: seq<Action>): Run<Lookup>
    {
      var backKey := AddBackKey(m.fields, fieldName);
      var back := if backKey.Some? && backKey.value != "" then ValueOf(m.fields, backKey.value) else "";
      var id := IdOf(m);
      var deck := if Truthy(id) then DeckRun(id, false, h) else Run(None, []);
      var resolved := if deck.value.Some? then deck.value.value else "";
      Run(Found(NoteSummary(Or(id, First(ids)), m.modelName, ValueOf(m.fields, fieldName), back,
        if resolved != "" then resolved else if deckName != "" then deckName else UnknownDeck)), deck.calls)
    }

    /** The choice among the notes found by the front text. */
    function DuplicateChoiceRun(deckName: string, fieldName: string, front: string, ids: JsValue, res: seq<NoteInfo>, h: seq<Action>): Run<Lookup>
    {
      var pick := PickRun(FrontMatches(res, fieldName, front), res, ids, deckName, h);
      match pick.value
      case None => Run(NotFound, pick.calls)
      case Some(m) => After(pick.calls, SummaryRun(deckName, fieldName, ids, m, h + pick.calls))
    }

    /** The query for the existing note of a duplicate: the deck restriction and the quoted front text. */
    function DuplicateQuery(note: NoteParams): string
    {
      Restriction("deck", note.deckName) + "\"" + Trim(ValueOf(note.fields, FrontName(note.fields))) + "\""
    }

    /** The search for the existing note after a duplicate error (src/background.js:270-370). */
    function DuplicateLookupRun(note: NoteParams, h: seq<Action>): Run<Lookup>
    {
      var find := FindNotes(DuplicateQuery(note));
      var a := answer(find, |h|);
      var ids := Or(ResultOf(a), Arr([]));
      if Fails(a) then Run(Unknown, [find])
      else if !Truthy(Length(ids)) then Run(NotFound, [find])
      else After([find], DuplicateInfoRun(note, ids, h + [find]))
    }

    /** The details of the notes found, and the choice among them. */
    function DuplicateInfoRun(note: NoteParams, ids: JsValue, h: seq<Action>): Run<Lookup>
    {
      var b := answer(NotesInfo(ids), |h|);
      if Fails(b) then Run(Unknown, [NotesInfo(ids)])
      else After([NotesInfo(ids)], DuplicateChoiceRun(note.deckName, FrontName(note.fields),
        Trim(ValueOf(note.fields, FrontName(note.fields))), ids, NotesOf(b), h + [NotesInfo(ids)]))
    }

    /** The reply to an `addNote` error with message `errMsg`. */
    function ErrorRun(note: NoteParams, errMsg: string, resultIsNull: bool, h: seq<Action>): Run<AddReply>
    {
      match ClassifyError(errMsg, resultIsNull)
      case FieldError =>
        if Truthy(note.modelName) then
          var b := answer(ModelFieldNames(note.modelName), |h|);
          Run(AddInvalidFields(errMsg, Some(note.modelName), if b.Threw? then None else Some(ListOr(ResultOf(b)))),
            [ModelFieldNames(note.modelName)])
        else Run(AddInvalidFields(errMsg, None, None), [])
      case DuplicateError =>
        var l := DuplicateLookupRun(note, h);
        Run(AddDuplicate(errMsg, l.value), l.calls)
      case OtherError => Run(AddFailure(errMsg), [])
    }

    function AddRun(note: NoteParams, h: seq<Action>): Run<AddReply>
    {
      var a := answer(AddNote(note), |h|);
      var data := DataOf(a);
      if Fails(a) then Run(AddFailure(FailureMessage(a)), [AddNote(note)])
      else if !Truthy(Prop(data, "error")) then Run(AddSuccess(Prop(data, "result")), [AddNote(note)])
      else After([AddNote(note)], ErrorRun(note, ToStr(Prop(data, "error")), Prop(data, "result") == Null, h + [AddNote(note)]))
    }

    method Summarise(deckName: string, fieldName: string, ids: JsValue, m: NoteInfo) returns (l: Lookup)
      modifies this`calls
      ensures var r := SummaryRun(deckName, fieldName, ids, m, old(calls));
              l == r.value && calls == old(calls) + r.calls
    {
      var backKey := AddBackKey(m.fields, fieldName);
      var back := if backKey.Some? && backKey.value != "" then ValueOf(m.fields, backKey.value) else "";
      var id := IdOf(m);
      var resolved := "";
      if Truthy(id) {
        var deck := DeckOfNote(id, false);
        if deck.Some? {
          resolved := deck.value;
        }
      }
      l := Found(NoteSummary(Or(id, First(ids)), m.modelName, ValueOf(m.fields, fieldName), back,
        if resolved != "" then resolved else if deckName != "" then deckName else UnknownDeck));
    }

    method ChooseDuplicate(deckName: string, fieldName: string, front: string, ids: JsValue, res: seq<NoteInfo>) returns (l: Lookup)
      modifies this`calls
      ensures var r := DuplicateChoiceRun(deckName, fieldName, front, ids, res, old(calls));
              l == r.value && calls == old(calls) + r.calls
    {
      ghost var before := calls;
      ghost var pick := PickRun(FrontMatches(res, fieldName, front), res, ids, deckName, before);
      var m := PickNote(FrontMatches(res, fieldName, front), res, ids, deckName);
      assert m == pick.value && calls == before + pick.calls;
      if m.None? {
        return NotFound;
      }
      ghost var d := SummaryRun(deckName, fieldName, ids, m.value, calls);
      l := Summarise(deckName, fieldName, ids, m.value);
      CallsAssoc(before, pick.calls, d.calls);
    }

    method InspectDuplicates(note: NoteParams, ids: JsValue) returns (l: Lookup)
      modifies this`calls
      ensures var r := DuplicateInfoRun(note, ids, old(calls));
              l == r.value && calls == old(calls) + r.calls
    {
      ghost var before := calls;
      var b := Call(NotesInfo(ids));
      if Fails(b) {
        return Unknown;
      }
      var fieldName := FrontName(note.fields);
      ghost var c := DuplicateChoiceRun(note.deckName, fieldName, Trim(ValueOf(note.fields, fieldName)), ids, NotesOf(b), calls);
      l := ChooseDuplicate(note.deckName, fieldName, Trim(ValueOf(note.fields, fieldName)), ids, NotesOf(b));
      CallsAssoc(before, [NotesInfo(ids)], c.calls);
    }

    method FindDuplicate(note: NoteParams) returns (l: Lookup)
      modifies this`calls
      ensures var r := DuplicateLookupRun(note, old(calls));
              l == r.value && calls == old(calls) + r.calls
    {
      ghost var before := calls;
      var find := FindNotes(DuplicateQuery(note));
      var a := Call(find);
      var ids := Or(ResultOf(a), Arr([]));
      if Fails(a) {
        return Unknown;
      }
      if !Truthy(Length(ids)) {
        return NotFound;
      }
      ghost var c := DuplicateInfoRun(note, ids, calls);
      l := InspectDuplicates(note, ids);
      CallsAssoc(before, [find], c.calls);
    }

    method ReportError(note: NoteParams, errMsg: string, resultIsNull: bool) returns (reply: AddReply)
      modifies this`calls
      ensures var r := ErrorRun(note, errMsg, resultIsNull, old(calls));
              reply == r.value && calls == old(calls) + r.calls
    {
      var kind := ClassifyError(errMsg, resultIsNull);
      if kind == FieldError {
        if Truthy(note.modelName) {
          var b := Call(ModelFieldNames(note.modelName));
          return AddInvalidFields(errMsg, Some(note.modelName), if b.Threw? then None else Some(ListOr(ResultOf(b))));
        }
        return AddInvalidFields(errMsg, None, None);
      } else if kind == DuplicateError {
        var existing := FindDuplicate(note);
        return AddDuplicate(errMsg, existing);
      }
      return AddFailure(errMsg);
    }

    /** The `ADD_TO_ANKI` handler. */
    method AddToAnki(note: NoteParams) returns (reply: AddReply)
      modifies this`calls
      ensures var r := AddRun(note, old(calls));
              reply == r.value && calls == old(calls) + r.calls
    {
      ghost var before := calls;
      var a := Call(AddNote(note));
      var data := DataOf(a);
      if Fails(a) {
        return AddFailure(FailureMessage(a));
      }
      if !Truthy(Prop(data, "error")) {
        return AddSuccess(Prop(data, "result"));
      }
      ghost var e := ErrorRun(note, ToStr(Prop(data, "error")), Prop(data, "result") == Null, calls);
      reply := ReportError(note, ToStr(Prop(data, "error")), Prop(data, "result") == Null);
      CallsAssoc(before, [AddNote(note)], e.calls);
    }

    // ---- GET_MODEL_FIELDS (src/background.js:597-617) ----

    function ModelFieldsRun(modelName: JsValue, h: seq<Action>): Run<FieldsReply>
    {
      if !Truthy(modelName) then Run(FieldsFailure(Str(ModelNameRequired)), [])
      else
        var a := answer(ModelFieldNames(modelName), |h|);
        var data := DataOf(a);
        Run(if Fails(a) then FieldsFailure(Str(FailureMessage(a)))
            else if Truthy(Prop(data, "error")) then FieldsFailure(Prop(data, "error"))
            else FieldsAnswer(ListOr(Prop(data, "result"))), [ModelFieldNames(modelName)])
    }

    /** The `GET_MODEL_FIELDS` handler. */
    method GetModelFields(modelName: JsValue) returns (reply: FieldsReply)
      modifies this`calls
      ensures var r := ModelFieldsRun(modelName, old(calls));
              reply == r.value && calls == old(calls) + r.calls
    {
      if !Truthy(modelName) {
        return FieldsFailure(Str(ModelNameRequired));
      }
      var a := Call(ModelFieldNames(modelName));
      var data := DataOf(a);
      if Fails(a) {
        reply := FieldsFailure(Str(FailureMessage(a)));
      } else if Truthy(Prop(data, "error")) {
        reply := FieldsFailure(Prop(data, "error"));
      } else {
        reply := FieldsAnswer(ListOr(Prop(data, "result")));
      }
    }

    // ---- what the handlers promise ----

    /**
     * A model whose field list does not hold the field, case ignored, ends
     * both exact handlers after the field lookup: no search is made, and
     * the answers are "not a duplicate" and "no existing note".
     */
    lemma {:induction false} NoSuchFieldNoSearch(req: ExactRequest, h: seq<Action>)
      requires req.modelName != ""
      requires var v := ResultOf(answer(ModelFieldNames(Str(req.modelName)), |h|));
               v.Arr? && v.items != [] &&
               forall i :: 0 <= i < |v.items| ==> v.items[i].Str? && Lower(v.items[i].s) != Lower(NameOr(req.fieldName))
      ensures CheckRun(req, h) == Run(DuplicateAnswer(false), [ModelFieldNames(Str(req.modelName))])
      ensures ExistingRun(req, h) == Run(NoExisting, [ModelFieldNames(Str(req.modelName))])
    {
      var v := ResultOf(answer(ModelFieldNames(Str(req.modelName)), |h|));
      var r := FindIgnoreCase(v.items, NameOr(req.fieldName));
      assert MissedBefore(v.items, NameOr(req.fieldName), |v.items|);
      assert r.Miss?;
    }

    /**
     * A search that finds nothing ends `CHECK_DUPLICATE_EXACT` with "not a
     * duplicate" before any note is read.
     */
    lemma NoHitsNotDuplicate(req: ExactRequest, field: Option<string>, h: seq<Action>)
      requires var a := answer(FindNotes(ExactQuery(req.deckName, req.modelName, field, req.text)), |h|);
               a.Body? && a.data.Obj? && (ResultOf(a) == Arr([]) || ResultOf(a) == Null || ResultOf(a) == Undefined)
      ensures SearchRun(req, field, h) == Run(DuplicateAnswer(false), [FindNotes(ExactQuery(req.deckName, req.modelName, field, req.text))])
    {
      var a := answer(FindNotes(ExactQuery(req.deckName, req.modelName, field, req.text)), |h|);
      assert !Fails(a);
      assert !Truthy(ResultOf(a)) || Length(ResultOf(a)) == Num(0);
    }

    /** The same for `GET_EXISTING_BY_FRONT`: no hits, `result: null`, and no note is read. */
    lemma NoHitsNoExisting(req: ExactRequest, step: FieldStep, h: seq<Action>)
      requires step.Primary?
      requires var a := answer(FindNotes(ExactQuery(req.deckName, req.modelName, step.field, Trim(req.text))), |h|);
               && a.Body? && a.data.Obj?
               && ((ResultOf(a).Arr? && |ResultOf(a).items| == 0) || ResultOf(a).Null? || ResultOf(a).Undefined?)
      ensures LookupRun(req, step, h) == Run(NoExisting, [FindNotes(ExactQuery(req.deckName, req.modelName, step.field, Trim(req.text)))])
    {
      var a := answer(FindNotes(ExactQuery(req.deckName, req.modelName, step.field, Trim(req.text))), |h|);
      assert !Fails(a);
      assert Length(Or(ResultOf(a), Arr([]))) == Num(0);
    }

    /**
     * When the search finds notes and their details come back, the reply
     * is a duplicate exactly when one of them matches the text exactly.
     */
    lemma DuplicateIffExactMatch(req: ExactRequest, field: Option<string>, notes: seq<NoteInfo>, h: seq<Action>)
      requires var a := answer(FindNotes(ExactQuery(req.deckName, req.modelName, field, req.text)), |h|);
               a.Body? && a.data.Obj? && ResultOf(a).Arr? && ResultOf(a).items != [] &&
               answer(NotesInfo(ResultOf(a)), |h| + 1) == Notes(Some(notes))
      ensures SearchRun(req, field, h).value == DuplicateAnswer(exists i :: 0 <= i < |notes| && IsExactMatch(notes[i], field, req.text))
      ensures |SearchRun(req, field, h).calls| == 2
    {
    }

    /**
     * Once the field is settled, both exact handlers send the same search
     * for a text without surrounding blanks.
     */
    lemma SameSearchInBothHandlers(req: ExactRequest, h: seq<Action>)
      requires req.text == Trim(req.text)
      requires PrimaryRun(req.modelName, req.fieldName, h).value.Primary?
      ensures var p := PrimaryRun(req.modelName, req.fieldName, h);
              var find := FindNotes(ExactQuery(req.deckName, req.modelName, p.value.field, req.text));
              && CheckRun(req, h).calls[..|p.calls| + 1] == p.calls + [find]
              && ExistingRun(req, h).calls[..|p.calls| + 1] == p.calls + [find]
    {
      var p := PrimaryRun(req.modelName, req.fieldName, h);
      var s := SearchRun(req, p.value.field, h + p.calls);
      var l := LookupRun(req, p.value, h + p.calls);
      assert CheckRun(req, h).calls == p.calls + s.calls;
      assert ExistingRun(req, h).calls == p.calls + l.calls;
      SearchAfter(p.calls, s.calls);
      SearchAfter(p.calls, l.calls);
    }

    /** Helper: the first call after a prefix. */
    lemma SearchAfter(pre: seq<Action>, rest: seq<Action>)
      requires rest != []
      ensures (pre + rest)[..|pre| + 1] == pre + [rest[0]]
    {
    }

    /** The front described for a note is the value of the field the search was made on. */
    lemma DescribedFront(req: ExactRequest, step: FieldStep, ids: JsValue, note: NoteInfo, h: seq<Action>)
      requires step.Primary?
      requires DescribeRun(req, step, ids, note, h).value.Existing?
      ensures DescribeRun(req, step, ids, note, h).value.note.front == ValueOf(note.fields, ResolvedKey(note.fields, step.field))
    {
    }

    /**
     * Without a deck to refine by, a note that matches exactly is always
     * preferred: the front of the note described matches the text.
     */
    lemma {:induction false} ExactNotePreferred(req: ExactRequest, step: FieldStep, ids: JsValue, res: seq<NoteInfo>, h: seq<Action>)
      requires step.Primary? && req.deckName == ""
      requires AnyMatch(res, step.field, Trim(req.text))
      requires ChooseRun(req, step, ids, res, h).value.Existing?
      ensures PlainText(ChooseRun(req, step, ids, res, h).value.note.front) == Trim(req.text)
    {
      var c := ExactMatches(res, step.field, Trim(req.text));
      assert PickRun(c, res, ids, req.deckName, h) == Run(Some(c[0]), []);
      DescribesPicked(req, step, ids, res, h, c[0]);
      DescribedFront(req, step, ids, c[0], h + []);
      assert IsExactMatch(c[0], step.field, Trim(req.text));
      TrimIdempotent(req.text);
    }

    /** Helper: a choice made without any call describes the note chosen. */
    lemma DescribesPicked(req: ExactRequest, step: FieldStep, ids: JsValue, res: seq<NoteInfo>, h: seq<Action>, note: NoteInfo)
      requires step.Primary?
      requires PickRun(ExactMatches(res, step.field, Trim(req.text)), res, ids, req.deckName, h) == Run(Some(note), [])
      ensures ChooseRun(req, step, ids, res, h) == After([], DescribeRun(req, step, ids, note, h + []))
    {
    }

    /**
     * Without a deck and without an exact match, the first note the search
     * found is described all the same.
     */
    lemma FirstHitWhenNoneExact(req: ExactRequest, step: FieldStep, ids: JsValue, res: seq<NoteInfo>, h: seq<Action>)
      requires step.Primary? && req.deckName == "" && res != []
      requires !AnyMatch(res, step.field, Trim(req.text))
      requires ChooseRun(req, step, ids, res, h).value.Existing?
      ensures ChooseRun(req, step, ids, res, h).value.note.id == Or(IdOf(res[0]), First(ids))
    {
    }

    /** An `addNote` error that looks like a field error is reported as invalid fields even when the result is `null`. */
    lemma FieldErrorNotDuplicate(note: NoteParams, msg: string, h: seq<Action>)
      requires answer(AddNote(note), |h|) == Body(Obj(map["error" := Str(msg), "result" := Null]))
      requires LooksLikeFieldError(msg)
      ensures AddRun(note, h).value.AddInvalidFields?
      ensures forall i :: 0 <= i < |AddRun(note, h).calls| ==> !AddRun(note, h).calls[i].FindNotes?
    {
      var data := Obj(map["error" := Str(msg), "result" := Null]);
      assert Prop(data, "error") == Str(msg);
    }

    /** An `addNote` answered without an error is a success carrying the result, and nothing else is sent. */
    lemma AddWithoutError(note: NoteParams, v: JsValue, h: seq<Action>)
      requires answer(AddNote(note), |h|) == Body(Obj(map["result" := v]))
      ensures AddRun(note, h) == Run(AddSuccess(v), [AddNote(note)])
    {
      var data := Obj(map["result" := v]);
      assert "error" !in data.props;
    }

    /**
     * The existing note reported with a duplicate, when no deck is given
     * and a note's front matches: its front, tags removed and trimmed, is
     * the trimmed front text of the rejected note.
     */
    lemma {:induction false} DuplicateFrontMatches(fieldName: string, front: string, ids: JsValue, res: seq<NoteInfo>, h: seq<Action>)
      requires exists i :: 0 <= i < |res| && PlainText(ValueOf(res[i].fields, fieldName)) == front
      ensures DuplicateChoiceRun("", fieldName, front, ids, res, h).value.Found?
      ensures PlainText(DuplicateChoiceRun("", fieldName, front, ids, res, h).value.note.front) == front
    {
      FirstFrontMatch(res, fieldName, front);
      SummarisesFirstMatch(fieldName, front, ids, res, h);
    }

    /** Helper: some note matches, so the first candidate does. */
    lemma FirstFrontMatch(res: seq<NoteInfo>, fieldName: string, front: string)
      requires exists i :: 0 <= i < |res| && PlainText(ValueOf(res[i].fields, fieldName)) == front
      ensures var c := FrontMatches(res, fieldName, front); c != [] && PlainText(ValueOf(c[0].fields, fieldName)) == front
    {
    }

    /** Helper: without a deck the first candidate is summarised, under the field the front was searched in. */
    lemma SummarisesFirstMatch(fieldName: string, front: string, ids: JsValue, res: seq<NoteInfo>, h: seq<Action>)
      requires FrontMatches(res, fieldName, front) != []
      ensures var m := FrontMatches(res, fieldName, front)[0];
              && DuplicateChoiceRun("", fieldName, front, ids, res, h).value.Found?
              && DuplicateChoiceRun("", fieldName, front, ids, res, h).value.note.front == ValueOf(m.fields, fieldName)
    {
      var c := FrontMatches(res, fieldName, front);
      assert PickRun(c, res, ids, "", h).value == Some(c[0]);
    }

    /** `GET_MODEL_FIELDS` without a model name sends nothing; with one, a list result is passed on and any other becomes `[]`. */
    lemma ModelFieldsNormalised(modelName: JsValue, v: JsValue, h: seq<Action>)
      requires Truthy(modelName) ==> answer(ModelFieldNames(modelName), |h|) == Body(Obj(map["result" := v]))
      ensures !Truthy(modelName) ==> ModelFieldsRun(modelName, h) == Run(FieldsFailure(Str(ModelNameRequired)), [])
      ensures Truthy(modelName) ==>
                ModelFieldsRun(modelName, h) == Run(FieldsAnswer(if v.Arr? then v.items else []), [ModelFieldNames(modelName)])
    {
      var data := Obj(map["result" := v]);
      assert "error" !in data.props;
    }
  }
}
