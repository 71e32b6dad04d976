/**
 * The stateful half of `src/content/anki.js`: the per-model field mapping
 * memo, the `chrome.runtime.sendMessage` wrappers and the save flows
 * `saveToAnki` / `saveKanjiToAnki` (check → preview → keep, or delete → add).
 *
 * The background page is a scripted function: the answer to a message is
 * `respond(request, n)`, where `n` is the position of that message in the
 * log. The log records every message sent, every duplicate preview shown
 * and the feedback the flow finally shows.
 */
module AnkiFlow {
  import opened Wrappers
  import opened Strings
  import opened Js
  import opened AnkiNotes
  import Api

  // ---------------------------------------------------------------------
  // Messages, answers and the log
  // ---------------------------------------------------------------------

  /** The messages the content script sends to the background page. */
  datatype Request =
    | GetModelFields(modelName: JsValue)
    | CheckDuplicateExact(fieldName: Option<string>, modelName: JsValue, text: string, deckName: Option<string>)
    | GetExistingByFront(fieldName: Option<string>, modelName: JsValue, text: string, deckName: Option<string>)
    | DeleteNotes(ids: seq<JsValue>)
    | AddNote(note: Note)
    | TestConnection(url: string)

  /** How a message wrapper's promise settles. */
  datatype Reply<T> = Resolved(value: T) | Rejected(reason: JsValue)

  /** The user's answer to the duplicate preview. */
  datatype Decision = Confirm | Cancel

  /** The feedback a save ends with. */
  datatype Outcome =
    | SaveSuccess
    | SaveError(message: string)
    | KanjiSaveSuccess
    | KanjiSaveError(message: string)

  datatype Event =
    | Sent(req: Request)
    | ModalShown(existing: JsValue)
    | Shown(outcome: Outcome)

  /** What `addNoteToAnki` resolves with. */
  datatype AddResult =
    | Added(id: JsValue)
    | InvalidFields(modelName: JsValue, modelFields: JsValue, error: JsValue)
    | Duplicate(existing: JsValue, error: JsValue)

  /** `response && response.success`. */
  predicate Succeeded(resp: JsValue)
  {
    Truthy(resp) && Truthy(Prop(resp, "success"))
  }

  /**
   * The common wrapper shape: resolve with `response[key]` on success,
   * otherwise reject with `response.error`, or with `fallback` when there
   * was no response at all.
   */
  function Answer(resp: JsValue, key: string, fallback: string): (r: Reply<JsValue>)
    ensures r.Resolved? <==> Succeeded(resp)
    ensures r.Resolved? ==> r.value == Prop(resp, key)
    ensures !Truthy(resp) ==> r == Rejected(Str(fallback))
  {
    if Succeeded(resp) then Resolved(Prop(resp, key))
    else Rejected(if Truthy(resp) then Prop(resp, "error") else Str(fallback))
  }

  /** `checkDuplicateExact`: resolves with `isDuplicate`. */
  function DuplicateReply(resp: JsValue): Reply<JsValue>
  {
    Answer(resp, "isDuplicate", DuplicateCheckError)
  }

  /** `getExistingByFront`: resolves with the existing note or `null`. */
  function ExistingReply(resp: JsValue): Reply<JsValue>
  {
    Answer(resp, "result", LookupError)
  }

  /** `deleteNotes`: resolves with `true`, otherwise rejects as the common wrapper does. */
  function DeleteReply(resp: JsValue): (r: Reply<JsValue>)
    ensures r.Resolved? <==> Succeeded(resp)
    ensures r.Resolved? ==> r.value == Bool(true)
    ensures r.Rejected? ==> r == Answer(resp, "result", DeleteError)
  {
    if Succeeded(resp) then Resolved(Bool(true)) else Answer(resp, "result", DeleteError)
  }

  /** `promise.catch(() => null)`. */
  function OrNull(r: Reply<JsValue>): JsValue
  {
    match r
    case Resolved(v) => v
    case Rejected(_) => Null
  }

  /**
   * `addNoteToAnki`: success, then invalid fields, then duplicate, then a
   * rejection with the error (or a fixed message when there is none).
   */
  function ClassifyAdd(resp: JsValue): (r: Reply<AddResult>)
    ensures Succeeded(resp) ==> r == Resolved(Added(Prop(resp, "result")))
    ensures !Succeeded(resp) && Truthy(resp) && Truthy(Prop(resp, "invalidFields")) ==>
              r == Resolved(InvalidFields(Prop(resp, "modelName"), Prop(resp, "modelFields"), Prop(resp, "error")))
    ensures r.Resolved? && r.value.Duplicate? <==>
              !Succeeded(resp) && Truthy(resp) && !Truthy(Prop(resp, "invalidFields")) && Truthy(Prop(resp, "duplicate"))
    ensures r.Rejected? <==>
              !Truthy(resp) || (!Truthy(Prop(resp, "success")) && !Truthy(Prop(resp, "invalidFields")) && !Truthy(Prop(resp, "duplicate")))
    ensures r.Rejected? && Truthy(resp) && Truthy(Prop(resp, "error")) ==> r.reason == Prop(resp, "error")
  {
    if Succeeded(resp) then Resolved(Added(Prop(resp, "result")))
    else if Truthy(resp) && Truthy(Prop(resp, "invalidFields")) then
      Resolved(InvalidFields(Prop(resp, "modelName"), Prop(resp, "modelFields"), Prop(resp, "error")))
    else if Truthy(resp) && Truthy(Prop(resp, "duplicate")) then
      Resolved(Duplicate(Prop(resp, "existing"), Prop(resp, "error")))
    else if Truthy(resp) && Truthy(Prop(resp, "error")) then Rejected(Prop(resp, "error"))
    else Rejected(Str(AddError))
  }

  predicate IsAdded(r: Reply<AddResult>) { r.Resolved? && r.value.Added? }
  predicate IsDuplicate(r: Reply<AddResult>) { r.Resolved? && r.value.Duplicate? }
  predicate IsInvalid(r: Reply<AddResult>) { r.Resolved? && r.value.InvalidFields? }

  /** `fetchModelFields`: the list on success, `[]` on any failure. */
  function ModelFieldsOf(resp: JsValue): (r: seq<string>)
    ensures !Succeeded(resp) || !Prop(resp, "result").Arr? ==> r == []
    ensures Succeeded(resp) && Prop(resp, "result").Arr? ==> |r| == |Prop(resp, "result").items|
  {
    var v := Prop(resp, "result");
    if Succeeded(resp) && v.Arr? then seq(|v.items|, i requires 0 <= i < |v.items| => StrOr(v.items[i])) else []
  }

  // ---------------------------------------------------------------------
  // Message texts
  // ---------------------------------------------------------------------

  /**
   * The text the catch block tests: `typeof error === 'string' ? error :
   * (error?.message || '네트워크 오류')`, as the regular expression reads it
   * (the `String` of a non-string message).
   */
  function RejectMessage(reason: JsValue): (r: string)
    ensures reason.Str? ==> r == reason.s
    ensures !reason.Str? && Prop(reason, "message").Str? && Prop(reason, "message").s != "" ==> r == Prop(reason, "message").s
    ensures !reason.Str? && Prop(reason, "message").Num? && Prop(reason, "message").n > 0 ==> IsDecimal(r) && DecimalValue(r) == Prop(reason, "message").n
    ensures !reason.Str? && !Truthy(Prop(reason, "message")) ==> r == NetworkErrorDefault
  {
    if reason.Str? then reason.s
    else if Truthy(Prop(reason, "message")) then ToStr(Prop(reason, "message"))
    else NetworkErrorDefault
  }

  /** `/fetch|network|failed/i.test(msg)`. */
  predicate IsNetworkMessage(msg: string)
  {
    Contains(Lower(msg), "fetch") || Contains(Lower(msg), "network") || Contains(Lower(msg), "failed")
  }

  /** The Korean default is not recognised as a network error: it is not ASCII. */
  lemma DefaultRejectIsNotNetwork()
    ensures !IsNetworkMessage(NetworkErrorDefault)
  {
    var m := NetworkErrorDefault;
    assert Lower(m) == m;
    forall sub: string, i | sub in {"fetch", "network", "failed"} && 0 <= i <= |m| - |sub|
      ensures !OccursAt(m, sub, i)
    {
      assert m[i] != sub[0];
    }
  }

  /** `checkDuplicateExact`'s rejection without a response. */
  const DuplicateCheckError: string := "Anki 중복 검사 오류"

  /** `getExistingByFront`'s rejection without a response. */
  const LookupError: string := "기존 노트 조회 오류"

  /** `deleteNotes`' rejection without a response. */
  const DeleteError: string := "노트 삭제 오류"

  /** `addNoteToAnki`'s rejection without an error of the background's. */
  const AddError: string := "Anki 저장 오류"

  /** The message of a rejection that carries none. */
  const NetworkErrorDefault: string := "네트워크 오류"

  /** The head of the connectivity help. */
  const CannotConnect: string := "Anki에 연결할 수 없습니다. Anki가 실행 중인지, AnkiConnect 애드온이 설치 및 활성화되었는지 확인해 주세요. 기본 주소는 "

  /** The diagnosis standing in for a missing answer. */
  const DiagnosisError: string := "연결 확인 중 오류가 발생했습니다."

  /** A fallback add that was neither accepted nor a duplicate. */
  const AlreadyInAnki: string := "이미 Anki에 저장된 단어입니다."

  /** A kanji replacement whose deletion failed. */
  const KanjiDeleteFailed: string := "삭제 실패"

  /** A word replacement whose deletion failed. */
  const DeleteThenSaveFailed: string := "삭제 후 저장 실패"

  /** A kanji save that could not reach Anki. */
  const KanjiConnectFailed: string := "Anki 연결 실패"

  /** A kanji save that failed otherwise. */
  const KanjiError: string := "Anki 오류"

  /** A kanji add refused by a reachable Anki. */
  const KanjiSaveFailed: string := "저장 실패"

  /** The head of the missing-fields message. */
  const InvalidFieldsHead: string := "모델("

  /** The middle of the missing-fields message. */
  const InvalidFieldsMiddle: string := ")에 필요한 필드가 없습니다. 필드 목록: "

  /** The field list of the missing-fields message when it is unknown. */
  const UnknownFields: string := "알 수 없음"

  /** The end of the connectivity help, after the address. */
  const AddressTail: string := " 입니다."

  const GenericError: string := "작업 처리 중 오류가 발생했습니다."

  /**
   * The `TypeError` `createAnkiNote` throws when `wordInfo` is `null`, with
   * the message Chrome gives it (written word by word).
   */
  const NoteError: JsValue := Obj(map["name" := Str("TypeError"), "message" := Str(NoteErrorMessage)])
  const NoteErrorMessage: string := "Cannot read" + " properties" + " of null" + " (reading" + " 'llmMeaning')"

  /** The note-building `TypeError` is not taken for a network failure, so the generic error shows. */
  lemma NoteErrorIsNotNetwork()
    ensures RejectMessage(NoteError) == NoteErrorMessage
    ensures !IsNetworkMessage(RejectMessage(NoteError))
  {
    var m := NoteErrorMessage;
    NoteErrorPairs();
    forall sub: string, i | sub in {"fetch", "network", "failed"} && 0 <= i <= |m| - |sub|
      ensures !OccursAt(Lower(m), sub, i)
    {
      assert !(LowerChar(m[i]) == sub[0] && LowerChar(m[i + 1]) == sub[1]);
    }
  }

  /** The note-building message holds no pair that, lower-cased, starts a network word. */
  lemma NoteErrorPairs()
    ensures NoNetworkPair(NoteErrorMessage)
  {
    var w1, w2, w3, w4, w5 := "Cannot read", " properties", " of null", " (reading", " 'llmMeaning')";
    NoteErrorWords();
    NoNetworkPairJoin(w1, w2);
    NoNetworkPairJoin(w1 + w2, w3);
    NoNetworkPairJoin(w1 + w2 + w3, w4);
    NoNetworkPairJoin(w1 + w2 + w3 + w4, w5);
  }

  lemma NoteErrorWords()
    ensures NoNetworkPair("Cannot read") && NoNetworkPair(" properties") && NoNetworkPair(" of null")
    ensures NoNetworkPair(" (reading") && NoNetworkPair(" 'llmMeaning')")
  {
    NoteErrorWord("Cannot read");
    NoteErrorWord(" properties");
    NoteErrorWord(" of null");
    NoteErrorWord(" (reading");
    NoteErrorWord(" 'llmMeaning')");
  }

  /** A word of at most 14 characters, checked pair by pair. */
  lemma NoteErrorWord(w: string)
    requires w in {"Cannot read", " properties", " of null", " (reading", " 'llmMeaning')"}
    ensures NoNetworkPair(w)
  {
  }

  /** No two neighbouring letters of `s`, lower-cased, start `fetch`, `network` or `failed`. */
  predicate NoNetworkPair(s: string)
  {
    forall i | 0 <= i < |s| - 1 :: !StartsNetworkWord(LowerChar(s[i]), LowerChar(s[i + 1]))
  }

  predicate StartsNetworkWord(c: char, c2: char)
  {
    (c == 'f' && (c2 == 'e' || c2 == 'a')) || (c == 'n' && c2 == 'e')
  }

  /** Joining before a space creates no such pair. */
  lemma NoNetworkPairJoin(x: string, y: string)
    requires NoNetworkPair(x) && NoNetworkPair(y) && 0 < |y| && y[0] == ' '
    ensures NoNetworkPair(x + y)
  {
    forall i | 0 <= i < |x + y| - 1
      ensures !StartsNetworkWord(LowerChar((x + y)[i]), LowerChar((x + y)[i + 1]))
    {
      if i + 1 < |x| {
        assert (x + y)[i] == x[i] && (x + y)[i + 1] == x[i + 1];
      } else if i >= |x| {
        assert (x + y)[i] == y[i - |x|] && (x + y)[i + 1] == y[i + 1 - |x|];
      }
    }
  }
  const SaveFailed: string := "카드 저장에 실패했습니다."
  const AlreadySaved: string := "이미 저장됨"

  /** The message for a note type that lacks the mapped fields. */
  function InvalidFieldsMessage(model: JsValue, modelFields: JsValue): string
  {
    InvalidFieldsHead + ToStr(model) + InvalidFieldsMiddle
      + (if modelFields.Arr? then Join(seq(|modelFields.items|, i requires 0 <= i < |modelFields.items| => ElementString(modelFields.items[i])), ", ")
         else UnknownFields)
  }

  /** `join(', ')` renders a `null` field name as nothing: `[null, "Front"]` lists as `, Front`. */
  lemma InvalidFieldsNullName(model: JsValue)
    ensures InvalidFieldsMessage(model, Arr([Null, Str("Front")])) == InvalidFieldsHead + ToStr(model) + InvalidFieldsMiddle + ", Front"
  {
    var items := [Null, Str("Front")];
    var parts := seq(|items|, i requires 0 <= i < |items| => ElementString(items[i]));
    assert parts == ["", "Front"];
    assert Join(parts, ", ") == "" + ", " + "Front";
  }

  /** `testAnkiConnectionClient`: a missing answer reads as a failed one. */
  function Diagnosis(resp: JsValue): (r: JsValue)
    ensures Truthy(r)
    ensures Truthy(resp) ==> r == resp
  {
    if Truthy(resp) then resp
    else Obj(map["success" := Bool(false), "error" := Str("unknown"), "message" := Str(DiagnosisError)])
  }

  /** The message of `showConnectivityHelp(base)` for a diagnosis. */
  function ConnectivityMessage(diag: JsValue, base: Option<string>, url: string): (r: string)
    ensures Truthy(Prop(diag, "success")) ==> r == (if base.Some? && base.value != "" then base.value else GenericError)
    ensures !Truthy(Prop(diag, "success")) ==>
              |r| >= |CannotConnect| + |url| && r[..|CannotConnect| + |url|] == CannotConnect + url
  {
    if Truthy(Prop(diag, "success")) then (if base.Some? && base.value != "" then base.value else GenericError)
    else CannotConnect
         + url + AddressTail + (if Truthy(Prop(diag, "message")) then "\n" + StrOr(Prop(diag, "message")) else "")
  }

  /** `deckNameFilter || null`: the empty deck name stands for no filter. */
  function DeckFilter(deckName: string): (r: Option<string>)
    ensures r.Some? <==> deckName != ""
    ensures r.Some? ==> r.value == deckName
  {
    if deckName != "" then Some(deckName) else None
  }

  /** The text the kanji flow checks for duplicates: `${kanji.kanji} [한자]`, untrimmed. */
  function KanjiCheckText(kanji: JsValue): string
  {
    ToStr(Prop(kanji, "kanji")) + " [한자]"
  }

  // ---------------------------------------------------------------------
  // The protocol every save keeps
  // ---------------------------------------------------------------------

  predicate IsDelete(e: Event) { e.Sent? && e.req.DeleteNotes? }
  predicate IsAdd(e: Event) { e.Sent? && e.req.AddNote? }
  predicate IsSuccess(o: Outcome) { o == SaveSuccess || o == KanjiSaveSuccess }

  /** Position `i`, if inside `es`, is a message and not a deletion. */
  predicate PlainAt(es: seq<Event>, i: int)
  {
    0 <= i < |es| ==> es[i].Sent? && !es[i].req.DeleteNotes?
  }

  /** Only messages, and none of them a deletion. */
  predicate Plain(es: seq<Event>)
  {
    forall i | 0 <= i < |es| :: PlainAt(es, i)
  }

  /**
   * What follows a duplicate preview at `i`: on cancel only the final
   * feedback; on confirm the deletion of the previewed note's id, then, if
   * any message follows, the add, and then the feedback.
   */
  predicate AfterPreview(es: seq<Event>, i: nat, d: Decision)
    requires i < |es| && es[i].ModalShown?
  {
    if d == Cancel then i + 2 == |es|
    else
      && (i + 3 == |es| || i + 4 == |es|)
      && es[i + 1] == Sent(DeleteNotes([Prop(es[i].existing, "id")]))
      && (i + 4 == |es| ==> IsAdd(es[i + 2]))
  }

  /**
   * Position `i`, if inside `es`, is in its place: feedback only last, a
   * preview followed as AfterPreview says, a deletion right after the
   * preview of the note it deletes.
   */
  predicate InPlace(es: seq<Event>, i: int, d: Decision)
  {
    0 <= i < |es| ==>
      && (i < |es| - 1 ==> !es[i].Shown?)
      && (es[i].ModalShown? ==> AfterPreview(es, i, d))
      && (IsDelete(es[i]) ==> 0 < i && es[i - 1].ModalShown? && es[i].req.ids == [Prop(es[i - 1].existing, "id")])
  }

  /** The events of one save: a final feedback, and every event in its place. */
  predicate Protocol(es: seq<Event>, d: Decision)
  {
    |es| > 0 && es[|es| - 1].Shown? && forall i | 0 <= i < |es| :: InPlace(es, i, d)
  }

  /**
   * Position `i`, if inside `es` and an add, carries the note `note` holds;
   * `None`, a note that could not be built, is never added.
   */
  predicate CarriesAt(es: seq<Event>, i: int, note: Option<Note>)
  {
    0 <= i < |es| && IsAdd(es[i]) ==> note == Some(es[i].req.note)
  }

  /** Every add among the events carries `note`. */
  predicate Carry(es: seq<Event>, note: Option<Note>)
  {
    forall i | 0 <= i < |es| :: CarriesAt(es, i, note)
  }

  /** A save whose user keeps the existing note never deletes anything, and sends nothing after the preview. */
  lemma CancelNeverDeletes(es: seq<Event>)
    requires Protocol(es, Cancel)
    ensures forall i :: 0 <= i < |es| ==> !IsDelete(es[i])
    ensures forall i, j :: 0 <= i < j < |es| && es[i].ModalShown? ==> !es[j].Sent?
  {
    forall i | 0 <= i < |es|
      ensures !IsDelete(es[i])
    {
      assert InPlace(es, i, Cancel);
      assert InPlace(es, i - 1, Cancel);
    }
    forall i, j | 0 <= i < j < |es| && es[i].ModalShown?
      ensures !es[j].Sent?
    {
      assert InPlace(es, i, Cancel);
    }
  }

  /** A deletion happens only on confirm and is answered by the add or by the final feedback. */
  lemma DeleteThenAdd(es: seq<Event>, d: Decision)
    requires Protocol(es, d)
    ensures forall i :: 0 <= i < |es| && IsDelete(es[i]) ==>
              d == Confirm && i + 1 < |es| && (IsAdd(es[i + 1]) || es[i + 1].Shown?)
  {
    forall i | 0 <= i < |es| && IsDelete(es[i])
      ensures d == Confirm && i + 1 < |es| && (IsAdd(es[i + 1]) || es[i + 1].Shown?)
    {
      assert InPlace(es, i, d);
      assert InPlace(es, i - 1, d);
    }
  }

  /** Plain messages in front of a save leave it a save. */
  lemma ProtocolThen(p: seq<Event>, q: seq<Event>, d: Decision)
    requires Plain(p) && Protocol(q, d)
    ensures Protocol(p + q, d)
  {
    var es := p + q;
    assert es[|es| - 1] == q[|q| - 1];
    forall i | 0 <= i < |es|
      ensures InPlace(es, i, d)
    {
      if 0 <= i < |p| {
        assert PlainAt(p, i);
        assert es[i] == p[i];
      } else if |p| <= i < |es| {
        var k := i - |p|;
        assert InPlace(q, k, d);
        assert es[i] == q[k];
        if k + 1 < |q| { assert es[i + 1] == q[k + 1]; }
        if k + 2 < |q| { assert es[i + 2] == q[k + 2]; }
        if 0 < k { assert es[i - 1] == q[k - 1]; }
      }
    }
  }

  lemma CarryThen(p: seq<Event>, q: seq<Event>, note: Option<Note>)
    requires Carry(p, note) && Carry(q, note)
    ensures Carry(p + q, note)
  {
    forall i | 0 <= i < |p + q|
      ensures CarriesAt(p + q, i, note)
    {
      if 0 <= i < |p| { assert CarriesAt(p, i, note); assert (p + q)[i] == p[i]; }
      else if |p| <= i < |p + q| { assert CarriesAt(q, i - |p|, note); assert (p + q)[i] == q[i - |p|]; }
    }
  }

  lemma AppendAssoc(a: seq<Event>, b: seq<Event>, c: seq<Event>)
    ensures a + b + c == a + (b + c)
  {
  }

  /** Which confirm handler of the source a preview belongs to. */
  datatype Retry = ReplaceOnPreCheck | ReplaceOnFallback | ReplaceOnPostAdd | ReplaceKanjiOnPreCheck | ReplaceKanjiOnPostAdd

  predicate IsKanji(v: Retry) { v == ReplaceKanjiOnPreCheck || v == ReplaceKanjiOnPostAdd }

  /** The feedback a confirm handler shows for the result of its add. */
  function RetryOutcome(v: Retry, r: AddResult, noteType: JsValue): (o: Outcome)
    ensures IsSuccess(o) <==> r.Added?
    ensures IsKanji(v) <==> o.KanjiSaveSuccess? || o.KanjiSaveError?
  {
    match v
    case ReplaceOnPreCheck =>
      if r.Added? then SaveSuccess else if r.Duplicate? then SaveError(AlreadySaved) else SaveError(SaveFailed)
    case ReplaceOnFallback =>
      if r.Added? then SaveSuccess else SaveError(SaveFailed)
    case ReplaceOnPostAdd =>
      if r.Added? then SaveSuccess
      else if r.InvalidFields? then SaveError(InvalidFieldsMessage(if Truthy(r.modelName) then r.modelName else noteType, r.modelFields))
      else SaveError(SaveFailed)
    case ReplaceKanjiOnPreCheck =>
      if r.Added? then KanjiSaveSuccess else if r.Duplicate? then KanjiSaveError(AlreadySaved) else KanjiSaveError(KanjiSaveFailed)
    case ReplaceKanjiOnPostAdd =>
      if r.Added? then KanjiSaveSuccess else KanjiSaveError(KanjiSaveFailed)
  }

  /** The feedback when the deletion or the add of a confirm handler rejects. */
  function RetryFailed(v: Retry): (o: Outcome)
    ensures !IsSuccess(o)
    ensures IsKanji(v) <==> o.KanjiSaveError?
  {
    if IsKanji(v) then KanjiSaveError(KanjiDeleteFailed) else SaveError(DeleteThenSaveFailed)
  }

  /** The feedback when the existing note stays: on cancel, or when it cannot be found. */
  function Kept(v: Retry): (o: Outcome)
    ensures !IsSuccess(o)
    ensures IsKanji(v) <==> o.KanjiSaveError?
  {
    if IsKanji(v) then KanjiSaveError(AlreadySaved) else SaveError(AlreadySaved)
  }

  /** The outer `catch` of `saveKanjiToAnki`. */
  function KanjiCatchOutcome(reason: JsValue): (o: Outcome)
    ensures o.KanjiSaveError?
    ensures o.message == KanjiConnectFailed <==> IsNetworkMessage(RejectMessage(reason))
  {
    KanjiSaveError(if IsNetworkMessage(RejectMessage(reason)) then KanjiConnectFailed else KanjiError)
  }

  /** `!diag || !diag.success` after a kanji add that was neither accepted nor a duplicate. */
  function KanjiDiagnosisOutcome(resp: JsValue): (o: Outcome)
    ensures o.KanjiSaveError?
    ensures o.message == KanjiSaveFailed <==> Truthy(Prop(Diagnosis(resp), "success"))
  {
    KanjiSaveError(if Truthy(Prop(Diagnosis(resp), "success")) then KanjiSaveFailed else KanjiConnectFailed)
  }

  /**
   * The stages of a save. `Modal` is a duplicate preview and its handlers;
   * `Lookup` finds the note to preview; the word and kanji stages follow
   * the branches of `saveToAnki` and `saveKanjiToAnki`. Where the source
   * builds the word note only inside a branch, the stage carries `built`:
   * the note, or `None` when `createAnkiNote` throws there.
   */
  datatype Stage =
    | Modal(existing: JsValue, built: Option<Note>, v: Retry)
    | Lookup(existing: JsValue, lookup: Request, note: Note, v: Retry)
    | Fallback(key: string, note: Note, field: Option<string>, deck: Option<string>)
    | WordDuplicate(key: string, built: Option<Note>, field: Option<string>, deck: Option<string>)
    | WordAddition(key: string, note: Note)
    | WordCheck(key: string, built: Option<Note>, field: Option<string>, deck: Option<string>)
    | KanjiAddition(key: string, note: Note, field: Option<string>, deck: Option<string>)
    | KanjiCheck(key: string, note: Note, field: Option<string>, deck: Option<string>)

  /** How many stages may still follow. */
  function Rank(st: Stage): nat
  {
    match st
    case Modal(_, _, _) => 0
    case Lookup(_, _, _, _) => 1
    case Fallback(_, _, _, _) => 2
    case WordAddition(_, _) => 2
    case KanjiAddition(_, _, _, _) => 2
    case WordDuplicate(_, _, _, _) => 3
    case KanjiCheck(_, _, _, _) => 3
    case WordCheck(_, _, _, _) => 4
  }

  // ---------------------------------------------------------------------
  // The content script's Anki client
  // ---------------------------------------------------------------------

  class AnkiClient {
    /** The background page's answer to the message at a log position. */
    const respond: (Request, nat) -> JsValue
    /** `settings.noteType`, `settings.fieldMapping` and `settings.ankiConnectUrl`. */
    const noteType: JsValue
    const settingsMapping: FieldMap
    const url: string
    /** `__fieldCache`. */
    var fieldCache: map<JsValue, FieldMap>
    var log: seq<Event>

    constructor (respond: (Request, nat) -> JsValue, noteType: JsValue, settingsMapping: FieldMap, url: string)
      ensures this.respond == respond && this.noteType == noteType
      ensures this.settingsMapping == settingsMapping && this.url == url
      ensures fieldCache == map[] && log == []
    {
      this.respond := respond;
      this.noteType := noteType;
      this.settingsMapping := settingsMapping;
      this.url := url;
      fieldCache := map[];
      log := [];
    }

    /** `fieldNameOverride || settings.fieldMapping.word`. */
    function FieldFor(fieldOverride: Option<string>): (r: Option<string>)
      ensures IsSet(fieldOverride) ==> r == fieldOverride
      ensures !IsSet(fieldOverride) ==> r == settingsMapping.word
    {
      if IsSet(fieldOverride) then fieldOverride else settingsMapping.word
    }

    /**
     * A success shown last, by events starting at log position `n`, was
     * earned by one of their adds that the background answered with success.
     */
    predicate Earned(es: seq<Event>, n: nat)
    {
      (|es| > 0 && es[|es| - 1].Shown? && IsSuccess(es[|es| - 1].outcome)) ==>
        exists i | 0 <= i < |es| :: AddedAt(es, i, n)
    }

    /** Position `i` of events starting at log position `n` is an add the background answered with success. */
    predicate AddedAt(es: seq<Event>, i: int, n: nat)
    {
      0 <= i < |es| && IsAdd(es[i]) && IsAdded(ClassifyAdd(respond(es[i].req, n + i)))
    }

    /**
     * Position `i` of events starting at log position `n`, if a deletion
     * the background accepted, is followed at once by an add.
     */
    predicate ReAddsAt(es: seq<Event>, i: int, n: nat)
    {
      0 <= i < |es| && IsDelete(es[i]) && DeleteReply(respond(es[i].req, n + i)).Resolved? ==>
        i + 1 < |es| && IsAdd(es[i + 1])
    }

    /** Every deletion the background accepted is followed at once by the add of the replacement. */
    predicate ReAdds(es: seq<Event>, n: nat)
    {
      forall i | 0 <= i < |es| :: ReAddsAt(es, i, n)
    }

    /**
     * What every save promises about its events; `note` is the note the
     * save builds, `None` when building it throws. Once the note is built,
     * no accepted deletion goes without the add.
     */
    predicate Safe(es: seq<Event>, note: Option<Note>, d: Decision, n: nat)
    {
      Protocol(es, d) && Carry(es, note) && Earned(es, n) && (note.Some? ==> ReAdds(es, n))
    }

    /** Plain messages carrying no other note, in front of a save, leave it a save. */
    lemma SafeThen(p: seq<Event>, q: seq<Event>, note: Option<Note>, d: Decision, n: nat)
      requires Plain(p) && Carry(p, note) && Safe(q, note, d, n + |p|)
      ensures Safe(p + q, note, d, n)
    {
      ProtocolThen(p, q, d);
      CarryThen(p, q, note);
      var es := p + q;
      assert es[|es| - 1] == q[|q| - 1];
      if es[|es| - 1].Shown? && IsSuccess(es[|es| - 1].outcome) {
        var j :| 0 <= j < |q| && AddedAt(q, j, n + |p|);
        assert es[|p| + j] == q[j];
        assert AddedAt(es, |p| + j, n);
      }
      if note.Some? {
        forall i | 0 <= i < |es|
          ensures ReAddsAt(es, i, n)
        {
          if i < |p| {
            assert PlainAt(p, i);
            assert es[i] == p[i];
          } else {
            assert ReAddsAt(q, i - |p|, n + |p|);
            assert es[i] == q[i - |p|];
            if i + 1 < |es| { assert es[i + 1] == q[i + 1 - |p|]; }
          }
        }
      }
    }

    /** A final feedback that is not a success after plain messages is a save. */
    lemma ShownSafe(p: seq<Event>, o: Outcome, note: Option<Note>, d: Decision, n: nat)
      requires Plain(p) && Carry(p, note) && !IsSuccess(o)
      ensures Safe(p + [Shown(o)], note, d, n)
    {
      assert InPlace([Shown(o)], 0, d);
      assert ReAddsAt([Shown(o)], 0, n + |p|);
      SafeThen(p, [Shown(o)], note, d, n);
    }

    // ---- the events of a save, stage by stage, from log position n on ----

    /** `showConnectivityHelp(base)`: a diagnosis request, then the matching message. */
    function ConnectivityEvents(base: Option<string>, n: nat): seq<Event>
    {
      [Sent(TestConnection(url)), Shown(SaveError(ConnectivityMessage(Diagnosis(respond(TestConnection(url), n)), base, url)))]
    }

    /** The outer `catch` of `saveToAnki`. */
    function WordCatchEvents(reason: JsValue, n: nat): seq<Event>
    {
      if IsNetworkMessage(RejectMessage(reason)) then ConnectivityEvents(None, n)
      else [Shown(SaveError(GenericError))]
    }

    /** The feedback of a confirm handler once its deletion resolved and its add answered `resp`. */
    function ReplaceOutcome(v: Retry, resp: JsValue): (o: Outcome)
      ensures IsSuccess(o) <==> IsAdded(ClassifyAdd(resp))
    {
      match ClassifyAdd(resp)
      case Resolved(r) => RetryOutcome(v, r, noteType)
      case Rejected(_) => RetryFailed(v)
    }

    /**
     * The events of each stage of a save, `d` being the user's answer to
     * any duplicate preview.
     */
    function Events(st: Stage, d: Decision, n: nat): seq<Event>
      decreases Rank(st)
    {
      match st
      case Modal(existing, built, v) =>
        // showDuplicateModal(existing, onConfirm, onCancel); a note that cannot
        // be built after the deletion lands in the handler's catch
        var del := DeleteNotes([Prop(existing, "id")]);
        if d == Cancel then [ModalShown(existing), Shown(Kept(v))]
        else if DeleteReply(respond(del, n + 1)).Rejected? || built.None? then [ModalShown(existing), Sent(del), Shown(RetryFailed(v))]
        else [ModalShown(existing), Sent(del), Sent(AddNote(built.value)), Shown(ReplaceOutcome(v, respond(AddNote(built.value), n + 2)))]
      case Lookup(existing, lookup, note, v) =>
        // existing || await lookup.catch(() => null), then the preview of what was found
        if Truthy(existing) then Events(Modal(existing, Some(note), v), d, n)
        else
          var found := OrNull(ExistingReply(respond(lookup, n)));
          [Sent(lookup)] + (if Truthy(found) then Events(Modal(found, Some(note), v), d, n + 1) else [Shown(Kept(v))])
      case Fallback(key, note, field, deck) =>
        // the pre-check found a duplicate that the lookup could not find: add anyway
        var added := ClassifyAdd(respond(AddNote(note), n));
        [Sent(AddNote(note))] +
          if IsDuplicate(added) then
            Events(Lookup(added.value.existing, GetExistingByFront(field, noteType, key, deck), note, ReplaceOnFallback), d, n + 1)
          else [Shown(if IsAdded(added) then SaveSuccess else SaveError(AlreadyInAnki))]
      case WordDuplicate(key, built, field, deck) =>
        // the preview's confirm handler builds the note after deleting; the
        // fallback builds it first, and a throw there reaches the outer catch
        var lookup := GetExistingByFront(field, noteType, key, deck);
        var existing := OrNull(ExistingReply(respond(lookup, n)));
        [Sent(lookup)] +
          if Truthy(existing) then Events(Modal(existing, built, ReplaceOnPreCheck), d, n + 1)
          else if built.None? then WordCatchEvents(NoteError, n + 1)
          else Events(Fallback(key, built.value, field, deck), d, n + 1)
      case WordAddition(key, note) =>
        [Sent(AddNote(note))] +
          (match ClassifyAdd(respond(AddNote(note), n))
          case Rejected(reason) => WordCatchEvents(reason, n + 1)
          case Resolved(Added(_)) => [Shown(SaveSuccess)]
          case Resolved(InvalidFields(model, fields, _)) =>
            [Shown(SaveError(InvalidFieldsMessage(if Truthy(model) then model else noteType, fields)))]
          case Resolved(Duplicate(existing, _)) =>
            Events(Lookup(existing, GetExistingByFront(settingsMapping.word, noteType, key, None), note, ReplaceOnPostAdd), d, n + 1))
      case WordCheck(key, built, field, deck) =>
        var check := CheckDuplicateExact(field, noteType, key, deck);
        [Sent(check)] +
          (match DuplicateReply(respond(check, n))
          case Rejected(reason) => WordCatchEvents(reason, n + 1)
          case Resolved(isDuplicate) =>
            if Truthy(isDuplicate) then Events(WordDuplicate(key, built, field, deck), d, n + 1)
            else if built.None? then WordCatchEvents(NoteError, n + 1)
            else Events(WordAddition(key, built.value), d, n + 1))
      case KanjiAddition(key, note, field, deck) =>
        [Sent(AddNote(note))] +
          (match ClassifyAdd(respond(AddNote(note), n))
          case Rejected(reason) => [Shown(KanjiCatchOutcome(reason))]
          case Resolved(Added(_)) => [Shown(KanjiSaveSuccess)]
          case Resolved(Duplicate(existing, _)) =>
            Events(Lookup(existing, GetExistingByFront(field, noteType, key, deck), note, ReplaceKanjiOnPostAdd), d, n + 1)
          case Resolved(InvalidFields(_, _, _)) =>
            [Sent(TestConnection(url)), Shown(KanjiDiagnosisOutcome(respond(TestConnection(url), n + 1)))])
      case KanjiCheck(key, note, field, deck) =>
        var check := CheckDuplicateExact(field, noteType, key, deck);
        [Sent(check)] +
          (match DuplicateReply(respond(check, n))
          case Rejected(reason) => [Shown(KanjiCatchOutcome(reason))]
          case Resolved(isDuplicate) =>
            if Truthy(isDuplicate) then
              Events(Lookup(Null, GetExistingByFront(field, noteType, key, deck), note, ReplaceKanjiOnPreCheck), d, n + 1)
            else Events(KanjiAddition(key, note, field, deck), d, n + 1))
    }

    // ---- every stage keeps the protocol ----

    lemma ModalSafe(existing: JsValue, built: Option<Note>, v: Retry, d: Decision, n: nat)
      ensures var es := Events(Modal(existing, built, v), d, n);
              Safe(es, built, d, n) && es[0] == ModalShown(existing)
    {
      var es := Events(Modal(existing, built, v), d, n);
      assert AfterPreview(es, 0, d);
      if |es| == 4 && IsSuccess(es[3].outcome) {
        assert AddedAt(es, 2, n);
      }
      if built.Some? {
        forall i | 0 <= i < |es|
          ensures ReAddsAt(es, i, n)
        {
        }
      }
    }

    lemma LookupSafe(existing: JsValue, lookup: Request, note: Note, v: Retry, d: Decision, n: nat)
      requires lookup.GetExistingByFront?
      ensures Safe(Events(Lookup(existing, lookup, note, v), d, n), Some(note), d, n)
    {
      if Truthy(existing) {
        ModalSafe(existing, Some(note), v, d, n);
      } else {
        var found := OrNull(ExistingReply(respond(lookup, n)));
        if Truthy(found) {
          ModalSafe(found, Some(note), v, d, n + 1);
          SafeThen([Sent(lookup)], Events(Modal(found, Some(note), v), d, n + 1), Some(note), d, n);
        } else {
          ShownSafe([Sent(lookup)], Kept(v), Some(note), d, n);
        }
      }
    }

    lemma WordCatchSafe(reason: JsValue, note: Option<Note>, d: Decision, n: nat)
      ensures Safe(WordCatchEvents(reason, n), note, d, n)
    {
      var es := WordCatchEvents(reason, n);
      if IsNetworkMessage(RejectMessage(reason)) {
        ShownSafe([es[0]], es[1].outcome, note, d, n);
        assert es == [es[0]] + [Shown(es[1].outcome)];
      } else {
        ShownSafe([], es[0].outcome, note, d, n);
        assert es == [] + [Shown(es[0].outcome)];
      }
    }

    /** An add answered with success, then the success feedback. */
    lemma AddedSafe(note: Note, o: Outcome, d: Decision, n: nat)
      requires IsAdded(ClassifyAdd(respond(AddNote(note), n)))
      ensures Safe([Sent(AddNote(note)), Shown(o)], Some(note), d, n)
    {
      var es := [Sent(AddNote(note)), Shown(o)];
      ProtocolThen([Sent(AddNote(note))], [Shown(o)], d);
      assert es == [Sent(AddNote(note))] + [Shown(o)];
      assert AddedAt(es, 0, n);
    }

    lemma FallbackSafe(key: string, note: Note, field: Option<string>, deck: Option<string>, d: Decision, n: nat)
      ensures Safe(Events(Fallback(key, note, field, deck), d, n), Some(note), d, n)
    {
      var added := ClassifyAdd(respond(AddNote(note), n));
      var p := [Sent(AddNote(note))];
      if IsDuplicate(added) {
        var st := Lookup(added.value.existing, GetExistingByFront(field, noteType, key, deck), note, ReplaceOnFallback);
        LookupSafe(st.existing, st.lookup, note, ReplaceOnFallback, d, n + 1);
        SafeThen(p, Events(st, d, n + 1), Some(note), d, n);
      } else if IsAdded(added) {
        AddedSafe(note, SaveSuccess, d, n);
        assert Events(Fallback(key, note, field, deck), d, n) == [Sent(AddNote(note)), Shown(SaveSuccess)];
      } else {
        ShownSafe(p, SaveError(AlreadyInAnki), Some(note), d, n);
      }
    }

    lemma WordDuplicateSafe(key: string, built: Option<Note>, field: Option<string>, deck: Option<string>, d: Decision, n: nat)
      ensures Safe(Events(WordDuplicate(key, built, field, deck), d, n), built, d, n)
    {
      var lookup := GetExistingByFront(field, noteType, key, deck);
      var existing := OrNull(ExistingReply(respond(lookup, n)));
      var rest := Events(WordDuplicate(key, built, field, deck), d, n)[1..];
      assert Events(WordDuplicate(key, built, field, deck), d, n) == [Sent(lookup)] + rest;
      if Truthy(existing) {
        ModalSafe(existing, built, ReplaceOnPreCheck, d, n + 1);
      } else if built.None? {
        WordCatchSafe(NoteError, built, d, n + 1);
      } else {
        FallbackSafe(key, built.value, field, deck, d, n + 1);
      }
      SafeThen([Sent(lookup)], rest, built, d, n);
    }

    lemma WordAdditionSafe(key: string, note: Note, d: Decision, n: nat)
      ensures Safe(Events(WordAddition(key, note), d, n), Some(note), d, n)
    {
      var p := [Sent(AddNote(note))];
      match ClassifyAdd(respond(AddNote(note), n))
      case Rejected(reason) =>
        WordCatchSafe(reason, Some(note), d, n + 1);
        SafeThen(p, WordCatchEvents(reason, n + 1), Some(note), d, n);
      case Resolved(Added(_)) =>
        AddedSafe(note, SaveSuccess, d, n);
        assert Events(WordAddition(key, note), d, n) == [Sent(AddNote(note)), Shown(SaveSuccess)];
      case Resolved(InvalidFields(model, fields, _)) =>
        ShownSafe(p, SaveError(InvalidFieldsMessage(if Truthy(model) then model else noteType, fields)), Some(note), d, n);
      case Resolved(Duplicate(existing, _)) =>
        var lookup := GetExistingByFront(settingsMapping.word, noteType, key, None);
        LookupSafe(existing, lookup, note, ReplaceOnPostAdd, d, n + 1);
        SafeThen(p, Events(Lookup(existing, lookup, note, ReplaceOnPostAdd), d, n + 1), Some(note), d, n);
    }

    /** The word flow when the exact-duplicate check itself rejects. */
    lemma WordCheckRejectedSafe(key: string, built: Option<Note>, field: Option<string>, deck: Option<string>, d: Decision, n: nat)
      requires DuplicateReply(respond(CheckDuplicateExact(field, noteType, key, deck), n)).Rejected?
      ensures Safe(Events(WordCheck(key, built, field, deck), d, n), built, d, n)
    {
      var check := CheckDuplicateExact(field, noteType, key, deck);
      var reason := DuplicateReply(respond(check, n)).reason;
      WordCatchSafe(reason, built, d, n + 1);
      SafeThen([Sent(check)], WordCatchEvents(reason, n + 1), built, d, n);
    }

    /** The word flow when the exact-duplicate check answers. */
    lemma WordCheckResolvedSafe(key: string, built: Option<Note>, field: Option<string>, deck: Option<string>, d: Decision, n: nat)
      requires DuplicateReply(respond(CheckDuplicateExact(field, noteType, key, deck), n)).Resolved?
      ensures Safe(Events(WordCheck(key, built, field, deck), d, n), built, d, n)
    {
      var check := CheckDuplicateExact(field, noteType, key, deck);
      var rest := Events(WordCheck(key, built, field, deck), d, n)[1..];
      assert Events(WordCheck(key, built, field, deck), d, n) == [Sent(check)] + rest;
      if Truthy(DuplicateReply(respond(check, n)).value) {
        WordDuplicateSafe(key, built, field, deck, d, n + 1);
      } else if built.None? {
        WordCatchSafe(NoteError, built, d, n + 1);
      } else {
        WordAdditionSafe(key, built.value, d, n + 1);
      }
      SafeThen([Sent(check)], rest, built, d, n);
    }

    /**
     * Every run of `saveToAnki`, whether or not its note can be built,
     * keeps the protocol, adds only the word's note, shows success only
     * after an add the background accepted, and starts with the
     * exact-duplicate check of the trimmed text; once the note is built,
     * every deletion the background accepted is followed by its add.
     */
    lemma WordCheckSafe(key: string, built: Option<Note>, field: Option<string>, deck: Option<string>, d: Decision, n: nat)
      ensures var es := Events(WordCheck(key, built, field, deck), d, n);
              && Safe(es, built, d, n)
              && es[0] == Sent(CheckDuplicateExact(field, noteType, key, deck))
    {
      if DuplicateReply(respond(CheckDuplicateExact(field, noteType, key, deck), n)).Rejected? {
        WordCheckRejectedSafe(key, built, field, deck, d, n);
      } else {
        WordCheckResolvedSafe(key, built, field, deck, d, n);
      }
    }

    /**
     * As written: a word whose note cannot be built (`currentWordInfo` still
     * `null`, say), found by the duplicate check and by the lookup, and
     * confirmed by the user, loses the existing note: the deletion is
     * accepted and no add follows, only `삭제 후 저장 실패`.
     */
    lemma UnbuiltNoteDeletesWithoutAdd(key: string, field: Option<string>, deck: Option<string>, n: nat)
      requires DuplicateReply(respond(CheckDuplicateExact(field, noteType, key, deck), n)).Resolved?
      requires Truthy(DuplicateReply(respond(CheckDuplicateExact(field, noteType, key, deck), n)).value)
      requires Truthy(OrNull(ExistingReply(respond(GetExistingByFront(field, noteType, key, deck), n + 1))))
      requires Succeeded(respond(DeleteNotes([Prop(OrNull(ExistingReply(respond(GetExistingByFront(field, noteType, key, deck), n + 1))), "id")]), n + 3))
      ensures var existing := OrNull(ExistingReply(respond(GetExistingByFront(field, noteType, key, deck), n + 1)));
              var es := Events(WordCheck(key, None, field, deck), Confirm, n);
              && es == [Sent(CheckDuplicateExact(field, noteType, key, deck)), Sent(GetExistingByFront(field, noteType, key, deck)),
                        ModalShown(existing), Sent(DeleteNotes([Prop(existing, "id")])), Shown(SaveError(DeleteThenSaveFailed))]
              && !ReAdds(es, n)
    {
      var check := CheckDuplicateExact(field, noteType, key, deck);
      var lookup := GetExistingByFront(field, noteType, key, deck);
      var existing := OrNull(ExistingReply(respond(lookup, n + 1)));
      var del := DeleteNotes([Prop(existing, "id")]);
      var preview := Events(Modal(existing, None, ReplaceOnPreCheck), Confirm, n + 2);
      assert preview == [ModalShown(existing), Sent(del), Shown(SaveError(DeleteThenSaveFailed))];
      assert Events(WordDuplicate(key, None, field, deck), Confirm, n + 1) == [Sent(lookup)] + preview;
      var es := Events(WordCheck(key, None, field, deck), Confirm, n);
      assert es == [Sent(check)] + ([Sent(lookup)] + preview);
      assert !ReAddsAt(es, 3, n);
    }

    /**
     * The save as evidently intended: the note is built right after the
     * field mapping, before the duplicate check, as the branch without a
     * duplicate already uses it; a note that cannot be built then ends
     * the save in the outer `catch` before anything is sent.
     */
    function BuildFirstEvents(key: string, built: Option<Note>, field: Option<string>, deck: Option<string>, d: Decision, n: nat): seq<Event>
    {
      if built.None? then WordCatchEvents(NoteError, n) else Events(WordCheck(key, built, field, deck), d, n)
    }

    /**
     * With the note built first, every run keeps the protocol, and no
     * deletion the background accepted ever goes without the add.
     */
    lemma BuildFirstReAdds(key: string, built: Option<Note>, field: Option<string>, deck: Option<string>, d: Decision, n: nat)
      ensures var es := BuildFirstEvents(key, built, field, deck, d, n);
              Safe(es, built, d, n) && ReAdds(es, n)
    {
      var es := BuildFirstEvents(key, built, field, deck, d, n);
      if built.None? {
        WordCatchSafe(NoteError, built, d, n);
        forall i | 0 <= i < |es|
          ensures ReAddsAt(es, i, n)
        {
          assert InPlace(es, i, d);
          assert !IsDelete(es[i]);
        }
      } else {
        WordCheckSafe(key, built, field, deck, d, n);
      }
    }

    lemma KanjiAdditionSafe(key: string, note: Note, field: Option<string>, deck: Option<string>, d: Decision, n: nat)
      ensures Safe(Events(KanjiAddition(key, note, field, deck), d, n), Some(note), d, n)
    {
      var p := [Sent(AddNote(note))];
      match ClassifyAdd(respond(AddNote(note), n))
      case Rejected(reason) =>
        ShownSafe(p, KanjiCatchOutcome(reason), Some(note), d, n);
      case Resolved(Added(_)) =>
        AddedSafe(note, KanjiSaveSuccess, d, n);
        assert Events(KanjiAddition(key, note, field, deck), d, n) == [Sent(AddNote(note)), Shown(KanjiSaveSuccess)];
      case Resolved(Duplicate(existing, _)) =>
        var lookup := GetExistingByFront(field, noteType, key, deck);
        LookupSafe(existing, lookup, note, ReplaceKanjiOnPostAdd, d, n + 1);
        SafeThen(p, Events(Lookup(existing, lookup, note, ReplaceKanjiOnPostAdd), d, n + 1), Some(note), d, n);
      case Resolved(InvalidFields(_, _, _)) =>
        var o := KanjiDiagnosisOutcome(respond(TestConnection(url), n + 1));
        ShownSafe(p + [Sent(TestConnection(url))], o, Some(note), d, n);
        assert Events(KanjiAddition(key, note, field, deck), d, n) == p + [Sent(TestConnection(url))] + [Shown(o)];
    }

    /**
     * Every run of `saveKanjiToAnki` keeps the protocol, adds only the
     * kanji's note, shows success only after an add the background
     * accepted, re-adds after every accepted deletion, and starts with the
     * exact-duplicate check of the trimmed key.
     */
    lemma KanjiCheckSafe(key: string, note: Note, field: Option<string>, deck: Option<string>, d: Decision, n: nat)
      ensures var es := Events(KanjiCheck(key, note, field, deck), d, n);
              && Safe(es, Some(note), d, n)
              && es[0] == Sent(CheckDuplicateExact(field, noteType, key, deck))
    {
      var check := CheckDuplicateExact(field, noteType, key, deck);
      match DuplicateReply(respond(check, n))
      case Rejected(reason) =>
        ShownSafe([Sent(check)], KanjiCatchOutcome(reason), Some(note), d, n);
      case Resolved(isDuplicate) =>
        if Truthy(isDuplicate) {
          KanjiCheckDuplicateSafe(key, note, field, deck, d, n);
        } else {
          KanjiCheckCleanSafe(key, note, field, deck, d, n);
        }
    }

    /** Helper: the branch of `KanjiCheckSafe` where the check reports a duplicate. */
    lemma KanjiCheckDuplicateSafe(key: string, note: Note, field: Option<string>, deck: Option<string>, d: Decision, n: nat)
      requires var r := DuplicateReply(respond(CheckDuplicateExact(field, noteType, key, deck), n));
               r.Resolved? && Truthy(r.value)
      ensures var es := Events(KanjiCheck(key, note, field, deck), d, n);
              && Safe(es, Some(note), d, n)
              && es[0] == Sent(CheckDuplicateExact(field, noteType, key, deck))
    {
      var check := CheckDuplicateExact(field, noteType, key, deck);
      var lookup := GetExistingByFront(field, noteType, key, deck);
      LookupSafe(Null, lookup, note, ReplaceKanjiOnPreCheck, d, n + 1);
      SafeThen([Sent(check)], Events(Lookup(Null, lookup, note, ReplaceKanjiOnPreCheck), d, n + 1), Some(note), d, n);
    }

    /** Helper: the branch of `KanjiCheckSafe` where the check finds no duplicate. */
    lemma KanjiCheckCleanSafe(key: string, note: Note, field: Option<string>, deck: Option<string>, d: Decision, n: nat)
      requires var r := DuplicateReply(respond(CheckDuplicateExact(field, noteType, key, deck), n));
               r.Resolved? && !Truthy(r.value)
      ensures var es := Events(KanjiCheck(key, note, field, deck), d, n);
              && Safe(es, Some(note), d, n)
              && es[0] == Sent(CheckDuplicateExact(field, noteType, key, deck))
    {
      var check := CheckDuplicateExact(field, noteType, key, deck);
      KanjiAdditionSafe(key, note, field, deck, d, n + 1);
      SafeThen([Sent(check)], Events(KanjiAddition(key, note, field, deck), d, n + 1), Some(note), d, n);
    }

    // ---- the client's methods ----

    method Send(req: Request) returns (resp: JsValue)
      modifies this`log
      ensures log == old(log) + [Sent(req)]
      ensures resp == respond(req, |old(log)|)
    {
      resp := respond(req, |log|);
      log := log + [Sent(req)];
    }

    method Show(o: Outcome)
      modifies this`log
      ensures log == old(log) + [Shown(o)]
    {
      log := log + [Shown(o)];
    }

    /** The events of `resolveFieldMapping(model)`: the model's fields, unless memoised. */
    function MappingEvents(cache: map<JsValue, FieldMap>, model: JsValue): (r: seq<Event>)
      ensures Plain(r) && |r| <= 1
      ensures forall i :: 0 <= i < |r| ==> !IsAdd(r[i])
    {
      if model in cache then [] else [Sent(GetModelFields(model))]
    }

    /**
     * The field mapping `resolveFieldMapping(model)` yields: the memoised
     * one, or the one resolved from the model's fields answered at log
     * position `n`.
     */
    function MappingFor(cache: map<JsValue, FieldMap>, model: JsValue, n: nat): FieldMap
    {
      if model in cache then cache[model]
      else ResolveFromFields(ModelFieldsOf(respond(GetModelFields(model), n)), settingsMapping)
    }

    /**
     * The field cache after `resolveFieldMapping(model)`: unchanged when the
     * model was memoised, otherwise extended by the mapping just resolved.
     */
    function Memoised(cache: map<JsValue, FieldMap>, model: JsValue, n: nat): (r: map<JsValue, FieldMap>)
      ensures model in r && r[model] == MappingFor(cache, model, n)
      ensures model in cache ==> r == cache
    {
      if model in cache then cache else cache[model := MappingFor(cache, model, n)]
    }

    /**
     * `resolveFieldMapping(modelName)`: the memoised mapping, or one
     * `GET_MODEL_FIELDS` message and the mapping computed from its answer,
     * which is memoised even when the answer was a failure.
     */
    method ResolveFieldMapping(modelName: JsValue) returns (fmap: FieldMap)
      modifies this`fieldCache, this`log
      ensures fmap == MappingFor(old(fieldCache), modelName, |old(log)|)
      ensures log == old(log) + MappingEvents(old(fieldCache), modelName)
      ensures fieldCache == Memoised(old(fieldCache), modelName, |old(log)|)
    {
      if modelName in fieldCache {
        return fieldCache[modelName];
      }
      var resp := Send(GetModelFields(modelName));
      fmap := ResolveFromFields(ModelFieldsOf(resp), settingsMapping);
      fieldCache := fieldCache[modelName := fmap];
    }

    /** `showConnectivityHelp(base)`. */
    method ShowConnectivityHelp(base: Option<string>)
      modifies this`log
      ensures log == old(log) + ConnectivityEvents(base, |old(log)|)
    {
      var resp := Send(TestConnection(url));
      Show(SaveError(ConnectivityMessage(Diagnosis(resp), base, url)));
    }

    /** The outer `catch` of `saveToAnki`. */
    method CatchWordError(reason: JsValue)
      modifies this`log
      ensures log == old(log) + WordCatchEvents(reason, |old(log)|)
    {
      if IsNetworkMessage(RejectMessage(reason)) {
        ShowConnectivityHelp(None);
      } else {
        Show(SaveError(GenericError));
      }
    }

    /** `showDuplicateModal(existing, onConfirm, onCancel)` answered with `d`. */
    method ShowPreview(existing: JsValue, built: Option<Note>, v: Retry, d: Decision)
      modifies this`log
      ensures log == old(log) + Events(Modal(existing, built, v), d, |old(log)|)
    {
      log := log + [ModalShown(existing)];
      if d == Cancel {
        Show(Kept(v));
        return;
      }
      var del := Send(DeleteNotes([Prop(existing, "id")]));
      if DeleteReply(del).Rejected? || built.None? {
        Show(RetryFailed(v));
        return;
      }
      var added := Send(AddNote(built.value));
      Show(ReplaceOutcome(v, added));
    }

    method LookupAndPreview(existing: JsValue, lookup: Request, note: Note, v: Retry, d: Decision)
      modifies this`log
      ensures log == old(log) + Events(Lookup(existing, lookup, note, v), d, |old(log)|)
    {
      if Truthy(existing) {
        ShowPreview(existing, Some(note), v, d);
        return;
      }
      ghost var before := log;
      var resp := Send(lookup);
      var found := OrNull(ExistingReply(resp));
      if Truthy(found) {
        ShowPreview(found, Some(note), v, d);
        AppendAssoc(before, [Sent(lookup)], Events(Modal(found, Some(note), v), d, |before| + 1));
      } else {
        Show(Kept(v));
      }
    }

    method AddAfterFailedLookup(key: string, note: Note, field: Option<string>, deck: Option<string>, d: Decision)
      modifies this`log
      ensures log == old(log) + Events(Fallback(key, note, field, deck), d, |old(log)|)
    {
      ghost var before := log;
      var resp := Send(AddNote(note));
      var added := ClassifyAdd(resp);
      if IsDuplicate(added) {
        var st := Lookup(added.value.existing, GetExistingByFront(field, noteType, key, deck), note, ReplaceOnFallback);
        LookupAndPreview(st.existing, st.lookup, note, ReplaceOnFallback, d);
        AppendAssoc(before, [Sent(AddNote(note))], Events(st, d, |before| + 1));
      } else if IsAdded(added) {
        Show(SaveSuccess);
      } else {
        Show(SaveError(AlreadyInAnki));
      }
    }

    method WordOnDuplicate(key: string, built: Option<Note>, field: Option<string>, deck: Option<string>, d: Decision)
      modifies this`log
      ensures log == old(log) + Events(WordDuplicate(key, built, field, deck), d, |old(log)|)
    {
      ghost var before := log;
      var lookup := GetExistingByFront(field, noteType, key, deck);
      var resp := Send(lookup);
      var existing := OrNull(ExistingReply(resp));
      ghost var rest := Events(WordDuplicate(key, built, field, deck), d, |before|)[1..];
      assert Events(WordDuplicate(key, built, field, deck), d, |before|) == [Sent(lookup)] + rest;
      if Truthy(existing) {
        ShowPreview(existing, built, ReplaceOnPreCheck, d);
        assert rest == Events(Modal(existing, built, ReplaceOnPreCheck), d, |before| + 1);
      } else if built.None? {
        CatchWordError(NoteError);
        assert rest == WordCatchEvents(NoteError, |before| + 1);
      } else {
        AddAfterFailedLookup(key, built.value, field, deck, d);
        assert rest == Events(Fallback(key, built.value, field, deck), d, |before| + 1);
      }
      AppendAssoc(before, [Sent(lookup)], rest);
    }

    method AddWord(key: string, note: Note, d: Decision)
      modifies this`log
      ensures log == old(log) + Events(WordAddition(key, note), d, |old(log)|)
    {
      ghost var before := log;
      var resp := Send(AddNote(note));
      ghost var rest := Events(WordAddition(key, note), d, |before|)[1..];
      assert Events(WordAddition(key, note), d, |before|) == [Sent(AddNote(note))] + rest;
      match ClassifyAdd(resp)
      case Rejected(reason) =>
        CatchWordError(reason);
        assert rest == WordCatchEvents(reason, |before| + 1);
        AppendAssoc(before, [Sent(AddNote(note))], rest);
      case Resolved(Added(_)) =>
        Show(SaveSuccess);
      case Resolved(InvalidFields(model, fields, _)) =>
        Show(SaveError(InvalidFieldsMessage(if Truthy(model) then model else noteType, fields)));
      case Resolved(Duplicate(existing, _)) =>
        var st := Lookup(existing, GetExistingByFront(settingsMapping.word, noteType, key, None), note, ReplaceOnPostAdd);
        LookupAndPreview(existing, st.lookup, note, ReplaceOnPostAdd, d);
        assert rest == Events(st, d, |before| + 1);
        AppendAssoc(before, [Sent(AddNote(note))], rest);
    }

    /** `saveToAnki` once the field mapping is known. */
    method SaveWord(key: string, built: Option<Note>, field: Option<string>, deck: Option<string>, d: Decision)
      modifies this`log
      ensures log == old(log) + Events(WordCheck(key, built, field, deck), d, |old(log)|)
    {
      ghost var before := log;
      var check := CheckDuplicateExact(field, noteType, key, deck);
      var resp := Send(check);
      ghost var rest := Events(WordCheck(key, built, field, deck), d, |before|)[1..];
      assert Events(WordCheck(key, built, field, deck), d, |before|) == [Sent(check)] + rest;
      match DuplicateReply(resp)
      case Rejected(reason) =>
        CatchWordError(reason);
        assert rest == WordCatchEvents(reason, |before| + 1);
        AppendAssoc(before, [Sent(check)], rest);
      case Resolved(isDuplicate) =>
        if Truthy(isDuplicate) {
          WordOnDuplicate(key, built, field, deck, d);
          assert rest == Events(WordDuplicate(key, built, field, deck), d, |before| + 1);
        } else if built.None? {
          CatchWordError(NoteError);
          assert rest == WordCatchEvents(NoteError, |before| + 1);
        } else {
          AddWord(key, built.value, d);
          assert rest == Events(WordAddition(key, built.value), d, |before| + 1);
        }
        AppendAssoc(before, [Sent(check)], rest);
    }

    /**
     * The duplicate check `saveToAnki` starts with, once the field mapping
     * is known; `info` is `currentWordInfo`, `None` while it is `null`.
     */
    function WordSave(text: string, info: Option<Api.WordInfo>, deckName: string, fmap: FieldMap): Stage
    {
      WordCheck(Trim(text), BuildWordNote(text, info, deckName, fmap, noteType), FieldFor(fmap.word), DeckFilter(deckName))
    }

    /** The duplicate check `saveKanjiToAnki` starts with, once the field mapping is known. */
    function KanjiSave(kanji: JsValue, deckName: string, fmap: FieldMap): Stage
    {
      KanjiCheck(Trim(KanjiCheckText(kanji)), CreateKanjiAnkiNote(kanji, deckName, fmap, noteType), FieldFor(fmap.word), DeckFilter(deckName))
    }

    /** The events of a whole save starting with the duplicate check `st`, the field cache being `cache`. */
    function SaveEvents(cache: map<JsValue, FieldMap>, st: Stage, d: Decision, n: nat): seq<Event>
    {
      MappingEvents(cache, noteType) + Events(st, d, n + |MappingEvents(cache, noteType)|)
    }

    /** The note a save starting with `st` adds: the kanji's, or the word's when it can be built. */
    function SavedNote(st: Stage): Option<Note>
      requires st.WordCheck? || st.KanjiCheck?
    {
      if st.WordCheck? then st.built else Some(st.note)
    }

    /**
     * Every save, of a word or of a kanji, whatever the background answers,
     * whatever the user decides and whether or not the word's note can be
     * built, keeps the protocol, adds no note but its own, and shows a
     * success only after an add that succeeded; a save whose note is built
     * follows every accepted deletion with the add.
     */
    lemma SaveSafe(cache: map<JsValue, FieldMap>, st: Stage, d: Decision, n: nat)
      requires st.WordCheck? || st.KanjiCheck?
      ensures Safe(SaveEvents(cache, st, d, n), SavedNote(st), d, n)
    {
      var pre := MappingEvents(cache, noteType);
      if st.WordCheck? {
        WordCheckSafe(st.key, st.built, st.field, st.deck, d, n + |pre|);
      } else {
        KanjiCheckSafe(st.key, st.note, st.field, st.deck, d, n + |pre|);
      }
      SafeThen(pre, Events(st, d, n + |pre|), SavedNote(st), d, n);
    }

    /**
     * `saveToAnki(key, deckName)` with `currentWordInfo` as `info` and `d`
     * the user's answer should a duplicate preview be shown.
     */
    method SaveToAnki(text: string, info: Option<Api.WordInfo>, deckName: string, d: Decision)
      modifies this`fieldCache, this`log
      ensures log == old(log) + WordSaveEvents(old(fieldCache), text, info, deckName, d, |old(log)|)
      ensures fieldCache == Memoised(old(fieldCache), noteType, |old(log)|)
    {
      ghost var cache, before := fieldCache, log;
      var fmap := ResolveFieldMapping(noteType);
      assert fieldCache == Memoised(cache, noteType, |before|);
      SaveWordWith(text, info, deckName, fmap, d, cache, before);
    }

    /**
     * The events of `saveToAnki(key, deckName)` started with the field
     * cache `cache` at log position `n`.
     */
    function WordSaveEvents(cache: map<JsValue, FieldMap>, text: string, info: Option<Api.WordInfo>, deckName: string, d: Decision, n: nat): seq<Event>
    {
      SaveEvents(cache, WordSave(text, info, deckName, MappingFor(cache, noteType, n)), d, n)
    }

    /**
     * `saveToAnki` once the field mapping is known, `before` being the log
     * and `cache` the field cache before the mapping was resolved.
     */
    method SaveWordWith(text: string, info: Option<Api.WordInfo>, deckName: string, fmap: FieldMap, d: Decision,
                        ghost cache: map<JsValue, FieldMap>, ghost before: seq<Event>)
      requires fmap == MappingFor(cache, noteType, |before|)
      requires log == before + MappingEvents(cache, noteType)
      modifies this`log
      ensures log == before + WordSaveEvents(cache, text, info, deckName, d, |before|)
    {
      var st := WordSave(text, info, deckName, fmap);
      ghost var mid := log;
      SaveWord(st.key, st.built, st.field, st.deck, d);
      SaveComposes(cache, before, mid, log, st, d);
    }

    method AddKanji(key: string, note: Note, field: Option<string>, deck: Option<string>, d: Decision)
      modifies this`log
      ensures log == old(log) + Events(KanjiAddition(key, note, field, deck), d, |old(log)|)
    {
      ghost var before := log;
      var resp := Send(AddNote(note));
      match ClassifyAdd(resp)
      case Rejected(reason) =>
        Show(KanjiCatchOutcome(reason));
      case Resolved(Added(_)) =>
        Show(KanjiSaveSuccess);
      case Resolved(Duplicate(existing, _)) =>
        var st := Lookup(existing, GetExistingByFront(field, noteType, key, deck), note, ReplaceKanjiOnPostAdd);
        LookupAndPreview(existing, st.lookup, note, ReplaceKanjiOnPostAdd, d);
        AppendAssoc(before, [Sent(AddNote(note))], Events(st, d, |before| + 1));
      case Resolved(InvalidFields(_, _, _)) =>
        var diagResp := Send(TestConnection(url));
        Show(KanjiDiagnosisOutcome(diagResp));
    }

    /** `saveKanjiToAnki` once the field mapping is known. */
    method SaveKanji(key: string, note: Note, field: Option<string>, deck: Option<string>, d: Decision)
      modifies this`log
      ensures log == old(log) + Events(KanjiCheck(key, note, field, deck), d, |old(log)|)
    {
      ghost var before := log;
      var check := CheckDuplicateExact(field, noteType, key, deck);
      var resp := Send(check);
      match DuplicateReply(resp)
      case Rejected(reason) =>
        Show(KanjiCatchOutcome(reason));
      case Resolved(isDuplicate) =>
        if Truthy(isDuplicate) {
          var st := Lookup(Null, GetExistingByFront(field, noteType, key, deck), note, ReplaceKanjiOnPreCheck);
          LookupAndPreview(Null, st.lookup, note, ReplaceKanjiOnPreCheck, d);
          AppendAssoc(before, [Sent(check)], Events(st, d, |before| + 1));
        } else {
          AddKanji(key, note, field, deck, d);
          AppendAssoc(before, [Sent(check)], Events(KanjiAddition(key, note, field, deck), d, |before| + 1));
        }
    }

    /**
     * `saveKanjiToAnki(kanji, btn, deckName)` with `d` the user's answer
     * should a duplicate preview be shown.
     */
    method SaveKanjiToAnki(kanji: JsValue, deckName: string, d: Decision)
      modifies this`fieldCache, this`log
      ensures log == old(log) + KanjiSaveEvents(old(fieldCache), kanji, deckName, d, |old(log)|)
      ensures fieldCache == Memoised(old(fieldCache), noteType, |old(log)|)
    {
      ghost var cache, before := fieldCache, log;
      var fmap := ResolveFieldMapping(noteType);
      assert fieldCache == Memoised(cache, noteType, |before|);
      SaveKanjiWith(kanji, deckName, fmap, d, cache, before);
    }

    /**
     * The events of `saveKanjiToAnki(kanji, btn, deckName)` started with
     * the field cache `cache` at log position `n`.
     */
    function KanjiSaveEvents(cache: map<JsValue, FieldMap>, kanji: JsValue, deckName: string, d: Decision, n: nat): seq<Event>
    {
      SaveEvents(cache, KanjiSave(kanji, deckName, MappingFor(cache, noteType, n)), d, n)
    }

    /**
     * `saveKanjiToAnki` once the field mapping is known, `before` being the
     * log and `cache` the field cache before the mapping was resolved.
     */
    method SaveKanjiWith(kanji: JsValue, deckName: string, fmap: FieldMap, d: Decision,
                         ghost cache: map<JsValue, FieldMap>, ghost before: seq<Event>)
      requires fmap == MappingFor(cache, noteType, |before|)
      requires log == before + MappingEvents(cache, noteType)
      modifies this`log
      ensures log == before + KanjiSaveEvents(cache, kanji, deckName, d, |before|)
    {
      var st := KanjiSave(kanji, deckName, fmap);
      ghost var mid := log;
      SaveKanji(st.key, st.note, st.field, st.deck, d);
      SaveComposes(cache, before, mid, log, st, d);
    }

    /** The mapping's events followed by the save's events are the events of the whole save. */
    lemma SaveComposes(cache: map<JsValue, FieldMap>, before: seq<Event>, mid: seq<Event>, after: seq<Event>, st: Stage, d: Decision)
      requires mid == before + MappingEvents(cache, noteType)
      requires after == mid + Events(st, d, |mid|)
      ensures after == before + SaveEvents(cache, st, d, |before|)
    {
      AppendAssoc(before, MappingEvents(cache, noteType), Events(st, d, |mid|));
    }
  }
}
