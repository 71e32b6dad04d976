/**
 * The messages between the background page and the content script: the
 * objects `src/background.js` passes to `sendResponse`, and what the
 * wrappers of `src/content/anki.js` make of them. Each lemma follows one
 * handler's reply through the wrapper that reads it.
 */
module Replies {
  import opened Wrappers
  import opened Js
  import opened AnkiNotes
  import Background
  import AnkiFlow

  /** The `result` of a `GET_EXISTING_BY_FRONT` reply and the `existing` of a duplicate. */
  function SummaryJson(n: Background.NoteSummary): JsValue
  {
    Obj(map["id" := n.id, "modelName" := n.modelName, "front" := Str(n.front), "back" := Str(n.back), "deckName" := Str(n.deckName)])
  }

  function Failure(error: JsValue): JsValue
  {
    Obj(map["success" := Bool(false), "error" := error])
  }

  /** `CHECK_DUPLICATE_EXACT`'s reply object. */
  function CheckJson(r: Background.CheckReply): JsValue
  {
    match r
    case DuplicateAnswer(b) => Obj(map["success" := Bool(true), "isDuplicate" := Bool(b)])
    case DuplicateFailure(e) => Failure(Str(e))
  }

  /** `GET_EXISTING_BY_FRONT`'s reply object. */
  function FrontJson(r: Background.FrontReply): JsValue
  {
    match r
    case Existing(n) => Obj(map["success" := Bool(true), "result" := SummaryJson(n)])
    case NoExisting => Obj(map["success" := Bool(true), "result" := Null])
    case FrontFailure(e) => Failure(Str(e))
  }

  /** The `existing` key of a duplicate reply: a summary, `null`, or absent when the lookup failed. */
  function ExistingEntry(l: Background.Lookup): map<string, JsValue>
  {
    match l
    case Found(n) => map["existing" := SummaryJson(n)]
    case NotFound => map["existing" := Null]
    case Unknown => map[]
  }

  /** `ADD_TO_ANKI`'s reply object. */
  function AddJson(r: Background.AddReply): JsValue
  {
    match r
    case AddSuccess(v) => Obj(map["success" := Bool(true), "result" := v])
    case AddInvalidFields(e, name, fields) =>
      var base := map["success" := Bool(false), "invalidFields" := Bool(true), "error" := Str(e)];
      var withName := if name.Some? then base["modelName" := name.value] else base;
      Obj(if fields.Some? then withName["modelFields" := Arr(fields.value)] else withName)
    case AddDuplicate(e, l) =>
      Obj(map["success" := Bool(false), "duplicate" := Bool(true), "error" := Str(e)] + ExistingEntry(l))
    case AddFailure(e) => Failure(Str(e))
  }

  /** `GET_MODEL_FIELDS`' reply object. */
  function FieldsJson(r: Background.FieldsReply): JsValue
  {
    match r
    case FieldsAnswer(fs) => Obj(map["success" := Bool(true), "result" := Arr(fs)])
    case FieldsFailure(e) => Failure(e)
  }

  /** The summary the content script reads back: `existing.front`, `existing.back`, `existing.deckName`. */
  lemma SummaryRead(n: Background.NoteSummary)
    ensures Prop(SummaryJson(n), "front") == Str(n.front)
    ensures Prop(SummaryJson(n), "back") == Str(n.back)
    ensures Prop(SummaryJson(n), "deckName") == Str(n.deckName)
    ensures Prop(SummaryJson(n), "id") == n.id
  {
  }

  /** `checkDuplicateExact` resolves with the handler's verdict, and rejects with its error message. */
  lemma CheckReplyRead(r: Background.CheckReply)
    ensures r.DuplicateAnswer? ==> AnkiFlow.DuplicateReply(CheckJson(r)) == AnkiFlow.Resolved(Bool(r.isDuplicate))
    ensures r.DuplicateFailure? ==> AnkiFlow.DuplicateReply(CheckJson(r)) == AnkiFlow.Rejected(Str(r.error))
  {
    var j := CheckJson(r);
    if r.DuplicateAnswer? {
      assert Prop(j, "success") == Bool(true) && Prop(j, "isDuplicate") == Bool(r.isDuplicate);
    } else {
      assert Prop(j, "success") == Bool(false) && Prop(j, "error") == Str(r.error);
    }
  }

  /** `getExistingByFront` resolves with the summary or `null`, and rejects with the handler's error. */
  lemma FrontReplyRead(r: Background.FrontReply)
    ensures r.Existing? ==> AnkiFlow.ExistingReply(FrontJson(r)) == AnkiFlow.Resolved(SummaryJson(r.note))
    ensures r.NoExisting? ==> AnkiFlow.ExistingReply(FrontJson(r)) == AnkiFlow.Resolved(Null)
    ensures r.FrontFailure? ==> AnkiFlow.ExistingReply(FrontJson(r)) == AnkiFlow.Rejected(Str(r.error))
  {
    var j := FrontJson(r);
    match r
    case Existing(n) =>
      assert Prop(j, "success") == Bool(true) && Prop(j, "result") == SummaryJson(n);
    case NoExisting =>
      assert Prop(j, "success") == Bool(true) && Prop(j, "result") == Null;
    case FrontFailure(e) =>
      assert Prop(j, "success") == Bool(false) && Prop(j, "error") == Str(e);
  }

  /**
   * `addNoteToAnki` resolves a success with the note id and invalid fields
   * with the handler's model data; a plain failure is rejected with its
   * message, or with the wrapper's own text when the message is empty.
   */
  lemma AddReplyRead(r: Background.AddReply)
    ensures r.AddSuccess? ==> AnkiFlow.ClassifyAdd(AddJson(r)) == AnkiFlow.Resolved(AnkiFlow.Added(r.result))
    ensures r.AddInvalidFields? ==> AnkiFlow.ClassifyAdd(AddJson(r)) == AnkiFlow.Resolved(AnkiFlow.InvalidFields(
              if r.modelName.Some? then r.modelName.value else Undefined,
              if r.modelFields.Some? then Arr(r.modelFields.value) else Undefined,
              Str(r.error)))
    ensures r.AddFailure? ==>
              AnkiFlow.ClassifyAdd(AddJson(r)) == AnkiFlow.Rejected(Str(if r.error != "" then r.error else AnkiFlow.AddError))
  {
    var j := AddJson(r);
    match r
    case AddSuccess(v) =>
      assert Prop(j, "success") == Bool(true) && Prop(j, "result") == v;
    case AddInvalidFields(e, name, fields) =>
      assert Prop(j, "success") == Bool(false) && Prop(j, "invalidFields") == Bool(true) && Prop(j, "error") == Str(e);
      assert Prop(j, "modelName") == if name.Some? then name.value else Undefined;
      assert Prop(j, "modelFields") == if fields.Some? then Arr(fields.value) else Undefined;
    case AddDuplicate(_, _) =>
    case AddFailure(e) =>
      assert Prop(j, "success") == Bool(false) && Prop(j, "error") == Str(e);
      assert Prop(j, "invalidFields") == Undefined && Prop(j, "duplicate") == Undefined;
  }

  /** A duplicate reaches `addNoteToAnki` as a duplicate carrying the existing note: the summary, `null`, or nothing. */
  lemma DuplicateReplyRead(e: string, l: Background.Lookup)
    ensures AnkiFlow.ClassifyAdd(AddJson(Background.AddDuplicate(e, l))) == AnkiFlow.Resolved(AnkiFlow.Duplicate(
              match l
              case Found(n) => SummaryJson(n)
              case NotFound => Null
              case Unknown => Undefined,
              Str(e)))
  {
    var j := AddJson(Background.AddDuplicate(e, l));
    assert Prop(j, "success") == Bool(false) && Prop(j, "invalidFields") == Undefined;
    assert Prop(j, "duplicate") == Bool(true) && Prop(j, "error") == Str(e);
  }

  /** `fetchModelFields` yields the handler's field names, and `[]` for any failure. */
  lemma FieldsReplyRead(r: Background.FieldsReply)
    ensures r.FieldsAnswer? ==> AnkiFlow.ModelFieldsOf(FieldsJson(r)) == seq(|r.fields|, i requires 0 <= i < |r.fields| => StrOr(r.fields[i]))
    ensures r.FieldsFailure? ==> AnkiFlow.ModelFieldsOf(FieldsJson(r)) == []
  {
    var j := FieldsJson(r);
    if r.FieldsAnswer? {
      assert Prop(j, "success") == Bool(true) && Prop(j, "result") == Arr(r.fields);
    } else {
      assert Prop(j, "success") == Bool(false);
    }
  }

  /**
   * A field error reported by `addNote` with a `null` result reaches the
   * content script as invalid fields, never as a duplicate.
   */
  lemma FieldErrorReachesContent(page: Background.BackgroundPage, note: Background.NoteParams, msg: string, h: seq<Background.Action>)
    requires page.answer(Background.AddNote(note), |h|) == Background.Body(Obj(map["error" := Str(msg), "result" := Null]))
    requires Background.LooksLikeFieldError(msg)
    ensures AnkiFlow.IsInvalid(AnkiFlow.ClassifyAdd(AddJson(page.AddRun(note, h).value)))
  {
    page.FieldErrorNotDuplicate(note, msg, h);
    AddReplyRead(page.AddRun(note, h).value);
  }
}
