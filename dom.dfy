/**
 * The event handlers of `src/content/dom.js`: what a text selection, a key
 * press or a style injection does to the page. Rendering itself belongs to
 * the popup module and is represented by the effect it is asked to perform.
 */
module Dom {
  import opened Utils
  import opened Wrappers
  import Strings

  /** The longest text the popup is given. */
  const MaxSelection: nat := 1000

  /** The id of the style element the content script injects. */
  const StyleId: string := "drag2anki-styles"

  /** A request the handlers make of the popup module. */
  datatype Effect =
    | ShowPopup(shown: string, normalized: string, originalLength: nat)
    | HidePopup

  /**
   * The shared decision of both selection paths for already-trimmed text:
   * show the first 1000 characters, with brackets removed from the text used
   * for look-up when that prefix is Japanese-only; otherwise hide the popup.
   */
  function SelectionEffect(text: string, isEnglishTextOnly: string -> bool): (e: Effect)
  {
    if text != [] && (IsJapaneseTextOnly(text) || isEnglishTextOnly(text)) then
      var limited := if |text| > MaxSelection then text[..MaxSelection] else text;
      var normalized := if IsJapaneseTextOnly(limited) then RemoveJapaneseParens(limited) else limited;
      ShowPopup(limited, normalized, |text|)
    else
      HidePopup
  }

  /**
   * The selection decision as the handler is written. `dom.js` imports
   * `isEnglishTextOnly` from the utilities module, which does not define it,
   * so the call through that import throws a `TypeError` for every non-empty
   * text that is not Japanese-only, and neither `showPopup` nor `hidePopup`
   * runs. `None` is that throw.
   */
  function SelectionEffectAsWritten(text: string): (r: Option<Effect>)
    ensures r.None? <==> text != [] && !IsJapaneseTextOnly(text)
    ensures r.Some? ==> (r.value.ShowPopup? <==> text != [])
  {
    if text != [] && !IsJapaneseTextOnly(text) then None
    else Some(SelectionEffect(text, _ => false))
  }

  /** Where the handler as written does not throw, it decides as the intended handler does, whatever the English classifier. */
  lemma AsWrittenAgreesWhenNoThrow(text: string, isEnglishTextOnly: string -> bool)
    requires SelectionEffectAsWritten(text).Some?
    ensures SelectionEffectAsWritten(text).value == SelectionEffect(text, isEnglishTextOnly)
  {
  }

  /**
   * An English selection such as `cat` makes the handler as written throw,
   * while the intended handler, with a classifier that accepts it, shows it.
   */
  lemma EnglishSelectionThrows()
    ensures SelectionEffectAsWritten("cat").None?
    ensures SelectionEffect("cat", s => s == "cat") == ShowPopup("cat", "cat", 3)
  {
    assert !IsKana('c') && !IsKanji('c');
    assert !IsJapaneseTextOnly("cat") by {
      assert "cat"[0] == 'c';
    }
  }

  /** The popup is shown exactly for non-empty text that is Japanese-only or English-only. */
  lemma ShowIff(text: string, isEnglishTextOnly: string -> bool)
    ensures SelectionEffect(text, isEnglishTextOnly).ShowPopup?
            <==> text != [] && (IsJapaneseTextOnly(text) || isEnglishTextOnly(text))
  {
  }

  /** The text shown is the first min(length, 1000) characters of the selection. */
  lemma ShownIsPrefix(text: string, isEnglishTextOnly: string -> bool)
    requires SelectionEffect(text, isEnglishTextOnly).ShowPopup?
    ensures var e := SelectionEffect(text, isEnglishTextOnly);
            |e.shown| == (if |text| < MaxSelection then |text| else MaxSelection)
            && e.shown == text[..|e.shown|] && e.originalLength == |text|
  {
  }

  /**
   * For Japanese-only input, the text used for look-up is the shown prefix
   * without brackets, and it holds nothing but kana and kanji.
   */
  lemma JapaneseSelectionNormalized(text: string, isEnglishTextOnly: string -> bool)
    requires IsJapaneseTextOnly(text)
    ensures var e := SelectionEffect(text, isEnglishTextOnly);
            && e.ShowPopup?
            && e.normalized == RemoveJapaneseParens(e.shown)
            && forall i :: 0 <= i < |e.normalized| ==> IsKana(e.normalized[i]) || IsKanji(e.normalized[i])
  {
    var limited := if |text| > MaxSelection then text[..MaxSelection] else text;
    JapaneseOnlyPrefix(text, |limited|);
    assert text[..|limited|] == limited;
    RemoveParensOfJapanese(limited);
  }

  /** Text that is not Japanese-only within its shown prefix is passed on unchanged. */
  lemma OtherSelectionUnchanged(text: string, isEnglishTextOnly: string -> bool)
    requires SelectionEffect(text, isEnglishTextOnly).ShowPopup?
    requires !IsJapaneseTextOnly(SelectionEffect(text, isEnglishTextOnly).shown)
    ensures SelectionEffect(text, isEnglishTextOnly).normalized == SelectionEffect(text, isEnglishTextOnly).shown
  {
  }

  /** What `handleTextSelection` is called with. */
  datatype SelectionEvent =
    /** The text of the search box, passed as a string. */
    | SearchBoxText(raw: string)
    /** A mouse-up: whether it landed inside the popup, and the selection with ruby removed and trimmed. */
    | MouseUp(insidePopup: bool, selectedWithoutRuby: string)

  /** The page as the content script sees it: the effects it requested and the ids of `<head>` children. */
  class Page {
    var effects: seq<Effect>
    var head: seq<string>
    /** The English-only classifier, which the utilities module does not define. */
    const isEnglishTextOnly: string -> bool

    constructor (head0: seq<string>, isEnglishTextOnly: string -> bool)
      ensures effects == [] && head == head0 && this.isEnglishTextOnly == isEnglishTextOnly
    {
      effects := [];
      head := head0;
      this.isEnglishTextOnly := isEnglishTextOnly;
    }

    /** `handleTextSelection(arg)`. */
    method HandleTextSelection(ev: SelectionEvent)
      modifies this`effects
      ensures ev.MouseUp? && ev.insidePopup ==> effects == old(effects)
      ensures ev.SearchBoxText? ==>
                effects == old(effects) + [SelectionEffect(Strings.Trim(ev.raw), isEnglishTextOnly)]
      ensures ev.MouseUp? && !ev.insidePopup ==>
                effects == old(effects) + [SelectionEffect(ev.selectedWithoutRuby, isEnglishTextOnly)]
    {
      match ev
      case SearchBoxText(raw) =>
        var text := Strings.Trim(raw);
        effects := effects + [SelectionEffect(text, isEnglishTextOnly)];
      case MouseUp(inside, selected) =>
        if inside {
          return;
        }
        effects := effects + [SelectionEffect(selected, isEnglishTextOnly)];
    }

    /** `handleKeyDown(event)`: Escape hides the popup, every other key does nothing. */
    method HandleKeyDown(key: string)
      modifies this`effects
      ensures effects == if key == "Escape" then old(effects) + [HidePopup] else old(effects)
    {
      if key == "Escape" {
        effects := effects + [HidePopup];
      }
    }

    /** `handleDocumentClick(event)`: a click outside an open popup hides it. */
    method HandleDocumentClick(popupOpen: bool, insidePopup: bool)
      modifies this`effects
      ensures effects == if popupOpen && !insidePopup then old(effects) + [HidePopup] else old(effects)
    {
      if popupOpen && !insidePopup {
        effects := effects + [HidePopup];
      }
    }

    /** `injectStyles()`: add the style element unless one with its id is already there. */
    method InjectStyles()
      modifies this`head
      ensures head == WithStyles(old(head))
    {
      if StyleId !in head {
        head := head + [StyleId];
      }
    }
  }

  /** The `<head>` after one style injection. */
  function WithStyles(head: seq<string>): (r: seq<string>)
    ensures StyleId in r
    ensures StyleId in head ==> r == head
    ensures StyleId !in head ==> |r| == |head| + 1 && r[..|head|] == head && r[|head|] == StyleId
  {
    if StyleId in head then head else head + [StyleId]
  }

  /** Injecting twice is injecting once: the second call creates nothing. */
  lemma InjectStylesIdempotent(head: seq<string>)
    ensures WithStyles(WithStyles(head)) == WithStyles(head)
  {
  }

  /** Injection creates at most one style element, and none when one is present. */
  lemma InjectStylesAddsAtMostOne(head: seq<string>)
    ensures multiset(WithStyles(head))[StyleId] == if StyleId in head then multiset(head)[StyleId] else 1
  {
  }
}
