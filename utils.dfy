/**
 * The script classifiers and small helpers of `src/content/utils.js`.
 * Characters are Unicode code points; the ranges are those of the source's
 * regular expressions: hiragana U+3040-U+309F, katakana U+30A0-U+30FF and
 * CJK unified ideographs U+4E00-U+9FAF.
 */
module Utils {
  import opened Wrappers
  import opened Js

  predicate IsHiragana(c: char) { '\U{3040}' <= c <= '\U{309F}' }
  predicate IsKatakana(c: char) { '\U{30A0}' <= c <= '\U{30FF}' }
  predicate IsKana(c: char) { IsHiragana(c) || IsKatakana(c) }

  /** The class `[一-龯]` used for "kanji" throughout the extension. */
  predicate IsKanji(c: char) { '\U{4E00}' <= c <= '\U{9FAF}' }

  predicate IsParen(c: char) { c == '(' || c == ')' }

  /** The character class of `isJapaneseTextOnly`: kana, kanji or a round bracket. */
  predicate IsJapaneseOrParen(c: char) { IsKana(c) || IsKanji(c) || IsParen(c) }

  /**
   * The regex test `/^[class]+$/` minus its "at least one" part: the scan
   * succeeds when every character of `t` is in the class.
   */
  function AllInClass(t: string, inClass: char -> bool): (r: bool)
    ensures r <==> forall i :: 0 <= i < |t| ==> inClass(t[i])
  {
    t == [] || (inClass(t[0]) && AllInClass(t[1..], inClass))
  }

  /** `isKanaOnly`: `/^[぀-ゟ゠-ヿ]+$/.test(text)`. */
  function IsKanaOnly(t: string): (r: bool)
    ensures r <==> |t| > 0 && forall i :: 0 <= i < |t| ==> IsKana(t[i])
  {
    t != [] && AllInClass(t, IsKana)
  }

  /** `isJapaneseTextOnly`: `/^[぀-ゟ゠-ヿ一-龯\(\)]+$/.test(text)`. */
  function IsJapaneseTextOnly(t: string): (r: bool)
    ensures r <==> |t| > 0 && forall i :: 0 <= i < |t| ==> IsJapaneseOrParen(t[i])
  {
    t != [] && AllInClass(t, IsJapaneseOrParen)
  }

  /** Kana-only text is Japanese-only text. */
  lemma KanaOnlyIsJapaneseOnly(t: string)
    requires IsKanaOnly(t)
    ensures IsJapaneseTextOnly(t)
  {
  }

  /** Every non-empty prefix of Japanese-only text is Japanese-only. */
  lemma JapaneseOnlyPrefix(t: string, n: nat)
    requires IsJapaneseTextOnly(t) && 0 < n <= |t|
    ensures IsJapaneseTextOnly(t[..n])
  {
  }

  /** `removeJapaneseParens`: `text.replace(/[\(\)]/g, '')`. */
  function RemoveJapaneseParens(t: string): (r: string)
    ensures |r| <= |t|
    ensures forall i :: 0 <= i < |r| ==> !IsParen(r[i])
  {
    if t == [] then []
    else (if IsParen(t[0]) then [] else [t[0]]) + RemoveJapaneseParens(t[1..])
  }

  /** The removal works character by character and keeps the order of what it keeps. */
  lemma {:induction false} RemoveParensAppend(a: string, b: string)
    ensures RemoveJapaneseParens(a + b) == RemoveJapaneseParens(a) + RemoveJapaneseParens(b)
    decreases |a|
  {
    if a == [] {
      assert a + b == b;
    } else {
      assert (a + b)[1..] == a[1..] + b;
      RemoveParensAppend(a[1..], b);
    }
  }

  /** Text without brackets is returned unchanged. */
  lemma {:induction false} RemoveParensNoParens(t: string)
    requires forall i :: 0 <= i < |t| ==> !IsParen(t[i])
    ensures RemoveJapaneseParens(t) == t
    decreases |t|
  {
    if t != [] {
      RemoveParensNoParens(t[1..]);
    }
  }

  /** Removing brackets twice is removing them once. */
  lemma RemoveParensIdempotent(t: string)
    ensures RemoveJapaneseParens(RemoveJapaneseParens(t)) == RemoveJapaneseParens(t)
  {
    RemoveParensNoParens(RemoveJapaneseParens(t));
  }

  /** Exactly the characters of `t` that are not brackets survive, each one once. */
  lemma {:induction false} RemoveParensCounts(t: string, c: char)
    ensures multiset(RemoveJapaneseParens(t))[c] == if IsParen(c) then 0 else multiset(t)[c]
    decreases |t|
  {
    if t != [] {
      RemoveParensCounts(t[1..], c);
      assert t == [t[0]] + t[1..];
    }
  }

  /** Bracket removal on Japanese-only text leaves only kana and kanji. */
  lemma {:induction false} RemoveParensOfJapanese(t: string)
    requires forall i :: 0 <= i < |t| ==> IsJapaneseOrParen(t[i])
    ensures forall i :: 0 <= i < |RemoveJapaneseParens(t)| ==>
              IsKana(RemoveJapaneseParens(t)[i]) || IsKanji(RemoveJapaneseParens(t)[i])
    decreases |t|
  {
    if t != [] {
      RemoveParensOfJapanese(t[1..]);
    }
  }

  // ---------------------------------------------------------------------
  // safeValue
  // ---------------------------------------------------------------------

  /** One element of the array `Promise.allSettled` resolves to. */
  datatype Settled = Fulfilled(value: JsValue) | Rejected(reason: JsValue)

  /**
   * `safeValue(data)`: the fulfilled value when `data` exists, is fulfilled,
   * its value is truthy and that value's `error` property is falsy; otherwise
   * null (`None`).
   */
  function SafeValue(data: Option<Settled>): (r: Option<JsValue>)
    ensures r.Some? <==>
      data.Some? && data.value.Fulfilled? && Truthy(data.value.value)
      && !Truthy(Prop(data.value.value, "error"))
    ensures r.Some? ==> r.value == data.value.value
  {
    match data
    case Some(Fulfilled(v)) =>
      if Truthy(v) && !Truthy(Prop(v, "error")) then Some(v) else None
    case _ => None
  }

  /** An object without an `error` key that a provider fulfilled with is passed through. */
  lemma SafeValueOfPlainObject(props: map<string, JsValue>)
    requires "error" !in props
    ensures SafeValue(Some(Fulfilled(Obj(props)))) == Some(Obj(props))
  {
  }

  /** A rejected provider, or none at all, yields null whatever its reason. */
  lemma SafeValueOfRejected(reason: JsValue)
    ensures SafeValue(Some(Rejected(reason))) == None
    ensures SafeValue(None) == None
  {
  }
}
