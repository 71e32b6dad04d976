/**
 * The JavaScript value semantics the extension depends on: truthiness
 * (`if (x)`, `x || y`), property access on arbitrary JSON, object spread
 * (`{ ...a, ...b }`) and string conversion (`String(v)`).
 */
module Js {
  import opened Wrappers
  import Strings

  /** A JSON-shaped JavaScript value. Numbers are modelled as integers. */
  datatype JsValue =
    | Undefined
    | Null
    | Bool(b: bool)
    | Num(n: int)
    | Str(s: string)
    | Arr(items: seq<JsValue>)
    | Obj(props: map<string, JsValue>)

  /** JavaScript's `ToBoolean`. */
  predicate Truthy(v: JsValue)
  {
    match v
    case Undefined => false
    case Null => false
    case Bool(b) => b
    case Num(n) => n != 0
    case Str(s) => s != ""
    case Arr(_) => true
    case Obj(_) => true
  }

  /** `v[key]` on a value that is not null or undefined; a missing property reads as `undefined`. */
  function Prop(v: JsValue, key: string): (r: JsValue)
    ensures v.Obj? && key in v.props ==> r == v.props[key]
    ensures !v.Obj? ==> r == Undefined
  {
    if v.Obj? && key in v.props then v.props[key] else Undefined
  }

  /** `typeof o[key] === 'undefined'` for an object `o` read from storage. */
  predicate IsUndefinedProp(o: map<string, JsValue>, key: string)
  {
    key !in o || o[key] == Undefined
  }

  /** `{ ...a, ...b }`: every own key of `b` overrides, all other keys of `a` survive. */
  function Spread(a: map<string, JsValue>, b: map<string, JsValue>): (r: map<string, JsValue>)
    ensures r.Keys == a.Keys + b.Keys
    ensures forall k :: k in b ==> r[k] == b[k]
    ensures forall k :: k in a && k !in b ==> r[k] == a[k]
  {
    a + b
  }

  /** `a || b`: the first operand when it is truthy, otherwise the second. */
  function Or(a: JsValue, b: JsValue): (r: JsValue)
    ensures Truthy(a) ==> r == a
    ensures !Truthy(a) ==> r == b
    ensures Truthy(r) <==> Truthy(a) || Truthy(b)
  {
    if Truthy(a) then a else b
  }

  function DigitChar(d: nat): (c: char)
    requires d < 10
    ensures '0' <= c <= '9'
  {
    ('0' as int + d) as char
  }

  /** The number a string of decimal digits denotes, most significant first. */
  function DecimalValue(s: string): nat
    requires forall k :: 0 <= k < |s| ==> '0' <= s[k] <= '9'
  {
    if s == [] then 0 else DecimalValue(s[..|s| - 1]) * 10 + (s[|s| - 1] as int - '0' as int)
  }

  /** The decimal digits of `n`, most significant first, with no leading zero. */
  function Digits(n: nat): (r: string)
    ensures |r| >= 1 && forall k :: 0 <= k < |r| ==> '0' <= r[k] <= '9'
    ensures |r| > 1 ==> r[0] != '0'
    decreases n
  {
    if n < 10 then [DigitChar(n)] else Digits(n / 10) + [DigitChar(n % 10)]
  }

  /** The decimal digits of `n` read back as a number give `n`. */
  lemma {:induction false} DigitsRoundTrip(n: nat)
    ensures DecimalValue(Digits(n)) == n
    decreases n
  {
    if n >= 10 {
      var d := Digits(n);
      assert d[..|d| - 1] == Digits(n / 10);
      DigitsRoundTrip(n / 10);
    }
  }

  /** `String(n)` for an integer: its decimal digits, after a `-` when it is negative. */
  function NumStr(n: int): (r: string)
    ensures n >= 0 ==> |r| >= 1 && r[0] != '-' && IsDecimal(r) && DecimalValue(r) == n
    ensures n < 0 ==> |r| >= 2 && r[0] == '-' && IsDecimal(r[1..]) && DecimalValue(r[1..]) == -n
  {
    if n < 0 then
      DigitsRoundTrip(-n);
      assert ("-" + Digits(-n))[1..] == Digits(-n);
      "-" + Digits(-n)
    else
      DigitsRoundTrip(n);
      Digits(n)
  }

  /** `String(v)`. */
  function ToStr(v: JsValue): (r: string)
    ensures v.Str? ==> r == v.s
    ensures v.Num? && v.n >= 0 ==> |r| >= 1 && r[0] != '-' && IsDecimal(r) && DecimalValue(r) == v.n
    ensures v.Num? && v.n < 0 ==> |r| >= 2 && r[0] == '-' && IsDecimal(r[1..]) && DecimalValue(r[1..]) == -v.n
    ensures v.Arr? && v.items == [] ==> r == ""
  {
    match v
    case Undefined => "undefined"
    case Null => "null"
    case Bool(b) => if b then "true" else "false"
    case Num(n) => NumStr(n)
    case Str(s) => s
    case Arr(items) =>
      // `items.join(',')`, where `null` and `undefined` elements give nothing
      Strings.Join(seq(|items|, i requires 0 <= i < |items| =>
        if items[i].Null? || items[i].Undefined? then "" else ToStr(items[i])), ",")
    case Obj(_) => "[object Object]"
  }

  /** Every character is a decimal digit. */
  predicate IsDecimal(s: string)
  {
    forall k :: 0 <= k < |s| ==> '0' <= s[k] <= '9'
  }

  /** What `join` contributes for one array element: nothing for `null` and `undefined`. */
  function ElementString(x: JsValue): string
  {
    if x.Null? || x.Undefined? then "" else ToStr(x)
  }

  /**
   * `String([..., x])`: the string of the earlier elements, a comma, and the
   * string of `x`, so the elements appear in order separated by `,`.
   */
  lemma ToStrArrayAppend(items: seq<JsValue>, x: JsValue)
    requires items != []
    ensures ToStr(Arr(items + [x])) == ToStr(Arr(items)) + "," + ElementString(x)
  {
    var all := items + [x];
    var f := seq(|all|, i requires 0 <= i < |all| =>
      if all[i].Null? || all[i].Undefined? then "" else ToStr(all[i]));
    var g := seq(|items|, i requires 0 <= i < |items| =>
      if items[i].Null? || items[i].Undefined? then "" else ToStr(items[i]));
    assert f == g + [ElementString(x)];
    Strings.JoinAppend(g, ElementString(x), ",");
  }

  /** A one-element array reads as its element's string. */
  lemma ToStrSingleton(x: JsValue)
    ensures ToStr(Arr([x])) == ElementString(x)
  {
    var f := seq(1, i requires 0 <= i < 1 => if [x][i].Null? || [x][i].Undefined? then "" else ToStr([x][i]));
    assert f == [ElementString(x)];
  }
}
