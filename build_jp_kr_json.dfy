/**
 * `data/build_jp_kr_json.py`: the script that turns the wiki table of
 * Japanese shinjitai and Korean traditional characters into the
 * simplified-to-traditional dictionary read by the hanja module.
 *
 * A line contributes when it starts with the two-cell pattern
 *   ||{{{+3 [include(틀:ja, text= TRAD)]}}} ||{{{+3 [include(틀:ja, text= SIMP)]}}}
 * where each group is a non-empty run of characters other than `]`; the
 * rest of the line is ignored (`re.match` anchors only at the start).
 */
module BuildJpKrJson {
  import opened Wrappers
  import Strings

  /** The opening of one cell, up to its captured group. */
  const CellOpen: string := "||{{{+3 [include(틀:ja, text= "
  const Braces: string := "}}}"
  /** What closes one cell. */
  const CellClose: string := ")]" + Braces
  /** What separates the first group from the second. */
  const Between: string := CellClose + " " + CellOpen

  // ---------------------------------------------------------------------
  // Python's str.strip()
  // ---------------------------------------------------------------------

  /** The characters `str.isspace` accepts. */
  predicate IsPyWhitespace(c: char)
  {
    ('\t' <= c <= '\r') || ('\U{001C}' <= c <= ' ') || c == '\U{0085}' || c == '\U{00A0}'
    || c == '\U{1680}' || ('\U{2000}' <= c <= '\U{200A}') || c == '\U{2028}' || c == '\U{2029}'
    || c == '\U{202F}' || c == '\U{205F}' || c == '\U{3000}'
  }

  function LStrip(s: string): (r: string)
    ensures |r| <= |s| && r == s[|s| - |r|..]
    ensures r == [] || !IsPyWhitespace(r[0])
  {
    if s == [] || !IsPyWhitespace(s[0]) then s else LStrip(s[1..])
  }

  function RStrip(s: string): (r: string)
    ensures |r| <= |s| && r == s[..|r|]
    ensures r == [] || !IsPyWhitespace(r[|r| - 1])
  {
    if s == [] || !IsPyWhitespace(s[|s| - 1]) then s else RStrip(s[..|s| - 1])
  }

  /** `s.strip()`. */
  function Strip(s: string): (r: string)
  {
    RStrip(LStrip(s))
  }

  /** The stripped text is a slice of the input with whitespace at neither end. */
  lemma StripIsSlice(s: string)
    ensures exists i, j :: 0 <= i <= j <= |s| && Strip(s) == s[i..j]
    ensures Strip(s) == [] || (!IsPyWhitespace(Strip(s)[0]) && !IsPyWhitespace(Strip(s)[|Strip(s)| - 1]))
  {
    var a := LStrip(s);
    var i := |s| - |a|;
    var r := RStrip(a);
    assert r == a[..|r|] && a == s[i..];
    assert s[i..][..|r|] == s[i..i + |r|];
    assert Strip(s) == s[i..i + |r|];
    if r != [] {
      assert r[0] == a[0] && !IsPyWhitespace(a[0]);
      assert !IsPyWhitespace(r[|r| - 1]);
    }
  }

  // ---------------------------------------------------------------------
  // The line pattern
  // ---------------------------------------------------------------------

  /** A string the group `([^\]]+)` can capture. */
  predicate IsGroup(g: string)
  {
    g != [] && forall k :: 0 <= k < |g| ==> g[k] != ']'
  }

  /** The text after the prefix `p` of `s`, or `None` when `s` does not start with `p`. */
  function AfterPrefix(s: string, p: string): (r: Option<string>)
    ensures r.Some? <==> |p| <= |s| && s[..|p|] == p
    ensures r.Some? ==> s == p + r.value
  {
    if |p| <= |s| && s[..|p|] == p then
      assert s == s[..|p|] + s[|p|..];
      Some(s[|p|..])
    else None
  }

  /**
   * The group `([^\]]+)` followed by `\)\]` at the start of `s`: the group
   * cannot cross a `]`, so it ends just before the first `]`, which must
   * follow a `)`. Yields the group and what follows the `]`.
   */
  function AfterGroup(s: string): (r: Option<(string, string)>)
    ensures r.Some? ==> IsGroup(r.value.0) && s == r.value.0 + ")]" + r.value.1
  {
    match Strings.IndexOfChar(s, ']')
    case None => None
    case Some(k) =>
      if k >= 2 && s[k - 1] == ')' then
        assert s == s[..k - 1] + ")]" + s[k + 1..];
        Some((s[..k - 1], s[k + 1..]))
      else None
  }

  /**
   * The two-cell pattern with its fixed text as parameters: `open`, a
   * group, `)]`, `sep`, a group, `)]`, `close`. Yields the two groups.
   */
  function MatchCells(line: string, open: string, sep: string, close: string): (r: Option<(string, string)>)
    ensures r.Some? ==> IsGroup(r.value.0) && IsGroup(r.value.1)
  {
    match AfterPrefix(line, open)
    case None => None
    case Some(s1) =>
      match AfterGroup(s1)
      case None => None
      case Some((g1, t1)) =>
        match AfterPrefix(t1, sep)
        case None => None
        case Some(s2) =>
          match AfterGroup(s2)
          case None => None
          case Some((g2, t2)) =>
            match AfterPrefix(t2, close)
            case None => None
            case Some(_) => Some((g1, g2))
  }

  /** `re.match(pattern, line)`: the two captured groups, unstripped, or `None` when the line does not match. */
  function ParseLine(line: string): (r: Option<(string, string)>)
    ensures r.Some? ==> IsGroup(r.value.0) && IsGroup(r.value.1)
  {
    MatchCells(line, CellOpen, Braces + " " + CellOpen, Braces)
  }

  /** Helper: the group matcher finds exactly the group a well-formed cell was built from. */
  lemma AfterGroupOf(g: string, t: string)
    requires IsGroup(g)
    ensures AfterGroup(g + ")]" + t) == Some((g, t))
  {
    var s := g + ")]" + t;
    assert s[|g| + 1] == ']';
    var k := Strings.IndexOfChar(s, ']');
    assert forall j :: 0 <= j < |g| ==> s[j] == g[j];
    assert k.value == |g| + 1;
    assert s[..|g|] == g;
    assert s[|g| + 2..] == t;
  }

  /** Helper: a string that starts with `p` is recognised as doing so. */
  lemma AfterPrefixOf(p: string, t: string)
    ensures AfterPrefix(p + t, p) == Some(t)
  {
    assert (p + t)[..|p|] == p;
  }

  /** Helper: a line built from the parameterised pattern matches with its two groups. */
  lemma MatchCellsOf(open: string, sep: string, close: string, g1: string, g2: string, rest: string)
    requires IsGroup(g1) && IsGroup(g2)
    ensures MatchCells(open + g1 + (")]" + sep) + g2 + (")]" + close) + rest, open, sep, close) == Some((g1, g2))
  {
    var t2 := close + rest;
    var s2 := g2 + ")]" + t2;
    var t1 := sep + s2;
    var s1 := g1 + ")]" + t1;
    Reassemble(open + s1, open, s1, g1, t1, sep, s2, g2, t2, close, rest);
    AfterPrefixOf(open, s1);
    AfterGroupOf(g1, t1);
    AfterPrefixOf(sep, s2);
    AfterGroupOf(g2, t2);
    AfterPrefixOf(close, rest);
  }

  /** Helper: a line the parameterised pattern matches is built from it. */
  lemma MatchCellsSound(line: string, open: string, sep: string, close: string)
    requires MatchCells(line, open, sep, close).Some?
    ensures var (g1, g2) := MatchCells(line, open, sep, close).value;
            exists rest :: line == open + g1 + (")]" + sep) + g2 + (")]" + close) + rest
  {
    var s1 := AfterPrefix(line, open).value;
    var (g1, t1) := AfterGroup(s1).value;
    var s2 := AfterPrefix(t1, sep).value;
    var (g2, t2) := AfterGroup(s2).value;
    var rest := AfterPrefix(t2, close).value;
    Reassemble(line, open, s1, g1, t1, sep, s2, g2, t2, close, rest);
  }

  /** Helper: the pieces the matcher split a line into concatenate back to the line. */
  lemma Reassemble(line: string, open: string, s1: string, g1: string, t1: string, sep: string,
                   s2: string, g2: string, t2: string, close: string, rest: string)
    requires line == open + s1 && s1 == g1 + ")]" + t1 && t1 == sep + s2
    requires s2 == g2 + ")]" + t2 && t2 == close + rest
    ensures line == open + g1 + (")]" + sep) + g2 + (")]" + close) + rest
  {
  }

  /** Every line built from the pattern parses back to its two groups, whatever follows it. */
  lemma ParseLineOfCells(g1: string, g2: string, rest: string)
    requires IsGroup(g1) && IsGroup(g2)
    ensures ParseLine(CellOpen + g1 + Between + g2 + CellClose + rest) == Some((g1, g2))
  {
    var sep := Braces + " " + CellOpen;
    assert Between == ")]" + sep;
    assert CellClose == ")]" + Braces;
    var line := CellOpen + g1 + Between + g2 + CellClose + rest;
    assert line == CellOpen + g1 + (")]" + sep) + g2 + (")]" + Braces) + rest;
    MatchCellsOf(CellOpen, sep, Braces, g1, g2, rest);
  }

  /** A line parses only if it is built from the pattern: two groups framed by the fixed text. */
  lemma ParseLineSound(line: string)
    requires ParseLine(line).Some?
    ensures var (g1, g2) := ParseLine(line).value;
            exists rest :: line == CellOpen + g1 + Between + g2 + CellClose + rest
  {
    assert Between == ")]" + (Braces + " " + CellOpen);
    MatchCellsSound(line, CellOpen, Braces + " " + CellOpen, Braces);
  }

  // ---------------------------------------------------------------------
  // Building the dictionary
  // ---------------------------------------------------------------------

  /** What a line contributes: the stripped simplified form as key, the stripped traditional form as value. */
  function Entry(line: string): (r: Option<(string, string)>)
    ensures r.Some? <==> ParseLine(line).Some?
    ensures r.Some? ==> r.value == (Strip(ParseLine(line).value.1), Strip(ParseLine(line).value.0))
  {
    match ParseLine(line)
    case None => None
    case Some((trad, simp)) => Some((Strip(simp), Strip(trad)))
  }

  /** What each line contributes, line by line. */
  function Entries(lines: seq<string>): (es: seq<Option<(string, string)>>)
    ensures |es| == |lines|
    ensures forall i :: 0 <= i < |lines| ==> es[i] == Entry(lines[i])
  {
    seq(|lines|, i requires 0 <= i < |lines| => Entry(lines[i]))
  }

  /** The dictionary after `mapping[key] = value` for each contribution, in order. */
  function Fold(es: seq<Option<(string, string)>>): (m: map<string, string>)
  {
    if es == [] then map[]
    else
      var m := Fold(es[..|es| - 1]);
      match es[|es| - 1]
      case None => m
      case Some((k, v)) => m[k := v]
  }

  /** The dictionary the script writes for the input `lines`. */
  function MappingOf(lines: seq<string>): (m: map<string, string>)
  {
    Fold(Entries(lines))
  }

  /**
   * The script's loop: every matching line sets `mapping[simp] = trad`.
   * Returns the dictionary and the count it reports.
   */
  method BuildMapping(lines: seq<string>) returns (mapping: map<string, string>, count: nat)
    ensures mapping == MappingOf(lines)
    ensures count == |mapping.Keys|
  {
    ghost var es := Entries(lines);
    mapping := map[];
    for i := 0 to |lines|
      invariant mapping == Fold(es[..i])
    {
      FoldStep(es, i);
      var m := ParseLine(lines[i]);
      if m.Some? {
        var trad := Strip(m.value.0);
        var simp := Strip(m.value.1);
        mapping := mapping[simp := trad];
      }
    }
    assert es[..|lines|] == es;
    count := |mapping.Keys|;
  }

  /** Helper: one more contribution updates the dictionary built so far. */
  lemma FoldStep(es: seq<Option<(string, string)>>, i: nat)
    requires i < |es|
    ensures es[i].None? ==> Fold(es[..i + 1]) == Fold(es[..i])
    ensures es[i].Some? ==> Fold(es[..i + 1]) == Fold(es[..i])[es[i].value.0 := es[i].value.1]
  {
    assert es[..i + 1][..i] == es[..i];
  }

  /** The contribution `e` has the key `k`. */
  predicate HasKey(e: Option<(string, string)>, k: string)
  {
    e.Some? && e.value.0 == k
  }

  /** A key is in the dictionary exactly when some contribution has it. */
  lemma {:induction false} FoldKeys(es: seq<Option<(string, string)>>, k: string)
    ensures k in Fold(es) <==> exists i :: 0 <= i < |es| && HasKey(es[i], k)
  {
    if es != [] {
      var n := |es| - 1;
      var init := es[..n];
      FoldKeys(init, k);
      if HasKey(es[n], k) {
      } else if k in Fold(es) {
        var i :| 0 <= i < n && HasKey(init[i], k);
        assert init[i] == es[i];
      } else {
        forall i | 0 <= i < n ensures !HasKey(es[i], k) {
          assert init[i] == es[i];
        }
      }
    }
  }

  /** The value of a key comes from the last contribution that has the key. */
  lemma {:induction false} FoldLastWins(es: seq<Option<(string, string)>>, k: string)
    requires k in Fold(es)
    ensures exists i :: 0 <= i < |es| && es[i] == Some((k, Fold(es)[k]))
              && forall j :: i < j < |es| ==> !HasKey(es[j], k)
  {
    var n := |es| - 1;
    var init := es[..n];
    if HasKey(es[n], k) {
      assert es[n] == Some((k, Fold(es)[k]));
    } else {
      FoldLastWins(init, k);
      var i :| 0 <= i < n && init[i] == Some((k, Fold(init)[k]))
               && forall j :: i < j < n ==> !HasKey(init[j], k);
      assert init[i] == es[i];
      assert forall j :: i < j < n ==> init[j] == es[j];
    }
  }

  /**
   * A simplified form is a key exactly when some line contributes it, and
   * its value is that of the LAST line that does: later lines overwrite.
   */
  lemma MappingLastWins(lines: seq<string>, k: string)
    ensures k in MappingOf(lines) <==> exists i :: 0 <= i < |lines| && HasKey(Entry(lines[i]), k)
    ensures k in MappingOf(lines) ==>
              exists i :: 0 <= i < |lines| && Entry(lines[i]) == Some((k, MappingOf(lines)[k]))
                && forall j :: i < j < |lines| ==> !HasKey(Entry(lines[j]), k)
  {
    var es := Entries(lines);
    FoldKeys(es, k);
    if k in MappingOf(lines) {
      FoldLastWins(es, k);
    }
  }

  /** Lines that do not match leave the dictionary as it was. */
  lemma NonMatchingLinesIgnored(lines: seq<string>, junk: string)
    requires ParseLine(junk).None?
    ensures MappingOf(lines + [junk]) == MappingOf(lines)
  {
    var es := Entries(lines + [junk]);
    assert es[..|lines|] == Entries(lines);
    FoldStep(es, |lines|);
    assert es[..|lines| + 1] == es;
  }

  /** The reported count is the number of distinct simplified keys among the matching lines. */
  lemma CountIsDistinctKeys(lines: seq<string>)
    ensures MappingOf(lines).Keys == set i | 0 <= i < |lines| && Entry(lines[i]).Some? :: Entry(lines[i]).value.0
  {
    var es := Entries(lines);
    forall k | k in MappingOf(lines)
      ensures exists i :: 0 <= i < |lines| && Entry(lines[i]).Some? && Entry(lines[i]).value.0 == k
    {
      FoldKeys(es, k);
    }
    forall i | 0 <= i < |lines| && Entry(lines[i]).Some?
      ensures Entry(lines[i]).value.0 in MappingOf(lines)
    {
      FoldKeys(es, Entry(lines[i]).value.0);
    }
  }
}
