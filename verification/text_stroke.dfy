/**
 * The text-stroke editor: a `-webkit-text-stroke` value is read into a
 * width (a keyword `thin`/`medium`/`thick` or a px/em/rem length) and a
 * colour, edited, and written back as `width + " " + color`.
 */
module TextStroke {
  import opened Wrappers
  import opened Strings
  import ShadowCommon

  const DefaultWidth: string := "1px"
  const DefaultColor: string := "#000000ff"

  datatype Stroke = Stroke(width: string, color: string)

  /** The three width keywords, lower case, in the order the pattern tries them. */
  predicate IsKeyword(w: string) {
    w == "thin" || w == "medium" || w == "thick"
  }

  // ---------------------------------------------------------------------
  // The two width patterns
  // ---------------------------------------------------------------------

  /** `\w`. */
  predicate IsWordChar(c: char) {
    IsAsciiLetter(c) || IsDigit(c) || c == '_'
  }

  /** `\b` at index `i`: a word character on exactly one side. */
  predicate BoundaryAt(s: string, i: nat)
    requires i <= |s|
  {
    (i > 0 && IsWordChar(s[i - 1])) != (i < |s| && IsWordChar(s[i]))
  }

  /** Keyword `k` matches at `i`, ignoring case, and is followed by `\b`. */
  predicate KeywordHere(s: string, i: nat, k: string) {
    i + |k| <= |s| && LowerAscii(s[i..i + |k|]) == k && BoundaryAt(s, i + |k|)
  }

  /** `\b(thin|medium|thick)\b` at `i`: the matched text, as it is written in `s`. */
  function KeywordAt(s: string, i: nat): (r: Option<string>)
    requires i <= |s|
    ensures r.Some? ==> i + |r.value| <= |s| && r.value == s[i..i + |r.value|] && IsKeyword(LowerAscii(r.value))
  {
    if !BoundaryAt(s, i) then None
    else if KeywordHere(s, i, "thin") then Some(s[i..i + 4])
    else if KeywordHere(s, i, "medium") then Some(s[i..i + 6])
    else if KeywordHere(s, i, "thick") then Some(s[i..i + 5])
    else None
  }

  /** The leftmost keyword match at or after `from`: its index and its text. */
  function FirstKeyword(s: string, from: nat): (r: Option<(nat, string)>)
    requires from <= |s|
    ensures r.Some? ==> from <= r.value.0 <= |s| && KeywordAt(s, r.value.0) == Some(r.value.1)
    ensures r.Some? ==> forall j :: from <= j < r.value.0 ==> KeywordAt(s, j).None?
    ensures r.None? ==> forall j :: from <= j <= |s| ==> KeywordAt(s, j).None?
    decreases |s| - from
  {
    match KeywordAt(s, from)
    case Some(t) => Some((from, t))
    case None =>
      if from == |s| then None
      else
        var r := FirstKeyword(s, from + 1);
        assert forall j :: from <= j < from + 1 ==> KeywordAt(s, j).None?;
        r
  }

  /** `\d*\.?\d+` from `i`, as far as it can be followed by a letter: where the number ends. */
  function NumberEnd(s: string, i: nat): (r: Option<nat>)
    requires i <= |s|
    ensures r.Some? ==> i < r.value <= |s|
  {
    var d1 := i + ShadowCommon.DigitRun(s, i);
    if d1 < |s| && s[d1] == '.' then
      var d2 := d1 + 1 + ShadowCommon.DigitRun(s, d1 + 1);
      if d2 > d1 + 1 then Some(d2) else None
    else if d1 > i then Some(d1)
    else None
  }

  /** `(?:px|em|rem)` at `e`, ignoring case: where the unit ends. */
  function UnitEnd(s: string, e: nat): (r: Option<nat>)
    ensures r.Some? ==> e + 2 <= r.value <= |s|
  {
    if e + 2 <= |s| && ToLower(s[e]) == 'p' && ToLower(s[e + 1]) == 'x' then Some(e + 2)
    else if e + 2 <= |s| && ToLower(s[e]) == 'e' && ToLower(s[e + 1]) == 'm' then Some(e + 2)
    else if e + 3 <= |s| && ToLower(s[e]) == 'r' && ToLower(s[e + 1]) == 'e' && ToLower(s[e + 2]) == 'm' then Some(e + 3)
    else None
  }

  /** A number followed by a unit starting at `i`: where the length ends. */
  function LengthEnd(s: string, i: nat): (r: Option<nat>)
    requires i <= |s|
    ensures r.Some? ==> i < r.value <= |s|
  {
    match NumberEnd(s, i)
    case None => None
    case Some(e) => UnitEnd(s, e)
  }

  /** `\b\d*\.?\d+(?:px|em|rem)\b` at `i`: where the match ends. */
  function LengthAt(s: string, i: nat): (r: Option<nat>)
    requires i <= |s|
    ensures r.Some? ==> i < r.value <= |s| && BoundaryAt(s, i) && BoundaryAt(s, r.value)
  {
    if !BoundaryAt(s, i) then None
    else match LengthEnd(s, i)
      case Some(e) => if BoundaryAt(s, e) then Some(e) else None
      case None => None
  }

  /** The leftmost length match at or after `from`: its start and end. */
  function FirstLength(s: string, from: nat): (r: Option<(nat, nat)>)
    requires from <= |s|
    ensures r.Some? ==> from <= r.value.0 < r.value.1 <= |s| && LengthAt(s, r.value.0) == Some(r.value.1)
    ensures r.Some? ==> forall j :: from <= j < r.value.0 ==> LengthAt(s, j).None?
    ensures r.None? ==> forall j :: from <= j <= |s| ==> LengthAt(s, j).None?
    decreases |s| - from
  {
    match LengthAt(s, from)
    case Some(e) => Some((from, e))
    case None =>
      if from == |s| then None
      else
        var r := FirstLength(s, from + 1);
        assert forall j :: from <= j < from + 1 ==> LengthAt(s, j).None?;
        r
  }

  /** `lengthRegex`, `^(\d*\.?\d+)(px|em|rem)$` ignoring case: the whole string is one length. */
  predicate IsLength(w: string) {
    LengthEnd(w, 0) == Some(|w|)
  }

  // ---------------------------------------------------------------------
  // extractStroke and buildStroke
  // ---------------------------------------------------------------------

  /**
   * The width found in the trimmed value: where the match starts and ends,
   * and the width it gives. A keyword anywhere wins over any length and is
   * lowered; a length is kept as written.
   */
  function FindWidth(parts: string): (r: Option<(nat, nat, string)>)
    ensures r.Some? ==> r.value.0 < r.value.1 <= |parts|
  {
    match FirstKeyword(parts, 0)
    case Some((i, text)) => Some((i, i + |text|, LowerAscii(text)))
    case None =>
      match FirstLength(parts, 0)
      case Some((i, e)) => Some((i, e, parts[i..e]))
      case None => None
  }

  /** The colour left over: black when nothing is left, then through the normaliser, kept as written when that fails. */
  function FinishColor(rest: string, normalize: string -> Option<string>): string {
    var color := if rest == "" then DefaultColor else rest;
    normalize(color).GetOr(color)
  }

  /**
   * `extractStroke`, with the colour taken as the value with the matched
   * width cut out where it was matched. `normalize` is the canvas colour
   * normaliser.
   */
  function ExtractStroke(value: Option<string>, normalize: string -> Option<string>): (r: Stroke)
    ensures value.None? || value == Some("") ==> r == Stroke(DefaultWidth, DefaultColor)
  {
    if value.None? || value.value == "" then Stroke(DefaultWidth, DefaultColor)
    else
      var parts := Trim(value.value);
      match FindWidth(parts)
      case None => Stroke(DefaultWidth, FinishColor("", normalize))
      case Some((i, e, w)) => Stroke(w, FinishColor(Trim(parts[..i] + parts[e..]), normalize))
  }

  /**
   * `extractStroke` as written: the colour is the value with the FIRST
   * occurrence of the matched text removed, which may lie before the match.
   */
  function ExtractStrokeAsWritten(value: Option<string>, normalize: string -> Option<string>): Stroke {
    if value.None? || value.value == "" then Stroke(DefaultWidth, DefaultColor)
    else
      var parts := Trim(value.value);
      match FindWidth(parts)
      case None => Stroke(DefaultWidth, FinishColor("", normalize))
      case Some((i, e, w)) => Stroke(w, FinishColor(Trim(ReplaceFirst(parts, parts[i..e], "")), normalize))
  }

  /** The two agree whenever the matched text does not occur earlier in the value. */
  lemma AsWrittenAgrees(value: string, normalize: string -> Option<string>)
    requires value != ""
    requires var m := FindWidth(Trim(value));
      m.Some? ==> IndexOfFrom(Trim(value), Trim(value)[m.value.0..m.value.1], 0) == Some(m.value.0)
    ensures ExtractStrokeAsWritten(Some(value), normalize) == ExtractStroke(Some(value), normalize)
  {
    var parts := Trim(value);
    match FindWidth(parts)
    case None =>
    case Some((i, e, w)) =>
      var text := parts[i..e];
      assert |text| == e - i;
      assert ReplaceFirst(parts, text, "") == parts[..i] + parts[e..];
  }

  /** A colour name that starts with a keyword, followed by that keyword as the width. */
  const ColorFirst: string := "mediumblue medium"

  /** In `ColorFirst` the keyword inside `mediumblue` has no boundary after it, so nothing matches before index 11. */
  lemma ColorFirstNoEarlyKeyword(j: nat)
    requires j < 11
    ensures KeywordAt(ColorFirst, j).None?
  {
    var s := ColorFirst;
    if j == 0 {
      assert !BoundaryAt(s, 6);
      assert LowerAscii(s[0..4])[0] == 'm' && LowerAscii(s[0..5])[0] == 'm';
    } else if j != 10 {
      assert !BoundaryAt(s, j);
    } else {
      assert LowerAscii(s[10..14])[0] == ' ' && LowerAscii(s[10..15])[0] == ' ' && LowerAscii(s[10..16])[0] == ' ';
    }
  }

  /** The second `medium` of `ColorFirst` is a keyword match. */
  lemma ColorFirstKeyword()
    ensures KeywordAt(ColorFirst, 11) == Some("medium")
  {
    var s := ColorFirst;
    assert s[11..17] == "medium";
    assert LowerAscii(s[11..15])[0] == 'm';
  }

  /** Only the second `medium` of `ColorFirst` matches. */
  lemma ColorFirstMatch()
    ensures Trim(ColorFirst) == ColorFirst
    ensures FindWidth(ColorFirst) == Some((11, 17, "medium"))
  {
    TrimKeeps(ColorFirst);
    forall j | 0 <= j < 11
      ensures KeywordAt(ColorFirst, j).None?
    {
      ColorFirstNoEarlyKeyword(j);
    }
    ColorFirstKeyword();
    var r := FirstKeyword(ColorFirst, 0);
    assert r.Some? && r.value.0 == 11;
  }

  /** The corrected reading, once the width match and the trimmed remainder are known. */
  lemma ExtractCutAt(value: string, i: nat, e: nat, w: string, rest: string, normalize: string -> Option<string>)
    requires value != "" && FindWidth(Trim(value)) == Some((i, e, w))
    requires Trim(Trim(value)[..i] + Trim(value)[e..]) == rest
    ensures ExtractStroke(Some(value), normalize) == Stroke(w, FinishColor(rest, normalize))
  {
  }

  /** The reading as written, once the width match and the trimmed remainder are known. */
  lemma ExtractReplaceAt(value: string, i: nat, e: nat, w: string, rest: string, normalize: string -> Option<string>)
    requires value != "" && FindWidth(Trim(value)) == Some((i, e, w))
    requires Trim(ReplaceFirst(Trim(value), Trim(value)[i..e], "")) == rest
    ensures ExtractStrokeAsWritten(Some(value), normalize) == Stroke(w, FinishColor(rest, normalize))
  {
  }

  /** `replace` removes the `medium` at the start of `ColorFirst`, not the matched one. */
  lemma ColorFirstReplaced()
    ensures Trim(ReplaceFirst(ColorFirst, ColorFirst[11..17], "")) == "blue medium"
  {
    var s := ColorFirst;
    assert s[11..17] == "medium" && s[0..6] == "medium";
    assert IndexOfFrom(s, "medium", 0) == Some(0);
    assert ReplaceFirst(s, "medium", "") == "blue medium";
    TrimKeeps("blue medium");
  }

  /** Cutting out the matched `medium` of `ColorFirst` leaves the colour name. */
  lemma ColorFirstCut()
    ensures Trim(ColorFirst[..11] + ColorFirst[17..]) == "mediumblue"
  {
    var s := ColorFirst;
    assert s[..11] + s[17..] == "mediumblue" + " ";
    TrimDropsBlank("mediumblue");
  }

  /** As written, `mediumblue medium` loses the `medium` of its colour name. */
  lemma ColorFirstAsWritten(normalize: string -> Option<string>)
    ensures ExtractStrokeAsWritten(Some(ColorFirst), normalize) == Stroke("medium", FinishColor("blue medium", normalize))
  {
    ColorFirstMatch();
    ColorFirstReplaced();
    ExtractReplaceAt(ColorFirst, 11, 17, "medium", "blue medium", normalize);
  }

  /** Cutting the match where it was found keeps the colour name whole. */
  lemma ColorFirstCorrected(normalize: string -> Option<string>)
    ensures ExtractStroke(Some(ColorFirst), normalize) == Stroke("medium", FinishColor("mediumblue", normalize))
  {
    ColorFirstMatch();
    ColorFirstCut();
    ExtractCutAt(ColorFirst, 11, 17, "medium", "mediumblue", normalize);
  }

  /** `trim` drops one trailing blank from a string whose ends are not blank. */
  lemma TrimDropsBlank(x: string)
    requires x != [] && !IsSpace(x[0]) && !IsSpace(x[|x| - 1])
    ensures Trim(x + " ") == x
  {
    var y := x + " ";
    assert TrimStart(y) == y;
    assert y[..|y| - 1] == x;
    assert TrimEnd(y) == TrimEnd(x);
    assert TrimEnd(x) == x;
  }

  /** `buildStroke`. */
  function BuildStroke(s: Stroke): string {
    s.width + " " + s.color
  }

  /**
   * A keyword anywhere in the value wins over any length, and becomes the
   * width in lower case; the colour is what is left once the match is cut out.
   */
  lemma KeywordWins(value: string, normalize: string -> Option<string>)
    requires value != ""
    requires FirstKeyword(Trim(value), 0).Some?
    ensures var (i, text) := FirstKeyword(Trim(value), 0).value;
      var parts := Trim(value);
      var r := ExtractStroke(Some(value), normalize);
      IsKeyword(r.width) && EqualsIgnoreCase(r.width, text) &&
      r.color == FinishColor(Trim(parts[..i] + parts[i + |text|..]), normalize)
  {
    var parts := Trim(value);
    var (i, text) := FirstKeyword(parts, 0).value;
    ExtractKeyword(value, normalize, i, text);
    var w := LowerAscii(text);
    assert IsKeyword(w);
    LowerTwice(text);
    assert EqualsIgnoreCase(w, text);
  }

  /** With a keyword found, the width is its lower case and the colour the rest. */
  lemma ExtractKeyword(value: string, normalize: string -> Option<string>, i: nat, text: string)
    requires value != "" && FirstKeyword(Trim(value), 0) == Some((i, text))
    ensures var parts := Trim(value);
      i + |text| <= |parts| &&
      ExtractStroke(Some(value), normalize) == Stroke(LowerAscii(text), FinishColor(Trim(parts[..i] + parts[i + |text|..]), normalize))
  {
  }

  /** Lowering twice lowers once. */
  lemma LowerTwice(text: string)
    ensures LowerAscii(LowerAscii(text)) == LowerAscii(text)
  {
  }

  /** Without a keyword, the first length is the width, as written. */
  lemma LengthWidth(value: string, normalize: string -> Option<string>)
    requires value != ""
    requires FirstKeyword(Trim(value), 0).None? && FirstLength(Trim(value), 0).Some?
    ensures var (i, e) := FirstLength(Trim(value), 0).value;
      var parts := Trim(value);
      ExtractStroke(Some(value), normalize) == Stroke(parts[i..e], FinishColor(Trim(parts[..i] + parts[e..]), normalize))
  {
  }

  /** With neither a keyword nor a length, both defaults apply (the colour still goes through the normaliser). */
  lemma NoWidthDefaults(value: string, normalize: string -> Option<string>)
    requires value != ""
    requires FirstKeyword(Trim(value), 0).None? && FirstLength(Trim(value), 0).None?
    ensures ExtractStroke(Some(value), normalize) == Stroke(DefaultWidth, normalize(DefaultColor).GetOr(DefaultColor))
  {
  }

  // ---------------------------------------------------------------------
  // A length match is a whole length
  // ---------------------------------------------------------------------

  /** The digit run of a slice is the digit run of the string, cut at the slice's end. */
  lemma DigitRunSlice(s: string, i: nat, e: nat, k: nat)
    requires i <= k <= e <= |s|
    requires k + ShadowCommon.DigitRun(s, k) < e
    ensures ShadowCommon.DigitRun(s[i..e], k - i) == ShadowCommon.DigitRun(s, k)
  {
    var n := ShadowCommon.DigitRun(s, k);
    ShadowCommon.DigitRunIs(s[i..e], k - i, n);
  }

  /** The number of a length match, read inside the match alone. */
  lemma NumberSlice(s: string, i: nat, n: nat, e: nat)
    requires i <= |s| && NumberEnd(s, i) == Some(n) && n < e <= |s|
    ensures NumberEnd(s[i..e], 0) == Some(n - i)
  {
    var d1 := i + ShadowCommon.DigitRun(s, i);
    if d1 < |s| && s[d1] == '.' {
      FractionSlice(s, i, d1, n, e);
    } else {
      WholeSlice(s, i, d1, e);
    }
  }

  /** A number with a fraction, read inside the match alone. */
  lemma FractionSlice(s: string, i: nat, d1: nat, n: nat, e: nat)
    requires i <= d1 < |s| && d1 == i + ShadowCommon.DigitRun(s, i) && s[d1] == '.'
    requires n == d1 + 1 + ShadowCommon.DigitRun(s, d1 + 1) && n > d1 + 1 && n < e <= |s|
    ensures NumberEnd(s[i..e], 0) == Some(n - i)
  {
    var w := s[i..e];
    DigitRunSlice(s, i, e, i);
    DigitRunSlice(s, i, e, d1 + 1);
    assert w[d1 - i] == '.';
  }

  /** A number without a fraction, read inside the match alone. */
  lemma WholeSlice(s: string, i: nat, d1: nat, e: nat)
    requires i < d1 < e <= |s| && d1 == i + ShadowCommon.DigitRun(s, i)
    requires !(d1 < |s| && s[d1] == '.')
    ensures NumberEnd(s[i..e], 0) == Some(d1 - i)
  {
    var w := s[i..e];
    DigitRunSlice(s, i, e, i);
    assert w[d1 - i] == s[d1];
  }

  /** The unit of a length match, read inside the match alone. */
  lemma UnitSlice(s: string, i: nat, n: nat, e: nat)
    requires i <= n && UnitEnd(s, n) == Some(e)
    ensures UnitEnd(s[i..e], n - i) == Some(e - i)
  {
    var w := s[i..e];
    assert forall k :: n <= k < e ==> w[k - i] == s[k];
  }

  /** What a length match covers is accepted by `lengthRegex` on its own. */
  lemma LengthSlice(s: string, i: nat, e: nat)
    requires i <= |s| && LengthEnd(s, i) == Some(e)
    ensures IsLength(s[i..e])
  {
    var n := NumberEnd(s, i).value;
    NumberSlice(s, i, n, e);
    UnitSlice(s, i, n, e);
  }

  /** Every width `extractStroke` yields is a keyword or passes `lengthRegex`. */
  lemma ExtractedWidth(value: Option<string>, normalize: string -> Option<string>)
    ensures var w := ExtractStroke(value, normalize).width;
      IsKeyword(w) || IsLength(w)
  {
    if value.Some? && value.value != "" {
      var parts := Trim(value.value);
      if FirstKeyword(parts, 0).None? {
        match FirstLength(parts, 0)
        case Some((i, e)) =>
          LengthSlice(parts, i, e);
        case None =>
          assert LengthEnd(DefaultWidth, 0) == Some(3);
      }
    } else {
      assert LengthEnd(DefaultWidth, 0) == Some(3);
    }
  }

  // ---------------------------------------------------------------------
  // Round trip
  // ---------------------------------------------------------------------

  /** `#rrggbbaa`: the colour form the editor writes. */
  predicate IsHex8(c: string) {
    |c| == 9 && c[0] == '#' && forall k :: 1 <= k < 9 ==> IsHexDigit(c[k])
  }

  /** A px width written with decimal digits only. */
  predicate IsPxWidth(w: string) {
    |w| >= 3 && AllDigits(w[..|w| - 2]) && w[|w| - 2..] == "px"
  }

  /** A keyword cannot start where the lower-case letter is neither `t` nor `m`. */
  lemma NoKeywordAt(s: string, j: nat)
    requires j <= |s|
    requires j < |s| ==> ToLower(s[j]) != 't' && ToLower(s[j]) != 'm'
    ensures KeywordAt(s, j).None?
  {
    if j < |s| {
      if j + 4 <= |s| {
        assert LowerAscii(s[j..j + 4])[0] == ToLower(s[j]);
      }
      if j + 5 <= |s| {
        assert LowerAscii(s[j..j + 5])[0] == ToLower(s[j]);
      }
      if j + 6 <= |s| {
        assert LowerAscii(s[j..j + 6])[0] == ToLower(s[j]);
      }
    }
  }

  /** `trim` leaves a string whose ends are not blank as it is. */
  lemma TrimKeeps(s: string)
    requires s != [] && !IsSpace(s[0]) && !IsSpace(s[|s| - 1])
    ensures Trim(s) == s
  {
    assert TrimStart(s) == s;
  }

  /** Cutting out a width written at the very start leaves the colour. */
  lemma RemoveLeadingWidth(w: string, c: string)
    requires w != [] && IsHex8(c)
    ensures var s := w + " " + c; Trim(s[..0] + s[|w|..]) == c
  {
    var s := w + " " + c;
    assert s[..0] + s[|w|..] == " " + c;
    assert IsHexDigit(c[8]);
    assert (" " + c)[1..] == c;
    TrimKeeps(c);
    assert TrimStart(" " + c) == TrimStart(c) == c;
  }

  /** A keyword width is found at the start of the built value. */
  lemma KeywordFirst(w: string, c: string)
    requires IsKeyword(w) && IsHex8(c)
    ensures FirstKeyword(w + " " + c, 0) == Some((0, w))
  {
    var s := w + " " + c;
    assert s[..|w|] == w && s[|w|] == ' ';
    KeywordAtStart(s, w);
  }

  /** A keyword followed by a blank is the keyword match at the start. */
  lemma KeywordAtStart(s: string, w: string)
    requires IsKeyword(w) && |w| < |s| && s[..|w|] == w && s[|w|] == ' '
    ensures KeywordAt(s, 0) == Some(w)
  {
    assert BoundaryAt(s, |w|);
    if w == "thin" {
      assert s[0..4] == w;
    } else if w == "medium" {
      assert s[0..6] == w;
      assert !KeywordHere(s, 0, "thin") by {
        assert s[0..4][0] == s[0] == 'm';
        assert LowerAscii(s[0..4])[0] == 'm';
      }
    } else {
      assert s[0..5] == w;
      assert !KeywordHere(s, 0, "thin") by {
        assert s[0..4][3] == s[3] == 'c';
        assert LowerAscii(s[0..4])[3] == 'c';
      }
      assert !KeywordHere(s, 0, "medium") by {
        assert s[0..6][0] == s[0] == 't';
        assert LowerAscii(s[0..6])[0] == 't';
      }
    }
  }

  /** A px width followed by a hex colour holds no keyword at all. */
  lemma PxHasNoKeyword(w: string, c: string)
    requires IsPxWidth(w) && IsHex8(c)
    ensures FirstKeyword(w + " " + c, 0).None?
  {
    var s := w + " " + c;
    forall j | 0 <= j <= |s|
      ensures KeywordAt(s, j).None?
    {
      if j < |s| {
        if j < |w| - 2 {
          assert s[j] == w[..|w| - 2][j];
        } else if j < |w| {
          assert s[j] == w[|w| - 2..][j - (|w| - 2)];
        } else if j > |w| {
          assert s[j] == c[j - |w| - 1];
        }
      }
      NoKeywordAt(s, j);
    }
  }

  /** Digits, then `px`, then a blank: a length match at the start. */
  lemma PxLengthAt(s: string, n: nat)
    requires n > 0 && n + 2 < |s|
    requires forall k :: 0 <= k < n ==> IsDigit(s[k])
    requires s[n] == 'p' && s[n + 1] == 'x' && s[n + 2] == ' '
    ensures LengthAt(s, 0) == Some(n + 2)
  {
    ShadowCommon.DigitRunIs(s, 0, n);
    assert NumberEnd(s, 0) == Some(n);
  }

  /** A px width is the length found at the start of the built value. */
  lemma PxFirst(w: string, c: string)
    requires IsPxWidth(w) && IsHex8(c)
    ensures FirstLength(w + " " + c, 0) == Some((0, |w|))
  {
    var s := w + " " + c;
    var n := |w| - 2;
    assert forall k :: 0 <= k < n ==> s[k] == w[..n][k];
    assert s[n] == w[n..][0] == 'p' && s[n + 1] == w[n..][1] == 'x';
    assert s[|w|] == ' ';
    PxLengthAt(s, n);
  }

  /**
   * `extractStroke` reads back what `buildStroke` wrote, for a keyword or a
   * px width and a `#rrggbbaa` colour that the normaliser keeps.
   */
  lemma StrokeRoundTrip(w: string, c: string, normalize: string -> Option<string>)
    requires IsKeyword(w) || IsPxWidth(w)
    requires IsHex8(c) && normalize(c) == Some(c)
    ensures ExtractStroke(Some(BuildStroke(Stroke(w, c))), normalize) == Stroke(w, c)
  {
    var s := w + " " + c;
    assert s[0] == w[0] && s[|s| - 1] == c[8];
    TrimKeeps(s);
    RemoveLeadingWidth(w, c);
    if IsKeyword(w) {
      KeywordFirst(w, c);
      assert LowerAscii(w) == w;
    } else {
      PxHasNoKeyword(w, c);
      PxFirst(w, c);
      assert s[0..|w|] == w;
    }
  }

  // ---------------------------------------------------------------------
  // Width mode and the segmented control
  // ---------------------------------------------------------------------

  /** The keyword the width shows, if the width is exactly one (`/^(thin|medium|thick)$/i`). */
  function KeywordOf(width: string): (r: Option<string>)
    ensures r.Some? <==> IsKeyword(LowerAscii(width))
    ensures r.Some? ==> r.value == LowerAscii(width)
  {
    var w := LowerAscii(width);
    if IsKeyword(w) then Some(w) else None
  }

  /** The buttons of the segmented control. */
  datatype Segment = Thin | Medium | Thick | Custom

  function SegmentName(seg: Segment): string
    requires !seg.Custom?
  {
    match seg
    case Thin => "thin"
    case Medium => "medium"
    case Thick => "thick"
  }

  /** The px width that replaces a keyword when switching to custom. */
  function CustomWidth(keyword: Option<string>): (r: string)
    ensures IsPxWidth(r) && IsLength(r)
    ensures keyword == Some("medium") ==> r == "2px"
    ensures keyword == Some("thick") ==> r == "3px"
    ensures keyword != Some("medium") && keyword != Some("thick") ==> r == "1px"
  {
    var d := if keyword == Some("thin") then '1'
      else if keyword == Some("medium") then '2'
      else if keyword == Some("thick") then '3'
      else '1';
    OneDigitPx(d);
    [d] + "px"
  }

  /** One digit then `px` is a px width and a length. */
  lemma OneDigitPx(d: char)
    requires IsDigit(d)
    ensures IsPxWidth([d] + "px") && IsLength([d] + "px")
  {
    var r := [d] + "px";
    assert r[..1] == [d];
    ShadowCommon.DigitRunIs(r, 0, 1);
  }

  /** `handleSegment`: the width after pressing a button. */
  function SegmentWidth(seg: Segment, width: string): string {
    if seg.Custom? then CustomWidth(KeywordOf(width)) else SegmentName(seg)
  }

  /** The pressed button is the one shown afterwards; custom always leaves keyword mode with a valid length. */
  lemma SegmentSelects(seg: Segment, width: string)
    ensures seg.Custom? ==> KeywordOf(SegmentWidth(seg, width)).None? && IsLength(SegmentWidth(seg, width))
    ensures !seg.Custom? ==> KeywordOf(SegmentWidth(seg, width)) == Some(SegmentName(seg))
  {
    var w := SegmentWidth(seg, width);
    if seg.Custom? {
      assert LowerAscii(w)[1] == 'p';
    } else {
      assert LowerAscii(w) == w;
    }
  }

  // ---------------------------------------------------------------------
  // The editor's state
  // ---------------------------------------------------------------------

  /** The editor's `width` and `color` state and the flag that suppresses one emission after a prop sync. */
  class StrokeEditor {
    var width: string
    var color: string
    var suppressNextEmit: bool

    constructor (value: Option<string>, normalize: string -> Option<string>)
      ensures Stroke(width, color) == ExtractStroke(value, normalize) && !suppressNextEmit
    {
      var initial := ExtractStroke(value, normalize);
      width := initial.width;
      color := initial.color;
      suppressNextEmit := false;
    }

    /** The effect on `value`: adopt the parsed value and, if anything changed, suppress the next emission. */
    method SyncFromValue(value: Option<string>, normalize: string -> Option<string>)
      modifies this
      ensures Stroke(width, color) == ExtractStroke(value, normalize)
      ensures suppressNextEmit == (old(suppressNextEmit) || old(Stroke(width, color)) != ExtractStroke(value, normalize))
    {
      var next := ExtractStroke(value, normalize);
      var widthChanged := next.width != width;
      var colorChanged := next.color != color;
      if widthChanged || colorChanged {
        suppressNextEmit := true;
        if widthChanged { width := next.width; }
        if colorChanged { color := next.color; }
      }
    }

    /** The effect on `width`/`color`: emit the built stroke unless suppressed or equal to the value. */
    method Emit(value: Option<string>) returns (emitted: Option<string>)
      modifies this`suppressNextEmit
      ensures !suppressNextEmit
      ensures old(suppressNextEmit) ==> emitted.None?
      ensures !old(suppressNextEmit) ==>
        emitted == if BuildStroke(Stroke(width, color)) != value.GetOr("") then Some(BuildStroke(Stroke(width, color))) else None
    {
      if suppressNextEmit {
        suppressNextEmit := false;
        return None;
      }
      var built := BuildStroke(Stroke(width, color));
      emitted := if built != value.GetOr("") then Some(built) else None;
    }

    method HandleSegment(seg: Segment)
      modifies this`width
      ensures width == SegmentWidth(seg, old(width))
    {
      if seg.Custom? {
        var keyword := KeywordOf(width);
        if keyword == Some("thin") { width := "1px"; }
        else if keyword == Some("medium") { width := "2px"; }
        else if keyword == Some("thick") { width := "3px"; }
        else { width := "1px"; }
      } else {
        width := SegmentName(seg);
      }
    }

    /** `onCustomWidthChange`: a full length match is the input itself, so either branch stores the input. */
    method OnCustomWidthChange(val: string)
      modifies this`width
      ensures width == val
    {
      if IsLength(val) {
        width := val[..LengthEnd(val, 0).value];
      } else {
        width := val;
      }
    }
  }
}
