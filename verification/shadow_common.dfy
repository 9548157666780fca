/**
 * The text-shadow editor's string handling: a `text-shadow` value is cut
 * into tokens at the spaces outside parentheses, the tokens are read as
 * offset, blur and colour (colour first when the first token looks like
 * one), and a value is written back from those parts. Two colour readers
 * turn `#rrggbb[aa]` and `rgb[a](r, g, b[, a])` into a hex colour.
 */
module ShadowCommon {
  import opened Wrappers
  import opened Strings

  // ---------------------------------------------------------------------
  // Cutting a value into tokens
  // ---------------------------------------------------------------------

  /** The state of the scan: the tokens so far, the parenthesis depth and the token being read. */
  datatype Scan = Scan(parts: seq<string>, depth: nat, token: string)

  const Start: Scan := Scan([], 0, "")

  /** `(` opens, `)` closes, and a `)` with nothing open leaves the depth at 0. */
  function NextDepth(depth: nat, ch: char): nat {
    if ch == '(' then depth + 1
    else if ch == ')' then (if 0 > depth - 1 then 0 else depth - 1)
    else depth
  }

  /** One character: a space outside parentheses ends the token, anything else extends it. */
  function ScanStep(st: Scan, ch: char): Scan {
    var depth := NextDepth(st.depth, ch);
    if ch == ' ' && depth == 0 then
      if st.token != "" then Scan(st.parts + [st.token], depth, "") else Scan(st.parts, depth, st.token)
    else Scan(st.parts, depth, st.token + [ch])
  }

  function ScanFrom(st: Scan, s: string): Scan
    decreases |s|
  {
    if s == [] then st else ScanStep(ScanFrom(st, s[..|s| - 1]), s[|s| - 1])
  }

  /** The last token is kept if it is not empty. */
  function Finish(st: Scan): seq<string> {
    if st.token != "" then st.parts + [st.token] else st.parts
  }

  /** The tokens `parseShadowString` cuts `s` into. */
  function ShadowTokens(s: string): seq<string> {
    Finish(ScanFrom(Start, s))
  }

  /** The parenthesis depth after reading `s`, computed on its own. */
  function DepthAfter(s: string): nat
    decreases |s|
  {
    if s == [] then 0 else NextDepth(DepthAfter(s[..|s| - 1]), s[|s| - 1])
  }

  /** `s` without the spaces that stand outside all parentheses. */
  function Kept(s: string): string
    decreases |s|
  {
    if s == [] then []
    else Kept(s[..|s| - 1]) + (if s[|s| - 1] == ' ' && DepthAfter(s) == 0 then [] else [s[|s| - 1]])
  }

  function Count(s: string, c: char): nat
    decreases |s|
  {
    if s == [] then 0 else Count(s[..|s| - 1], c) + (if s[|s| - 1] == c then 1 else 0)
  }

  /** No prefix of `s` closes more parentheses than it opens. */
  predicate NeverUnderflows(s: string) {
    forall k :: 0 <= k <= |s| ==> Count(s[..k], ')') <= Count(s[..k], '(')
  }

  /** As long as no `)` is unmatched, the depth is the number of open parentheses. */
  lemma {:induction false} DepthIsBalance(s: string)
    requires NeverUnderflows(s)
    ensures DepthAfter(s) == Count(s, '(') - Count(s, ')')
    decreases |s|
  {
    if s != [] {
      var init := s[..|s| - 1];
      assert NeverUnderflows(init) by {
        forall k | 0 <= k <= |init|
          ensures Count(init[..k], ')') <= Count(init[..k], '(')
        {
          assert init[..k] == s[..k];
        }
      }
      DepthIsBalance(init);
      assert s[..|s|] == s;
    }
  }

  /** An unmatched `)` is ignored: the depth stays at 0 instead of going below it. */
  lemma UnmatchedCloseIgnored(s: string)
    requires DepthAfter(s) == 0
    ensures DepthAfter(s + ")") == 0 && DepthAfter(s + ")(") == 1
  {
    assert (s + ")")[..|s|] == s;
    assert (s + ")(")[..|s| + 1] == s + ")";
  }

  /** The scan keeps the depth, its tokens are never empty, and together they spell the kept characters. */
  lemma {:induction false} ScanInvariant(s: string)
    ensures var st := ScanFrom(Start, s);
      st.depth == DepthAfter(s) &&
      Concat(st.parts) + st.token == Kept(s) &&
      forall i :: 0 <= i < |st.parts| ==> st.parts[i] != ""
    decreases |s|
  {
    if s != [] {
      var init := s[..|s| - 1];
      var c := s[|s| - 1];
      ScanInvariant(init);
      var st := ScanFrom(Start, init);
      if c == ' ' && NextDepth(st.depth, c) == 0 && st.token != "" {
        ConcatSnoc(st.parts, st.token);
      }
    }
  }

  /**
   * The tokenizer's promise: no token is empty, and the tokens one after
   * the other are the value with the spaces outside parentheses removed.
   */
  lemma ShadowTokensSound(s: string)
    ensures forall i :: 0 <= i < |ShadowTokens(s)| ==> ShadowTokens(s)[i] != ""
    ensures Concat(ShadowTokens(s)) == Kept(s)
  {
    ScanInvariant(s);
    var st := ScanFrom(Start, s);
    if st.token != "" {
      ConcatSnoc(st.parts, st.token);
    }
  }

  lemma {:induction false} ScanAppend(st: Scan, a: string, b: string)
    ensures ScanFrom(st, a + b) == ScanFrom(ScanFrom(st, a), b)
    decreases |b|
  {
    if b == [] {
      assert a + b == a;
    } else {
      assert (a + b)[..|a + b| - 1] == a + b[..|b| - 1];
      ScanAppend(st, a, b[..|b| - 1]);
    }
  }

  /** A token with no space and no parenthesis. */
  predicate Word(w: string) {
    w != "" && forall k :: 0 <= k < |w| ==> w[k] != ' ' && w[k] != '(' && w[k] != ')'
  }

  lemma {:induction false} ScanWord(st: Scan, w: string)
    requires st.depth == 0
    requires forall k :: 0 <= k < |w| ==> w[k] != ' ' && w[k] != '(' && w[k] != ')'
    ensures ScanFrom(st, w) == Scan(st.parts, 0, st.token + w)
    decreases |w|
  {
    if w != [] {
      ScanWord(st, w[..|w| - 1]);
      assert st.token + w[..|w| - 1] + [w[|w| - 1]] == st.token + w;
    }
  }

  /** A word and the space after it add the word as a token. */
  lemma ScanWordSpace(st: Scan, w: string)
    requires st.depth == 0 && st.token == "" && Word(w)
    ensures ScanFrom(st, w + " ") == Scan(st.parts + [w], 0, "")
  {
    ScanAppend(st, w, " ");
    ScanWord(st, w);
    assert st.token + w == w;
    assert " "[..0] == [];
    assert ScanFrom(Scan(st.parts, 0, w), " ") == ScanStep(Scan(st.parts, 0, w), ' ');
  }

  lemma {:induction false} ScanJoin(st: Scan, ws: seq<string>)
    requires st.depth == 0 && st.token == "" && ws != []
    requires forall i :: 0 <= i < |ws| ==> Word(ws[i])
    ensures ScanFrom(st, Join(ws, " ")) == Scan(st.parts + ws[..|ws| - 1], 0, ws[|ws| - 1])
    decreases |ws|
  {
    if |ws| == 1 {
      ScanWord(st, ws[0]);
    } else {
      var w := ws[0];
      var rest := ws[1..];
      assert Join(ws, " ") == (w + " ") + Join(rest, " ");
      ScanAppend(st, w + " ", Join(rest, " "));
      ScanWordSpace(st, w);
      ScanJoin(Scan(st.parts + [w], 0, ""), rest);
      assert st.parts + [w] + rest[..|rest| - 1] == st.parts + ws[..|ws| - 1];
    }
  }

  /** A scan that ends inside the last word, with the others finished, gives all the words. */
  lemma TokensOfScan(text: string, ws: seq<string>)
    requires ws != [] && ws[|ws| - 1] != ""
    requires ScanFrom(Start, text) == Scan(Start.parts + ws[..|ws| - 1], 0, ws[|ws| - 1])
    ensures ShadowTokens(text) == ws
  {
    assert Start.parts + ws[..|ws| - 1] + [ws[|ws| - 1]] == ws;
  }

  /** Words joined by single spaces are cut back into the same words. */
  lemma TokensOfWords(ws: seq<string>)
    requires forall i :: 0 <= i < |ws| ==> Word(ws[i])
    ensures ShadowTokens(Join(ws, " ")) == ws
  {
    if ws != [] {
      ScanJoin(Start, ws);
      assert Word(ws[|ws| - 1]);
      TokensOfScan(Join(ws, " "), ws);
    }
  }

  // ---------------------------------------------------------------------
  // Reading and writing a shadow
  // ---------------------------------------------------------------------

  /** A shadow's parts; `None` is a part the value does not have (`undefined`). */
  datatype ShadowParams = ShadowParams(x: Option<string>, y: Option<string>, blur: Option<string>, color: Option<string>)

  function At(parts: seq<string>, i: nat): Option<string> {
    if i < |parts| then Some(parts[i]) else None
  }

  predicate StartsWithIgnoreCase(s: string, p: string) {
    |p| <= |s| && EqualsIgnoreCase(s[..|p|], p)
  }

  /** `#` and exactly 6 or 8 hexadecimal digits. */
  predicate IsHexColorToken(t: string) {
    (|t| == 7 || |t| == 9) && t[0] == '#' && forall k :: 1 <= k < |t| ==> IsHexDigit(t[k])
  }

  /** `isColor`: a hex colour, or anything starting `rgb(` or `rgba(` in any case. */
  predicate IsColor(t: Option<string>) {
    t.Some? && t.value != "" &&
    (IsHexColorToken(t.value) || StartsWithIgnoreCase(t.value, "rgb(") || StartsWithIgnoreCase(t.value, "rgba("))
  }

  /** Tokens in the order x, y, blur, colour, or colour, x, y, blur when the first is a colour. */
  function Arrange(parts: seq<string>): ShadowParams {
    if IsColor(At(parts, 0)) then ShadowParams(At(parts, 1), At(parts, 2), At(parts, 3), At(parts, 0))
    else ShadowParams(At(parts, 0), At(parts, 1), At(parts, 2), At(parts, 3))
  }

  /** `parseShadowString`: the character loop, then the parts in order. */
  method ParseShadowString(value: string) returns (p: ShadowParams)
    ensures p == Arrange(ShadowTokens(value))
  {
    var parts: seq<string> := [];
    var depth: nat := 0;
    var token := "";
    for i := 0 to |value|
      invariant Scan(parts, depth, token) == ScanFrom(Start, value[..i])
    {
      var ch := value[i];
      assert value[..i + 1][..i] == value[..i];
      if ch == '(' {
        depth := depth + 1;
      }
      if ch == ')' {
        depth := if 0 > depth - 1 then 0 else depth - 1;
      }
      if ch == ' ' && depth == 0 {
        if token != "" {
          parts := parts + [token];
          token := "";
        }
        continue;
      }
      token := token + [ch];
    }
    assert value[..|value|] == value;
    if token != "" {
      parts := parts + [token];
    }
    p := Arrange(parts);
  }

  /** `value || fallback` for an optional string. */
  function OrElse(v: Option<string>, fallback: string): string {
    if v.None? || v.value == "" then fallback else v.value
  }

  /** The values `buildShadowString` keeps: the defaults are never empty, so only an empty blur is dropped. */
  function ShadowValues(p: ShadowParams): (r: seq<string>)
    ensures forall i :: 0 <= i < |r| ==> r[i] != ""
  {
    var blur := p.blur.GetOr("");
    [OrElse(p.x, "0"), OrElse(p.y, "0")] + (if blur == "" then [] else [blur]) + [OrElse(p.color, "#000000")]
  }

  /** `buildShadowString`: x and y default to `0`, the colour to `#000000`, an empty blur is dropped. */
  function BuildShadowString(p: ShadowParams): string {
    Join(ShadowValues(p), " ")
  }

  /** With nothing set, the shadow written is `0 0 #000000`. */
  lemma BuildDefaults()
    ensures BuildShadowString(ShadowParams(None, None, None, None)) == "0 0 #000000"
  {
    var ws := ["0", "0", "#000000"];
    assert ShadowValues(ShadowParams(None, None, None, None)) == ws;
    assert ws[1..] == ["0", "#000000"] && ws[1..][1..] == ["#000000"];
  }

  /** A shadow written with all four parts reads back as the same four parts. */
  lemma ParseBuildRoundTrip(x: string, y: string, blur: string, color: string)
    requires Word(x) && Word(y) && Word(blur) && Word(color)
    requires !IsColor(Some(x))
    ensures var p := ShadowParams(Some(x), Some(y), Some(blur), Some(color));
      Arrange(ShadowTokens(BuildShadowString(p))) == p
  {
    var values := [x, y, blur, color];
    assert ShadowValues(ShadowParams(Some(x), Some(y), Some(blur), Some(color))) == values;
    TokensOfWords(values);
  }

  /** A value that starts with its colour is read in colour-first order. */
  lemma ColourFirstOrder(color: string, x: string, y: string, blur: string)
    requires Word(color) && Word(x) && Word(y) && Word(blur)
    requires IsColor(Some(color))
    ensures Arrange(ShadowTokens(Join([color, x, y, blur], " "))) == ShadowParams(Some(x), Some(y), Some(blur), Some(color))
  {
    TokensOfWords([color, x, y, blur]);
  }

  /**
   * A shadow written without a blur has three parts, and reading it back
   * puts the colour in the blur position and leaves the colour unset.
   */
  lemma BuildWithoutBlurRereads(x: string, y: string, color: string)
    requires Word(x) && Word(y) && Word(color)
    requires !IsColor(Some(x))
    ensures Arrange(ShadowTokens(BuildShadowString(ShadowParams(Some(x), Some(y), None, Some(color))))) ==
      ShadowParams(Some(x), Some(y), Some(color), None)
  {
    assert ShadowValues(ShadowParams(Some(x), Some(y), None, Some(color))) == [x, y, color];
    TokensOfWords([x, y, color]);
  }

  // ---------------------------------------------------------------------
  // Colours
  // ---------------------------------------------------------------------

  /** A colour read from a value: `#rrggbb` and an alpha from 0 to 255. */
  datatype ParsedColor = ParsedColor(color: string, alpha: nat)

  /** The number of hexadecimal digits from `i` on, counting at most `limit`. */
  function HexRun(s: string, i: nat, limit: nat): (n: nat)
    ensures n <= limit && (i <= |s| ==> i + n <= |s|)
    ensures forall k :: i <= k < i + n ==> k < |s| && IsHexDigit(s[k])
    ensures n < limit ==> i + n >= |s| || !IsHexDigit(s[i + n])
    decreases limit
  {
    if limit == 0 || i >= |s| || !IsHexDigit(s[i]) then 0 else 1 + HexRun(s, i + 1, limit - 1)
  }

  /** `#` at `i` followed by at least six hexadecimal digits: where `/#[0-9A-F]{6,8}/i` can match. */
  predicate HexMatchAt(s: string, i: nat) {
    i < |s| && s[i] == '#' && HexRun(s, i + 1, 8) >= 6
  }

  /** The leftmost match at or after `from`. */
  function FirstHexMatch(s: string, from: nat): (r: Option<nat>)
    ensures r.Some? ==> from <= r.value && HexMatchAt(s, r.value)
    ensures r.Some? ==> forall j :: from <= j < r.value ==> !HexMatchAt(s, j)
    ensures r.None? ==> forall j :: from <= j < |s| ==> !HexMatchAt(s, j)
    decreases |s| - from
  {
    if from >= |s| then None
    else if HexMatchAt(s, from) then Some(from)
    else
      FirstHexMatch(s, from + 1)
  }

  /**
   * The colour a match at `i` gives: `#` plus the first six digits, and an
   * alpha of the last two when there are exactly eight, 255 otherwise. It is
   * a six-digit colour token and the alpha is a byte.
   */
  function ColorAt(value: string, i: nat): (c: ParsedColor)
    requires HexMatchAt(value, i)
    ensures IsHexColorToken(c.color) && |c.color| == 7 && c.alpha < 256
  {
    var n := HexRun(value, i + 1, 8);
    var hex := value[i + 1..i + 1 + n];
    assert forall k :: 0 <= k < n ==> IsHexDigit(hex[k]) by {
      forall k | 0 <= k < n ensures IsHexDigit(hex[k]) {
        assert hex[k] == value[i + 1 + k];
      }
    }
    var color := "#" + hex[..6];
    assert forall k :: 1 <= k < 7 ==> IsHexDigit(color[k]) by {
      forall k | 1 <= k < 7 ensures IsHexDigit(color[k]) {
        assert color[k] == hex[k - 1];
      }
    }
    ParsedColor(color, if n == 8 then Hex2Value(hex[6..8]) else 255)
  }

  /** `parseHexColor`: the colour of the first `#` followed by six to eight hexadecimal digits. */
  function ParseHexColor(value: string): Option<ParsedColor> {
    match FirstHexMatch(value, 0)
    case None => None
    case Some(i) => Some(ColorAt(value, i))
  }

  /** A colour is found exactly when some `#` has six hexadecimal digits after it. */
  lemma ParseHexColorFound(value: string)
    ensures ParseHexColor(value).Some? <==> exists i :: 0 <= i < |value| && HexMatchAt(value, i)
  {
    match FirstHexMatch(value, 0)
    case None =>
    case Some(i) =>
      assert HexMatchAt(value, i);
  }

  /** The run is determined by where the hexadecimal digits stop. */
  lemma HexRunIs(s: string, i: nat, limit: nat, m: nat)
    requires m <= limit && i + m <= |s|
    requires forall k :: i <= k < i + m ==> IsHexDigit(s[k])
    requires m == limit || i + m == |s| || !IsHexDigit(s[i + m])
    ensures HexRun(s, i, limit) == m
  {
  }

  /** A six-digit colour, with or without a two-digit alpha, reads back as itself. */
  lemma HexColorRoundTrip(h: string, alpha: Option<nat>)
    requires |h| == 6 && forall k :: 0 <= k < 6 ==> IsHexDigit(h[k])
    requires alpha.Some? ==> alpha.value < 256
    ensures var text := "#" + h + (if alpha.Some? then Hex2(alpha.value) else "");
      ParseHexColor(text) == Some(ParsedColor("#" + h, alpha.GetOr(255)))
  {
    var text := "#" + h + (if alpha.Some? then Hex2(alpha.value) else "");
    var m := |text| - 1;
    forall k | 1 <= k < 1 + m ensures IsHexDigit(text[k]) {
      if k < 7 {
        assert text[k] == h[k - 1];
      } else {
        assert text[k] == Hex2(alpha.value)[k - 7];
      }
    }
    HexRunIs(text, 1, 8, m);
    assert HexMatchAt(text, 0);
    var n := HexRun(text, 1, 8);
    assert text[1..1 + n][..6] == h;
    if alpha.Some? {
      assert text == "#" + h + Hex2(alpha.value);
      assert text[1..1 + n][6..8] == text[7..9] == Hex2(alpha.value);
      Hex2RoundTrip(alpha.value);
    }
  }

  /** Seven digits are taken as a colour with an alpha of 255: the seventh digit is ignored. */
  lemma SevenDigitsIgnoreLast()
    ensures ParseHexColor("#1234567") == Some(ParsedColor("#123456", 255))
  {
    var text := "#1234567";
    HexRunIs(text, 1, 8, 7);
    assert HexMatchAt(text, 0);
    assert FirstHexMatch(text, 0) == Some(0);
    var hex := text[1..8];
    assert hex[..6] == "123456";
    assert "#" + hex[..6] == "#123456";
  }

  /** A colour inside other text is found where it starts. */
  lemma HexColorInText(before: string, h: string)
    requires '#' !in before
    requires |h| == 6 && forall k :: 0 <= k < 6 ==> IsHexDigit(h[k])
    ensures ParseHexColor(before + "#" + h) == Some(ParsedColor("#" + h, 255))
  {
    var text := before + "#" + h;
    var i := |before|;
    forall k | i + 1 <= k < i + 7 ensures IsHexDigit(text[k]) {
      assert text[k] == h[k - i - 1];
    }
    HexRunIs(text, i + 1, 8, 6);
    assert HexMatchAt(text, i);
    forall j | 0 <= j < i ensures !HexMatchAt(text, j) {
      assert text[j] == before[j];
    }
    var first := FirstHexMatch(text, 0);
    assert first == Some(i);
    var hex := text[i + 1..i + 1 + 6];
    assert hex == h;
    assert hex[..6] == h;
  }

  // `rgb(...)` and `rgba(...)`

  /** The first index at or after `i` that is not white space. */
  function SkipSpaces(s: string, i: nat): (j: nat)
    requires i <= |s|
    ensures i <= j <= |s| && (j == |s| || !IsSpace(s[j]))
    ensures forall k :: i <= k < j ==> IsSpace(s[k])
    decreases |s| - i
  {
    if i < |s| && IsSpace(s[i]) then SkipSpaces(s, i + 1) else i
  }

  /** The number of decimal digits from `i` on. */
  function DigitRun(s: string, i: nat): (n: nat)
    requires i <= |s|
    ensures i + n <= |s| && (i + n == |s| || !IsDigit(s[i + n]))
    ensures forall k :: i <= k < i + n ==> IsDigit(s[k])
    decreases |s| - i
  {
    if i < |s| && IsDigit(s[i]) then 1 + DigitRun(s, i + 1) else 0
  }

  /** The `n` characters from `j` read as a decimal number. */
  function DigitsAt(s: string, j: nat, n: nat): nat
    requires j + n <= |s|
    decreases n
  {
    if n == 0 then 0
    else DigitsAt(s, j, n - 1) * 10 + (if IsDigit(s[j + n - 1]) then DigitValue(s[j + n - 1]) else 0)
  }

  /** On a run of digits, that is the value of the slice. */
  lemma {:induction false} DigitsAtIsValue(s: string, j: nat, n: nat)
    requires j + n <= |s| && forall k :: j <= k < j + n ==> IsDigit(s[k])
    ensures AllDigits(s[j..j + n]) && DigitsAt(s, j, n) == DigitsValue(s[j..j + n])
  {
    if n > 0 {
      DigitsAtIsValue(s, j, n - 1);
      assert s[j..j + n][..n - 1] == s[j..j + n - 1];
    }
  }

  /** `\s*(\d{1,3})`: a channel's value and where it ends. */
  function Channel(s: string, i: nat): (r: Option<(nat, nat)>)
    requires i <= |s|
    ensures r.Some? ==> i < r.value.1 <= |s|
  {
    var j := SkipSpaces(s, i);
    var n := DigitRun(s, j);
    if n == 0 || n > 3 then None else Some((DigitsAt(s, j, n), j + n))
  }

  /** `\s*,\s*`: where the text after the comma starts. */
  function Comma(s: string, i: nat): (r: Option<nat>)
    requires i <= |s|
    ensures r.Some? ==> i < r.value <= |s|
  {
    var j := SkipSpaces(s, i);
    if j < |s| && s[j] == ',' then Some(SkipSpaces(s, j + 1)) else None
  }

  /** A channel and the comma after it: its value and where the next channel starts. */
  function ChannelComma(s: string, i: nat): (r: Option<(nat, nat)>)
    requires i <= |s|
    ensures r.Some? ==> i < r.value.1 <= |s|
  {
    match Channel(s, i)
    case None => None
    case Some(c) =>
      match Comma(s, c.1)
      case None => None
      case Some(next) => Some((c.0, next))
  }

  /** `\d*\.\d+|\d+`: where the alpha as written ends. */
  function AlphaLiteral(s: string, i: nat): (r: Option<nat>)
    requires i <= |s|
    ensures r.Some? ==> i < r.value <= |s|
  {
    var d := DigitRun(s, i);
    if i + d < |s| && s[i + d] == '.' && DigitRun(s, i + d + 1) > 0 then Some(i + d + 1 + DigitRun(s, i + d + 1))
    else if d > 0 then Some(i + d)
    else None
  }

  /** `\s*\)$`. */
  predicate ClosesAt(s: string, i: nat)
    requires i <= |s|
  {
    var j := SkipSpaces(s, i);
    j < |s| && s[j] == ')' && j + 1 == |s|
  }

  /** What follows the blue channel: an optional `, alpha`, then `)` and nothing else; the alpha as written. */
  function RgbTail(s: string, i: nat): Option<Option<string>>
    requires i <= |s|
  {
    match Comma(s, i)
    case Some(k) =>
      (match AlphaLiteral(s, k)
       case Some(e) => if ClosesAt(s, e) then Some(Some(s[k..e])) else None
       case None => None)
    case None => if ClosesAt(s, i) then Some(None) else None
  }

  /** Where the channels start: after `rgb(` or `rgba(` in any case. */
  function RgbOpen(s: string): (r: Option<nat>)
    ensures r.Some? ==> r.value <= |s|
  {
    if |s| >= 4 && ToLower(s[0]) == 'r' && ToLower(s[1]) == 'g' && ToLower(s[2]) == 'b' then
      if s[3] == '(' then Some(4)
      else if |s| >= 5 && ToLower(s[3]) == 'a' && s[4] == '(' then Some(5)
      else None
    else None
  }

  /** The channels start after `rgb(` when the value begins with it in any case, else after `rgba(` when it begins with that. */
  lemma RgbOpenPrefix(s: string)
    ensures RgbOpen(s) == Some(4) <==> StartsWithIgnoreCase(s, "rgb(")
    ensures RgbOpen(s) == Some(5) <==> !StartsWithIgnoreCase(s, "rgb(") && StartsWithIgnoreCase(s, "rgba(")
    ensures RgbOpen(s).None? <==> !StartsWithIgnoreCase(s, "rgb(") && !StartsWithIgnoreCase(s, "rgba(")
  {
    if |s| >= 4 {
      var l4 := LowerAscii(s[..4]);
      assert l4[0] == ToLower(s[0]) && l4[1] == ToLower(s[1]) && l4[2] == ToLower(s[2]) && l4[3] == ToLower(s[3]);
      assert LowerAscii("rgb(") == "rgb(";
      if |s| >= 5 {
        var l5 := LowerAscii(s[..5]);
        assert l5[0] == ToLower(s[0]) && l5[1] == ToLower(s[1]) && l5[2] == ToLower(s[2]) && l5[3] == ToLower(s[3]) && l5[4] == ToLower(s[4]);
        assert LowerAscii("rgba(") == "rgba(";
      }
    }
  }

  function Clamp255(v: nat): (r: nat)
    ensures r < 256 && (v < 256 ==> r == v) && (v >= 256 ==> r == 255)
  {
    if v > 255 then 255 else v
  }

  /** A colour read from `rgb[a](...)`: the hex colour, and the alpha as written when there is one. */
  datatype RgbColor = RgbColor(color: string, alpha: Option<string>)

  /** `#` and two lower-case hexadecimal digits per channel, each clamped to 255. */
  function RgbHex(r: nat, g: nat, b: nat): (c: string)
    ensures IsHexColorToken(c) && |c| == 7
    ensures c[1..3] == Hex2(Clamp255(r)) && c[3..5] == Hex2(Clamp255(g)) && c[5..7] == Hex2(Clamp255(b))
  {
    "#" + Hex2(Clamp255(r)) + Hex2(Clamp255(g)) + Hex2(Clamp255(b))
  }

  /**
   * `parseRgbColor`: the whole value must be `rgb(` or `rgba(`, three
   * channels of one to three digits separated by commas, an optional alpha
   * and `)`, with white space allowed around each part; each channel is
   * clamped to 255 and written as two lower-case hexadecimal digits.
   */
  function ParseRgbColor(value: string): Option<RgbColor> {
    match RgbOpen(value)
    case None => None
    case Some(i0) =>
      match ChannelComma(value, i0)
      case None => None
      case Some(red) =>
        match ChannelComma(value, red.1)
        case None => None
        case Some(green) =>
          match Channel(value, green.1)
          case None => None
          case Some(blue) =>
            match RgbTail(value, blue.1)
            case None => None
            case Some(alpha) => Some(RgbColor(RgbHex(red.0, green.0, blue.0), alpha))
  }

  /** A colour read from `rgb(...)` is a six-digit hex token, and the value opened with `rgb(` or `rgba(`. */
  lemma ParseRgbColorShape(value: string)
    ensures var r := ParseRgbColor(value);
      r.Some? ==> IsHexColorToken(r.value.color) && |r.value.color| == 7 && RgbOpen(value).Some?
  {
  }

  /** A hex colour token of six digits reads back as itself with full alpha. */
  lemma HexTokenRoundTrip(c: string)
    requires IsHexColorToken(c) && |c| == 7
    ensures ParseHexColor(c) == Some(ParsedColor(c, 255))
  {
    var h := c[1..];
    forall k | 0 <= k < 6 ensures IsHexDigit(h[k]) {
      assert h[k] == c[k + 1];
    }
    HexColorRoundTrip(h, None);
    assert c == [c[0]] + c[1..];
    assert "#" + h + "" == c;
  }

  /** Whatever `rgb(...)` gives, the hex reader reads back unchanged, with full alpha. */
  lemma RgbThenHex(value: string)
    requires ParseRgbColor(value).Some?
    ensures ParseHexColor(ParseRgbColor(value).value.color) == Some(ParsedColor(ParseRgbColor(value).value.color, 255))
  {
    ParseRgbColorShape(value);
    HexTokenRoundTrip(ParseRgbColor(value).value.color);
  }

  lemma DigitRunIs(s: string, i: nat, m: nat)
    requires i + m <= |s|
    requires forall k :: i <= k < i + m ==> IsDigit(s[k])
    requires i + m == |s| || !IsDigit(s[i + m])
    ensures DigitRun(s, i) == m
  {
  }

  /** One to three decimal digits: what `\d{1,3}` accepts. */
  predicate ChannelDigits(w: string) {
    1 <= |w| <= 3 && AllDigits(w)
  }

  /** Channel digits from index `i`, with no digit after them, read as their value. */
  lemma ChannelAt(s: string, i: nat, w: string)
    requires ChannelDigits(w)
    requires i + |w| <= |s| && s[i..i + |w|] == w
    requires i + |w| == |s| || !IsDigit(s[i + |w|])
    ensures Channel(s, i) == Some((DigitsValue(w), i + |w|))
  {
    DigitsInSlice(s, i, w);
    assert SkipSpaces(s, i) == i by {
      assert IsDigit(s[i]);
    }
    DigitRunIs(s, i, |w|);
    DigitsAtIsValue(s, i, |w|);
  }

  /** The characters of a slice that spells a digit string are digits. */
  lemma DigitsInSlice(s: string, i: nat, w: string)
    requires AllDigits(w) && i + |w| <= |s| && s[i..i + |w|] == w
    ensures forall k :: i <= k < i + |w| ==> IsDigit(s[k])
  {
    forall k | i <= k < i + |w| ensures IsDigit(s[k]) {
      assert s[k] == w[k - i];
    }
  }

  /** `, ` before a character that is not white space. */
  lemma CommaAt(s: string, e: nat)
    requires e + 2 < |s| && s[e] == ',' && s[e + 1] == ' ' && !IsSpace(s[e + 2])
    ensures Comma(s, e) == Some(e + 2)
  {
    assert SkipSpaces(s, e) == e;
    assert SkipSpaces(s, e + 2) == e + 2;
    assert SkipSpaces(s, e + 1) == e + 2;
  }

  /** Channel digits from `i`, then `, ` and a character that is not white space. */
  lemma ChannelCommaAt(s: string, i: nat, w: string)
    requires ChannelDigits(w)
    requires var e := i + |w|;
      e + 2 < |s| && s[i..e] == w && s[e] == ',' && s[e + 1] == ' ' && !IsSpace(s[e + 2])
    ensures ChannelComma(s, i) == Some((DigitsValue(w), i + |w| + 2))
  {
    ChannelAt(s, i, w);
    CommaAt(s, i + |w|);
  }

  /** The text `rgb(r, g, b)` with the channels spelt `rs`, `gs` and `bs`. */
  function RgbText(rs: string, gs: string, bs: string): string {
    "rgb(" + rs + ", " + gs + ", " + bs + ")"
  }

  /** Where the parts of `rgb(r, g, b)` sit in `s`. */
  predicate RgbLayout(s: string, rs: string, gs: string, bs: string) {
    var i1 := 4 + |rs| + 2;
    var i2 := i1 + |gs| + 2;
    var e := i2 + |bs|;
    && |s| == e + 1
    && s[..4] == "rgb("
    && s[4..4 + |rs|] == rs && s[4 + |rs|] == ',' && s[4 + |rs| + 1] == ' '
    && s[i1..i1 + |gs|] == gs && s[i1 + |gs|] == ',' && s[i1 + |gs| + 1] == ' '
    && s[i2..e] == bs && s[e] == ')'
  }

  /** `q` sits in `p + q + r` right after `p`. */
  lemma InfixAt(p: string, q: string, r: string)
    ensures (p + q + r)[|p|..|p| + |q|] == q
  {
    assert (p + q + r)[|p|..|p| + |q|] == (p + q)[|p|..];
  }

  lemma RgbTextLayout(rs: string, gs: string, bs: string)
    ensures RgbLayout(RgbText(rs, gs, bs), rs, gs, bs)
  {
    RgbTextHead(rs, gs, bs);
    RgbTextTail(rs, gs, bs);
  }

  /** The opening and the red channel with its separator. */
  lemma RgbTextHead(rs: string, gs: string, bs: string)
    ensures var s := RgbText(rs, gs, bs); var a := "rgb(" + rs + ", ";
      |s| == |a| + |gs| + 2 + |bs| + 1 &&
      s[..4] == "rgb(" && s[4..4 + |rs|] == rs && s[|a| - 2] == ',' && s[|a| - 1] == ' '
  {
    var s := RgbText(rs, gs, bs);
    var a := "rgb(" + rs + ", ";
    assert s[..4] == "rgb(" by {
      assert s == "rgb(" + (rs + ", " + gs + ", " + bs + ")");
    }
    assert s[4..4 + |rs|] == rs by {
      assert s == "rgb(" + rs + (", " + gs + ", " + bs + ")");
      InfixAt("rgb(", rs, ", " + gs + ", " + bs + ")");
    }
    assert s[|a| - 2] == ',' && s[|a| - 1] == ' ' by {
      assert s == a + (gs + ", " + bs + ")");
      assert a[|a| - 2] == ',' && a[|a| - 1] == ' ';
    }
  }

  /** The green channel with its separator, the blue channel and the close. */
  lemma RgbTextTail(rs: string, gs: string, bs: string)
    ensures var s := RgbText(rs, gs, bs); var a := "rgb(" + rs + ", "; var b := a + gs + ", ";
      |s| == |b| + |bs| + 1 &&
      s[|a|..|a| + |gs|] == gs && s[|b| - 2] == ',' && s[|b| - 1] == ' ' &&
      s[|b|..|b| + |bs|] == bs && s[|b| + |bs|] == ')'
  {
    var s := RgbText(rs, gs, bs);
    var a := "rgb(" + rs + ", ";
    var b := a + gs + ", ";
    assert s[|a|..|a| + |gs|] == gs by {
      assert s == a + gs + (", " + bs + ")");
      InfixAt(a, gs, ", " + bs + ")");
    }
    assert s[|b| - 2] == ',' && s[|b| - 1] == ' ' by {
      assert s == b + (bs + ")");
      assert b[|b| - 2] == ',' && b[|b| - 1] == ' ';
    }
    assert s[|b|..|b| + |bs|] == bs && s[|b| + |bs|] == ')' by {
      assert s == b + bs + ")";
      InfixAt(b, bs, ")");
    }
  }

  /** `)` as the last character, right at `e`: no alpha, and the value is closed. */
  lemma CloseAtEnd(s: string, e: nat)
    requires e + 1 == |s| && s[e] == ')'
    ensures RgbTail(s, e) == Some(None)
  {
    assert SkipSpaces(s, e) == e;
  }

  /** Each stage of `parseRgbColor` finds its part: the opening, two channels with their commas, the blue channel, and the close. */
  predicate RgbStages(s: string, r: nat, i1: nat, g: nat, i2: nat, b: nat, e: nat) {
    && RgbOpen(s) == Some(4)
    && ChannelComma(s, 4) == Some((r, i1))
    && ChannelComma(s, i1) == Some((g, i2))
    && Channel(s, i2) == Some((b, e))
    && RgbTail(s, e) == Some(None)
  }

  /** How `parseRgbColor` ends when each stage finds what it looks for. */
  lemma ParseRgbStages(s: string, r: nat, i1: nat, g: nat, i2: nat, b: nat, e: nat)
    requires RgbStages(s, r, i1, g, i2, b, e)
    ensures ParseRgbColor(s) == Some(RgbColor(RgbHex(r, g, b), None))
  {
  }

  lemma RedStage(s: string, rs: string, gs: string, bs: string)
    requires ChannelDigits(rs) && ChannelDigits(gs) && RgbLayout(s, rs, gs, bs)
    ensures ChannelComma(s, 4) == Some((DigitsValue(rs), 4 + |rs| + 2))
  {
    var i1 := 4 + |rs| + 2;
    assert !IsSpace(s[i1]) by {
      assert s[i1] == s[i1..i1 + |gs|][0];
      assert IsDigit(gs[0]);
    }
    ChannelCommaAt(s, 4, rs);
  }

  lemma GreenStage(s: string, rs: string, gs: string, bs: string)
    requires ChannelDigits(gs) && ChannelDigits(bs) && RgbLayout(s, rs, gs, bs)
    ensures ChannelComma(s, 4 + |rs| + 2) == Some((DigitsValue(gs), 4 + |rs| + 2 + |gs| + 2))
  {
    var i1 := 4 + |rs| + 2;
    var i2 := i1 + |gs| + 2;
    assert !IsSpace(s[i2]) by {
      assert s[i2] == s[i2..i2 + |bs|][0];
      assert IsDigit(bs[0]);
    }
    ChannelCommaAt(s, i1, gs);
  }

  lemma BlueStage(s: string, rs: string, gs: string, bs: string)
    requires ChannelDigits(bs) && RgbLayout(s, rs, gs, bs)
    ensures Channel(s, 4 + |rs| + 2 + |gs| + 2) == Some((DigitsValue(bs), 4 + |rs| + 2 + |gs| + 2 + |bs|))
  {
    ChannelAt(s, 4 + |rs| + 2 + |gs| + 2, bs);
  }

  lemma OpenAndCloseStages(s: string, rs: string, gs: string, bs: string)
    requires RgbLayout(s, rs, gs, bs)
    ensures RgbOpen(s) == Some(4)
    ensures RgbTail(s, 4 + |rs| + 2 + |gs| + 2 + |bs|) == Some(None)
  {
    assert s[0] == s[..4][0] && s[1] == s[..4][1] && s[2] == s[..4][2] && s[3] == s[..4][3];
    CloseAtEnd(s, 4 + |rs| + 2 + |gs| + 2 + |bs|);
  }

  /** `rgb(r, g, b)` passes each stage of the reader. */
  lemma RgbStagesHold(rs: string, gs: string, bs: string)
    requires ChannelDigits(rs) && ChannelDigits(gs) && ChannelDigits(bs)
    ensures RgbStages(RgbText(rs, gs, bs), DigitsValue(rs), 4 + |rs| + 2, DigitsValue(gs), 4 + |rs| + 2 + |gs| + 2,
                      DigitsValue(bs), 4 + |rs| + 2 + |gs| + 2 + |bs|)
  {
    RgbTextLayout(rs, gs, bs);
    OpenAndCloseStages(RgbText(rs, gs, bs), rs, gs, bs);
    RedStage(RgbText(rs, gs, bs), rs, gs, bs);
    GreenStage(RgbText(rs, gs, bs), rs, gs, bs);
    BlueStage(RgbText(rs, gs, bs), rs, gs, bs);
  }

  /**
   * `rgb(r, g, b)` with channels of one to three digits reads back as the
   * colour of the clamped channel values, with no alpha.
   */
  lemma RgbRoundTrip(rs: string, gs: string, bs: string)
    requires ChannelDigits(rs) && ChannelDigits(gs) && ChannelDigits(bs)
    ensures ParseRgbColor(RgbText(rs, gs, bs)) ==
      Some(RgbColor(RgbHex(DigitsValue(rs), DigitsValue(gs), DigitsValue(bs)), None))
  {
    var r, g, b := DigitsValue(rs), DigitsValue(gs), DigitsValue(bs);
    assert exists i1: nat, i2: nat, e: nat :: RgbStages(RgbText(rs, gs, bs), r, i1, g, i2, b, e) by {
      RgbStagesHold(rs, gs, bs);
    }
    var i1: nat, i2: nat, e: nat :| RgbStages(RgbText(rs, gs, bs), r, i1, g, i2, b, e);
    ParseRgbStages(RgbText(rs, gs, bs), r, i1, g, i2, b, e);
  }

  lemma ShortNumber(n: nat)
    requires n < 1000
    ensures ChannelDigits(NatToString(n))
  {
    if n >= 100 {
      assert NatToString(n / 10) == NatToString(n / 10 / 10) + [DigitChar(n / 10 % 10)];
    }
  }

  /** Channel bytes written in decimal come back as the colour with exactly those bytes. */
  lemma RgbBytesRoundTrip(r: nat, g: nat, b: nat)
    requires r < 256 && g < 256 && b < 256
    ensures ParseRgbColor(RgbText(NatToString(r), NatToString(g), NatToString(b))) ==
      Some(RgbColor("#" + Hex2(r) + Hex2(g) + Hex2(b), None))
  {
    ShortNumber(r);
    ShortNumber(g);
    ShortNumber(b);
    RgbRoundTrip(NatToString(r), NatToString(g), NatToString(b));
    DigitsValueOfNatToString(r);
    DigitsValueOfNatToString(g);
    DigitsValueOfNatToString(b);
  }

  /** The clamp at work: `rgb(300, 0, 999)` is `#ff00ff`, and channels up to 255 keep their bytes. */
  lemma RgbClamps(r: nat, g: nat, b: nat)
    requires r < 256 && g < 256 && b < 256
    ensures RgbHex(300, 0, 999) == "#ff00ff"
    ensures RgbHex(r, g, b) == "#" + Hex2(r) + Hex2(g) + Hex2(b)
    ensures Hex2Value(RgbHex(r, g, b)[1..3]) == r && Hex2Value(RgbHex(r, g, b)[3..5]) == g && Hex2Value(RgbHex(r, g, b)[5..7]) == b
  {
    Hex2RoundTrip(r);
    Hex2RoundTrip(g);
    Hex2RoundTrip(b);
  }

  /** Four digits in a channel do not match. */
  lemma RgbRejectsLongChannel()
    ensures ParseRgbColor("rgb(1000, 0, 0)") == None
  {
    var s := "rgb(1000, 0, 0)";
    assert s[..4] == "rgb(";
    assert RgbOpen(s) == Some(4);
    assert SkipSpaces(s, 4) == 4;
    DigitRunIs(s, 4, 4);
  }
}
