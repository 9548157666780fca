/**
 * Exclude filters on chat user names. Each rule is compiled into the body
 * of a negative lookahead; the lookaheads are chained into one regular
 * expression `^(?!…)(?!…)….*$` that admits a name when no rule matches it.
 * Filter configurations travel in the page URL as base64url JSON.
 *
 * The regular expressions are strings, as in the source. Their meaning is
 * given by a small pattern language (`Atom`, `Pattern`) with a matcher;
 * each compiled rule is shown to be the rendering of a pattern, and the
 * chained expression admits a name exactly when no rule excludes it under
 * a direct, regex-free definition of the rule kinds.
 */
module Filters {
  import opened Wrappers
  import opened Strings
  import opened Json

  /** `'exact' | 'contains' | 'wildcard'`; a configuration read from a URL can carry any other string. */
  datatype MatchType = Exact | Contains | Wildcard | OtherMatch

  /** A rule; an absent `caseSensitive` reads as false. */
  datatype UserFilterRule = UserFilterRule(matchType: MatchType, pattern: string, caseSensitive: bool)

  // ---------------------------------------------------------------------
  // The regular-expression source, as the source builds it
  // ---------------------------------------------------------------------

  /** The characters `reEscape` escapes. */
  predicate IsRegexMeta(c: char) {
    c in ".*+?^${}()|[]\\"
  }

  function EscapeChar(c: char): (r: string)
    ensures IsRegexMeta(c) ==> r == ['\\', c]
    ensures !IsRegexMeta(c) ==> r == [c]
  {
    if IsRegexMeta(c) then ['\\', c] else [c]
  }

  /** `reEscape`: a backslash before every metacharacter, every other character unchanged. */
  function ReEscape(s: string): string {
    if s == [] then [] else EscapeChar(s[0]) + ReEscape(s[1..])
  }

  /** Reading an escaped string back: a backslash takes the next character literally. */
  function Unescape(s: string): string
    decreases |s|
  {
    if s == [] then []
    else if s[0] == '\\' && |s| >= 2 then [s[1]] + Unescape(s[2..])
    else [s[0]] + Unescape(s[1..])
  }

  /** Escaping loses nothing: unescaping gives the text back. */
  lemma {:induction false} ReEscapeRoundTrip(s: string)
    ensures Unescape(ReEscape(s)) == s
    decreases |s|
  {
    if s != [] {
      ReEscapeRoundTrip(s[1..]);
      var e := EscapeChar(s[0]);
      var r := ReEscape(s[1..]);
      if IsRegexMeta(s[0]) {
        assert (e + r)[2..] == r;
      } else {
        assert (e + r)[1..] == r;
        assert s[0] != '\\';
      }
    }
  }

  /** `toCaseInsensitive` on one character: an ASCII letter becomes `[lowerUpper]`. */
  function CaseClass(c: char): string {
    if IsAsciiLetter(c) then "[" + [ToLower(c)] + [ToUpper(c)] + "]" else [c]
  }

  /** `toCaseInsensitive`: every ASCII letter becomes a two-letter class, everything else stays. */
  function ToCaseInsensitive(body: string): string {
    if body == [] then [] else CaseClass(body[0]) + ToCaseInsensitive(body[1..])
  }

  lemma {:induction false} ToCaseInsensitiveAppend(a: string, b: string)
    ensures ToCaseInsensitive(a + b) == ToCaseInsensitive(a) + ToCaseInsensitive(b)
    decreases |a|
  {
    if a == [] {
      assert a + b == b;
    } else {
      assert (a + b)[1..] == a[1..] + b;
      ToCaseInsensitiveAppend(a[1..], b);
    }
  }

  /** A text without ASCII letters is left as it is. */
  lemma {:induction false} ToCaseInsensitiveNoLetters(s: string)
    requires forall i :: 0 <= i < |s| ==> !IsAsciiLetter(s[i])
    ensures ToCaseInsensitive(s) == s
    decreases |s|
  {
    if s != [] {
      ToCaseInsensitiveNoLetters(s[1..]);
    }
  }

  /** A wildcard character: `*` is `.*`, `?` is `.`, anything else is escaped. */
  function WildcardChar(c: char): string {
    if c == '*' then ".*" else if c == '?' then "." else EscapeChar(c)
  }

  function WildcardBody(s: string): string {
    if s == [] then [] else WildcardChar(s[0]) + WildcardBody(s[1..])
  }

  /**
   * `ruleToBody` with the wildcard rewrite applied character by character
   * (the source goes through placeholder strings; see `RuleToBodyAsWritten`).
   */
  function RuleToBody(rule: UserFilterRule): string {
    match rule.matchType
    case Exact => "^" + ReEscape(rule.pattern) + "$"
    case Contains => ReEscape(rule.pattern)
    case Wildcard => "^" + WildcardBody(rule.pattern) + "$"
    case OtherMatch => ReEscape(rule.pattern)
  }

  /** The body of one rule's lookahead: case classes unless case-sensitive, `.*…*` around a contains rule. */
  function RuleBody(rule: UserFilterRule): string {
    var body := RuleToBody(rule);
    var body := if !rule.caseSensitive then ToCaseInsensitive(body) else body;
    if rule.matchType == Contains then ".*" + body + ".*" else body
  }

  function Lookahead(rule: UserFilterRule): string {
    "(?!" + RuleBody(rule) + ")"
  }

  /** The lookaheads of the rules with a non-empty pattern, in rule order. */
  function Lookaheads(rules: seq<UserFilterRule>): seq<string>
    decreases |rules|
  {
    if rules == [] then []
    else
      var last := rules[|rules| - 1];
      Lookaheads(rules[..|rules| - 1]) + (if last.pattern != "" then [Lookahead(last)] else [])
  }

  /** The source of the regular expression `buildFilterRegex` compiles, `None` for its `null`. */
  function FilterRegexSource(rules: seq<UserFilterRule>): Option<string> {
    var lookaheads := Lookaheads(rules);
    if lookaheads == [] then None else Some("^" + Concat(lookaheads) + ".*$")
  }

  /** There is no expression exactly when there are no rules or every pattern is empty. */
  lemma {:induction false} FilterRegexNull(rules: seq<UserFilterRule>)
    ensures FilterRegexSource(rules).None? <==> forall i :: 0 <= i < |rules| ==> rules[i].pattern == ""
    decreases |rules|
  {
    if rules != [] {
      var init := rules[..|rules| - 1];
      FilterRegexNull(init);
      assert forall i :: 0 <= i < |init| ==> init[i] == rules[i];
    }
  }

  /** `buildFilterRegex`: one lookahead pushed per rule with a pattern, then the chain. */
  method BuildFilterRegex(rules: seq<UserFilterRule>) returns (r: Option<string>)
    ensures r == FilterRegexSource(rules)
  {
    if |rules| == 0 {
      return None;
    }
    var lookaheads: seq<string> := [];
    for i := 0 to |rules|
      invariant lookaheads == Lookaheads(rules[..i])
    {
      assert rules[..i + 1][..i] == rules[..i];
      var rule := rules[i];
      if |rule.pattern| == 0 {
        continue;
      }
      var body := RuleToBody(rule);
      if !rule.caseSensitive {
        body := ToCaseInsensitive(body);
      }
      if rule.matchType == Contains {
        body := ".*" + body + ".*";
      }
      lookaheads := lookaheads + ["(?!" + body + ")"];
    }
    assert rules[..|rules|] == rules;
    if |lookaheads| == 0 {
      return None;
    }
    r := Some("^" + Concat(lookaheads) + ".*$");
  }

  // ---------------------------------------------------------------------
  // What the expressions mean
  // ---------------------------------------------------------------------

  /** The pattern elements the compiled rules use: a literal, `.`, `.*` and a two-character class `[xy]`. */
  datatype Atom = Lit(c: char) | AnyOne | AnyRun | Either(lo: char, up: char)

  function RenderAtom(a: Atom): string {
    match a
    case Lit(c) => EscapeChar(c)
    case AnyOne => "."
    case AnyRun => ".*"
    case Either(lo, up) => "[" + [lo] + [up] + "]"
  }

  function RenderAtoms(atoms: seq<Atom>): string {
    if atoms == [] then "" else RenderAtom(atoms[0]) + RenderAtoms(atoms[1..])
  }

  lemma {:induction false} RenderAtomsAppend(a: seq<Atom>, b: seq<Atom>)
    ensures RenderAtoms(a + b) == RenderAtoms(a) + RenderAtoms(b)
    decreases |a|
  {
    if a == [] {
      assert a + b == b;
    } else {
      assert (a + b)[1..] == a[1..] + b;
      RenderAtomsAppend(a[1..], b);
    }
  }

  /** Whether one character is matched by a single-character atom (`.` does not match a line terminator). */
  predicate AtomAccepts(a: Atom, c: char) {
    match a
    case Lit(x) => c == x
    case AnyOne => !IsLineTerminator(c)
    case AnyRun => false
    case Either(lo, up) => c == lo || c == up
  }

  /** Whether the atoms match the whole of `s`. */
  predicate Matches(atoms: seq<Atom>, s: string)
    decreases |s|, |atoms|
  {
    if atoms == [] then s == []
    else if atoms[0] == AnyRun then
      Matches(atoms[1..], s) || (s != [] && !IsLineTerminator(s[0]) && Matches(atoms, s[1..]))
    else s != [] && AtomAccepts(atoms[0], s[0]) && Matches(atoms[1..], s[1..])
  }

  /** A lookahead body: atoms, optionally anchored with `^` and `$`. */
  datatype Pattern = Pattern(atoms: seq<Atom>, start: bool, end: bool)

  function RenderPattern(p: Pattern): string {
    (if p.start then "^" else "") + RenderAtoms(p.atoms) + (if p.end then "$" else "")
  }

  /**
   * Whether the lookahead `(?!p)` fails at the start of `s`: `p` matches a
   * prefix of `s`, or all of it when it ends with `$`. (`^` holds at the
   * start.)
   */
  predicate Hits(p: Pattern, s: string) {
    if p.end then Matches(p.atoms, s) else exists k :: 0 <= k <= |s| && Matches(p.atoms, s[..k])
  }

  /** The atom of one literal character: a class of both cases when the rule ignores case and it is a letter. */
  function LiteralAtom(c: char, caseSensitive: bool): Atom {
    if !caseSensitive && IsAsciiLetter(c) then Either(ToLower(c), ToUpper(c)) else Lit(c)
  }

  function LiteralAtoms(s: string, caseSensitive: bool): (r: seq<Atom>)
    ensures |r| == |s|
    ensures forall i :: 0 <= i < |s| ==> r[i] == LiteralAtom(s[i], caseSensitive)
  {
    if s == [] then [] else [LiteralAtom(s[0], caseSensitive)] + LiteralAtoms(s[1..], caseSensitive)
  }

  function GlobAtom(c: char, caseSensitive: bool): Atom {
    if c == '*' then AnyRun else if c == '?' then AnyOne else LiteralAtom(c, caseSensitive)
  }

  function GlobAtoms(s: string, caseSensitive: bool): (r: seq<Atom>)
    ensures |r| == |s|
  {
    if s == [] then [] else [GlobAtom(s[0], caseSensitive)] + GlobAtoms(s[1..], caseSensitive)
  }

  /** The pattern one rule stands for. */
  function RulePattern(rule: UserFilterRule): Pattern {
    var cs := rule.caseSensitive;
    match rule.matchType
    case Exact => Pattern(LiteralAtoms(rule.pattern, cs), true, true)
    case Contains => Pattern([AnyRun] + LiteralAtoms(rule.pattern, cs) + [AnyRun], false, false)
    case Wildcard => Pattern(GlobAtoms(rule.pattern, cs), true, true)
    case OtherMatch => Pattern(LiteralAtoms(rule.pattern, cs), false, false)
  }

  // Rendering: the compiled strings are the renderings of the patterns.

  /** One escaped character renders as its literal atom. */
  lemma EscapedChar(c: char, caseSensitive: bool)
    ensures caseSensitive ==> EscapeChar(c) == RenderAtom(LiteralAtom(c, caseSensitive))
    ensures !caseSensitive ==> ToCaseInsensitive(EscapeChar(c)) == RenderAtom(LiteralAtom(c, caseSensitive))
  {
    if !caseSensitive {
      if IsRegexMeta(c) {
        assert !IsAsciiLetter(c) && !IsAsciiLetter('\\');
        ToCaseInsensitiveNoLetters(['\\', c]);
      } else {
        assert ToCaseInsensitive([c]) == CaseClass(c) + ToCaseInsensitive([]);
      }
    }
  }

  /** One wildcard character renders as its glob atom. */
  lemma GlobChar(c: char, caseSensitive: bool)
    ensures caseSensitive ==> WildcardChar(c) == RenderAtom(GlobAtom(c, caseSensitive))
    ensures !caseSensitive ==> ToCaseInsensitive(WildcardChar(c)) == RenderAtom(GlobAtom(c, caseSensitive))
  {
    if c == '*' || c == '?' {
      if !caseSensitive {
        assert !IsAsciiLetter('.') && !IsAsciiLetter('*');
        ToCaseInsensitiveNoLetters(WildcardChar(c));
      }
    } else {
      EscapedChar(c, caseSensitive);
    }
  }

  lemma {:induction false} EscapedLiterals(s: string, caseSensitive: bool)
    ensures caseSensitive ==> ReEscape(s) == RenderAtoms(LiteralAtoms(s, caseSensitive))
    ensures !caseSensitive ==> ToCaseInsensitive(ReEscape(s)) == RenderAtoms(LiteralAtoms(s, caseSensitive))
    decreases |s|
  {
    if s != [] {
      EscapedLiterals(s[1..], caseSensitive);
      EscapedChar(s[0], caseSensitive);
      assert LiteralAtoms(s, caseSensitive)[1..] == LiteralAtoms(s[1..], caseSensitive);
      if !caseSensitive {
        ToCaseInsensitiveAppend(EscapeChar(s[0]), ReEscape(s[1..]));
      }
    }
  }

  lemma {:induction false} WildcardGlob(s: string, caseSensitive: bool)
    ensures caseSensitive ==> WildcardBody(s) == RenderAtoms(GlobAtoms(s, caseSensitive))
    ensures !caseSensitive ==> ToCaseInsensitive(WildcardBody(s)) == RenderAtoms(GlobAtoms(s, caseSensitive))
    decreases |s|
  {
    if s != [] {
      WildcardGlob(s[1..], caseSensitive);
      GlobChar(s[0], caseSensitive);
      assert GlobAtoms(s, caseSensitive)[1..] == GlobAtoms(s[1..], caseSensitive);
      if !caseSensitive {
        ToCaseInsensitiveAppend(WildcardChar(s[0]), WildcardBody(s[1..]));
      }
    }
  }

  /** An anchored body `^…$` renders as its atoms between anchors, with or without case classes. */
  lemma AnchoredRenders(body: string, atoms: seq<Atom>, cs: bool)
    requires cs ==> body == RenderAtoms(atoms)
    requires !cs ==> ToCaseInsensitive(body) == RenderAtoms(atoms)
    ensures (if cs then "^" + body + "$" else ToCaseInsensitive("^" + body + "$")) == "^" + RenderAtoms(atoms) + "$"
  {
    if !cs {
      ToCaseInsensitiveNoLetters("^");
      ToCaseInsensitiveNoLetters("$");
      ToCaseInsensitiveAppend("^", body);
      ToCaseInsensitiveAppend("^" + body, "$");
    }
  }

  /** A contains body renders as its literal atoms between two `.*` runs. */
  lemma ContainsRenders(body: string, atoms: seq<Atom>)
    requires body == RenderAtoms(atoms)
    ensures ".*" + body + ".*" == RenderAtoms([AnyRun] + atoms + [AnyRun])
  {
    RenderAtomsAppend([AnyRun], atoms);
    RenderAtomsAppend([AnyRun] + atoms, [AnyRun]);
  }

  /** The body of every rule's lookahead is the rendering of the rule's pattern. */
  lemma RuleBodyRenders(rule: UserFilterRule)
    ensures RuleBody(rule) == RenderPattern(RulePattern(rule))
  {
    var cs := rule.caseSensitive;
    var p := rule.pattern;
    match rule.matchType
    case Exact =>
      EscapedLiterals(p, cs);
      AnchoredRenders(ReEscape(p), LiteralAtoms(p, cs), cs);
    case Wildcard =>
      WildcardGlob(p, cs);
      AnchoredRenders(WildcardBody(p), GlobAtoms(p, cs), cs);
    case Contains =>
      EscapedLiterals(p, cs);
      var body := if !cs then ToCaseInsensitive(ReEscape(p)) else ReEscape(p);
      ContainsRenders(body, LiteralAtoms(p, cs));
    case OtherMatch =>
      EscapedLiterals(p, cs);
  }

  /** The chained expression: one lookahead per pattern, then `.*$`. */
  function RenderFilter(patterns: seq<Pattern>): string {
    "^" + Concat(seq(|patterns|, i requires 0 <= i < |patterns| => "(?!" + RenderPattern(patterns[i]) + ")")) + ".*$"
  }

  /** The patterns of the rules with a non-empty pattern, in rule order. */
  function FilterPatterns(rules: seq<UserFilterRule>): (r: seq<Pattern>)
    ensures |r| == |Lookaheads(rules)|
    decreases |rules|
  {
    if rules == [] then []
    else
      var last := rules[|rules| - 1];
      FilterPatterns(rules[..|rules| - 1]) + (if last.pattern != "" then [RulePattern(last)] else [])
  }

  lemma {:induction false} LookaheadsRender(rules: seq<UserFilterRule>)
    ensures var patterns := FilterPatterns(rules);
      Lookaheads(rules) == seq(|patterns|, i requires 0 <= i < |patterns| => "(?!" + RenderPattern(patterns[i]) + ")")
    decreases |rules|
  {
    if rules != [] {
      var last := rules[|rules| - 1];
      LookaheadsRender(rules[..|rules| - 1]);
      RuleBodyRenders(last);
    }
  }

  /** The compiled source is the rendering of the rules' patterns, and there is one exactly when some rule has a pattern. */
  lemma FilterRegexRenders(rules: seq<UserFilterRule>)
    ensures FilterRegexSource(rules).Some? <==> FilterPatterns(rules) != []
    ensures FilterRegexSource(rules).Some? ==> FilterRegexSource(rules).value == RenderFilter(FilterPatterns(rules))
  {
    LookaheadsRender(rules);
  }

  predicate NoLineTerminator(s: string) {
    forall i :: 0 <= i < |s| ==> !IsLineTerminator(s[i])
  }

  lemma NoLineTerminatorSlice(s: string, i: nat, j: nat)
    requires NoLineTerminator(s) && i <= j <= |s|
    ensures NoLineTerminator(s[i..j]) && NoLineTerminator(s[i..])
  {
    assert forall m :: 0 <= m < j - i ==> s[i..j][m] == s[i + m];
    assert forall m :: 0 <= m < |s| - i ==> s[i..][m] == s[i + m];
  }

  /** `regex.test(name)` for the chained expression: no lookahead fails, and `.*$` runs to the end. */
  predicate FilterTest(patterns: seq<Pattern>, name: string) {
    NoLineTerminator(name) && forall i :: 0 <= i < |patterns| ==> !Hits(patterns[i], name)
  }

  // The rule kinds, defined without regular expressions.

  predicate CharEq(caseSensitive: bool, a: char, b: char) {
    if caseSensitive then a == b else ToLower(a) == ToLower(b)
  }

  /** `s` spells `p`, up to case when the rule ignores it. */
  predicate SameText(caseSensitive: bool, s: string, p: string) {
    |s| == |p| && forall i :: 0 <= i < |p| ==> CharEq(caseSensitive, s[i], p[i])
  }

  /** `p` is spelt in `name` from index `i` on. */
  predicate SpellsAt(caseSensitive: bool, name: string, p: string, i: int) {
    0 <= i && i + |p| <= |name| && SameText(caseSensitive, name[i..i + |p|], p)
  }

  /** Glob matching: `*` stands for any run of characters, `?` for one. */
  predicate Glob(caseSensitive: bool, p: string, s: string)
    decreases |p|
  {
    if p == [] then s == []
    else if p[0] == '*' then exists k :: 0 <= k <= |s| && Glob(caseSensitive, p[1..], s[k..])
    else if p[0] == '?' then s != [] && Glob(caseSensitive, p[1..], s[1..])
    else s != [] && CharEq(caseSensitive, s[0], p[0]) && Glob(caseSensitive, p[1..], s[1..])
  }

  /** What a rule excludes: the whole name, a part of it, a glob match of it, or (any other kind) a prefix. */
  ghost predicate Excludes(rule: UserFilterRule, name: string) {
    var cs := rule.caseSensitive;
    var p := rule.pattern;
    match rule.matchType
    case Exact => SameText(cs, name, p)
    case Contains => exists i :: SpellsAt(cs, name, p, i)
    case Wildcard => Glob(cs, p, name)
    case OtherMatch => |p| <= |name| && SameText(cs, name[..|p|], p)
  }

  /** A name passes the filter when it has no line break and no rule with a pattern excludes it. */
  ghost predicate Admits(rules: seq<UserFilterRule>, name: string) {
    NoLineTerminator(name) && forall i :: 0 <= i < |rules| && rules[i].pattern != "" ==> !Excludes(rules[i], name)
  }

  // Matching, step by step.

  lemma LiteralAtomAccepts(c: char, caseSensitive: bool, x: char)
    ensures AtomAccepts(LiteralAtom(c, caseSensitive), x) <==> CharEq(caseSensitive, x, c)
  {
    if !caseSensitive && IsAsciiLetter(c) {
      if IsAsciiUpper(x) {
        assert ToLower(x) as int == x as int + 32;
      }
      if IsAsciiUpper(c) {
        assert ToLower(c) as int == c as int + 32;
      }
    }
  }

  /** Literal atoms followed by more: the literal part spells the pattern, the rest matches what follows. */
  lemma {:induction false} LiteralsThen(p: string, caseSensitive: bool, rest: seq<Atom>, s: string)
    ensures Matches(LiteralAtoms(p, caseSensitive) + rest, s) <==>
      |p| <= |s| && SameText(caseSensitive, s[..|p|], p) && Matches(rest, s[|p|..])
    decreases |p|
  {
    var atoms := LiteralAtoms(p, caseSensitive) + rest;
    if p == [] {
      assert atoms == rest;
      assert s[..0] == [] && s[0..] == s;
    } else {
      assert atoms[0] == LiteralAtom(p[0], caseSensitive);
      assert atoms[1..] == LiteralAtoms(p[1..], caseSensitive) + rest;
      LiteralAtomAccepts(p[0], caseSensitive, if s == [] then ' ' else s[0]);
      if s != [] {
        LiteralsThen(p[1..], caseSensitive, rest, s[1..]);
        if |p| <= |s| {
          assert s[1..][..|p| - 1] == s[..|p|][1..];
          assert s[1..][|p| - 1..] == s[|p|..];
          if SameText(caseSensitive, s[..|p|], p) {
            assert forall i :: 0 <= i < |p| - 1 ==> s[..|p|][1..][i] == s[..|p|][i + 1];
          }
          if CharEq(caseSensitive, s[0], p[0]) && SameText(caseSensitive, s[1..][..|p| - 1], p[1..]) {
            forall i | 0 <= i < |p|
              ensures CharEq(caseSensitive, s[..|p|][i], p[i])
            {
              if i > 0 {
                assert s[..|p|][i] == s[1..][..|p| - 1][i - 1];
              }
            }
          }
        }
      }
    }
  }

  /** `.*` followed by more, on a text without line breaks: some suffix matches what follows. */
  lemma {:induction false} AnyRunThen(rest: seq<Atom>, s: string)
    requires NoLineTerminator(s)
    ensures Matches([AnyRun] + rest, s) <==> exists k :: 0 <= k <= |s| && Matches(rest, s[k..])
    decreases |s|
  {
    var atoms := [AnyRun] + rest;
    assert atoms[1..] == rest;
    assert s[0..] == s;
    if s != [] {
      AnyRunThen(rest, s[1..]);
      forall k | 1 <= k <= |s|
        ensures s[k..] == s[1..][k - 1..]
      {
      }
      if exists k :: 0 <= k <= |s| && Matches(rest, s[k..]) {
        var k :| 0 <= k <= |s| && Matches(rest, s[k..]);
        if k > 0 {
          assert Matches(rest, s[1..][k - 1..]);
        }
      }
      if Matches(atoms, s[1..]) {
        var k :| 0 <= k <= |s[1..]| && Matches(rest, s[1..][k..]);
        assert s[1..][k..] == s[k + 1..];
      }
    }
  }

  /** A trailing `.*` matches any text without line breaks. */
  lemma AnyRunMatchesAll(s: string)
    requires NoLineTerminator(s)
    ensures Matches([AnyRun], s)
  {
    AnyRunThen([], s);
    assert [AnyRun] + [] == [AnyRun];
    assert Matches([], s[|s|..]);
  }

  lemma {:induction false} GlobMatches(p: string, caseSensitive: bool, s: string)
    requires NoLineTerminator(s)
    ensures Matches(GlobAtoms(p, caseSensitive), s) <==> Glob(caseSensitive, p, s)
    decreases |p|
  {
    if p != [] {
      var atoms := GlobAtoms(p, caseSensitive);
      var tail := GlobAtoms(p[1..], caseSensitive);
      assert atoms == [GlobAtom(p[0], caseSensitive)] + tail;
      if p[0] == '*' {
        AnyRunThen(tail, s);
        forall k | 0 <= k <= |s|
          ensures Matches(tail, s[k..]) <==> Glob(caseSensitive, p[1..], s[k..])
        {
          NoLineTerminatorSlice(s, k, k);
          GlobMatches(p[1..], caseSensitive, s[k..]);
        }
      } else {
        assert atoms[0] != AnyRun && atoms[1..] == tail;
        if s != [] {
          NoLineTerminatorSlice(s, 1, 1);
          GlobMatches(p[1..], caseSensitive, s[1..]);
          if p[0] != '?' {
            LiteralAtomAccepts(p[0], caseSensitive, s[0]);
          }
        }
      }
    }
  }

  /** Each rule's pattern hits a name without line breaks exactly when the rule excludes it. */
  lemma RuleHits(rule: UserFilterRule, name: string)
    requires NoLineTerminator(name)
    ensures Hits(RulePattern(rule), name) <==> Excludes(rule, name)
  {
    var cs := rule.caseSensitive;
    var p := rule.pattern;
    var lits := LiteralAtoms(p, cs);
    match rule.matchType
    case Exact =>
      LiteralsThen(p, cs, [], name);
      assert lits + [] == lits;
      assert name[..|p|] == name <== |p| == |name|;
    case Wildcard =>
      GlobMatches(p, cs, name);
    case OtherMatch =>
      if Excludes(rule, name) {
        LiteralsThen(p, cs, [], name[..|p|]);
        assert lits + [] == lits;
        assert name[..|p|][..|p|] == name[..|p|];
      }
      if Hits(RulePattern(rule), name) {
        var k :| 0 <= k <= |name| && Matches(lits, name[..k]);
        LiteralsThen(p, cs, [], name[..k]);
        assert lits + [] == lits;
        assert name[..k][..|p|] == name[..|p|];
      }
    case Contains =>
      assert rule == UserFilterRule(Contains, p, cs);
      if Hits(RulePattern(rule), name) {
        ContainsHitsExcludes(p, cs, name);
      }
      if Excludes(rule, name) {
        ContainsExcludesHits(p, cs, name);
      }
  }

  lemma ContainsHitsExcludes(p: string, cs: bool, name: string)
    requires NoLineTerminator(name)
    requires Hits(RulePattern(UserFilterRule(Contains, p, cs)), name)
    ensures exists i :: SpellsAt(cs, name, p, i)
  {
    var lits := LiteralAtoms(p, cs);
    var atoms := [AnyRun] + lits + [AnyRun];
    assert atoms == [AnyRun] + (lits + [AnyRun]);
    var k :| 0 <= k <= |name| && Matches(atoms, name[..k]);
    var t := name[..k];
    NoLineTerminatorSlice(name, 0, k);
    AnyRunThen(lits + [AnyRun], t);
    var j :| 0 <= j <= |t| && Matches(lits + [AnyRun], t[j..]);
    LiteralsThen(p, cs, [AnyRun], t[j..]);
    assert t[j..][..|p|] == name[j..j + |p|];
    assert SpellsAt(cs, name, p, j);
  }

  lemma ContainsExcludesHits(p: string, cs: bool, name: string)
    requires NoLineTerminator(name)
    requires exists i :: SpellsAt(cs, name, p, i)
    ensures Hits(RulePattern(UserFilterRule(Contains, p, cs)), name)
  {
    var lits := LiteralAtoms(p, cs);
    var atoms := [AnyRun] + lits + [AnyRun];
    assert atoms == [AnyRun] + (lits + [AnyRun]);
    var i :| SpellsAt(cs, name, p, i);
    NoLineTerminatorSlice(name, i + |p|, i + |p|);
    AnyRunMatchesAll(name[i + |p|..]);
    LiteralsThen(p, cs, [AnyRun], name[i..]);
    assert name[i..][..|p|] == name[i..i + |p|];
    assert name[i..][|p|..] == name[i + |p|..];
    assert Matches(lits + [AnyRun], name[i..]);
    AnyRunThen(lits + [AnyRun], name);
    assert name[..|name|] == name;
    assert Matches(atoms, name[..|name|]);
  }

  lemma FilterTestSnoc(ps: seq<Pattern>, q: Pattern, name: string)
    ensures FilterTest(ps + [q], name) <==> FilterTest(ps, name) && !Hits(q, name)
  {
    assert forall i :: 0 <= i < |ps| ==> (ps + [q])[i] == ps[i];
    assert (ps + [q])[|ps|] == q;
  }

  lemma AdmitsSnoc(rules: seq<UserFilterRule>, name: string)
    requires rules != []
    ensures var last := rules[|rules| - 1];
      Admits(rules, name) <==> Admits(rules[..|rules| - 1], name) && (last.pattern != "" ==> !Excludes(last, name))
  {
    var init := rules[..|rules| - 1];
    assert forall i :: 0 <= i < |init| ==> init[i] == rules[i];
  }

  /**
   * The compiled filter admits a name exactly when the name has no line
   * break and no rule with a pattern excludes it.
   */
  lemma {:induction false} FilterAdmits(rules: seq<UserFilterRule>, name: string)
    ensures FilterTest(FilterPatterns(rules), name) <==> Admits(rules, name)
    decreases |rules|
  {
    if rules != [] {
      var init := rules[..|rules| - 1];
      var last := rules[|rules| - 1];
      FilterAdmits(init, name);
      AdmitsSnoc(rules, name);
      var ps := FilterPatterns(init);
      if last.pattern != "" {
        assert FilterPatterns(rules) == ps + [RulePattern(last)];
        FilterTestSnoc(ps, RulePattern(last), name);
        if NoLineTerminator(name) {
          RuleHits(last, name);
        }
      } else {
        assert FilterPatterns(rules) == ps;
      }
    }
  }

  // ---------------------------------------------------------------------
  // The cases the source's tests check
  // ---------------------------------------------------------------------

  lemma LettersHaveNoLineTerminator(s: string)
    requires forall i :: 0 <= i < |s| ==> IsAsciiLetter(s[i]) || IsDigit(s[i])
    ensures NoLineTerminator(s)
  {
  }

  /** With a single rule, a name passes exactly when it has no line break and the rule, if it has a pattern, does not exclude it. */
  lemma OneRule(rule: UserFilterRule, name: string)
    ensures FilterTest(FilterPatterns([rule]), name) <==> NoLineTerminator(name) && (rule.pattern != "" ==> !Excludes(rule, name))
  {
    FilterAdmits([rule], name);
    assert [rule][0] == rule;
  }

  /** The rule of the first contains test: `foo`, ignoring case. */
  function FooRule(): UserFilterRule {
    UserFilterRule(Contains, "foo", false)
  }

  lemma FooRuleCompiles()
    ensures FilterRegexSource([FooRule()]).Some?
  {
    FilterRegexNull([FooRule()]);
    assert [FooRule()][0].pattern != "";
  }

  lemma BarAdmitted()
    ensures FilterTest(FilterPatterns([FooRule()]), "bar")
  {
    assert NoLineTerminator("bar") by {
      LettersHaveNoLineTerminator("bar");
    }
    assert !Excludes(FooRule(), "bar") by {
      forall i ensures !SpellsAt(false, "bar", "foo", i) {
        if 0 <= i && i + 3 <= 3 {
          assert "bar"[i..i + 3][0] == 'b' && !CharEq(false, 'b', 'f');
        }
      }
    }
    OneRule(FooRule(), "bar");
  }

  lemma FoobarExcluded()
    ensures !FilterTest(FilterPatterns([FooRule()]), "foobar")
  {
    assert Excludes(FooRule(), "foobar") by {
      assert "foobar"[0..3] == "foo";
      assert SpellsAt(false, "foobar", "foo", 0);
    }
    OneRule(FooRule(), "foobar");
  }

  lemma UpperFoobarExcluded()
    ensures !FilterTest(FilterPatterns([FooRule()]), "FOObar")
  {
    assert Excludes(FooRule(), "FOObar") by {
      assert "FOObar"[0..3] == "FOO";
      assert CharEq(false, 'F', 'f') && CharEq(false, 'O', 'o');
      assert SpellsAt(false, "FOObar", "foo", 0);
    }
    OneRule(FooRule(), "FOObar");
  }

  /** A case-insensitive contains rule excludes `foobar` and `FOObar` and admits `bar`. */
  lemma ContainsIgnoringCase()
    ensures var rules := [FooRule()];
      FooRule() == UserFilterRule(Contains, "foo", false) &&
      FilterRegexSource(rules).Some? &&
      FilterTest(FilterPatterns(rules), "bar") &&
      !FilterTest(FilterPatterns(rules), "foobar") &&
      !FilterTest(FilterPatterns(rules), "FOObar")
  {
    FooRuleCompiles();
    BarAdmitted();
    FoobarExcluded();
    UpperFoobarExcluded();
  }

  /** The rule of the case-sensitive contains test: `foo`, case mattering. */
  function CasedFooRule(): UserFilterRule {
    UserFilterRule(Contains, "foo", true)
  }

  lemma CasedFoobarExcluded()
    ensures !FilterTest(FilterPatterns([CasedFooRule()]), "foobar")
  {
    assert Excludes(CasedFooRule(), "foobar") by {
      assert "foobar"[0..3] == "foo";
      assert SpellsAt(true, "foobar", "foo", 0);
    }
    OneRule(CasedFooRule(), "foobar");
  }

  lemma CasedUpperFoobarAdmitted()
    ensures FilterTest(FilterPatterns([CasedFooRule()]), "FOObar")
  {
    assert NoLineTerminator("FOObar") by {
      LettersHaveNoLineTerminator("FOObar");
    }
    assert !Excludes(CasedFooRule(), "FOObar") by {
      forall i | 0 <= i <= 3
        ensures !SpellsAt(true, "FOObar", "foo", i)
      {
        assert "FOObar"[i..i + 3][0] == "FOObar"[i];
        assert "FOObar"[i..i + 3][1] == "FOObar"[i + 1];
      }
    }
    OneRule(CasedFooRule(), "FOObar");
  }

  /** The same rule made case-sensitive excludes `foobar` but admits `FOObar`. */
  lemma ContainsWithCase()
    ensures var rules := [CasedFooRule()];
      CasedFooRule() == UserFilterRule(Contains, "foo", true) &&
      !FilterTest(FilterPatterns(rules), "foobar") &&
      FilterTest(FilterPatterns(rules), "FOObar")
  {
    CasedFoobarExcluded();
    CasedUpperFoobarAdmitted();
  }

  /** The rule of the exact test: `Alice`, ignoring case. */
  function AliceRule(): UserFilterRule {
    UserFilterRule(Exact, "Alice", false)
  }

  lemma AliceExcluded()
    ensures !FilterTest(FilterPatterns([AliceRule()]), "Alice")
  {
    OneRule(AliceRule(), "Alice");
  }

  lemma UpperAliceExcluded()
    ensures !FilterTest(FilterPatterns([AliceRule()]), "ALICE")
  {
    assert Excludes(AliceRule(), "ALICE") by {
      assert CharEq(false, 'L', 'l') && CharEq(false, 'I', 'i') && CharEq(false, 'C', 'c') && CharEq(false, 'E', 'e');
    }
    OneRule(AliceRule(), "ALICE");
  }

  lemma LongerAliceAdmitted()
    ensures FilterTest(FilterPatterns([AliceRule()]), "Alice1")
  {
    assert NoLineTerminator("Alice1") by {
      LettersHaveNoLineTerminator("Alice1");
    }
    assert !Excludes(AliceRule(), "Alice1") by {
      assert |"Alice1"| != |AliceRule().pattern|;
    }
    OneRule(AliceRule(), "Alice1");
  }

  /** A case-insensitive exact rule excludes `Alice` and `ALICE` and admits `Alice1`. */
  lemma ExactIgnoringCase()
    ensures var rules := [AliceRule()];
      AliceRule() == UserFilterRule(Exact, "Alice", false) &&
      !FilterTest(FilterPatterns(rules), "Alice") &&
      !FilterTest(FilterPatterns(rules), "ALICE") &&
      FilterTest(FilterPatterns(rules), "Alice1")
  {
    AliceExcluded();
    UpperAliceExcluded();
    LongerAliceAdmitted();
  }

  /** A case-sensitive wildcard `a*e` excludes `axe` and admits `Axe`. */
  lemma WildcardWithCase()
    ensures var rules := [UserFilterRule(Wildcard, "a*e", true)];
      !FilterTest(FilterPatterns(rules), "axe") &&
      FilterTest(FilterPatterns(rules), "Axe")
  {
    var rule := UserFilterRule(Wildcard, "a*e", true);
    assert !FilterTest(FilterPatterns([rule]), "axe") by {
      assert Excludes(rule, "axe") by {
        assert "a*e"[1..] == "*e" && "*e"[1..] == "e" && "e"[1..] == [];
        assert "axe"[1..] == "xe" && "xe"[1..] == "e";
        assert Glob(true, "e", "e");
        assert Glob(true, "*e", "xe") by {
          assert "xe"[1..] == "e";
        }
      }
      OneRule(rule, "axe");
    }
    assert FilterTest(FilterPatterns([rule]), "Axe") by {
      assert NoLineTerminator("Axe") by {
        LettersHaveNoLineTerminator("Axe");
      }
      assert !Excludes(rule, "Axe");
      OneRule(rule, "Axe");
    }
  }

  lemma NightBotContainsBot()
    ensures Excludes(UserFilterRule(Contains, "bot", false), "NightBot")
  {
    var name := "NightBot";
    assert name[5..8] == "Bot";
    assert CharEq(false, 'B', 'b');
    assert SpellsAt(false, name, "bot", 5);
  }

  lemma UpperModNeither()
    ensures !Excludes(UserFilterRule(Exact, "Mod", true), "MOD")
    ensures !Excludes(UserFilterRule(Contains, "bot", false), "MOD")
  {
    assert "MOD"[1] != "Mod"[1];
    forall i: int
      ensures !SpellsAt(false, "MOD", "bot", i)
    {
      if i == 0 {
        assert "MOD"[0..3][0] == 'M';
        assert !CharEq(false, 'M', 'b');
      }
    }
  }

  /** The two rules of the mixed test, an exact case-sensitive one and a contains one that ignores case. */
  function MixedTestRules(): seq<UserFilterRule> {
    [UserFilterRule(Exact, "Mod", true), UserFilterRule(Contains, "bot", false)]
  }

  lemma MixedRulesMod()
    ensures !FilterTest(FilterPatterns(MixedTestRules()), "Mod")
  {
    var rules := MixedTestRules();
    FilterAdmits(rules, "Mod");
    assert rules[0].pattern != "" && Excludes(rules[0], "Mod");
  }

  lemma MixedRulesUpperMod()
    ensures FilterTest(FilterPatterns(MixedTestRules()), "MOD")
  {
    var rules := MixedTestRules();
    FilterAdmits(rules, "MOD");
    LettersHaveNoLineTerminator("MOD");
    UpperModNeither();
    forall i | 0 <= i < |rules| && rules[i].pattern != ""
      ensures !Excludes(rules[i], "MOD")
    {
      assert i == 0 || i == 1;
    }
    assert Admits(rules, "MOD");
  }

  lemma MixedRulesNightBot()
    ensures !FilterTest(FilterPatterns(MixedTestRules()), "NightBot")
  {
    var rules := MixedTestRules();
    FilterAdmits(rules, "NightBot");
    NightBotContainsBot();
    assert rules[1].pattern != "" && Excludes(rules[1], "NightBot");
  }

  /** Each rule keeps its own case rule: `Mod` and `NightBot` are excluded, `MOD` is admitted. */
  lemma MixedRules()
    ensures var patterns := FilterPatterns([UserFilterRule(Exact, "Mod", true), UserFilterRule(Contains, "bot", false)]);
      !FilterTest(patterns, "Mod") && FilterTest(patterns, "MOD") && !FilterTest(patterns, "NightBot")
  {
    MixedRulesMod();
    MixedRulesUpperMod();
    MixedRulesNightBot();
  }

  // ---------------------------------------------------------------------
  // The wildcard rewrite as the source writes it
  // ---------------------------------------------------------------------

  /** The source first turns `*` and `?` into placeholder strings and escapes everything else. */
  function PlaceholderPiece(c: char): string {
    if c == '*' then "__STAR__" else if c == '?' then "__Q__" else ReEscape([c])
  }

  function PlaceholderText(s: string): string {
    if s == [] then [] else PlaceholderPiece(s[0]) + PlaceholderText(s[1..])
  }

  /** `s.split(p).join(r)`: every occurrence of `p`, found left to right, replaced by `r`. */
  function ReplaceAll(s: string, p: string, r: string): string
    requires p != []
    decreases |s|
  {
    if |s| < |p| then s
    else if s[..|p|] == p then r + ReplaceAll(s[|p|..], p, r)
    else [s[0]] + ReplaceAll(s[1..], p, r)
  }

  /** `ruleToBody` as written: the placeholders are then replaced wherever they occur. */
  function RuleToBodyAsWritten(rule: UserFilterRule): string {
    if rule.matchType == Wildcard then
      "^" + ReplaceAll(ReplaceAll(PlaceholderText(rule.pattern), "__STAR__", ".*"), "__Q__", ".") + "$"
    else RuleToBody(rule)
  }

  /**
   * A pattern that spells a placeholder itself is rewritten too: the
   * wildcard `__Q__` compiles to `^.$`, which excludes every one-character
   * name, while the rule asks for the literal text `__Q__`.
   */
  lemma PlaceholderInPatternAsWritten()
    ensures var rule := PlaceholderRule();
      rule == UserFilterRule(Wildcard, "__Q__", true) &&
      RuleToBodyAsWritten(rule) == "^.$" &&
      RuleToBodyAsWritten(rule) == RenderPattern(Pattern([AnyOne], true, true)) &&
      Hits(Pattern([AnyOne], true, true), "x") &&
      !Excludes(rule, "x")
  {
    PlaceholderBodyAsWritten();
    AnyOneRenders();
    AnyOneHitsX();
    PlaceholderRuleAdmitsX();
  }

  /** The pattern of one anchored any-character atom is `^.$`. */
  lemma AnyOneRenders()
    ensures RenderPattern(Pattern([AnyOne], true, true)) == "^.$"
  {
    assert RenderAtoms([AnyOne]) == "." + RenderAtoms([]);
  }

  lemma AnyOneHitsX()
    ensures Hits(Pattern([AnyOne], true, true), "x")
  {
    assert "x"[1..] == [];
  }

  lemma PlaceholderRuleAdmitsX()
    ensures !Excludes(PlaceholderRule(), "x")
  {
    assert "x"[0] != '_';
  }

  /** A wildcard rule whose pattern spells the `?` placeholder, matched case-sensitively. */
  function PlaceholderRule(): UserFilterRule {
    UserFilterRule(Wildcard, "__Q__", true)
  }

  lemma PlaceholderBodyAsWritten()
    ensures RuleToBodyAsWritten(PlaceholderRule()) == "^.$"
  {
    PlaceholderTextOfQ();
    PlaceholdersReplaced();
  }

  /** `__Q__` holds no wildcard and no metacharacter, so the placeholder step leaves it as it is. */
  lemma PlaceholderTextOfQ()
    ensures PlaceholderText("__Q__") == "__Q__"
  {
    assert "__Q__"[1..] == "_Q__" && "_Q__"[1..] == "Q__" && "Q__"[1..] == "__" && "__"[1..] == "_" && "_"[1..] == [];
    assert PlaceholderText("_") == "_";
    assert PlaceholderText("__") == "__";
    assert PlaceholderText("Q__") == "Q__";
    assert PlaceholderText("_Q__") == "_Q__";
  }

  /** No `__STAR__` occurs in `__Q__`, and `__Q__` is itself the `?` placeholder. */
  lemma PlaceholdersReplaced()
    ensures ReplaceAll(ReplaceAll("__Q__", "__STAR__", ".*"), "__Q__", ".") == "."
  {
    assert ReplaceAll("__Q__", "__STAR__", ".*") == "__Q__";
    assert "__Q__"[..5] == "__Q__" && "__Q__"[5..] == [];
    assert ReplaceAll("__Q__", "__Q__", ".") == "." + ReplaceAll([], "__Q__", ".");
  }

  /** The character-by-character rewrite compiles the same pattern to the literal text. */
  lemma PlaceholderInPatternCorrected()
    ensures var rule := UserFilterRule(Wildcard, "__Q__", true);
      RuleToBody(rule) == "^__Q__$" &&
      forall name :: NoLineTerminator(name) ==> (Hits(RulePattern(rule), name) <==> name == "__Q__")
  {
    var rule := UserFilterRule(Wildcard, "__Q__", true);
    PlaceholderBodyCorrected();
    forall name | NoLineTerminator(name)
      ensures Hits(RulePattern(rule), name) <==> name == "__Q__"
    {
      RuleHits(rule, name);
      GlobLiteral("__Q__", name);
    }
  }

  lemma PlaceholderBodyCorrected()
    ensures RuleToBody(UserFilterRule(Wildcard, "__Q__", true)) == "^__Q__$"
  {
    PlaceholderGlobIsPlain();
  }

  /** `__Q__` holds no `*` or `?` and nothing to escape, so the wildcard rewrite keeps it. */
  lemma PlaceholderGlobIsPlain()
    ensures WildcardBody("__Q__") == "__Q__"
  {
    var p := "__Q__";
    assert WildcardChar('_') == "_" && WildcardChar('Q') == "Q";
    forall i | 0 <= i < |p|
      ensures WildcardChar(p[i]) == [p[i]]
    {
      assert p[i] == '_' || p[i] == 'Q';
    }
    WildcardBodyOfPlain(p);
  }

  /** Characters the wildcard rewrite leaves as they are make a body equal to the pattern. */
  lemma {:induction false} WildcardBodyOfPlain(s: string)
    requires forall i :: 0 <= i < |s| ==> WildcardChar(s[i]) == [s[i]]
    ensures WildcardBody(s) == s
    decreases |s|
  {
    if s != [] {
      WildcardBodyOfPlain(s[1..]);
      assert s == [s[0]] + s[1..];
    }
  }

  /** A glob without `*` or `?`, matched case-sensitively, matches exactly its own text. */
  lemma {:induction false} GlobLiteral(p: string, s: string)
    requires forall i :: 0 <= i < |p| ==> p[i] != '*' && p[i] != '?'
    ensures Glob(true, p, s) <==> s == p
    decreases |p|
  {
    if p != [] {
      if s != [] {
        GlobLiteral(p[1..], s[1..]);
        if s[0] == p[0] && s[1..] == p[1..] {
          assert s == [s[0]] + s[1..];
          assert p == [p[0]] + p[1..];
        }
      }
    }
  }
}
