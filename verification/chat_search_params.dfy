/**
 * Reading the overlay's settings from the page's query parameters. Every
 * setting has a parameter name; a missing or unusable parameter falls back
 * to the default settings. The query string is given already decoded, as
 * the list of (name, value) pairs `URLSearchParams` holds, and the names of
 * the parameters are a parameter of the model.
 */
module ChatSearchParams {
  import opened Wrappers
  import opened Strings

  /** The decoded query: (name, value) pairs in query order. */
  type Params = seq<(string, string)>

  /** No pair before position `i` has the name. */
  predicate FirstWith(params: Params, name: string, i: nat) {
    forall j :: 0 <= j < i && j < |params| ==> params[j].0 != name
  }

  /** `URLSearchParams.get`: the value of the first pair with this name. */
  function Get(params: Params, name: string): (r: Option<string>)
    ensures r.None? <==> forall i :: 0 <= i < |params| ==> params[i].0 != name
    ensures r.Some? ==> exists i :: 0 <= i < |params| && params[i] == (name, r.value) && FirstWith(params, name, i)
  {
    if params == [] then None
    else if params[0].0 == name then Some(params[0].1)
    else
      var rest := Get(params[1..], name);
      assert forall j :: 1 <= j < |params| ==> params[j] == params[1..][j - 1];
      rest
  }

  /** Pairs after a pair with the name do not matter; before the first one, only they do. */
  lemma {:induction false} GetAppend(a: Params, b: Params, name: string)
    ensures Get(a + b, name) == if Get(a, name).Some? then Get(a, name) else Get(b, name)
  {
    if a != [] {
      assert (a + b)[0] == a[0];
      assert (a + b)[1..] == a[1..] + b;
      GetAppend(a[1..], b, name);
    } else {
      assert a + b == b;
    }
  }

  /** The settings the overlay reads, one parameter each. */
  datatype Setting =
    | AnimatedEntry | BackgroundColor | Height | Width | AnimatedExit | SecondsBeforeExit
    | DropShadowEnabled | DropShadowSettings | ThickTextShadowEnabled | ForegroundColor
    | ShowAvatars | ShowBorders | ShowColonAfterDisplayName | TextStrokeEnabled
    | TextStrokeSettings | FontSize | FontFamily | ChatMessagePadding | ShowNameAlias

  /**
   * The default settings. Sizes are a number and a unit, rendered together
   * when no parameter gives the size.
   */
  datatype Defaults = Defaults(
    animatedEntry: bool, animatedExit: bool, dropShadowEnabled: bool, thickTextShadowEnabled: bool,
    showAvatars: bool, showBorders: bool, showColonAfterDisplayName: bool, textStrokeEnabled: bool,
    showNameAlias: bool,
    heightValue: nat, heightUnit: string, widthValue: nat, widthUnit: string,
    secondsBeforeExit: real,
    backgroundColor: string, foregroundColor: string,
    dropShadowSettings: string, textStrokeSettings: string,
    fontSizeValue: nat, fontSizeUnit: string, fontFamily: string,
    chatMessagePaddingValue: nat, chatMessagePaddingUnit: string)

  /**
   * The overlay's defaults: the constants of `src/constants.ts`, and for the
   * flags the defaults the hook documents (entry animation, avatars, borders
   * and name aliases on; the rest off).
   */
  predicate OverlayDefaults(d: Defaults) {
    d.animatedEntry && d.showAvatars && d.showBorders && d.showNameAlias &&
    !d.animatedExit && !d.dropShadowEnabled && !d.thickTextShadowEnabled &&
    !d.showColonAfterDisplayName && !d.textStrokeEnabled &&
    d.heightValue == 100 && d.heightUnit == "vh" && d.widthValue == 500 && d.widthUnit == "px" &&
    d.secondsBeforeExit == 10.0 &&
    d.backgroundColor == "transparent" && d.foregroundColor == "#ffffff" &&
    d.dropShadowSettings == "1px 1px 2px #000000ff" && d.textStrokeSettings == "1px black" &&
    d.fontSizeValue == 1 && d.fontSizeUnit == "em" && d.fontFamily == "Sans-Serif" &&
    d.chatMessagePaddingValue == 5 && d.chatMessagePaddingUnit == "px"
  }

  /** The settings the hook returns. */
  datatype ChatSettings = ChatSettings(
    animatedEntry: bool, animatedExit: bool, backgroundColor: string, chatMessagePadding: string,
    dropShadowEnabled: bool, dropShadowSettings: string, fontFamily: string, fontSize: string,
    foregroundColor: string, height: string, secondsBeforeExit: real, showAvatars: bool,
    showBorders: bool, showColonAfterDisplayName: bool, showNameAlias: bool,
    textStrokeEnabled: bool, textStrokeSettings: string, thickTextShadowEnabled: bool, width: string)

  /** `Param(params, names, p) === 'false' ? false : default`. */
  function FlagUnlessFalse(p: Option<string>, default: bool): bool {
    if p == Some("false") then false else default
  }

  /** `Param(params, names, p) === 'true' ? true : default`. */
  function FlagIfTrue(p: Option<string>, default: bool): bool {
    if p == Some("true") then true else default
  }

  /** `Param(params, names, p) || default`: `null` and `''` are both falsy. */
  function StringOr(p: Option<string>, default: string): string {
    if p.Some? && p.value != "" then p.value else default
  }

  /** `${value}${unit}`. */
  function SizeText(value: nat, unit: string): string {
    NatToString(value) + unit
  }

  /** `Param(params, names, p) !== null ? Number(Param(params, names, p)) : default`: a present parameter is converted even when empty. */
  function SecondsOr(p: Option<string>, default: real, toNumber: string -> real): real {
    if p.Some? then toNumber(p.value) else default
  }

  /** `searchParams.get(chatSearchParamsMap[k])`. */
  function Param(params: Params, names: Setting -> string, k: Setting): Option<string> {
    Get(params, names(k))
  }

  /** `useChatSearchParams`. */
  function ReadSettings(params: Params, names: Setting -> string, d: Defaults, toNumber: string -> real): ChatSettings {
    ChatSettings(
      animatedEntry := FlagUnlessFalse(Param(params, names, AnimatedEntry), d.animatedEntry),
      animatedExit := FlagIfTrue(Param(params, names, AnimatedExit), d.animatedExit),
      backgroundColor := StringOr(Param(params, names, BackgroundColor), d.backgroundColor),
      chatMessagePadding := StringOr(Param(params, names, ChatMessagePadding), SizeText(d.chatMessagePaddingValue, d.chatMessagePaddingUnit)),
      dropShadowEnabled := FlagIfTrue(Param(params, names, DropShadowEnabled), d.dropShadowEnabled),
      dropShadowSettings := StringOr(Param(params, names, DropShadowSettings), d.dropShadowSettings),
      fontFamily := StringOr(Param(params, names, FontFamily), d.fontFamily),
      fontSize := StringOr(Param(params, names, FontSize), SizeText(d.fontSizeValue, d.fontSizeUnit)),
      foregroundColor := StringOr(Param(params, names, ForegroundColor), d.foregroundColor),
      height := StringOr(Param(params, names, Height), SizeText(d.heightValue, d.heightUnit)),
      secondsBeforeExit := SecondsOr(Param(params, names, SecondsBeforeExit), d.secondsBeforeExit, toNumber),
      showAvatars := FlagUnlessFalse(Param(params, names, ShowAvatars), d.showAvatars),
      showBorders := FlagUnlessFalse(Param(params, names, ShowBorders), d.showBorders),
      showColonAfterDisplayName := FlagIfTrue(Param(params, names, ShowColonAfterDisplayName), d.showColonAfterDisplayName),
      showNameAlias := FlagUnlessFalse(Param(params, names, ShowNameAlias), d.showNameAlias),
      textStrokeEnabled := FlagIfTrue(Param(params, names, TextStrokeEnabled), d.textStrokeEnabled),
      textStrokeSettings := StringOr(Param(params, names, TextStrokeSettings), d.textStrokeSettings),
      thickTextShadowEnabled := FlagIfTrue(Param(params, names, ThickTextShadowEnabled), d.thickTextShadowEnabled),
      width := StringOr(Param(params, names, Width), SizeText(d.widthValue, d.widthUnit)))
  }

  // ---------------------------------------------------------------------
  // What each setting reads
  // ---------------------------------------------------------------------

  /** The parameter of a setting is present with exactly this text. */
  predicate Says(params: Params, names: Setting -> string, k: Setting, text: string) {
    Param(params, names, k) == Some(text)
  }

  /**
   * The defaults `src/constants.ts` holds as written: it has none of the nine
   * flags, so each reads as `undefined`, which is falsy; every other value is
   * the overlay's.
   */
  predicate AsWrittenDefaults(d: Defaults) {
    OverlayDefaults(d.(animatedEntry := true, showAvatars := true, showBorders := true, showNameAlias := true)) &&
    !d.animatedEntry && !d.showAvatars && !d.showBorders && !d.showNameAlias
  }

  /**
   * As written, entry animation, avatars, borders and name aliases are off
   * whatever the query says, although the hook documents them as on by default.
   */
  lemma OnFlagsNeverOnAsWritten(params: Params, names: Setting -> string, d: Defaults, toNumber: string -> real)
    requires AsWrittenDefaults(d)
    ensures var s := ReadSettings(params, names, d, toNumber);
      !s.animatedEntry && !s.showAvatars && !s.showBorders && !s.showNameAlias
  {
  }

  /**
   * With the overlay's defaults, the flags that default to on are off
   * exactly when their parameter is the text `false`.
   */
  lemma OnFlagsOffOnlyOnFalse(params: Params, names: Setting -> string, d: Defaults, toNumber: string -> real)
    requires OverlayDefaults(d)
    ensures var s := ReadSettings(params, names, d, toNumber);
      (!s.animatedEntry <==> Says(params, names, AnimatedEntry, "false")) &&
      (!s.showAvatars <==> Says(params, names, ShowAvatars, "false")) &&
      (!s.showBorders <==> Says(params, names, ShowBorders, "false")) &&
      (!s.showNameAlias <==> Says(params, names, ShowNameAlias, "false"))
  {
  }

  /**
   * With the overlay's defaults, the flags that default to off are on
   * exactly when their parameter is the text `true`.
   */
  lemma OffFlagsOnOnlyOnTrue(params: Params, names: Setting -> string, d: Defaults, toNumber: string -> real)
    requires OverlayDefaults(d)
    ensures var s := ReadSettings(params, names, d, toNumber);
      (s.animatedExit <==> Says(params, names, AnimatedExit, "true")) &&
      (s.dropShadowEnabled <==> Says(params, names, DropShadowEnabled, "true")) &&
      (s.thickTextShadowEnabled <==> Says(params, names, ThickTextShadowEnabled, "true")) &&
      (s.showColonAfterDisplayName <==> Says(params, names, ShowColonAfterDisplayName, "true")) &&
      (s.textStrokeEnabled <==> Says(params, names, TextStrokeEnabled, "true"))
  {
  }

  /**
   * `get(p) || default` read back: a missing or empty parameter gives the
   * default, any other gives its own text.
   */
  predicate FallsBack(p: Option<string>, value: string, default: string) {
    if p.None? || p.value == "" then value == default else p == Some(value)
  }

  lemma StringOrFallsBack(p: Option<string>, default: string)
    ensures FallsBack(p, StringOr(p, default), default)
  {
  }

  /** A text setting is its parameter when that is non-empty, and otherwise its default. */
  lemma TextSettingsFallBack(params: Params, names: Setting -> string, d: Defaults, toNumber: string -> real)
    ensures var s := ReadSettings(params, names, d, toNumber);
      FallsBack(Param(params, names, BackgroundColor), s.backgroundColor, d.backgroundColor) &&
      FallsBack(Param(params, names, DropShadowSettings), s.dropShadowSettings, d.dropShadowSettings) &&
      FallsBack(Param(params, names, ForegroundColor), s.foregroundColor, d.foregroundColor) &&
      FallsBack(Param(params, names, TextStrokeSettings), s.textStrokeSettings, d.textStrokeSettings) &&
      FallsBack(Param(params, names, FontFamily), s.fontFamily, d.fontFamily)
  {
    StringOrFallsBack(Param(params, names, BackgroundColor), d.backgroundColor);
    StringOrFallsBack(Param(params, names, DropShadowSettings), d.dropShadowSettings);
    StringOrFallsBack(Param(params, names, ForegroundColor), d.foregroundColor);
    StringOrFallsBack(Param(params, names, TextStrokeSettings), d.textStrokeSettings);
    StringOrFallsBack(Param(params, names, FontFamily), d.fontFamily);
  }

  /** The digits of the default sizes. */
  lemma DefaultSizeDigits()
    ensures NatToString(1) == "1" && NatToString(5) == "5"
    ensures NatToString(100) == "100" && NatToString(500) == "500"
  {
    assert NatToString(10) == "10" by { assert NatToString(1) == "1"; }
    assert NatToString(50) == "50" by { assert NatToString(5) == "5"; }
  }

  /** The overlay's default sizes, rendered. */
  lemma DefaultSizeTexts(d: Defaults)
    requires OverlayDefaults(d)
    ensures SizeText(d.heightValue, d.heightUnit) == "100vh"
    ensures SizeText(d.widthValue, d.widthUnit) == "500px"
    ensures SizeText(d.fontSizeValue, d.fontSizeUnit) == "1em"
    ensures SizeText(d.chatMessagePaddingValue, d.chatMessagePaddingUnit) == "5px"
  {
    DefaultSizeDigits();
  }

  /**
   * A size is its parameter when that is non-empty; otherwise the overlay's
   * default: `100vh` high, `500px` wide, `1em` text and `5px` padding.
   */
  lemma SizesFallBack(params: Params, names: Setting -> string, d: Defaults, toNumber: string -> real)
    requires OverlayDefaults(d)
    ensures var s := ReadSettings(params, names, d, toNumber);
      FallsBack(Param(params, names, Height), s.height, "100vh") &&
      FallsBack(Param(params, names, Width), s.width, "500px") &&
      FallsBack(Param(params, names, FontSize), s.fontSize, "1em") &&
      FallsBack(Param(params, names, ChatMessagePadding), s.chatMessagePadding, "5px")
  {
    DefaultSizeTexts(d);
    StringOrFallsBack(Param(params, names, Height), SizeText(d.heightValue, d.heightUnit));
    StringOrFallsBack(Param(params, names, Width), SizeText(d.widthValue, d.widthUnit));
    StringOrFallsBack(Param(params, names, FontSize), SizeText(d.fontSizeValue, d.fontSizeUnit));
    StringOrFallsBack(Param(params, names, ChatMessagePadding), SizeText(d.chatMessagePaddingValue, d.chatMessagePaddingUnit));
  }

  /**
   * The parts of `Number` the seconds setting relies on: the empty text is
   * 0 and a string of decimal digits is the number it spells.
   */
  ghost predicate NumberReadsDigits(toNumber: string -> real) {
    toNumber("") == 0.0 &&
    forall t :: AllDigits(t) && t != [] ==> toNumber(t) == DigitsValue(t) as real
  }

  /**
   * The delay before a message leaves is the default only when the
   * parameter is missing. A present but empty parameter is a delay of 0,
   * and a parameter of digits is the number they spell.
   */
  lemma SecondsReadsPresentParam(params: Params, names: Setting -> string, d: Defaults, toNumber: string -> real)
    requires NumberReadsDigits(toNumber)
    ensures var s := ReadSettings(params, names, d, toNumber);
      var p := Param(params, names, SecondsBeforeExit);
      (p.None? ==> s.secondsBeforeExit == d.secondsBeforeExit) &&
      (p == Some("") ==> s.secondsBeforeExit == 0.0) &&
      (forall n: nat :: p == Some(NatToString(n)) ==> s.secondsBeforeExit == n as real)
  {
    forall n: nat | Param(params, names, SecondsBeforeExit) == Some(NatToString(n))
      ensures ReadSettings(params, names, d, toNumber).secondsBeforeExit == n as real
    {
      DigitsValueOfNatToString(n);
    }
  }

  /** No parameter at all: every setting is its default. */
  lemma EmptyQueryIsDefaults(names: Setting -> string, d: Defaults, toNumber: string -> real)
    requires OverlayDefaults(d)
    ensures ReadSettings([], names, d, toNumber) == ChatSettings(
      animatedEntry := true, animatedExit := false, backgroundColor := "transparent",
      chatMessagePadding := "5px", dropShadowEnabled := false,
      dropShadowSettings := "1px 1px 2px #000000ff", fontFamily := "Sans-Serif", fontSize := "1em",
      foregroundColor := "#ffffff", height := "100vh", secondsBeforeExit := 10.0, showAvatars := true,
      showBorders := true, showColonAfterDisplayName := false, showNameAlias := true,
      textStrokeEnabled := false, textStrokeSettings := "1px black", thickTextShadowEnabled := false,
      width := "500px")
  {
    DefaultSizeTexts(d);
  }

  /**
   * Parameters that name no setting change nothing, and neither do repeats
   * of a parameter already given: the first value of a name is the one read.
   */
  lemma IgnoresLaterAndForeignParams(params: Params, extra: Params, names: Setting -> string, d: Defaults, toNumber: string -> real)
    requires forall k: Setting, i :: 0 <= i < |extra| && extra[i].0 == names(k) ==> Param(params, names, k).Some?
    ensures ReadSettings(params + extra, names, d, toNumber) == ReadSettings(params, names, d, toNumber)
  {
    forall k: Setting ensures Param(params + extra, names, k) == Param(params, names, k) {
      GetAppend(params, extra, names(k));
    }
  }
}
