/**
 * Filter configurations in the page URL: the configuration's JSON text,
 * base64-encoded, written in the URL-safe alphabet without padding, and
 * read back with a fallback to the empty configuration on any failure.
 */
module FilterUrl {
  import opened Wrappers
  import opened Strings
  import opened Json

  function ToUrlChar(c: char): char {
    if c == '+' then '-' else if c == '/' then '_' else c
  }

  function FromUrlChar(c: char): char {
    if c == '-' then '+' else if c == '_' then '/' else c
  }

  function ToUrlAlphabet(s: string): (r: string)
    ensures |r| == |s| && forall i :: 0 <= i < |s| ==> r[i] == ToUrlChar(s[i])
  {
    seq(|s|, i requires 0 <= i < |s| => ToUrlChar(s[i]))
  }

  function FromUrlAlphabet(s: string): (r: string)
    ensures |r| == |s| && forall i :: 0 <= i < |s| ==> r[i] == FromUrlChar(s[i])
  {
    seq(|s|, i requires 0 <= i < |s| => FromUrlChar(s[i]))
  }

  /** `replace(/=+$/u, '')`: the run of `=` at the end removed. */
  function TrimPadding(s: string): string
    decreases |s|
  {
    if s != [] && s[|s| - 1] == '=' then TrimPadding(s[..|s| - 1]) else s
  }

  /** Trimming keeps a prefix, removes only `=`, and leaves no `=` at the end. */
  lemma {:induction false} TrimPaddingShape(s: string)
    ensures var r := TrimPadding(s);
      |r| <= |s| && r == s[..|r|] &&
      (forall i :: |r| <= i < |s| ==> s[i] == '=') &&
      (r == [] || r[|r| - 1] != '=')
    decreases |s|
  {
    if s != [] && s[|s| - 1] == '=' {
      var init := s[..|s| - 1];
      TrimPaddingShape(init);
      var r := TrimPadding(init);
      assert s[..|r|] == init[..|r|];
    }
  }

  /** `n` padding characters. */
  function Padding(n: nat): (r: string)
    ensures |r| == n && forall i :: 0 <= i < n ==> r[i] == '='
  {
    seq(n, i => '=')
  }

  /** Enough `=` to make the length a multiple of 4. */
  function PadToBlock(s: string): string {
    s + Padding((4 - |s| % 4) % 4)
  }

  /** `toBase64Url` from the output of `btoa` on: the URL alphabet, trailing padding removed. */
  function ToBase64Url(b64: string): string {
    TrimPadding(ToUrlAlphabet(b64))
  }

  /** `fromBase64Url` up to the call of `atob`: the standard alphabet, then `=` until the length is a multiple of 4. */
  method FromBase64Url(s: string) returns (t: string)
    ensures t == PadToBlock(FromUrlAlphabet(s))
    ensures |t| % 4 == 0
  {
    var u := FromUrlAlphabet(s);
    t := u;
    ghost var added := 0;
    ghost var needed := (4 - |u| % 4) % 4;
    BlockReached(|u|, 0);
    while |t| % 4 != 0
      invariant added <= needed && t == u + Padding(added)
      invariant |t| % 4 == 0 <==> added == needed
      decreases needed - added
    {
      PaddingGrows(u, added);
      t := t + "=";
      added := added + 1;
      BlockReached(|u|, added);
    }
  }

  /** Adding `a` characters to a text of length `n` completes a block of 4 exactly when `a` is the padding `n` needs. */
  lemma BlockReached(n: nat, a: nat)
    requires a <= (4 - n % 4) % 4
    ensures (n + a) % 4 == 0 <==> a == (4 - n % 4) % 4
  {
  }

  /** One more `=` is one more character of padding. */
  lemma PaddingGrows(u: string, n: nat)
    ensures u + Padding(n) + "=" == u + Padding(n + 1)
  {
    assert Padding(n) + "=" == Padding(n + 1);
  }

  predicate IsBase64Char(c: char) {
    IsAsciiLetter(c) || IsDigit(c) || c == '+' || c == '/'
  }

  predicate IsBase64UrlChar(c: char) {
    IsAsciiLetter(c) || IsDigit(c) || c == '-' || c == '_'
  }

  lemma UrlAlphabetAppend(a: string, n: nat)
    ensures ToUrlAlphabet(a + Padding(n)) == ToUrlAlphabet(a) + Padding(n)
    ensures FromUrlAlphabet(a + Padding(n)) == FromUrlAlphabet(a) + Padding(n)
  {
    var l := ToUrlAlphabet(a + Padding(n));
    var r := ToUrlAlphabet(a) + Padding(n);
    assert |l| == |r|;
    forall i | 0 <= i < |l| ensures l[i] == r[i] {
      if i < |a| {
        assert (a + Padding(n))[i] == a[i];
      } else {
        assert (a + Padding(n))[i] == '=';
      }
    }
    var l2 := FromUrlAlphabet(a + Padding(n));
    var r2 := FromUrlAlphabet(a) + Padding(n);
    assert |l2| == |r2|;
    forall i | 0 <= i < |l2| ensures l2[i] == r2[i] {
      if i < |a| {
        assert (a + Padding(n))[i] == a[i];
      } else {
        assert (a + Padding(n))[i] == '=';
      }
    }
  }

  /** Padding a length-`m` text to a block adds exactly `pad` characters when `pad` at most 2 completes it. */
  lemma PadLength(m: nat, pad: nat)
    requires pad <= 2 && (m + pad) % 4 == 0
    ensures (4 - m % 4) % 4 == pad
  {
  }

  /**
   * The URL form round-trips: standard base64 (characters of the alphabet,
   * then at most two `=`, a multiple of 4 long) comes back unchanged.
   */
  lemma UrlRoundTrip(body: string, pad: nat)
    requires forall i :: 0 <= i < |body| ==> IsBase64Char(body[i])
    requires pad <= 2 && (|body| + pad) % 4 == 0
    ensures PadToBlock(FromUrlAlphabet(ToBase64Url(body + Padding(pad)))) == body + Padding(pad)
  {
    var url := ToUrlAlphabet(body);
    UrlAlphabetAppend(body, pad);
    assert url == [] || url[|url| - 1] != '=' by {
      if url != [] {
        assert IsBase64Char(body[|body| - 1]);
      }
    }
    TrimAfterBody(url, pad);
    assert ToBase64Url(body + Padding(pad)) == url;
    var back := FromUrlAlphabet(url);
    assert back == body by {
      assert |back| == |body|;
      forall i | 0 <= i < |body| ensures back[i] == body[i] {
        assert IsBase64Char(body[i]);
      }
    }
    PadLength(|body|, pad);
    calc {
      PadToBlock(FromUrlAlphabet(ToBase64Url(body + Padding(pad))));
      PadToBlock(back);
      body + Padding(pad);
    }
  }

  lemma {:induction false} TrimAfterBody(s: string, pad: nat)
    requires s == [] || s[|s| - 1] != '='
    ensures TrimPadding(s + Padding(pad)) == s
    decreases pad
  {
    if pad == 0 {
      assert s + Padding(0) == s;
    } else {
      var t := s + Padding(pad);
      assert t[|t| - 1] == '=';
      assert t[..|t| - 1] == s + Padding(pad - 1);
      TrimAfterBody(s, pad - 1);
    }
  }

  /** And the other way: a URL-alphabet string survives decoding to the standard form and encoding back. */
  lemma UrlRoundTripBack(s: string)
    requires forall i :: 0 <= i < |s| ==> IsBase64UrlChar(s[i])
    ensures ToBase64Url(PadToBlock(FromUrlAlphabet(s))) == s
  {
    var u := FromUrlAlphabet(s);
    var n := (4 - |u| % 4) % 4;
    UrlAlphabetAppend(u, n);
    assert ToUrlAlphabet(u) == s by {
      forall i | 0 <= i < |s| ensures ToUrlAlphabet(u)[i] == s[i] {
        assert IsBase64UrlChar(s[i]);
      }
    }
    assert s == [] || s[|s| - 1] != '=' by {
      if s != [] {
        assert IsBase64UrlChar(s[|s| - 1]);
      }
    }
    TrimAfterBody(s, n);
    calc {
      ToBase64Url(PadToBlock(u));
      TrimPadding(ToUrlAlphabet(u + Padding(n)));
      TrimPadding(s + Padding(n));
      s;
    }
  }

  /** `EMPTY_FILTER_CONFIG` as JSON: `{ rules: [] }`. */
  const EmptyFilterConfig: Json := JObj(map["rules" := JArr([])])

  /** A configuration as `decodeFiltersFromUrl` accepts it: an object whose `rules` is an array. */
  predicate HasRules(j: Json) {
    j.JObj? && "rules" in j.fields && j.fields["rules"].JArr?
  }

  /**
   * `encodeFiltersToUrl`: the empty configuration is written as nothing;
   * `btoa` failing (a character outside Latin-1) is caught and also gives
   * nothing. `stringify` and `btoa` stand for the browser functions.
   */
  function EncodeFiltersToUrl(cfg: Json, stringify: Json -> string, btoa: string -> Option<string>): (r: string)
    ensures cfg == EmptyFilterConfig ==> r == ""
    ensures btoa(stringify(cfg)).None? ==> r == ""
  {
    var json := stringify(cfg);
    if json == stringify(EmptyFilterConfig) then ""
    else match btoa(json)
      case None => ""
      case Some(b64) => ToBase64Url(b64)
  }

  /**
   * `decodeFiltersFromUrl`: a missing or empty parameter, `atob` or
   * `JSON.parse` failing, or a value without a `rules` array all give the
   * empty configuration.
   */
  function DecodeFiltersFromUrl(b64u: Option<string>, atob: string -> Option<string>, parse: string -> Option<Json>): (r: Json)
    ensures HasRules(r)
    ensures b64u.None? || b64u == Some("") ==> r == EmptyFilterConfig
  {
    if b64u.None? || b64u.value == "" then EmptyFilterConfig
    else match atob(PadToBlock(FromUrlAlphabet(b64u.value)))
      case None => EmptyFilterConfig
      case Some(json) =>
        match parse(json)
        case None => EmptyFilterConfig
        case Some(parsed) => if HasRules(parsed) then parsed else EmptyFilterConfig
  }

  /**
   * A non-empty configuration read back from the URL it was written to is
   * the same configuration, given that `atob` undoes `btoa` and
   * `JSON.parse` undoes `JSON.stringify` on it.
   */
  lemma EncodeDecodeRoundTrip(cfg: Json, stringify: Json -> string, btoa: string -> Option<string>,
                              atob: string -> Option<string>, parse: string -> Option<Json>, body: string, pad: nat)
    requires HasRules(cfg) && stringify(cfg) != stringify(EmptyFilterConfig)
    requires btoa(stringify(cfg)) == Some(body + Padding(pad))
    requires forall i :: 0 <= i < |body| ==> IsBase64Char(body[i])
    requires pad <= 2 && (|body| + pad) % 4 == 0 && body != []
    requires atob(body + Padding(pad)) == Some(stringify(cfg)) && parse(stringify(cfg)) == Some(cfg)
    ensures DecodeFiltersFromUrl(Some(EncodeFiltersToUrl(cfg, stringify, btoa)), atob, parse) == cfg
  {
    UrlRoundTrip(body, pad);
    var url := EncodeFiltersToUrl(cfg, stringify, btoa);
    TrimAfterBody(ToUrlAlphabet(body), pad);
    assert ToUrlAlphabet(body + Padding(pad)) == ToUrlAlphabet(body) + Padding(pad);
    assert url == ToUrlAlphabet(body);
  }
}
