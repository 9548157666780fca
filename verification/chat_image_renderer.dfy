/**
 * The message renderer. The fragments of a chat message are first cut into
 * parts: a cheer, a Twitch emote, a BetterTTV modifier word, an emote from
 * the shared emote table, an emoji or plain text. BetterTTV modifier words
 * leave flags pending for the next emote. The parts are then rendered left
 * to right; an emote absorbs the modifier emotes that follow it, marking
 * them so that they are not rendered on their own.
 *
 * The decoders of 7TV and FrankerFaceZ modifier bits, the BetterTTV
 * modifier word list, the Unicode-class split and the emoji lookup are
 * parameters of the renderer (`RenderEnv`).
 */
module ChatImageRenderer {
  import opened Wrappers
  import opened Strings
  import opened OrderedRecord
  import opened ChatTypes
  import FetchCheers

  // ---------------------------------------------------------------------
  // Inputs
  // ---------------------------------------------------------------------

  datatype FragmentType = TextFragment | CheermoteFragment | EmoteFragment | MentionFragment

  datatype CheermoteRef = CheermoteRef(prefix: string, bits: int)

  /** A message fragment as EventSub delivers it; `emoteId` is `emote.id`. */
  datatype Fragment = Fragment(kind: FragmentType, text: string, cheermote: Option<CheermoteRef>, emoteId: Option<string>)

  /** A cheer tier together with the bits of the cheermote that matched it. */
  datatype CheerWithBits = CheerWithBits(cheer: ChatCheer, bits: int)

  /** One part of a message; `text` is the source's `match`. */
  datatype MessagePart = MessagePart(
    text: string,
    emote: Option<ChatEmote>,
    cheer: Option<CheerWithBits>,
    skip: bool,
    modifierFlags: Option<seq<string>>)

  /**
   * What the renderer reads besides the fragments: the two shared tables,
   * the BetterTTV modifier words with their flags, the Unicode-class split,
   * the emoji image of a piece ("" when it is not an emoji) and the two
   * modifier-bit decoders.
   */
  datatype RenderEnv = RenderEnv(
    chatEmotes: Table<ChatEmote>,
    chatCheers: Table<ChatCheer>,
    bttvModifiers: map<string, string>,
    unicodeSplit: string -> seq<string>,
    emojiSrc: string -> string,
    sevenTVFlags: int -> seq<string>,
    frankerFaceZFlags: int -> seq<string>)

  // ---------------------------------------------------------------------
  // Splitting text on whitespace
  // ---------------------------------------------------------------------

  predicate NoSpace(s: string) {
    forall i :: 0 <= i < |s| ==> !IsSpace(s[i])
  }

  predicate AllSpace(s: string) {
    forall i :: 0 <= i < |s| ==> IsSpace(s[i])
  }

  /** The length of the run of non-space characters `s` starts with. */
  function WordLength(s: string): (n: nat)
    ensures n <= |s| && NoSpace(s[..n])
    ensures n < |s| ==> IsSpace(s[n])
  {
    if s == [] || IsSpace(s[0]) then 0
    else
      var n := 1 + WordLength(s[1..]);
      assert forall i :: 1 <= i < n ==> s[..n][i] == s[1..][..n - 1][i - 1];
      n
  }

  /** The length of the run of space characters `s` starts with. */
  function SpaceLength(s: string): (n: nat)
    ensures n <= |s| && AllSpace(s[..n])
    ensures n < |s| ==> !IsSpace(s[n])
  {
    if s == [] || !IsSpace(s[0]) then 0
    else
      var n := 1 + SpaceLength(s[1..]);
      assert forall i :: 1 <= i < n ==> s[..n][i] == s[1..][..n - 1][i - 1];
      n
  }

  /**
   * `s.split(/(\s+)/g)`: words and the whitespace runs between them,
   * alternating, with a word (possibly empty) first and last.
   */
  function WordSplit(s: string): (r: seq<string>)
    ensures |r| % 2 == 1
    decreases |s|
  {
    var w := WordLength(s);
    if w == |s| then [s]
    else
      var rest := s[w..];
      var sp := SpaceLength(rest);
      [s[..w], rest[..sp]] + WordSplit(rest[sp..])
  }

  /** The split loses nothing: its pieces concatenate to the text. */
  lemma {:induction false} WordSplitConcat(s: string)
    ensures Concat(WordSplit(s)) == s
    decreases |s|
  {
    var w := WordLength(s);
    if w == |s| {
      assert Concat([s]) == s + Concat([]);
    } else {
      var rest := s[w..];
      var sp := SpaceLength(rest);
      var tail := WordSplit(rest[sp..]);
      WordSplitConcat(rest[sp..]);
      ConcatPrepend(s[..w], rest[..sp], tail);
      SplitTwice(s, w, sp);
    }
  }

  lemma SplitTwice(s: string, w: nat, sp: nat)
    requires w + sp <= |s|
    ensures s[..w] + (s[w..][..sp] + s[w..][sp..]) == s
  {
    assert s[w..][..sp] + s[w..][sp..] == s[w..];
  }

  lemma ConcatPrepend(word: string, gap: string, tail: seq<string>)
    ensures Concat([word, gap] + tail) == word + (gap + Concat(tail))
  {
    var r := [word, gap] + tail;
    assert r[1..] == [gap] + tail;
    assert r[1..][1..] == tail;
  }

  /** Every piece at an even position is a word without whitespace; every piece at an odd position a non-empty whitespace run. */
  predicate Alternates(r: seq<string>) {
    forall i :: 0 <= i < |r| ==> if i % 2 == 0 then NoSpace(r[i]) else r[i] != [] && AllSpace(r[i])
  }

  /** Words (even positions) hold no whitespace; separators (odd positions) are non-empty whitespace runs. */
  lemma {:induction false} WordSplitShape(s: string)
    ensures Alternates(WordSplit(s))
    decreases |s|
  {
    var w := WordLength(s);
    if w == |s| {
      assert s[..w] == s;
    } else {
      var rest := s[w..];
      var sp := SpaceLength(rest);
      var tail := WordSplit(rest[sp..]);
      WordSplitShape(rest[sp..]);
      assert IsSpace(rest[0]);
      assert sp > 0;
      AlternatesPrepend(s[..w], rest[..sp], tail);
    }
  }

  /**
   * Every word between two separators is non-empty, so the separators are
   * maximal whitespace runs, as the capturing split keeps them.
   */
  lemma {:induction false} WordSplitInteriorWords(s: string)
    ensures forall i :: 0 < i < |WordSplit(s)| - 1 && i % 2 == 0 ==> WordSplit(s)[i] != []
    decreases |s|
  {
    var w := WordLength(s);
    if w < |s| {
      var rest := s[w..];
      var sp := SpaceLength(rest);
      var next := rest[sp..];
      var tail := WordSplit(next);
      WordSplitInteriorWords(next);
      var r := [s[..w], rest[..sp]] + tail;
      assert WordSplit(s) == r;
      forall i | 0 < i < |r| - 1 && i % 2 == 0
        ensures r[i] != []
      {
        assert r[i] == tail[i - 2];
        if i == 2 {
          assert sp < |rest| && next[0] == rest[sp];
          FirstWordNonEmpty(next);
        } else {
          assert 0 < i - 2 < |tail| - 1 && (i - 2) % 2 == 0;
        }
      }
    }
  }

  /** A text that does not start with whitespace and holds a separator starts with a non-empty word. */
  lemma FirstWordNonEmpty(x: string)
    requires x != [] && !IsSpace(x[0]) && |WordSplit(x)| > 1
    ensures WordSplit(x)[0] != []
  {
    assert WordLength(x) != |x|;
    assert WordSplit(x)[0] == x[..WordLength(x)];
  }

  lemma AlternatesPrepend(word: string, gap: string, tail: seq<string>)
    requires NoSpace(word) && gap != [] && AllSpace(gap) && Alternates(tail)
    ensures Alternates([word, gap] + tail)
  {
    var r := [word, gap] + tail;
    forall i | 0 <= i < |r|
      ensures if i % 2 == 0 then NoSpace(r[i]) else r[i] != [] && AllSpace(r[i])
    {
      if i >= 2 {
        assert r[i] == tail[i - 2];
        assert (i - 2) % 2 == i % 2;
      }
    }
  }

  // ---------------------------------------------------------------------
  // Cheer lookup
  // ---------------------------------------------------------------------

  /** A tier answers a cheermote when the prefixes agree ignoring case and the cheer reaches its minimum. */
  predicate CheerQualifies(c: ChatCheer, prefix: string, bits: int) {
    EqualsIgnoreCase(c.prefix, prefix) && c.minBits <= bits
  }

  /** No tier after index `i` qualifies. */
  predicate NoneQualifyAfter(cheers: seq<ChatCheer>, i: int, prefix: string, bits: int) {
    forall j :: 0 <= j < |cheers| && i < j ==> !CheerQualifies(cheers[j], prefix, bits)
  }

  /** The last qualifying tier of `cheers`, in order. */
  function LastQualifying(cheers: seq<ChatCheer>, prefix: string, bits: int): (r: Option<ChatCheer>)
    ensures r.Some? <==> exists i :: 0 <= i < |cheers| && CheerQualifies(cheers[i], prefix, bits)
    ensures r.Some? ==> CheerQualifies(r.value, prefix, bits)
    ensures r.Some? ==> (exists i :: 0 <= i < |cheers| && cheers[i] == r.value && NoneQualifyAfter(cheers, i, prefix, bits))
    decreases |cheers|
  {
    if cheers == [] then None
    else if CheerQualifies(cheers[|cheers| - 1], prefix, bits) then Some(cheers[|cheers| - 1])
    else
      var init := cheers[..|cheers| - 1];
      var r := LastQualifying(init, prefix, bits);
      assert forall i :: 0 <= i < |init| ==> init[i] == cheers[i];
      assert r.Some? ==> exists i :: 0 <= i < |cheers| && cheers[i] == r.value && NoneQualifyAfter(cheers, i, prefix, bits) by {
        if r.Some? {
          var i :| 0 <= i < |init| && init[i] == r.value && NoneQualifyAfter(init, i, prefix, bits);
          assert NoneQualifyAfter(cheers, i, prefix, bits);
        }
      }
      r
  }

  /** `findChatCheer`: the loop over the cheer table keeps the last qualifying tier. */
  method FindChatCheer(chatCheers: Table<ChatCheer>, prefix: string, bits: int) returns (found: Option<ChatCheer>)
    ensures found == LastQualifying(Values(chatCheers), prefix, bits)
  {
    var cheers := Values(chatCheers);
    found := None;
    for i := 0 to |cheers|
      invariant found == LastQualifying(cheers[..i], prefix, bits)
    {
      assert cheers[..i + 1][..i] == cheers[..i];
      if EqualsIgnoreCase(cheers[i].prefix, prefix) && cheers[i].minBits <= bits {
        found := Some(cheers[i]);
      }
    }
    assert cheers[..|cheers|] == cheers;
  }

  /**
   * The cheer catalogue and the renderer fit together once the record
   * carries its prefix: a cheermote whose bits reach a saved tier, with a
   * key no other tier of the response shares, finds a qualifying tier.
   */
  lemma SavedCheerFound(stored: Table<ChatCheer>, cheers: seq<FetchCheers.Cheermote>, i: nat, j: nat, bits: int)
    requires i < |cheers| && j < |cheers[i].tiers| && cheers[i].tiers[j].minBits <= bits
    requires var entry := FetchCheers.CheerEntry(cheers[i], cheers[i].tiers[j]);
      forall p :: p in FetchCheers.CheerEntries(cheers) && p.0 == entry.0 ==> p == entry
    ensures var saved := Merge(stored, PutEach(Empty(), FetchCheers.CheerEntries(cheers)));
      var found := LastQualifying(Values(saved), cheers[i].prefix, bits);
      found.Some? && CheerQualifies(found.value, cheers[i].prefix, bits)
  {
    var entry := FetchCheers.CheerEntry(cheers[i], cheers[i].tiers[j]);
    var entries := FetchCheers.CheerEntries(cheers);
    var saved := Merge(stored, PutEach(Empty(), entries));
    FetchCheers.CheerEntriesCover(cheers, i, j);
    FetchCheers.SavedCheerLookup(stored, cheers, entry.0);
    var v := LastValue(entries, entry.0);
    var k :| 0 <= k < |entries| && entries[k] == (entry.0, v.value);
    assert entries[k] in entries;
    assert Get(saved, entry.0) == Some(entry.1);
    var n :| 0 <= n < |saved.keys| && saved.keys[n] == entry.0;
    assert Values(saved)[n] == entry.1;
    assert CheerQualifies(entry.1, cheers[i].prefix, bits);
  }

  // ---------------------------------------------------------------------
  // Building the parts
  // ---------------------------------------------------------------------

  /** The parts built so far and the BetterTTV flags waiting for the next emote. */
  datatype Acc = Acc(parts: seq<MessagePart>, pending: seq<string>)

  function TwitchEmoteUrl(id: string): string {
    "https://static-cdn.jtvnw.net/emoticons/v2/" + id + "/default/dark/3.0"
  }

  /** `getTwitchEmote`: the record of a Twitch emote named by a fragment. */
  function TwitchEmote(id: string): ChatEmote {
    ChatEmote(Twitch, TwitchEmoteUrl(id), Some(""), None, None, false, false, 0, id, "")
  }

  /** The record of an emoji piece, named by the piece itself. */
  function EmojiEmote(piece: string, src: string): ChatEmote {
    ChatEmote(Emoji, src, Some(""), None, None, false, false, 0, piece, piece)
  }

  /** A piece of a word that is neither a modifier nor a table emote: an emoji takes the pending flags, text leaves them. */
  function PieceStep(acc: Acc, piece: string, env: RenderEnv): Acc {
    var src := env.emojiSrc(piece);
    if src != "" then Acc(acc.parts + [MessagePart(piece, Some(EmojiEmote(piece, src)), None, false, Some(acc.pending))], [])
    else Acc(acc.parts + [MessagePart(piece, None, None, false, None)], acc.pending)
  }

  function PiecesStep(acc: Acc, pieces: seq<string>, env: RenderEnv): Acc
    decreases |pieces|
  {
    if pieces == [] then acc else PieceStep(PiecesStep(acc, pieces[..|pieces| - 1], env), pieces[|pieces| - 1], env)
  }

  /** One word (or whitespace run) of a text fragment. */
  function WordStep(acc: Acc, word: string, env: RenderEnv): Acc {
    if word in env.bttvModifiers then
      Acc(acc.parts + [MessagePart(word, None, None, true, None)], acc.pending + [env.bttvModifiers[word]])
    else
      var e := Get(env.chatEmotes, word);
      if e.Some? && !e.value.hidden then Acc(acc.parts + [MessagePart(word, e, None, false, Some(acc.pending))], [])
      else PiecesStep(acc, env.unicodeSplit(word), env)
  }

  function WordsStep(acc: Acc, words: seq<string>, env: RenderEnv): Acc
    decreases |words|
  {
    if words == [] then acc else WordStep(WordsStep(acc, words[..|words| - 1], env), words[|words| - 1], env)
  }

  /** The tier a cheermote fragment shows, if it is one and some tier qualifies. */
  function CheerOf(f: Fragment, env: RenderEnv): Option<CheerWithBits> {
    if f.kind == CheermoteFragment && f.cheermote.Some? then
      match LastQualifying(Values(env.chatCheers), f.cheermote.value.prefix, f.cheermote.value.bits)
      case Some(c) => Some(CheerWithBits(c, f.cheermote.value.bits))
      case None => None
    else None
  }

  /** One fragment: a cheer, else a Twitch emote, else its words. */
  function FragmentStep(acc: Acc, f: Fragment, env: RenderEnv): Acc {
    var cheer := CheerOf(f, env);
    if cheer.Some? then Acc(acc.parts + [MessagePart(f.text, None, cheer, false, None)], [])
    else if f.emoteId.Some? then Acc(acc.parts + [MessagePart(f.text, Some(TwitchEmote(f.emoteId.value)), None, false, None)], [])
    else WordsStep(acc, WordSplit(f.text), env)
  }

  function FragmentsStep(acc: Acc, fragments: seq<Fragment>, env: RenderEnv): Acc
    decreases |fragments|
  {
    if fragments == [] then acc
    else FragmentStep(FragmentsStep(acc, fragments[..|fragments| - 1], env), fragments[|fragments| - 1], env)
  }

  /** All parts of a message. */
  function MessageParts(fragments: seq<Fragment>, env: RenderEnv): seq<MessagePart> {
    FragmentsStep(Acc([], []), fragments, env).parts
  }

  /** The flag a BetterTTV modifier word stands for. */
  function ModifierFlag(word: string, env: RenderEnv): seq<string> {
    if word in env.bttvModifiers then [env.bttvModifiers[word]] else []
  }

  /** The flags of the modifier words since the last emote or cheer part. */
  function PendingOf(parts: seq<MessagePart>, env: RenderEnv): seq<string>
    decreases |parts|
  {
    if parts == [] then []
    else
      var last := parts[|parts| - 1];
      var init := PendingOf(parts[..|parts| - 1], env);
      if last.skip then init + ModifierFlag(last.text, env)
      else if last.emote.Some? || last.cheer.Some? then []
      else init
  }

  /**
   * What the builder keeps true: the pending flags are those of the
   * modifier words since the last emote or cheer; every part that carries
   * flags carries exactly the flags pending before it; no emote part holds
   * a hidden emote; only modifier words are skipped.
   */
  predicate WellBuilt(acc: Acc, env: RenderEnv) {
    acc.pending == PendingOf(acc.parts, env) &&
    (forall i :: 0 <= i < |acc.parts| && acc.parts[i].modifierFlags.Some? ==>
      acc.parts[i].modifierFlags.value == PendingOf(acc.parts[..i], env)) &&
    (forall i :: 0 <= i < |acc.parts| && acc.parts[i].emote.Some? ==> !acc.parts[i].emote.value.hidden) &&
    (forall i :: 0 <= i < |acc.parts| && acc.parts[i].skip ==> acc.parts[i].text in env.bttvModifiers)
  }

  /** Appending one part keeps the builder well built when the part is consistent with the pending flags. */
  lemma AppendWellBuilt(acc: Acc, p: MessagePart, pending: seq<string>, env: RenderEnv)
    requires WellBuilt(acc, env)
    requires p.modifierFlags.Some? ==> p.modifierFlags.value == acc.pending
    requires p.emote.Some? ==> !p.emote.value.hidden
    requires p.skip ==> p.text in env.bttvModifiers && pending == acc.pending + ModifierFlag(p.text, env)
    requires !p.skip && (p.emote.Some? || p.cheer.Some?) ==> pending == []
    requires !p.skip && p.emote.None? && p.cheer.None? ==> pending == acc.pending
    ensures WellBuilt(Acc(acc.parts + [p], pending), env)
  {
    AppendKeepsPending(acc, p, pending, env);
    AppendKeepsFlags(acc, p, env);
    AppendKeepsHidden(acc, p, env);
    AppendKeepsSkips(acc, p, env);
  }

  lemma AppendKeepsPending(acc: Acc, p: MessagePart, pending: seq<string>, env: RenderEnv)
    requires acc.pending == PendingOf(acc.parts, env)
    requires p.skip ==> pending == acc.pending + ModifierFlag(p.text, env)
    requires !p.skip && (p.emote.Some? || p.cheer.Some?) ==> pending == []
    requires !p.skip && p.emote.None? && p.cheer.None? ==> pending == acc.pending
    ensures pending == PendingOf(acc.parts + [p], env)
  {
    var parts := acc.parts + [p];
    assert parts[..|parts| - 1] == acc.parts;
  }

  lemma AppendKeepsFlags(acc: Acc, p: MessagePart, env: RenderEnv)
    requires acc.pending == PendingOf(acc.parts, env)
    requires forall i :: 0 <= i < |acc.parts| && acc.parts[i].modifierFlags.Some? ==>
      acc.parts[i].modifierFlags.value == PendingOf(acc.parts[..i], env)
    requires p.modifierFlags.Some? ==> p.modifierFlags.value == acc.pending
    ensures var parts := acc.parts + [p];
      forall i :: 0 <= i < |parts| && parts[i].modifierFlags.Some? ==>
        parts[i].modifierFlags.value == PendingOf(parts[..i], env)
  {
    var parts := acc.parts + [p];
    forall i | 0 <= i < |parts| && parts[i].modifierFlags.Some?
      ensures parts[i].modifierFlags.value == PendingOf(parts[..i], env)
    {
      if i < |acc.parts| {
        assert parts[i] == acc.parts[i];
        assert parts[..i] == acc.parts[..i];
      } else {
        assert parts[..i] == acc.parts;
      }
    }
  }

  lemma AppendKeepsHidden(acc: Acc, p: MessagePart, env: RenderEnv)
    requires forall i :: 0 <= i < |acc.parts| && acc.parts[i].emote.Some? ==> !acc.parts[i].emote.value.hidden
    requires p.emote.Some? ==> !p.emote.value.hidden
    ensures var parts := acc.parts + [p];
      forall i :: 0 <= i < |parts| && parts[i].emote.Some? ==> !parts[i].emote.value.hidden
  {
    var parts := acc.parts + [p];
    assert forall i :: 0 <= i < |acc.parts| ==> parts[i] == acc.parts[i];
  }

  lemma AppendKeepsSkips(acc: Acc, p: MessagePart, env: RenderEnv)
    requires forall i :: 0 <= i < |acc.parts| && acc.parts[i].skip ==> acc.parts[i].text in env.bttvModifiers
    requires p.skip ==> p.text in env.bttvModifiers
    ensures var parts := acc.parts + [p];
      forall i :: 0 <= i < |parts| && parts[i].skip ==> parts[i].text in env.bttvModifiers
  {
    var parts := acc.parts + [p];
    assert forall i :: 0 <= i < |acc.parts| ==> parts[i] == acc.parts[i];
  }

  lemma PieceStepWellBuilt(acc: Acc, piece: string, env: RenderEnv)
    requires WellBuilt(acc, env)
    ensures WellBuilt(PieceStep(acc, piece, env), env)
  {
    var src := env.emojiSrc(piece);
    if src != "" {
      AppendWellBuilt(acc, MessagePart(piece, Some(EmojiEmote(piece, src)), None, false, Some(acc.pending)), [], env);
    } else {
      AppendWellBuilt(acc, MessagePart(piece, None, None, false, None), acc.pending, env);
    }
  }

  lemma {:induction false} PiecesStepWellBuilt(acc: Acc, pieces: seq<string>, env: RenderEnv)
    requires WellBuilt(acc, env)
    ensures WellBuilt(PiecesStep(acc, pieces, env), env)
    decreases |pieces|
  {
    if pieces != [] {
      PiecesStepWellBuilt(acc, pieces[..|pieces| - 1], env);
      PieceStepWellBuilt(PiecesStep(acc, pieces[..|pieces| - 1], env), pieces[|pieces| - 1], env);
    }
  }

  lemma WordStepWellBuilt(acc: Acc, word: string, env: RenderEnv)
    requires WellBuilt(acc, env)
    ensures WellBuilt(WordStep(acc, word, env), env)
  {
    if word in env.bttvModifiers {
      AppendWellBuilt(acc, MessagePart(word, None, None, true, None), acc.pending + [env.bttvModifiers[word]], env);
    } else {
      var e := Get(env.chatEmotes, word);
      if e.Some? && !e.value.hidden {
        AppendWellBuilt(acc, MessagePart(word, e, None, false, Some(acc.pending)), [], env);
      } else {
        PiecesStepWellBuilt(acc, env.unicodeSplit(word), env);
      }
    }
  }

  lemma {:induction false} WordsStepWellBuilt(acc: Acc, words: seq<string>, env: RenderEnv)
    requires WellBuilt(acc, env)
    ensures WellBuilt(WordsStep(acc, words, env), env)
    decreases |words|
  {
    if words != [] {
      WordsStepWellBuilt(acc, words[..|words| - 1], env);
      WordStepWellBuilt(WordsStep(acc, words[..|words| - 1], env), words[|words| - 1], env);
    }
  }

  lemma FragmentStepWellBuilt(acc: Acc, f: Fragment, env: RenderEnv)
    requires WellBuilt(acc, env)
    ensures WellBuilt(FragmentStep(acc, f, env), env)
  {
    var cheer := CheerOf(f, env);
    if cheer.Some? {
      AppendWellBuilt(acc, MessagePart(f.text, None, cheer, false, None), [], env);
    } else if f.emoteId.Some? {
      AppendWellBuilt(acc, MessagePart(f.text, Some(TwitchEmote(f.emoteId.value)), None, false, None), [], env);
    } else {
      WordsStepWellBuilt(acc, WordSplit(f.text), env);
    }
  }

  /**
   * Over a whole message: an emote that carries flags carries exactly the
   * flags of the modifier words since the previous emote or cheer, no
   * hidden table emote is ever emitted as an emote, and only modifier words
   * are skipped.
   */
  lemma {:induction false} MessagePartsWellBuilt(fragments: seq<Fragment>, env: RenderEnv)
    ensures WellBuilt(FragmentsStep(Acc([], []), fragments, env), env)
    decreases |fragments|
  {
    if fragments != [] {
      MessagePartsWellBuilt(fragments[..|fragments| - 1], env);
      FragmentStepWellBuilt(FragmentsStep(Acc([], []), fragments[..|fragments| - 1], env), fragments[|fragments| - 1], env);
    }
  }

  /** A cheermote fragment with a qualifying tier adds exactly one part, carrying that tier and the fragment's bits, and clears the pending flags. */
  lemma CheerFragmentPart(acc: Acc, f: Fragment, env: RenderEnv)
    requires f.kind == CheermoteFragment && f.cheermote.Some?
    requires LastQualifying(Values(env.chatCheers), f.cheermote.value.prefix, f.cheermote.value.bits).Some?
    ensures var r := FragmentStep(acc, f, env);
      |r.parts| == |acc.parts| + 1 && r.parts[..|acc.parts|] == acc.parts && r.pending == [] &&
      var p := r.parts[|acc.parts|];
      p.text == f.text && p.emote.None? && p.cheer.Some? && p.cheer.value.bits == f.cheermote.value.bits &&
      CheerQualifies(p.cheer.value.cheer, f.cheermote.value.prefix, f.cheermote.value.bits) &&
      p.cheer.value.cheer in Values(env.chatCheers)
  {
    var r := FragmentStep(acc, f, env);
    assert r.parts[..|acc.parts|] == acc.parts;
  }

  /** A fragment with an emote and no qualifying cheer adds one Twitch emote part at the CDN address of its id. */
  lemma EmoteFragmentPart(acc: Acc, f: Fragment, env: RenderEnv)
    requires CheerOf(f, env).None? && f.emoteId.Some?
    ensures var r := FragmentStep(acc, f, env);
      |r.parts| == |acc.parts| + 1 && r.parts[..|acc.parts|] == acc.parts && r.pending == [] &&
      var p := r.parts[|acc.parts|];
      p.text == f.text && p.emote.Some? && p.cheer.None? && !p.skip &&
      p.emote.value.origin == Twitch && p.emote.value.id == f.emoteId.value &&
      p.emote.value.src == "https://static-cdn.jtvnw.net/emoticons/v2/" + f.emoteId.value + "/default/dark/3.0"
  {
    var r := FragmentStep(acc, f, env);
    assert r.parts[..|acc.parts|] == acc.parts;
  }

  /** A BetterTTV modifier word adds one skipped part and appends its flag to the pending list. */
  lemma ModifierWordPart(acc: Acc, word: string, env: RenderEnv)
    requires word in env.bttvModifiers
    ensures var r := WordStep(acc, word, env);
      r.parts == acc.parts + [MessagePart(word, None, None, true, None)] &&
      r.pending == acc.pending + [env.bttvModifiers[word]]
  {
  }

  /** A visible table emote takes a copy of the pending flags and empties the list. */
  lemma TableEmoteWordPart(acc: Acc, word: string, env: RenderEnv)
    requires word !in env.bttvModifiers
    requires Get(env.chatEmotes, word).Some? && !Get(env.chatEmotes, word).value.hidden
    ensures var r := WordStep(acc, word, env);
      r.parts == acc.parts + [MessagePart(word, Some(env.chatEmotes.entries[word]), None, false, Some(acc.pending))] &&
      r.pending == []
  {
  }

  /** A hidden table emote is treated as text: its pieces are emitted, none of them as that emote. */
  lemma HiddenEmoteWord(acc: Acc, word: string, env: RenderEnv)
    requires WellBuilt(acc, env)
    requires word !in env.bttvModifiers
    requires Get(env.chatEmotes, word).Some? && Get(env.chatEmotes, word).value.hidden
    ensures var r := WordStep(acc, word, env);
      r == PiecesStep(acc, env.unicodeSplit(word), env) &&
      forall i :: |acc.parts| <= i < |r.parts| ==> r.parts[i].emote != Some(env.chatEmotes.entries[word])
  {
    PiecesStepWellBuilt(acc, env.unicodeSplit(word), env);
  }

  /** The builder: the parts pushed so far and the pending BetterTTV flags. */
  class PartsBuilder {
    const env: RenderEnv
    var parts: seq<MessagePart>
    var pending: seq<string>

    function State(): Acc
      reads this
    {
      Acc(parts, pending)
    }

    constructor (env: RenderEnv)
      ensures this.env == env && parts == [] && pending == []
    {
      this.env := env;
      parts := [];
      pending := [];
    }

    /** One piece of the Unicode split of a word. */
    method AddPiece(piece: string)
      modifies this
      ensures State() == PieceStep(old(State()), piece, env)
    {
      var src := env.emojiSrc(piece);
      if src != "" {
        parts := parts + [MessagePart(piece, Some(EmojiEmote(piece, src)), None, false, Some(pending))];
        pending := [];
      } else {
        parts := parts + [MessagePart(piece, None, None, false, None)];
      }
    }

    /** One word of a text fragment. */
    method AddWord(word: string)
      modifies this
      ensures State() == WordStep(old(State()), word, env)
    {
      if word in env.bttvModifiers {
        parts := parts + [MessagePart(word, None, None, true, None)];
        pending := pending + [env.bttvModifiers[word]];
        return;
      }
      var e := Get(env.chatEmotes, word);
      if e.Some? && !e.value.hidden {
        parts := parts + [MessagePart(word, e, None, false, Some(pending))];
        pending := [];
        return;
      }
      var pieces := env.unicodeSplit(word);
      ghost var start := State();
      for i := 0 to |pieces|
        invariant State() == PiecesStep(start, pieces[..i], env)
      {
        assert pieces[..i + 1][..i] == pieces[..i];
        AddPiece(pieces[i]);
      }
      assert pieces[..|pieces|] == pieces;
    }

    /** One fragment of the message. */
    method AddFragment(f: Fragment)
      modifies this
      ensures State() == FragmentStep(old(State()), f, env)
    {
      if f.kind == CheermoteFragment && f.cheermote.Some? {
        var found := FindChatCheer(env.chatCheers, f.cheermote.value.prefix, f.cheermote.value.bits);
        if found.Some? {
          parts := parts + [MessagePart(f.text, None, Some(CheerWithBits(found.value, f.cheermote.value.bits)), false, None)];
          pending := [];
          return;
        }
      }
      if f.emoteId.Some? {
        parts := parts + [MessagePart(f.text, Some(TwitchEmote(f.emoteId.value)), None, false, None)];
        pending := [];
        return;
      }
      var words := WordSplit(f.text);
      ghost var start := State();
      for i := 0 to |words|
        invariant State() == WordsStep(start, words[..i], env)
      {
        assert words[..i + 1][..i] == words[..i];
        AddWord(words[i]);
      }
      assert words[..|words|] == words;
    }
  }

  /** `fragments.forEach(...)` into `messageParts`. */
  method BuildMessageParts(fragments: seq<Fragment>, env: RenderEnv) returns (parts: seq<MessagePart>)
    ensures parts == MessageParts(fragments, env)
  {
    var builder := new PartsBuilder(env);
    for i := 0 to |fragments|
      invariant builder.env == env
      invariant builder.State() == FragmentsStep(Acc([], []), fragments[..i], env)
    {
      assert fragments[..i + 1][..i] == fragments[..i];
      builder.AddFragment(fragments[i]);
    }
    assert fragments[..|fragments|] == fragments;
    parts := builder.parts;
  }

  // ---------------------------------------------------------------------
  // Rendering
  // ---------------------------------------------------------------------

  /** The decoded modifier flags of an emote: 7TV and FrankerFaceZ bits have decoders, other origins none. */
  function ParsedFlags(e: ChatEmote, env: RenderEnv): seq<string> {
    if e.origin == SevenTV then env.sevenTVFlags(e.modifierFlags)
    else if e.origin == FrankerFaceZ then env.frankerFaceZFlags(e.modifierFlags)
    else []
  }

  /** A part that modifies the emote before it: an emote with modifier bits that decode to some flag. */
  predicate IsModifier(p: MessagePart, env: RenderEnv) {
    p.emote.Some? && p.emote.value.modifierFlags > 0 && ParsedFlags(p.emote.value, env) != []
  }

  /** `flags.filter((flag) => flag !== 'hidden')`. */
  function WithoutHidden(flags: seq<string>): (r: seq<string>)
    ensures forall f :: f in r <==> f in flags && f != "hidden"
  {
    if flags == [] then []
    else (if flags[0] == "hidden" then [] else [flags[0]]) + WithoutHidden(flags[1..])
  }

  /** What the lookahead from one index gathers: the indices it marks, the flags and the zero-width overlays. */
  datatype Lookahead = Lookahead(marked: seq<nat>, flags: seq<string>, zeroWidth: seq<ChatEmote>)

  /**
   * The lookahead from index `k`: single spaces are passed over; it stops
   * at the end or at a part that is not a modifier emote; each modifier
   * emote is marked, gives its flags except `hidden`, and is an overlay if
   * it is a 7TV `zerowidth` emote.
   */
  function LookFrom(parts: seq<MessagePart>, k: nat, env: RenderEnv): (r: Lookahead)
    decreases |parts| - k
  {
    if k >= |parts| then Lookahead([], [], [])
    else if parts[k].text == " " then LookFrom(parts, k + 1, env)
    else if IsModifier(parts[k], env) then
      var rest := LookFrom(parts, k + 1, env);
      var e := parts[k].emote.value;
      var flags := ParsedFlags(e, env);
      Lookahead([k] + rest.marked, WithoutHidden(flags) + rest.flags,
                (if e.origin == SevenTV && "zerowidth" in flags then [e] else []) + rest.zeroWidth)
    else Lookahead([], [], [])
  }

  /** The lookahead marks only later modifier emotes, drops every `hidden` flag, and keeps only 7TV zero-width overlays. */
  lemma {:induction false} LookFromShape(parts: seq<MessagePart>, k: nat, env: RenderEnv)
    ensures var r := LookFrom(parts, k, env);
      (forall m :: m in r.marked ==> k <= m < |parts| && IsModifier(parts[m], env)) &&
      (forall f :: f in r.flags ==> f != "hidden") &&
      (forall e :: e in r.zeroWidth ==> e.origin == SevenTV && "zerowidth" in ParsedFlags(e, env))
    decreases |parts| - k
  {
    if k < |parts| && (parts[k].text == " " || IsModifier(parts[k], env)) {
      LookFromShape(parts, k + 1, env);
    }
  }

  /** `messageParts[i].skip = true` for every marked index. */
  function Mark(parts: seq<MessagePart>, marked: seq<nat>): (r: seq<MessagePart>)
    ensures |r| == |parts|
  {
    seq(|parts|, i requires 0 <= i < |parts| => if i in marked then parts[i].(skip := true) else parts[i])
  }

  /** Marking one more index is one array update. */
  lemma MarkOne(parts: seq<MessagePart>, marked: seq<nat>, k: nat)
    requires k < |parts|
    ensures Mark(parts, marked + [k]) == Mark(parts, marked)[k := parts[k].(skip := true)]
  {
  }

  /** A single space is passed over. */
  lemma LookFromSpace(parts: seq<MessagePart>, k: nat, env: RenderEnv)
    requires k < |parts| && parts[k].text == " "
    ensures LookFrom(parts, k, env) == LookFrom(parts, k + 1, env)
  {
  }

  /** One lookahead followed by another. */
  function Then(x: Lookahead, y: Lookahead): Lookahead {
    Lookahead(x.marked + y.marked, x.flags + y.flags, x.zeroWidth + y.zeroWidth)
  }

  lemma ThenAssoc(x: Lookahead, y: Lookahead, z: Lookahead)
    ensures Then(Then(x, y), z) == Then(x, Then(y, z))
  {
    assert (x.marked + y.marked) + z.marked == x.marked + (y.marked + z.marked);
    assert (x.flags + y.flags) + z.flags == x.flags + (y.flags + z.flags);
    assert (x.zeroWidth + y.zeroWidth) + z.zeroWidth == x.zeroWidth + (y.zeroWidth + z.zeroWidth);
  }

  /** What the modifier emote at `k` contributes on its own. */
  function Absorbed(e: ChatEmote, k: nat, env: RenderEnv): Lookahead {
    var flags := ParsedFlags(e, env);
    Lookahead([k], WithoutHidden(flags), if e.origin == SevenTV && "zerowidth" in flags then [e] else [])
  }

  /** A modifier emote at `k` is marked and passed over. */
  lemma LookFromModifier(parts: seq<MessagePart>, k: nat, env: RenderEnv)
    requires k < |parts| && parts[k].text != " " && IsModifier(parts[k], env)
    ensures LookFrom(parts, k, env) == Then(Absorbed(parts[k].emote.value, k, env), LookFrom(parts, k + 1, env))
  {
  }

  /** Passing over the modifier emote at `k` moves its contribution into what has been absorbed so far. */
  lemma AbsorbOne(parts: seq<MessagePart>, sofar: Lookahead, k: nat, env: RenderEnv)
    requires k < |parts| && parts[k].text != " " && IsModifier(parts[k], env)
    ensures Then(sofar, LookFrom(parts, k, env)) ==
      Then(Then(sofar, Absorbed(parts[k].emote.value, k, env)), LookFrom(parts, k + 1, env))
  {
    LookFromModifier(parts, k, env);
    ThenAssoc(sofar, Absorbed(parts[k].emote.value, k, env), LookFrom(parts, k + 1, env));
  }

  /**
   * The lookahead loop after the emote at `index`: it marks the modifier
   * emotes that follow in the array and returns their flags and overlays.
   */
  method AbsorbModifiers(a: array<MessagePart>, index: nat, env: RenderEnv) returns (flags: seq<string>, zeroWidth: seq<ChatEmote>)
    requires index < a.Length
    modifies a
    ensures var look := LookFrom(old(a[..]), index + 1, env);
      a[..] == Mark(old(a[..]), look.marked) && flags == look.flags && zeroWidth == look.zeroWidth
  {
    ghost var orig := a[..];
    ghost var look := LookFrom(orig, index + 1, env);
    ghost var sofar := Lookahead([], [], []);
    flags := [];
    zeroWidth := [];
    var next := index + 1;
    assert look == Then(sofar, look);
    while next < a.Length
      invariant index + 1 <= next <= a.Length && a.Length == |orig|
      invariant forall m :: m in sofar.marked ==> m < next
      invariant a[..] == Mark(orig, sofar.marked)
      invariant flags == sofar.flags && zeroWidth == sofar.zeroWidth
      invariant look == Then(sofar, LookFrom(orig, next, env))
      decreases a.Length - next
    {
      var part := a[next];
      assert part == orig[next];
      if part.text == " " {
        LookFromSpace(orig, next, env);
        next := next + 1;
      } else if IsModifier(part, env) {
        ghost var before := a[..];
        var own := MarkModifier(a, next, env);
        AbsorbKeepsInvariant(orig, sofar, next, env, before, look, a[..], own);
        sofar := Then(sofar, own);
        flags := flags + own.flags;
        zeroWidth := zeroWidth + own.zeroWidth;
        next := next + 1;
      } else {
        break;
      }
    }
    assert LookFrom(orig, next, env) == Lookahead([], [], []);
    assert sofar.marked + [] == sofar.marked && flags + [] == flags && zeroWidth + [] == zeroWidth;
  }

  /** One pass of the lookahead over a modifier emote: it is marked, and its flags and overlay are returned. */
  method MarkModifier(a: array<MessagePart>, k: nat, env: RenderEnv) returns (own: Lookahead)
    requires k < a.Length && IsModifier(a[k], env)
    modifies a
    ensures a[..] == old(a[..])[k := old(a[k]).(skip := true)]
    ensures own == Absorbed(old(a[k]).emote.value, k, env)
  {
    var e := a[k].emote.value;
    var parsed := ParsedFlags(e, env);
    a[k] := a[k].(skip := true);
    own := Lookahead([k], WithoutHidden(parsed), if e.origin == SevenTV && "zerowidth" in parsed then [e] else []);
  }

  /** Absorbing the modifier at `k` keeps the loop's invariant, one index further on. */
  lemma AbsorbKeepsInvariant(orig: seq<MessagePart>, sofar: Lookahead, k: nat, env: RenderEnv,
                             before: seq<MessagePart>, look: Lookahead, after: seq<MessagePart>, own: Lookahead)
    requires k < |orig| && orig[k].text != " " && IsModifier(orig[k], env)
    requires forall m :: m in sofar.marked ==> m < k
    requires before == Mark(orig, sofar.marked)
    requires look == Then(sofar, LookFrom(orig, k, env))
    requires after == before[k := before[k].(skip := true)]
    requires own == Absorbed(before[k].emote.value, k, env)
    ensures forall m :: m in Then(sofar, own).marked ==> m < k + 1
    ensures after == Mark(orig, Then(sofar, own).marked)
    ensures look == Then(Then(sofar, own), LookFrom(orig, k + 1, env))
  {
    assert before[k] == orig[k];
    AbsorbOne(orig, sofar, k, env);
    MarkOne(orig, sofar.marked, k);
  }

  /** What one part renders as; `modifierClasses` are the `chat-emote--` suffixes. */
  datatype Rendered =
    | CheerImage(url: string, alt: string, color: string, amount: nat)
    | Nothing
    | PlainText(text: string)
    | EmoteImage(emote: ChatEmote, alt: string, modifierClasses: seq<string>, width: Option<int>, zeroWidth: seq<ChatEmote>)

  /** `Number(match.replace(/\D/g, ''))`: the number the digits of the text form (0 when there are none). */
  function CheerAmount(text: string): nat {
    DigitsValue(DigitsOf(text))
  }

  /** A cheermote's text is its prefix followed by its bits: the amount shown is the bits. */
  lemma CheerAmountOfCheermote(prefix: string, bits: nat)
    requires forall i :: 0 <= i < |prefix| ==> !IsDigit(prefix[i])
    ensures CheerAmount(prefix + NatToString(bits)) == bits
  {
    DigitsOfAppend(prefix, NatToString(bits));
    DigitsOfNoDigits(prefix);
    DigitsOfAllDigits(NatToString(bits));
    assert [] + NatToString(bits) == NatToString(bits);
    DigitsValueOfNatToString(bits);
  }

  /** The `growx` width: the emote's width, 108 when it has none (or 0), at most 112. */
  function GrowWidth(e: ChatEmote): (w: int)
    ensures w <= 112
    ensures e.width.Some? && e.width.value != 0 && e.width.value <= 112 ==> w == e.width.value
    ensures e.width.Some? && e.width.value > 112 ==> w == 112
    ensures (e.width.None? || e.width.value == 0) ==> w == 108
  {
    var base := if e.width.Some? && e.width.value != 0 then e.width.value else 36 * 3;
    if base > 112 then 112 else base
  }

  /** The width attribute: only emotes with the `growx` class get one. */
  function WidthOf(e: ChatEmote, classes: seq<string>): Option<int> {
    if "growx" in classes then Some(GrowWidth(e)) else None
  }

  /**
   * Rendering the part at index `i` of the current parts, and the parts
   * afterwards: only an emote's lookahead changes them, and it only marks
   * later modifier emotes.
   */
  function RenderOne(parts: seq<MessagePart>, i: nat, env: RenderEnv): (r: (Rendered, seq<MessagePart>))
    requires i < |parts|
    ensures |r.1| == |parts|
    ensures forall j :: 0 <= j <= i ==> r.1[j] == parts[j]
    ensures forall j :: i < j < |parts| ==> r.1[j] == parts[j] || (r.1[j] == parts[j].(skip := true) && IsModifier(parts[j], env))
    ensures r.0.EmoteImage? && r.0.width.Some? ==> r.0.width.value <= 112 && "growx" in r.0.modifierClasses
  {
    var p := parts[i];
    if p.cheer.Some? then (CheerImage(p.cheer.value.cheer.url, p.text, p.cheer.value.cheer.color, CheerAmount(p.text)), parts)
    else if p.skip then (Nothing, parts)
    else if p.emote.None? || p.emote.value.src == "" then (PlainText(p.text), parts)
    else
      var look := LookFrom(parts, i + 1, env);
      LookFromShape(parts, i + 1, env);
      var classes := p.modifierFlags.GetOr([]) + look.flags;
      (EmoteImage(p.emote.value, p.text, classes, WidthOf(p.emote.value, classes), look.zeroWidth), Mark(parts, look.marked))
  }

  /** The first `n` parts rendered in order, each against the parts as the earlier ones left them. */
  function RenderUpTo(parts: seq<MessagePart>, n: nat, env: RenderEnv): (r: (seq<Rendered>, seq<MessagePart>))
    requires n <= |parts|
    ensures |r.0| == n && |r.1| == |parts|
    decreases n
  {
    if n == 0 then ([], parts)
    else
      var prev := RenderUpTo(parts, n - 1, env);
      var step := RenderOne(prev.1, n - 1, env);
      (prev.0 + [step.0], step.1)
  }

  /** `messageParts.map(...)`: every part rendered, the lookahead marking parts in the array as it goes. */
  method RenderParts(a: array<MessagePart>, env: RenderEnv) returns (out: seq<Rendered>)
    modifies a
    ensures (out, a[..]) == RenderUpTo(old(a[..]), a.Length, env)
  {
    ghost var orig := a[..];
    out := [];
    for i := 0 to a.Length
      invariant (out, a[..]) == RenderUpTo(orig, i, env)
    {
      var p := a[i];
      if p.cheer.Some? {
        out := out + [CheerImage(p.cheer.value.cheer.url, p.text, p.cheer.value.cheer.color, CheerAmount(p.text))];
      } else if p.skip {
        out := out + [Nothing];
      } else if p.emote.None? || p.emote.value.src == "" {
        out := out + [PlainText(p.text)];
      } else {
        var flags, zeroWidth := AbsorbModifiers(a, i, env);
        var classes := p.modifierFlags.GetOr([]) + flags;
        out := out + [EmoteImage(p.emote.value, p.text, classes, WidthOf(p.emote.value, classes), zeroWidth)];
      }
    }
  }

  /** A modifier emote absorbed by the emote before it is not rendered again on its own. */
  lemma AbsorbedIsNotRendered(parts: seq<MessagePart>, i: nat, j: nat, env: RenderEnv)
    requires i < j < |parts| && parts[j].cheer.None? && !parts[j].skip
    requires RenderOne(parts, i, env).1[j] != parts[j]
    ensures RenderOne(RenderOne(parts, i, env).1, j, env).0 == Nothing
  {
  }

  /** Every part is rendered once, in order; the lookahead never changes a part's text, emote or cheer. */
  lemma {:induction false} RenderKeepsContent(parts: seq<MessagePart>, n: nat, env: RenderEnv)
    requires n <= |parts|
    ensures forall j :: 0 <= j < |parts| ==>
      RenderUpTo(parts, n, env).1[j].text == parts[j].text &&
      RenderUpTo(parts, n, env).1[j].emote == parts[j].emote &&
      RenderUpTo(parts, n, env).1[j].cheer == parts[j].cheer &&
      RenderUpTo(parts, n, env).1[j].modifierFlags == parts[j].modifierFlags
    decreases n
  {
    if n > 0 {
      RenderKeepsContent(parts, n - 1, env);
    }
  }
}
