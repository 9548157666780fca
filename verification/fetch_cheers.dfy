/**
 * The cheer catalogue: the Helix cheermotes response is turned into one
 * table entry per tier, keyed by the cheermote's prefix followed by the
 * tier's minimum bits, and merged into the shared cheer table in one call.
 */
module FetchCheers {
  import opened Wrappers
  import opened Json
  import opened Strings
  import opened OrderedRecord
  import opened ChatTypes
  import opened Store
  import opened EventSubscribe
  import opened Helix

  /** A tier of a cheermote; `animatedDark4` is `images.dark.animated["4"]`. */
  datatype CheerTier = CheerTier(minBits: nat, color: string, animatedDark4: string)

  datatype Cheermote = Cheermote(prefix: string, tiers: seq<CheerTier>)

  /** The endpoint: the global list, or the broadcaster's (a missing id is written `null`). */
  function CheersUrl(scope: Scope, broadcasterId: Option<string>): string {
    var global := TwitchHelixUrl + "bits/cheermotes";
    if scope.Global? then global else global + "?broadcaster_id=" + broadcasterId.GetOr("null")
  }

  /** The channel endpoint is the global one with the broadcaster id as its only query parameter. */
  lemma CheersUrlScopes(broadcasterId: Option<string>)
    ensures var global := CheersUrl(Global, broadcasterId);
      var channel := CheersUrl(Channel, broadcasterId);
      |channel| == |global| + 16 + |broadcasterId.GetOr("null")| &&
      channel[..|global|] == global &&
      channel[|global|..|global| + 16] == "?broadcaster_id=" &&
      channel[|global| + 16..] == broadcasterId.GetOr("null")
    ensures CheersUrl(Global, broadcasterId) == CheersUrl(Global, None)
  {
    var global := CheersUrl(Global, broadcasterId);
    var channel := CheersUrl(Channel, broadcasterId);
    assert channel == global + "?broadcaster_id=" + broadcasterId.GetOr("null");
  }

  /** The key of a tier: the prefix, then the minimum bits in decimal. */
  function CheerName(prefix: string, minBits: nat): string {
    prefix + NatToString(minBits)
  }

  /** The key ends in the tier's bits and starts with the prefix: both can be read back from it. */
  lemma CheerNameParts(prefix: string, minBits: nat)
    ensures CheerName(prefix, minBits)[..|prefix|] == prefix
    ensures var digits := CheerName(prefix, minBits)[|prefix|..];
      AllDigits(digits) && DigitsValue(digits) == minBits
  {
    var name := CheerName(prefix, minBits);
    assert name[|prefix|..] == NatToString(minBits);
    DigitsValueOfNatToString(minBits);
  }

  /** The record one tier yields, prefix included. */
  function CheerEntry(c: Cheermote, t: CheerTier): (r: (string, ChatCheer))
    ensures r.0 == r.1.name == CheerName(c.prefix, t.minBits)
    ensures r.1.prefix == c.prefix && r.1.minBits == t.minBits
    ensures r.1.color == t.color && r.1.url == t.animatedDark4
  {
    var name := CheerName(c.prefix, t.minBits);
    (name, ChatCheer(name, c.prefix, t.animatedDark4, t.color, t.minBits))
  }

  function TierEntries(c: Cheermote): (r: seq<(string, ChatCheer)>)
    ensures |r| == |c.tiers|
    ensures forall j :: 0 <= j < |r| ==> r[j] == CheerEntry(c, c.tiers[j])
  {
    seq(|c.tiers|, j requires 0 <= j < |c.tiers| => CheerEntry(c, c.tiers[j]))
  }

  /** Every tier of every cheermote, cheermote by cheermote. */
  function CheerEntries(cheers: seq<Cheermote>): seq<(string, ChatCheer)>
    decreases |cheers|
  {
    if cheers == [] then [] else CheerEntries(cheers[..|cheers| - 1]) + TierEntries(cheers[|cheers| - 1])
  }

  /** Each tier of each cheermote contributes an entry under its own key, carrying its prefix and bits. */
  lemma {:induction false} CheerEntriesCover(cheers: seq<Cheermote>, i: nat, j: nat)
    requires i < |cheers| && j < |cheers[i].tiers|
    ensures CheerEntry(cheers[i], cheers[i].tiers[j]) in CheerEntries(cheers)
    decreases |cheers|
  {
    var init := cheers[..|cheers| - 1];
    if i < |cheers| - 1 {
      CheerEntriesCover(init, i, j);
    } else {
      assert TierEntries(cheers[i])[j] == CheerEntry(cheers[i], cheers[i].tiers[j]);
    }
  }

  /** Every entry comes from some tier of some cheermote. */
  lemma {:induction false} CheerEntriesSound(cheers: seq<Cheermote>)
    ensures forall p :: p in CheerEntries(cheers) ==>
      exists i, j :: 0 <= i < |cheers| && 0 <= j < |cheers[i].tiers| && p == CheerEntry(cheers[i], cheers[i].tiers[j])
    decreases |cheers|
  {
    if cheers != [] {
      var init := cheers[..|cheers| - 1];
      CheerEntriesSound(init);
      forall p | p in CheerEntries(cheers)
        ensures exists i, j :: 0 <= i < |cheers| && 0 <= j < |cheers[i].tiers| && p == CheerEntry(cheers[i], cheers[i].tiers[j])
      {
        if p in CheerEntries(init) {
          var i, j :| 0 <= i < |init| && 0 <= j < |init[i].tiers| && p == CheerEntry(init[i], init[i].tiers[j]);
          assert init[i] == cheers[i];
        } else {
          var j :| 0 <= j < |TierEntries(cheers[|cheers| - 1])| && TierEntries(cheers[|cheers| - 1])[j] == p;
          assert p == CheerEntry(cheers[|cheers| - 1], cheers[|cheers| - 1].tiers[j]);
        }
      }
    }
  }

  /** `cheer.tiers.forEach(...)`: one assignment per tier, in order. */
  method PutTiers(t: Table<ChatCheer>, cheer: Cheermote) returns (r: Table<ChatCheer>)
    ensures r == PutEach(t, TierEntries(cheer))
  {
    ghost var entries := TierEntries(cheer);
    r := t;
    for j := 0 to |cheer.tiers|
      invariant r == PutEach(t, entries[..j])
    {
      var entry := CheerEntry(cheer, cheer.tiers[j]);
      PutTierStep(t, cheer, j);
      r := Put(r, entry.0, entry.1);
    }
    assert entries[..|cheer.tiers|] == entries;
  }

  /** Putting the entries of the first `j + 1` tiers is putting those of the first `j`, then that of tier `j`. */
  lemma PutTierStep(t: Table<ChatCheer>, cheer: Cheermote, j: nat)
    requires j < |cheer.tiers|
    ensures var entries := TierEntries(cheer); var entry := CheerEntry(cheer, cheer.tiers[j]);
      PutEach(t, entries[..j + 1]) == Put(PutEach(t, entries[..j]), entry.0, entry.1)
  {
    var entries := TierEntries(cheer);
    var entry := CheerEntry(cheer, cheer.tiers[j]);
    assert entries[..j + 1] == entries[..j] + [(entry.0, entry.1)];
    PutEachSnoc(t, entries[..j], entry.0, entry.1);
  }

  /** `saveCheers`: build the table tier by tier, then merge it into the store once, if there is anything. */
  method SaveCheers(store: ChatStore, cheers: seq<Cheermote>)
    modifies store`chatCheers
    ensures cheers == [] ==> store.chatCheers == old(store.chatCheers)
    ensures cheers != [] ==> store.chatCheers == Merge(old(store.chatCheers), PutEach(Empty(), CheerEntries(cheers)))
  {
    if |cheers| == 0 {
      return;
    }
    var chatCheers: Table<ChatCheer> := Empty();
    for i := 0 to |cheers|
      invariant chatCheers == PutEach(Empty(), CheerEntries(cheers[..i]))
      invariant store.chatCheers == old(store.chatCheers)
    {
      assert cheers[..i + 1][..i] == cheers[..i];
      PutEachAppend(Empty(), CheerEntries(cheers[..i]), TierEntries(cheers[i]));
      chatCheers := PutTiers(chatCheers, cheers[i]);
    }
    assert cheers[..|cheers|] == cheers;
    assert chatCheers == PutEach(Empty(), CheerEntries(cheers));
    store.SetChatCheers(chatCheers);
  }

  /**
   * `fetchCheers(type)`. The token is read with `getAccessToken`, which
   * throws when it is unset: the error is caught and nothing is sent or
   * saved. `response` is the parsed `data` array, `None` when the request,
   * the JSON or its validation failed; an empty array saves nothing.
   */
  method FetchCheers(store: ChatStore, persisted: PersistedStore, scope: Scope, response: Option<seq<Cheermote>>)
    returns (request: Option<Request>)
    modifies store`chatCheers
    ensures request.Some? <==> persisted.accessToken != ""
    ensures request.Some? ==>
      request.value == HelixGet(CheersUrl(scope, store.broadcasterId), store.clientId, persisted.accessToken)
    ensures store.chatCheers ==
      if request.Some? && response.Some? && response.value != [] then Merge(old(store.chatCheers), PutEach(Empty(), CheerEntries(response.value)))
      else old(store.chatCheers)
  {
    var url := CheersUrl(scope, store.broadcasterId);
    var token := persisted.GetAccessToken();
    if token.Failure? {
      return None;
    }
    request := Some(HelixGet(url, store.clientId, token.value));
    if response.Some? && |response.value| > 0 {
      SaveCheers(store, response.value);
    }
  }

  /**
   * After a save, every tier is in the table under its key unless a later
   * tier has the same key; what the key holds is always some saved tier's
   * record with that name.
   */
  lemma SavedCheerLookup(stored: Table<ChatCheer>, cheers: seq<Cheermote>, key: string)
    ensures var saved := Merge(stored, PutEach(Empty(), CheerEntries(cheers)));
      Get(saved, key) == Override(LastValue(CheerEntries(cheers), key), Get(stored, key))
  {
    var u := PutEach(Empty(), CheerEntries(cheers));
    PutEachAt(Empty(), CheerEntries(cheers), key);
    MergeSemantics(stored, u);
  }

  // ---------------------------------------------------------------------
  // The record as the source writes it
  // ---------------------------------------------------------------------

  /** The record `saveCheers` writes: it has no `prefix` field. */
  datatype ChatCheerAsWritten = ChatCheerAsWritten(name: string, url: string, color: string, minBits: int)

  function CheerEntryAsWritten(c: Cheermote, t: CheerTier): (string, ChatCheerAsWritten) {
    var name := CheerName(c.prefix, t.minBits);
    (name, ChatCheerAsWritten(name, t.animatedDark4, t.color, t.minBits))
  }

  /** How `findChatCheer` ends over a list of records. */
  datatype Lookup<T> = Found(cheer: T) | NotFound | TypeError

  /**
   * `findChatCheer` over the records as written: `cheer.prefix` is
   * `undefined`, so `cheer.prefix.toLowerCase()` throws on the first record.
   */
  function FindChatCheerAsWritten(cheers: seq<ChatCheerAsWritten>, prefix: string, bits: int): Lookup<ChatCheerAsWritten> {
    if cheers == [] then NotFound else TypeError
  }

  /** Once any cheer has been saved as written, rendering any cheermote throws. */
  lemma FindChatCheerAsWrittenThrows(c: Cheermote, t: CheerTier, bits: int)
    ensures var table := Put(Empty(), CheerEntryAsWritten(c, t).0, CheerEntryAsWritten(c, t).1);
      FindChatCheerAsWritten(Values(table), c.prefix, bits) == TypeError
  {
    var table := Put(Empty(), CheerEntryAsWritten(c, t).0, CheerEntryAsWritten(c, t).1);
    assert |Values(table)| == 1;
  }
}
