/**
 * Loading the third-party emote catalogues into the shared emote table.
 * Each provider's emotes are normalised into `ChatEmote` records and merged
 * in one at a time, so a later emote with the same name replaces an earlier
 * one. The providers run in the order 7TV, BetterTTV, FrankerFaceZ, each
 * only when enabled. The HTTP fetchers are parameters: their answers are
 * given as optional values (and, for the per-set and per-emote 7TV calls,
 * as functions of the id asked for).
 */
module LoadEmotes {
  import opened Wrappers
  import opened Strings
  import opened OrderedRecord
  import opened ChatTypes
  import opened Store

  // ---------------------------------------------------------------------
  // Provider records
  // ---------------------------------------------------------------------

  datatype BttvEmote = BttvEmote(id: string, code: string, imageType: string)

  datatype BttvUser = BttvUser(sharedEmotes: seq<BttvEmote>)

  /** An FFZ emoticon; `url1` is `urls['1']`, the id is numeric. */
  datatype FfzEmote = FfzEmote(
    id: nat, name: string, url1: string, width: int, height: int,
    modifier: bool, hidden: bool, modifierFlags: int)

  /** An FFZ set; `emoticons` may be missing, which reads as no emoticons. */
  datatype FfzSet = FfzSet(emoticons: Option<seq<FfzEmote>>)

  /** `/v1/set/global`: the default set ids and the sets, keyed by id. */
  datatype FfzGlobal = FfzGlobal(defaultSets: seq<string>, sets: Option<Table<FfzSet>>)

  /** `/v1/room/id/{id}`: the room's sets, keyed by id. */
  datatype FfzRoom = FfzRoom(sets: Option<Table<FfzSet>>)

  datatype SevenTVFile = SevenTVFile(name: string, width: int, height: int)

  datatype SevenTVHost = SevenTVHost(url: string, files: seq<SevenTVFile>)

  datatype SevenTVEmoteData = SevenTVEmoteData(id: string, name: string, flags: int, host: SevenTVHost)

  /** An emote of a 7TV set: its name in the set, and the emote it refers to. */
  datatype SevenTVEmote = SevenTVEmote(id: string, name: string, data: SevenTVEmoteData)

  const BetterTTVCdn: string := "https://cdn.betterttv.net/emote/"

  /** Every entry is stored under its own name. */
  predicate KeyedByName(t: Table<ChatEmote>) {
    forall k :: k in t.entries ==> t.entries[k].name == k
  }

  predicate KeyedByNamePairs(pairs: seq<(string, ChatEmote)>) {
    forall i :: 0 <= i < |pairs| ==> pairs[i].1.name == pairs[i].0
  }

  // ---------------------------------------------------------------------
  // BetterTTV
  // ---------------------------------------------------------------------

  /** The entry `addBetterTTVEmote` merges in: keyed by the code, the 2x image from the CDN, no size, no modifier. */
  function BetterTTVEntry(e: BttvEmote): (r: (string, ChatEmote))
    ensures r.0 == e.code && r.1.name == r.0 && r.1.id == e.id && r.1.origin == BetterTTV
    ensures r.1.src == BetterTTVCdn + e.id + "/2x." + e.imageType
    ensures r.1.width.None? && r.1.height.None? && r.1.srcSet.None?
    ensures !r.1.modifier && !r.1.hidden && r.1.modifierFlags == 0
  {
    (e.code, ChatEmote(BetterTTV, BetterTTVCdn + e.id + "/2x." + e.imageType, None, None, None, false, false, 0, e.id, e.code))
  }

  function BetterTTVEntries(emotes: seq<BttvEmote>): (r: seq<(string, ChatEmote)>)
    ensures |r| == |emotes| && KeyedByNamePairs(r)
    ensures forall i :: 0 <= i < |r| ==> r[i] == BetterTTVEntry(emotes[i])
  {
    seq(|emotes|, i requires 0 <= i < |emotes| => BetterTTVEntry(emotes[i]))
  }

  /** `addBetterTTVEmote`: merge a one-entry record into the shared table. */
  method AddBetterTTVEmote(store: ChatStore, e: BttvEmote)
    modifies store`chatEmotes
    ensures store.chatEmotes == Put(old(store.chatEmotes), e.code, BetterTTVEntry(e).1)
  {
    var entry := BetterTTVEntry(e);
    MergeSingle(store.chatEmotes, entry.0, entry.1);
    store.SetChatEmotes(Single(entry.0, entry.1));
  }

  /** The `forEach(addBetterTTVEmote)` of both BetterTTV loaders. */
  method AddBetterTTVEmotes(store: ChatStore, emotes: seq<BttvEmote>)
    modifies store`chatEmotes
    ensures store.chatEmotes == PutEach(old(store.chatEmotes), BetterTTVEntries(emotes))
  {
    for i := 0 to |emotes|
      invariant store.chatEmotes == PutEach(old(store.chatEmotes), BetterTTVEntries(emotes[..i]))
    {
      assert BetterTTVEntries(emotes[..i + 1])[..i] == BetterTTVEntries(emotes[..i]);
      AddBetterTTVEmote(store, emotes[i]);
    }
    assert emotes[..|emotes|] == emotes;
  }

  function BetterTTVUserEntries(user: Option<BttvUser>): seq<(string, ChatEmote)> {
    if user.Some? then BetterTTVEntries(user.value.sharedEmotes) else []
  }

  function BetterTTVGlobalEntries(global: Option<seq<BttvEmote>>): seq<(string, ChatEmote)> {
    if global.Some? then BetterTTVEntries(global.value) else []
  }

  /** `loadBetterTTVUserEmotes`: the channel's shared emotes, when the user was fetched. */
  method LoadBetterTTVUserEmotes(store: ChatStore, user: Option<BttvUser>)
    modifies store`chatEmotes
    ensures store.chatEmotes == PutEach(old(store.chatEmotes), BetterTTVUserEntries(user))
  {
    if user.Some? {
      AddBetterTTVEmotes(store, user.value.sharedEmotes);
    }
  }

  /** `loadBetterTTVGlobalEmotes`: the global emotes, when they were fetched. */
  method LoadBetterTTVGlobalEmotes(store: ChatStore, global: Option<seq<BttvEmote>>)
    modifies store`chatEmotes
    ensures store.chatEmotes == PutEach(old(store.chatEmotes), BetterTTVGlobalEntries(global))
  {
    if global.Some? {
      AddBetterTTVEmotes(store, global.value);
    }
  }

  /**
   * `removeBetterTTVEmote` as written: it looks the id up in a record it has
   * just created empty, finds nothing and returns; the delete, had it been
   * reached, would also have applied to that local record. The shared table
   * is what it was.
   */
  function RemoveBetterTTVEmoteAsWritten(emotes: Table<ChatEmote>, emoteId: string): Table<ChatEmote> {
    var local: Table<ChatEmote> := Empty();
    if exists k :: k in local.entries && local.entries[k].id == emoteId then emotes else emotes
  }

  /** An emote that is in the table under any name survives the as-written removal of its id. */
  lemma RemoveBetterTTVEmoteAsWrittenKeeps(emotes: Table<ChatEmote>, emoteId: string, name: string)
    requires name in emotes.entries && emotes.entries[name].id == emoteId
    ensures name in RemoveBetterTTVEmoteAsWritten(emotes, emoteId).entries
    ensures RemoveBetterTTVEmoteAsWritten(emotes, emoteId).entries[name].id == emoteId
  {
  }

  /** A BetterTTV `emote_delete` for an emote just added leaves it on screen. */
  lemma BetterTTVDeleteIsLost(t: Table<ChatEmote>, e: BttvEmote)
    ensures var after := RemoveBetterTTVEmoteAsWritten(Put(t, e.code, BetterTTVEntry(e).1), e.id);
      Get(after, e.code) == Some(BetterTTVEntry(e).1)
  {
  }

  /**
   * `removeBetterTTVEmote` as intended, on the shared table: every emote with
   * this id is dropped, as the store's removal does; the source's `find` then
   * `delete` would drop only the first name that carries the id.
   */
  method RemoveBetterTTVEmote(store: ChatStore, emoteId: string)
    modifies store`chatEmotes
    ensures store.chatEmotes == WithoutEmote(old(store.chatEmotes), emoteId)
  {
    store.RemoveChatEmote(emoteId);
  }

  /**
   * Removing by id after adding an emote takes out exactly the names whose
   * emote has that id, the new name among them, and keeps every other entry.
   */
  lemma RemoveAfterAddEmote(t: Table<ChatEmote>, name: string, e: ChatEmote)
    ensures var r := WithoutEmote(Put(t, name, e), e.id);
      name !in r.entries &&
      (forall k :: k in r.entries <==> k != name && k in t.entries && t.entries[k].id != e.id) &&
      (forall k :: k in r.entries ==> r.entries[k] == t.entries[k])
  {
  }

  // ---------------------------------------------------------------------
  // FrankerFaceZ
  // ---------------------------------------------------------------------

  /** The entry `addFrankerFaceZEmote` merges in: keyed by name, the 1x image, the emoticon's size and modifier data, the id in decimal. */
  function FrankerFaceZEntry(e: FfzEmote): (r: (string, ChatEmote))
    ensures r.0 == e.name && r.1.name == r.0 && r.1.origin == FrankerFaceZ && r.1.src == e.url1
    ensures r.1.width == Some(e.width) && r.1.height == Some(e.height)
    ensures r.1.modifier == e.modifier && r.1.hidden == e.hidden && r.1.modifierFlags == e.modifierFlags
    ensures AllDigits(r.1.id) && DigitsValue(r.1.id) == e.id
  {
    DigitsValueOfNatToString(e.id);
    (e.name, ChatEmote(FrankerFaceZ, e.url1, None, Some(e.width), Some(e.height), e.modifier, e.hidden, e.modifierFlags,
      NatToString(e.id), e.name))
  }

  function FrankerFaceZEntries(emotes: seq<FfzEmote>): (r: seq<(string, ChatEmote)>)
    ensures |r| == |emotes| && KeyedByNamePairs(r)
    ensures forall i :: 0 <= i < |r| ==> r[i] == FrankerFaceZEntry(emotes[i])
  {
    seq(|emotes|, i requires 0 <= i < |emotes| => FrankerFaceZEntry(emotes[i]))
  }

  /** `addFrankerFaceZEmote`. */
  method AddFrankerFaceZEmote(store: ChatStore, e: FfzEmote)
    modifies store`chatEmotes
    ensures store.chatEmotes == Put(old(store.chatEmotes), e.name, FrankerFaceZEntry(e).1)
  {
    var entry := FrankerFaceZEntry(e);
    MergeSingle(store.chatEmotes, entry.0, entry.1);
    store.SetChatEmotes(Single(entry.0, entry.1));
  }

  /** `Object.values(emoteSet.emoticons || []).forEach(addFrankerFaceZEmote)`. */
  method AddFrankerFaceZSet(store: ChatStore, emoteSet: FfzSet)
    modifies store`chatEmotes
    ensures store.chatEmotes == PutEach(old(store.chatEmotes), FrankerFaceZEntries(emoteSet.emoticons.GetOr([])))
  {
    var emotes := emoteSet.emoticons.GetOr([]);
    for i := 0 to |emotes|
      invariant store.chatEmotes == PutEach(old(store.chatEmotes), FrankerFaceZEntries(emotes[..i]))
    {
      assert FrankerFaceZEntries(emotes[..i + 1])[..i] == FrankerFaceZEntries(emotes[..i]);
      AddFrankerFaceZEmote(store, emotes[i]);
    }
    assert emotes[..|emotes|] == emotes;
  }

  /** The entries of the default sets, in the order of `default_sets`; an id with no set adds nothing. */
  function FrankerFaceZDefaultEntries(ids: seq<string>, sets: Table<FfzSet>): (r: seq<(string, ChatEmote)>)
    ensures KeyedByNamePairs(r)
    decreases |ids|
  {
    if ids == [] then []
    else FrankerFaceZDefaultEntries(ids[..|ids| - 1], sets) + FrankerFaceZSetEntries(Get(sets, ids[|ids| - 1]))
  }

  /** The entries of `sets[id]` when it exists, none otherwise. */
  function FrankerFaceZSetEntries(emoteSet: Option<FfzSet>): (r: seq<(string, ChatEmote)>)
    ensures KeyedByNamePairs(r)
  {
    if emoteSet.Some? then FrankerFaceZEntries(emoteSet.value.emoticons.GetOr([])) else []
  }

  function FrankerFaceZGlobalEntries(global: Option<FfzGlobal>): (r: seq<(string, ChatEmote)>)
    ensures KeyedByNamePairs(r)
  {
    if global.Some? && global.value.sets.Some? then FrankerFaceZDefaultEntries(global.value.defaultSets, global.value.sets.value)
    else []
  }

  /** The entries of a sequence of sets, set after set. */
  function FrankerFaceZSetsEntries(sets: seq<FfzSet>): (r: seq<(string, ChatEmote)>)
    ensures KeyedByNamePairs(r)
    decreases |sets|
  {
    if sets == [] then []
    else FrankerFaceZSetsEntries(sets[..|sets| - 1]) + FrankerFaceZEntries(sets[|sets| - 1].emoticons.GetOr([]))
  }

  function FrankerFaceZRoomEntries(room: Option<FfzRoom>): (r: seq<(string, ChatEmote)>)
    ensures KeyedByNamePairs(r)
  {
    if room.Some? && room.value.sets.Some? then FrankerFaceZSetsEntries(Values(room.value.sets.value)) else []
  }

  /** `loadFrankerFaceZGlobalEmotes`: every default set that exists, in the order of `default_sets`. */
  method LoadFrankerFaceZGlobalEmotes(store: ChatStore, global: Option<FfzGlobal>)
    modifies store`chatEmotes
    ensures store.chatEmotes == PutEach(old(store.chatEmotes), FrankerFaceZGlobalEntries(global))
  {
    if global.None? || global.value.sets.None? {
      return;
    }
    var ids := global.value.defaultSets;
    var sets := global.value.sets.value;
    ghost var t0 := store.chatEmotes;
    for i := 0 to |ids|
      invariant store.chatEmotes == PutEach(t0, FrankerFaceZDefaultEntries(ids[..i], sets))
    {
      var emoteSet := Get(sets, ids[i]);
      assert ids[..i + 1][..i] == ids[..i];
      assert FrankerFaceZDefaultEntries(ids[..i + 1], sets) ==
        FrankerFaceZDefaultEntries(ids[..i], sets) + FrankerFaceZSetEntries(emoteSet);
      PutEachAppend(t0, FrankerFaceZDefaultEntries(ids[..i], sets), FrankerFaceZSetEntries(emoteSet));
      if emoteSet.Some? {
        AddFrankerFaceZSet(store, emoteSet.value);
      } else {
        assert FrankerFaceZSetEntries(emoteSet) == [];
      }
    }
    assert ids[..|ids|] == ids;
  }

  /** `loadFrankerFaceZRoomEmotes`: every set of the room, in the record's order. */
  method LoadFrankerFaceZRoomEmotes(store: ChatStore, room: Option<FfzRoom>)
    modifies store`chatEmotes
    ensures store.chatEmotes == PutEach(old(store.chatEmotes), FrankerFaceZRoomEntries(room))
  {
    if room.None? || room.value.sets.None? {
      return;
    }
    var sets := Values(room.value.sets.value);
    for i := 0 to |sets|
      invariant store.chatEmotes == PutEach(old(store.chatEmotes), FrankerFaceZSetsEntries(sets[..i]))
    {
      assert sets[..i + 1][..i] == sets[..i];
      AddFrankerFaceZSet(store, sets[i]);
      PutEachAppend(old(store.chatEmotes), FrankerFaceZSetsEntries(sets[..i]),
        FrankerFaceZEntries(sets[i].emoticons.GetOr([])));
    }
    assert sets[..|sets|] == sets;
  }

  // ---------------------------------------------------------------------
  // 7TV
  // ---------------------------------------------------------------------

  predicate IsLargeFile(f: SevenTVFile) {
    f.name == "3x.webp" || f.name == "3x.avif"
  }

  /** `files.find(...)`: the index of the first `3x.webp` or `3x.avif` file. */
  function LargeFileIndex(files: seq<SevenTVFile>): (r: Option<nat>)
    ensures r.Some? ==> r.value < |files| && IsLargeFile(files[r.value])
    ensures r.Some? ==> forall j :: 0 <= j < r.value ==> !IsLargeFile(files[j])
    ensures r.None? ==> forall j :: 0 <= j < |files| ==> !IsLargeFile(files[j])
  {
    if files == [] then None
    else if IsLargeFile(files[0]) then Some(0)
    else
      var rest := LargeFileIndex(files[1..]);
      assert forall j :: 1 <= j < |files| ==> files[j] == files[1..][j - 1];
      if rest.Some? then Some(rest.value + 1) else None
  }

  /** A 7TV record: the file's URL under the host and its size; never a modifier, never hidden. */
  function SevenTVRecord(host: SevenTVHost, file: SevenTVFile, flags: int, id: string, name: string): ChatEmote {
    ChatEmote(SevenTV, host.url + "/" + file.name, None, Some(file.width), Some(file.height), false, false, flags, id, name)
  }

  /** What one `addSevenTVEmote` call does: merge one entry, do nothing, or throw. */
  datatype SevenTVOutcome = Insert(key: string, emote: ChatEmote) | Skip | Throw

  /**
   * `addSevenTVEmote`. With a large file in the set's copy of the emote, that
   * file is used. Otherwise the emote is fetched by id: a failed fetch adds
   * nothing, and the fetched emote's third file is used, the entry keyed by
   * the fetched name while its `name` field keeps the set's name. A fetched
   * emote with fewer than three files makes `files[2].name` throw.
   */
  function SevenTVOutcomeOf(emote: SevenTVEmote, fetchEmote: string -> Option<SevenTVEmoteData>): SevenTVOutcome {
    match LargeFileIndex(emote.data.host.files)
    case Some(i) =>
      Insert(emote.name, SevenTVRecord(emote.data.host, emote.data.host.files[i], emote.data.flags, emote.id, emote.name))
    case None =>
      match fetchEmote(emote.id)
      case None => Skip
      case Some(d) =>
        if |d.host.files| < 3 then Throw
        else Insert(d.name, SevenTVRecord(d.host, d.host.files[2], d.flags, d.id, emote.name))
  }

  /** The large file, when there is one, decides the entry: keyed by the set's name, the first large file's URL and size. */
  lemma SevenTVLargeFile(emote: SevenTVEmote, fetchEmote: string -> Option<SevenTVEmoteData>, other: string -> Option<SevenTVEmoteData>)
    requires exists j :: 0 <= j < |emote.data.host.files| && IsLargeFile(emote.data.host.files[j])
    ensures var o := SevenTVOutcomeOf(emote, fetchEmote);
      o == SevenTVOutcomeOf(emote, other) &&
      o.Insert? && o.key == emote.name && o.emote.name == emote.name && o.emote.id == emote.id &&
      o.emote.origin == SevenTV && o.emote.modifierFlags == emote.data.flags &&
      exists i :: 0 <= i < |emote.data.host.files| && IsLargeFile(emote.data.host.files[i]) &&
        (forall j :: 0 <= j < i ==> !IsLargeFile(emote.data.host.files[j])) &&
        o.emote.src == emote.data.host.url + "/" + emote.data.host.files[i].name &&
        o.emote.width == Some(emote.data.host.files[i].width) && o.emote.height == Some(emote.data.host.files[i].height)
  {
    var i := LargeFileIndex(emote.data.host.files).value;
    assert 0 <= i < |emote.data.host.files| && IsLargeFile(emote.data.host.files[i]);
  }

  /**
   * Without a large file the outcome is decided by the fetch: nothing when it
   * fails, a throw when the fetched emote has fewer than three files, and
   * otherwise an entry under the fetched name whose `name` field is the set's
   * name, from the third file.
   */
  lemma SevenTVFallback(emote: SevenTVEmote, fetchEmote: string -> Option<SevenTVEmoteData>)
    requires forall j :: 0 <= j < |emote.data.host.files| ==> !IsLargeFile(emote.data.host.files[j])
    ensures fetchEmote(emote.id).None? <==> SevenTVOutcomeOf(emote, fetchEmote) == Skip
    ensures SevenTVOutcomeOf(emote, fetchEmote).Throw? <==>
      fetchEmote(emote.id).Some? && |fetchEmote(emote.id).value.host.files| < 3
    ensures SevenTVOutcomeOf(emote, fetchEmote).Insert? ==>
      var d := fetchEmote(emote.id).value;
      var o := SevenTVOutcomeOf(emote, fetchEmote);
      |d.host.files| >= 3 && o.key == d.name && o.emote.name == emote.name && o.emote.id == d.id &&
      o.emote.src == d.host.url + "/" + d.host.files[2].name && o.emote.modifierFlags == d.flags
  {
  }

  /** The fallback stores the entry under a name that need not be its `name` field: the table is then no longer keyed by name. */
  lemma SevenTVFallbackMisnames()
    ensures var d := SevenTVEmoteData("e1", "fetched", 0, SevenTVHost("https://cdn", [SevenTVFile("1x.webp", 1, 1), SevenTVFile("2x.webp", 2, 2), SevenTVFile("3x.png", 3, 3)]));
      var emote := SevenTVEmote("e1", "alias", d.(host := SevenTVHost("https://cdn", [])));
      var o := SevenTVOutcomeOf(emote, (id: string) => Some(d));
      o.Insert? && o.key == "fetched" && o.emote.name == "alias" &&
      !KeyedByName(Put(Empty(), o.key, o.emote))
  {
    var d := SevenTVEmoteData("e1", "fetched", 0, SevenTVHost("https://cdn", [SevenTVFile("1x.webp", 1, 1), SevenTVFile("2x.webp", 2, 2), SevenTVFile("3x.png", 3, 3)]));
    var emote := SevenTVEmote("e1", "alias", d.(host := SevenTVHost("https://cdn", [])));
    var o := SevenTVOutcomeOf(emote, (id: string) => Some(d));
    assert o.key == "fetched";
    assert "fetched"[0] != "alias"[0];
  }

  /** The table after some `addSevenTVEmote` calls, and whether one of them threw. */
  datatype Loaded = Loaded(emotes: Table<ChatEmote>, failed: bool)

  function ApplyOutcome(t: Table<ChatEmote>, o: SevenTVOutcome): (r: Loaded)
    ensures r.failed <==> o.Throw?
    ensures o.Insert? ==> r.emotes == Put(t, o.key, o.emote)
    ensures !o.Insert? ==> r.emotes == t
  {
    match o
    case Insert(k, e) => Loaded(Put(t, k, e), false)
    case Skip => Loaded(t, false)
    case Throw => Loaded(t, true)
  }

  /** `for (const emote of set.emotes) await addSevenTVEmote(emote)`: a throw ends the loop and is passed on. */
  function SevenTVSetLoad(t: Table<ChatEmote>, emotes: seq<SevenTVEmote>, fetchEmote: string -> Option<SevenTVEmoteData>): Loaded
    decreases |emotes|
  {
    if emotes == [] then Loaded(t, false)
    else
      var prev := SevenTVSetLoad(t, emotes[..|emotes| - 1], fetchEmote);
      if prev.failed then prev else ApplyOutcome(prev.emotes, SevenTVOutcomeOf(emotes[|emotes| - 1], fetchEmote))
  }

  /** Once a call has thrown, the later emotes change nothing. */
  lemma {:induction false} SevenTVSetLoadStaysFailed(t: Table<ChatEmote>, emotes: seq<SevenTVEmote>, fetchEmote: string -> Option<SevenTVEmoteData>, i: nat)
    requires i <= |emotes| && SevenTVSetLoad(t, emotes[..i], fetchEmote).failed
    ensures SevenTVSetLoad(t, emotes, fetchEmote) == SevenTVSetLoad(t, emotes[..i], fetchEmote)
    decreases |emotes|
  {
    if i == |emotes| {
      assert emotes[..i] == emotes;
    } else {
      var init := emotes[..|emotes| - 1];
      assert init[..i] == emotes[..i];
      SevenTVSetLoadStaysFailed(t, init, fetchEmote, i);
    }
  }

  /** The entries the emotes of a set insert, in order. */
  function SevenTVEntries(emotes: seq<SevenTVEmote>, fetchEmote: string -> Option<SevenTVEmoteData>): seq<(string, ChatEmote)>
    decreases |emotes|
  {
    if emotes == [] then []
    else
      SevenTVEntries(emotes[..|emotes| - 1], fetchEmote) +
        (match SevenTVOutcomeOf(emotes[|emotes| - 1], fetchEmote)
         case Insert(k, e) => [(k, e)]
         case _ => [])
  }

  /** When no call throws, loading a set is the run of assignments of its entries. */
  lemma {:induction false} SevenTVSetLoadEntries(t: Table<ChatEmote>, emotes: seq<SevenTVEmote>, fetchEmote: string -> Option<SevenTVEmoteData>)
    ensures !SevenTVSetLoad(t, emotes, fetchEmote).failed ==>
      SevenTVSetLoad(t, emotes, fetchEmote).emotes == PutEach(t, SevenTVEntries(emotes, fetchEmote))
    decreases |emotes|
  {
    if emotes != [] {
      var init := emotes[..|emotes| - 1];
      SevenTVSetLoadEntries(t, init, fetchEmote);
      var prev := SevenTVSetLoad(t, init, fetchEmote);
      if !prev.failed {
        var o := SevenTVOutcomeOf(emotes[|emotes| - 1], fetchEmote);
        var tail: seq<(string, ChatEmote)> := if o.Insert? then [(o.key, o.emote)] else [];
        assert SevenTVEntries(emotes, fetchEmote) == SevenTVEntries(init, fetchEmote) + tail;
        PutEachAppend(t, SevenTVEntries(init, fetchEmote), tail);
        if o.Insert? {
          assert tail[..0] == [];
        }
      }
    }
  }

  /** Loading a set throws exactly when one of its emotes throws. */
  lemma {:induction false} SevenTVSetLoadFails(t: Table<ChatEmote>, emotes: seq<SevenTVEmote>, fetchEmote: string -> Option<SevenTVEmoteData>)
    ensures SevenTVSetLoad(t, emotes, fetchEmote).failed <==>
      exists i :: 0 <= i < |emotes| && SevenTVOutcomeOf(emotes[i], fetchEmote).Throw?
    decreases |emotes|
  {
    if emotes != [] {
      var init := emotes[..|emotes| - 1];
      SevenTVSetLoadFails(t, init, fetchEmote);
      SomeThrowSplits(emotes, init, fetchEmote);
    }
  }

  /** An emote of the list throws exactly when one of the front throws or the last one does. */
  lemma SomeThrowSplits(emotes: seq<SevenTVEmote>, init: seq<SevenTVEmote>, fetchEmote: string -> Option<SevenTVEmoteData>)
    requires emotes != [] && init == emotes[..|emotes| - 1]
    ensures (exists i :: 0 <= i < |emotes| && SevenTVOutcomeOf(emotes[i], fetchEmote).Throw?) <==>
      (exists i :: 0 <= i < |init| && SevenTVOutcomeOf(init[i], fetchEmote).Throw?) ||
      SevenTVOutcomeOf(emotes[|emotes| - 1], fetchEmote).Throw?
  {
    assert forall i :: 0 <= i < |init| ==> init[i] == emotes[i];
  }

  /** `addSevenTVEmote`; `threw` reports the `TypeError` of a fetched emote with fewer than three files. */
  method AddSevenTVEmote(store: ChatStore, emote: SevenTVEmote, fetchEmote: string -> Option<SevenTVEmoteData>) returns (threw: bool)
    modifies store`chatEmotes
    ensures Loaded(store.chatEmotes, threw) == ApplyOutcome(old(store.chatEmotes), SevenTVOutcomeOf(emote, fetchEmote))
  {
    var o := SevenTVOutcomeOf(emote, fetchEmote);
    var large := LargeFileIndex(emote.data.host.files);
    var key: string;
    var record: ChatEmote;
    if large.Some? {
      key := emote.name;
      record := SevenTVRecord(emote.data.host, emote.data.host.files[large.value], emote.data.flags, emote.id, emote.name);
    } else {
      var fetched := fetchEmote(emote.id);
      if fetched.None? {
        return false;
      }
      var d := fetched.value;
      if |d.host.files| < 3 {
        return true;
      }
      key := d.name;
      record := SevenTVRecord(d.host, d.host.files[2], d.flags, d.id, emote.name);
    }
    assert o == Insert(key, record);
    MergeSingle(store.chatEmotes, key, record);
    store.SetChatEmotes(Single(key, record));
    threw := false;
  }

  /** The inner loop of `loadSevenTVEmotes`: the emotes of one set, stopping at the first throw. */
  method AddSevenTVSet(store: ChatStore, emotes: seq<SevenTVEmote>, fetchEmote: string -> Option<SevenTVEmoteData>) returns (threw: bool)
    modifies store`chatEmotes
    ensures Loaded(store.chatEmotes, threw) == SevenTVSetLoad(old(store.chatEmotes), emotes, fetchEmote)
  {
    var i := 0;
    while i < |emotes|
      invariant 0 <= i <= |emotes|
      invariant Loaded(store.chatEmotes, false) == SevenTVSetLoad(old(store.chatEmotes), emotes[..i], fetchEmote)
    {
      assert emotes[..i + 1][..i] == emotes[..i];
      threw := AddSevenTVEmote(store, emotes[i], fetchEmote);
      if threw {
        SevenTVSetLoadStaysFailed(old(store.chatEmotes), emotes, fetchEmote, i + 1);
        return;
      }
      i := i + 1;
    }
    assert emotes[..i] == emotes;
    threw := false;
  }

  /** The sets `loadSevenTVEmotes` asks for: the user's set, then `global`, so global wins a name clash. */
  function SevenTVSetIds(user: Option<string>): (r: seq<string>)
    ensures user.None? ==> r == []
    ensures user.Some? ==> |r| == 2 && r[0] == user.value && r[1] == "global"
  {
    if user.Some? then [user.value, "global"] else []
  }

  /** The sets in order; a set that cannot be fetched adds nothing, and a throw ends the loop. */
  function SevenTVLoad(t: Table<ChatEmote>, setIds: seq<string>,
                       fetchSet: string -> Option<seq<SevenTVEmote>>,
                       fetchEmote: string -> Option<SevenTVEmoteData>): Loaded
    decreases |setIds|
  {
    if setIds == [] then Loaded(t, false)
    else
      var prev := SevenTVLoad(t, setIds[..|setIds| - 1], fetchSet, fetchEmote);
      if prev.failed then prev
      else match fetchSet(setIds[|setIds| - 1])
        case None => prev
        case Some(emotes) => SevenTVSetLoad(prev.emotes, emotes, fetchEmote)
  }

  /** `loadSevenTVEmotes`, given the module's current 7TV user (its emote set id). */
  method LoadSevenTVEmotes(store: ChatStore, user: Option<string>,
                           fetchSet: string -> Option<seq<SevenTVEmote>>,
                           fetchEmote: string -> Option<SevenTVEmoteData>) returns (threw: bool)
    modifies store`chatEmotes
    ensures Loaded(store.chatEmotes, threw) == SevenTVLoad(old(store.chatEmotes), SevenTVSetIds(user), fetchSet, fetchEmote)
  {
    var ids := SevenTVSetIds(user);
    var i := 0;
    threw := false;
    while i < |ids|
      invariant 0 <= i <= |ids|
      invariant Loaded(store.chatEmotes, false) == SevenTVLoad(old(store.chatEmotes), ids[..i], fetchSet, fetchEmote)
    {
      assert ids[..i + 1][..i] == ids[..i];
      var emoteSet := fetchSet(ids[i]);
      if emoteSet.Some? {
        threw := AddSevenTVSet(store, emoteSet.value, fetchEmote);
        if threw {
          assert i + 1 == |ids| || (i == 0 && |ids| == 2);
          if i + 1 < |ids| {
            assert ids[..2] == ids;
            assert SevenTVLoad(old(store.chatEmotes), ids[..2], fetchSet, fetchEmote).failed;
          } else {
            assert ids[..i + 1] == ids;
          }
          return;
        }
      }
      i := i + 1;
    }
    assert ids[..i] == ids;
  }

  /**
   * With both sets fetched and no throw, a name the global set inserts takes
   * the global set's entry, whatever the user's set holds; any other name
   * takes the user's set's entry, if it has one.
   */
  lemma SevenTVGlobalWins(t: Table<ChatEmote>, userSet: string,
                          fetchSet: string -> Option<seq<SevenTVEmote>>,
                          fetchEmote: string -> Option<SevenTVEmoteData>, k: string)
    requires fetchSet(userSet).Some? && fetchSet("global").Some?
    ensures var r := SevenTVLoad(t, SevenTVSetIds(Some(userSet)), fetchSet, fetchEmote);
      !r.failed ==>
        Get(r.emotes, k) == Override(LastValue(SevenTVEntries(fetchSet("global").value, fetchEmote), k),
                                     Override(LastValue(SevenTVEntries(fetchSet(userSet).value, fetchEmote), k), Get(t, k)))
  {
    var ids := SevenTVSetIds(Some(userSet));
    assert ids[..1][..0] == [] && ids[..1][0] == userSet && ids[..2][..1] == ids[..1] && ids[..2] == ids;
    var userEmotes := fetchSet(userSet).value;
    var globalEmotes := fetchSet("global").value;
    assert SevenTVLoad(t, ids[..1][..0], fetchSet, fetchEmote) == Loaded(t, false);
    var first := SevenTVLoad(t, ids[..1], fetchSet, fetchEmote);
    assert first == SevenTVSetLoad(t, userEmotes, fetchEmote);
    var r := SevenTVLoad(t, ids, fetchSet, fetchEmote);
    if !r.failed {
      assert !first.failed;
      assert r == SevenTVSetLoad(first.emotes, globalEmotes, fetchEmote);
      SevenTVSetLoadEntries(t, userEmotes, fetchEmote);
      SevenTVSetLoadEntries(first.emotes, globalEmotes, fetchEmote);
      PutEachAt(first.emotes, SevenTVEntries(globalEmotes, fetchEmote), k);
      PutEachAt(t, SevenTVEntries(userEmotes, fetchEmote), k);
    }
  }

  // ---------------------------------------------------------------------
  // loadEmotes
  // ---------------------------------------------------------------------

  /** A push client `loadEmotes` starts. */
  datatype PushClient = SevenTVSocket(emoteSetId: string) | BetterTTVSocket

  /** What the provider endpoints answer for this broadcaster (`None`: the fetch failed). */
  datatype ProviderResponses = ProviderResponses(
    sevenTVUser: Option<string>,
    sevenTVEmoteSet: string -> Option<seq<SevenTVEmote>>,
    sevenTVEmote: string -> Option<SevenTVEmoteData>,
    betterTTVUser: Option<BttvUser>,
    betterTTVGlobal: Option<seq<BttvEmote>>,
    frankerFaceZRoom: Option<FfzRoom>,
    frankerFaceZGlobal: Option<FfzGlobal>)

  /** The emote table, the module's 7TV user afterwards, the clients started, and whether a 7TV call threw. */
  datatype LoadResult = LoadResult(emotes: Table<ChatEmote>, sevenTVUser: Option<string>, clients: seq<PushClient>, failed: bool)

  /** The 7TV user `loadSevenTVEmotes` reads: the one just fetched, else whatever was stored before. */
  function CurrentSevenTVUser(sevenTVOn: bool, stored: Option<string>, r: ProviderResponses): Option<string> {
    if sevenTVOn && r.sevenTVUser.Some? then r.sevenTVUser else stored
  }

  function BetterTTVLoadEntries(betterTTVOn: bool, r: ProviderResponses): seq<(string, ChatEmote)> {
    if betterTTVOn then BetterTTVUserEntries(r.betterTTVUser) + BetterTTVGlobalEntries(r.betterTTVGlobal) else []
  }

  function FrankerFaceZLoadEntries(frankerFaceZOn: bool, r: ProviderResponses): seq<(string, ChatEmote)> {
    if frankerFaceZOn then FrankerFaceZRoomEntries(r.frankerFaceZRoom) + FrankerFaceZGlobalEntries(r.frankerFaceZGlobal) else []
  }

  /** `loadEmotes`: 7TV, then BetterTTV, then FrankerFaceZ; a 7TV throw abandons the rest. */
  function LoadAll(t: Table<ChatEmote>, sevenTVOn: bool, betterTTVOn: bool, frankerFaceZOn: bool,
                   storedUser: Option<string>, r: ProviderResponses): LoadResult
  {
    var user := CurrentSevenTVUser(sevenTVOn, storedUser, r);
    var started := if sevenTVOn && r.sevenTVUser.Some? then [SevenTVSocket(r.sevenTVUser.value)] else [];
    var seven := if sevenTVOn then SevenTVLoad(t, SevenTVSetIds(user), r.sevenTVEmoteSet, r.sevenTVEmote) else Loaded(t, false);
    if seven.failed then LoadResult(seven.emotes, user, started, true)
    else
      var afterBttv := PutEach(seven.emotes, BetterTTVLoadEntries(betterTTVOn, r));
      var afterFfz := PutEach(afterBttv, FrankerFaceZLoadEntries(frankerFaceZOn, r));
      LoadResult(afterFfz, user, started + (if betterTTVOn then [BetterTTVSocket] else []), false)
  }

  /** `loadEmotes(broadcasterId)`, with the module's stored 7TV user passed in and returned. */
  method LoadEmotes(store: ChatStore, persisted: PersistedStore, storedUser: Option<string>, r: ProviderResponses)
    returns (sevenTVUser: Option<string>, clients: seq<PushClient>, failed: bool)
    modifies store`chatEmotes
    ensures LoadResult(store.chatEmotes, sevenTVUser, clients, failed) ==
      LoadAll(old(store.chatEmotes), persisted.sevenTVEnabled, persisted.betterTTVEnabled, persisted.frankerFaceZEnabled, storedUser, r)
  {
    var frankerFaceZEnabled := persisted.frankerFaceZEnabled;
    var betterTTVEnabled := persisted.betterTTVEnabled;
    var sevenTVEnabled := persisted.sevenTVEnabled;
    sevenTVUser := storedUser;
    clients := [];
    failed := false;

    if sevenTVEnabled {
      if r.sevenTVUser.Some? {
        sevenTVUser := r.sevenTVUser;
        clients := clients + [SevenTVSocket(r.sevenTVUser.value)];
      }
      failed := LoadSevenTVEmotes(store, sevenTVUser, r.sevenTVEmoteSet, r.sevenTVEmote);
      if failed {
        return;
      }
    }
    clients := LoadOtherProviders(store, betterTTVEnabled, frankerFaceZEnabled, r, clients);
  }

  /** The BetterTTV and FrankerFaceZ blocks of `loadEmotes`, once 7TV has not thrown. */
  method LoadOtherProviders(store: ChatStore, betterTTVEnabled: bool, frankerFaceZEnabled: bool, r: ProviderResponses,
                            started: seq<PushClient>) returns (clients: seq<PushClient>)
    modifies store`chatEmotes
    ensures store.chatEmotes == PutEach(PutEach(old(store.chatEmotes), BetterTTVLoadEntries(betterTTVEnabled, r)),
                                        FrankerFaceZLoadEntries(frankerFaceZEnabled, r))
    ensures clients == started + (if betterTTVEnabled then [BetterTTVSocket] else [])
  {
    clients := started;
    LoadBetterTTV(store, betterTTVEnabled, r);
    if betterTTVEnabled {
      clients := clients + [BetterTTVSocket];
    }
    LoadFrankerFaceZ(store, frankerFaceZEnabled, r);
  }

  /** The BetterTTV block of `loadEmotes`: user emotes, then global ones. */
  method LoadBetterTTV(store: ChatStore, enabled: bool, r: ProviderResponses)
    modifies store`chatEmotes
    ensures store.chatEmotes == PutEach(old(store.chatEmotes), BetterTTVLoadEntries(enabled, r))
  {
    if enabled {
      LoadBetterTTVUserEmotes(store, r.betterTTVUser);
      LoadBetterTTVGlobalEmotes(store, r.betterTTVGlobal);
      PutEachAppend(old(store.chatEmotes), BetterTTVUserEntries(r.betterTTVUser), BetterTTVGlobalEntries(r.betterTTVGlobal));
    }
  }

  /** The FrankerFaceZ block of `loadEmotes`: room emotes, then global ones. */
  method LoadFrankerFaceZ(store: ChatStore, enabled: bool, r: ProviderResponses)
    modifies store`chatEmotes
    ensures store.chatEmotes == PutEach(old(store.chatEmotes), FrankerFaceZLoadEntries(enabled, r))
  {
    if enabled {
      LoadFrankerFaceZRoomEmotes(store, r.frankerFaceZRoom);
      LoadFrankerFaceZGlobalEmotes(store, r.frankerFaceZGlobal);
      PutEachAppend(old(store.chatEmotes), FrankerFaceZRoomEntries(r.frankerFaceZRoom), FrankerFaceZGlobalEntries(r.frankerFaceZGlobal));
    }
  }

  /**
   * Later providers win a name clash: after a load with no 7TV throw, a name
   * takes FrankerFaceZ's entry if it has one, else BetterTTV's, else what 7TV
   * left there.
   */
  lemma ProviderPrecedence(t: Table<ChatEmote>, sevenTVOn: bool, betterTTVOn: bool, frankerFaceZOn: bool,
                           storedUser: Option<string>, r: ProviderResponses, k: string)
    ensures var res := LoadAll(t, sevenTVOn, betterTTVOn, frankerFaceZOn, storedUser, r);
      var user := CurrentSevenTVUser(sevenTVOn, storedUser, r);
      var seven := if sevenTVOn then SevenTVLoad(t, SevenTVSetIds(user), r.sevenTVEmoteSet, r.sevenTVEmote) else Loaded(t, false);
      !res.failed ==>
        Get(res.emotes, k) == Override(LastValue(FrankerFaceZLoadEntries(frankerFaceZOn, r), k),
                                       Override(LastValue(BetterTTVLoadEntries(betterTTVOn, r), k), Get(seven.emotes, k)))
  {
    var user := CurrentSevenTVUser(sevenTVOn, storedUser, r);
    var seven := if sevenTVOn then SevenTVLoad(t, SevenTVSetIds(user), r.sevenTVEmoteSet, r.sevenTVEmote) else Loaded(t, false);
    var afterBttv := PutEach(seven.emotes, BetterTTVLoadEntries(betterTTVOn, r));
    PutEachAt(seven.emotes, BetterTTVLoadEntries(betterTTVOn, r), k);
    PutEachAt(afterBttv, FrankerFaceZLoadEntries(frankerFaceZOn, r), k);
  }

  /**
   * The 7TV push client starts exactly when 7TV is on and the user is found,
   * and first; the BetterTTV one exactly when BetterTTV is on and 7TV did not
   * throw. A disabled provider contributes no entries.
   */
  lemma ClientsStarted(t: Table<ChatEmote>, sevenTVOn: bool, betterTTVOn: bool, frankerFaceZOn: bool,
                       storedUser: Option<string>, r: ProviderResponses)
    ensures var res := LoadAll(t, sevenTVOn, betterTTVOn, frankerFaceZOn, storedUser, r);
      (SevenTVSocket(r.sevenTVUser.GetOr("")) in res.clients <==> sevenTVOn && r.sevenTVUser.Some?) &&
      (sevenTVOn && r.sevenTVUser.Some? ==> res.clients[0] == SevenTVSocket(r.sevenTVUser.value)) &&
      (BetterTTVSocket in res.clients <==> betterTTVOn && !res.failed) &&
      |res.clients| <= 2
    ensures !sevenTVOn && !betterTTVOn && !frankerFaceZOn ==> LoadAll(t, false, false, false, storedUser, r).emotes == t
    ensures !sevenTVOn ==> !LoadAll(t, sevenTVOn, betterTTVOn, frankerFaceZOn, storedUser, r).failed
  {
  }

  /**
   * BetterTTV and FrankerFaceZ keep the table keyed by name: an entry's
   * `name` is the name it is stored under.
   */
  lemma {:induction false} PutEachKeepsKeyedByName(t: Table<ChatEmote>, pairs: seq<(string, ChatEmote)>)
    requires KeyedByName(t) && KeyedByNamePairs(pairs)
    ensures KeyedByName(PutEach(t, pairs))
    decreases |pairs|
  {
    if pairs != [] {
      PutEachKeepsKeyedByName(t, pairs[..|pairs| - 1]);
    }
  }

  lemma NonSevenTVProvidersKeyByName(t: Table<ChatEmote>, betterTTVOn: bool, frankerFaceZOn: bool, r: ProviderResponses)
    requires KeyedByName(t)
    ensures KeyedByName(PutEach(PutEach(t, BetterTTVLoadEntries(betterTTVOn, r)), FrankerFaceZLoadEntries(frankerFaceZOn, r)))
  {
    var b := BetterTTVLoadEntries(betterTTVOn, r);
    var f := FrankerFaceZLoadEntries(frankerFaceZOn, r);
    assert KeyedByNamePairs(b);
    assert KeyedByNamePairs(f);
    PutEachKeepsKeyedByName(t, b);
    PutEachKeepsKeyedByName(PutEach(t, b), f);
  }

  /** `removeSevenTVEmote`: exactly the store's remove-by-id. */
  method RemoveSevenTVEmote(store: ChatStore, emoteId: string)
    modifies store`chatEmotes
    ensures store.chatEmotes == WithoutEmote(old(store.chatEmotes), emoteId)
  {
    store.RemoveChatEmote(emoteId);
  }
}
