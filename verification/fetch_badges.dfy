/**
 * The chat badge catalogue: the Helix badges response is turned into one
 * table entry per badge version, keyed `set_id + "_" + version id`, and
 * merged into the shared badge table in one call. The message renderer
 * looks badges up under the same key.
 */
module FetchBadges {
  import opened Wrappers
  import opened OrderedRecord
  import opened ChatTypes
  import opened Store
  import opened EventSubscribe
  import opened Helix

  /** A badge version; `imageUrl4x` is `image_url_4x`. */
  datatype BadgeVersion = BadgeVersion(id: string, imageUrl4x: string)

  datatype BadgeSet = BadgeSet(setId: string, versions: seq<BadgeVersion>)

  /** A badge as a chat message carries it. */
  datatype MessageBadge = MessageBadge(setId: string, id: string)

  function BadgesUrl(scope: Scope, broadcasterId: Option<string>): string {
    var global := TwitchHelixUrl + "chat/badges/global";
    if scope.Global? then global else TwitchHelixUrl + "chat/badges?broadcaster_id=" + broadcasterId.GetOr("null")
  }

  /** The channel endpoint names the broadcaster and differs from the global one. */
  lemma BadgesUrlScopes(broadcasterId: Option<string>)
    ensures var channel := BadgesUrl(Channel, broadcasterId);
      var prefix := TwitchHelixUrl + "chat/badges?broadcaster_id=";
      |channel| >= |prefix| && channel[..|prefix|] == prefix && channel[|prefix|..] == broadcasterId.GetOr("null")
    ensures BadgesUrl(Global, broadcasterId) != BadgesUrl(Channel, broadcasterId)
  {
    var global := BadgesUrl(Global, broadcasterId);
    var channel := BadgesUrl(Channel, broadcasterId);
    var at := |TwitchHelixUrl| + 11;
    assert global[at] == (TwitchHelixUrl + "chat/badges/global")[at] == '/';
    assert channel[at] == (TwitchHelixUrl + "chat/badges?broadcaster_id=" + broadcasterId.GetOr("null"))[at] == '?';
  }

  /** `${set_id}_${id}`: the key both the catalogue and the renderer use. */
  function BadgeKey(setId: string, versionId: string): string {
    setId + "_" + versionId
  }

  /** The key is not injective: an underscore inside a set id can make two badges share one. */
  lemma BadgeKeyCollides()
    ensures BadgeKey("a_b", "c") == BadgeKey("a", "b_c")
  {
  }

  function BadgeEntry(setId: string, v: BadgeVersion): (r: (string, ChatBadge))
    ensures r.0 == r.1.name == BadgeKey(setId, v.id) && r.1.url == v.imageUrl4x
  {
    var name := BadgeKey(setId, v.id);
    (name, ChatBadge(name, v.imageUrl4x))
  }

  function VersionEntries(s: BadgeSet): (r: seq<(string, ChatBadge)>)
    ensures |r| == |s.versions|
    ensures forall j :: 0 <= j < |r| ==> r[j] == BadgeEntry(s.setId, s.versions[j])
  {
    seq(|s.versions|, j requires 0 <= j < |s.versions| => BadgeEntry(s.setId, s.versions[j]))
  }

  /** Every version of every set, set by set. */
  function BadgeEntries(sets: seq<BadgeSet>): seq<(string, ChatBadge)>
    decreases |sets|
  {
    if sets == [] then [] else BadgeEntries(sets[..|sets| - 1]) + VersionEntries(sets[|sets| - 1])
  }

  /** Each version of each set contributes its entry. */
  lemma {:induction false} BadgeEntriesCover(sets: seq<BadgeSet>, i: nat, j: nat)
    requires i < |sets| && j < |sets[i].versions|
    ensures BadgeEntry(sets[i].setId, sets[i].versions[j]) in BadgeEntries(sets)
    decreases |sets|
  {
    if i < |sets| - 1 {
      BadgeEntriesCover(sets[..|sets| - 1], i, j);
      assert sets[..|sets| - 1][i] == sets[i];
    } else {
      assert VersionEntries(sets[i])[j] == BadgeEntry(sets[i].setId, sets[i].versions[j]);
    }
  }

  /** `badgeSet.versions.forEach(...)`: one assignment per version, in order. */
  method PutVersions(t: Table<ChatBadge>, s: BadgeSet) returns (r: Table<ChatBadge>)
    ensures r == PutEach(t, VersionEntries(s))
  {
    ghost var entries := VersionEntries(s);
    r := t;
    for j := 0 to |s.versions|
      invariant r == PutEach(t, entries[..j])
    {
      var entry := BadgeEntry(s.setId, s.versions[j]);
      assert entries[..j + 1] == entries[..j] + [(entry.0, entry.1)];
      PutEachSnoc(t, entries[..j], entry.0, entry.1);
      r := Put(r, entry.0, entry.1);
    }
    assert entries[..|s.versions|] == entries;
  }

  /** `saveBadges`: build the table version by version, then merge it into the store once, if there is anything. */
  method SaveBadges(store: ChatStore, sets: seq<BadgeSet>)
    modifies store`chatBadges
    ensures sets == [] ==> store.chatBadges == old(store.chatBadges)
    ensures sets != [] ==> store.chatBadges == Merge(old(store.chatBadges), PutEach(Empty(), BadgeEntries(sets)))
  {
    if |sets| == 0 {
      return;
    }
    var chatBadges: Table<ChatBadge> := Empty();
    for i := 0 to |sets|
      invariant chatBadges == PutEach(Empty(), BadgeEntries(sets[..i]))
      invariant store.chatBadges == old(store.chatBadges)
    {
      assert sets[..i + 1][..i] == sets[..i];
      PutEachAppend(Empty(), BadgeEntries(sets[..i]), VersionEntries(sets[i]));
      chatBadges := PutVersions(chatBadges, sets[i]);
    }
    assert sets[..|sets|] == sets;
    assert chatBadges == PutEach(Empty(), BadgeEntries(sets));
    store.SetChatBadges(chatBadges);
  }

  /**
   * `fetchBadges(type)`: as for cheers, an unset token is a caught error
   * (nothing sent, nothing saved), and a failed or empty response saves
   * nothing.
   */
  method FetchBadges(store: ChatStore, persisted: PersistedStore, scope: Scope, response: Option<seq<BadgeSet>>)
    returns (request: Option<Request>)
    modifies store`chatBadges
    ensures request.Some? <==> persisted.accessToken != ""
    ensures request.Some? ==>
      request.value == HelixGet(BadgesUrl(scope, store.broadcasterId), store.clientId, persisted.accessToken)
    ensures store.chatBadges ==
      if request.Some? && response.Some? && response.value != [] then Merge(old(store.chatBadges), PutEach(Empty(), BadgeEntries(response.value)))
      else old(store.chatBadges)
  {
    var url := BadgesUrl(scope, store.broadcasterId);
    var token := persisted.GetAccessToken();
    if token.Failure? {
      return None;
    }
    request := Some(HelixGet(url, store.clientId, token.value));
    if response.Some? && |response.value| > 0 {
      SaveBadges(store, response.value);
    }
  }

  /** The renderer's lookup: `chatBadges[`${badge.set_id}_${badge.id}`]`. */
  function LookupBadge(badges: Table<ChatBadge>, badge: MessageBadge): Option<ChatBadge> {
    Get(badges, BadgeKey(badge.setId, badge.id))
  }

  /**
   * A message badge finds the version saved under its key: the last version
   * with that key in the response, or what the table held before when the
   * response has none.
   */
  lemma SavedBadgeLookup(stored: Table<ChatBadge>, sets: seq<BadgeSet>, badge: MessageBadge)
    ensures var saved := Merge(stored, PutEach(Empty(), BadgeEntries(sets)));
      LookupBadge(saved, badge) == Override(LastValue(BadgeEntries(sets), BadgeKey(badge.setId, badge.id)),
                                            LookupBadge(stored, badge))
  {
    var key := BadgeKey(badge.setId, badge.id);
    PutEachAt(Empty(), BadgeEntries(sets), key);
    MergeSemantics(stored, PutEach(Empty(), BadgeEntries(sets)));
  }

  /** When a version's key is unique in the response, a message badge naming it gets that version's image. */
  lemma UniqueBadgeFound(stored: Table<ChatBadge>, sets: seq<BadgeSet>, i: nat, j: nat)
    requires i < |sets| && j < |sets[i].versions|
    requires var key := BadgeKey(sets[i].setId, sets[i].versions[j].id);
      forall p :: p in BadgeEntries(sets) && p.0 == key ==> p == BadgeEntry(sets[i].setId, sets[i].versions[j])
    ensures var saved := Merge(stored, PutEach(Empty(), BadgeEntries(sets)));
      var found := LookupBadge(saved, MessageBadge(sets[i].setId, sets[i].versions[j].id));
      found == Some(ChatBadge(BadgeKey(sets[i].setId, sets[i].versions[j].id), sets[i].versions[j].imageUrl4x))
  {
    var badge := MessageBadge(sets[i].setId, sets[i].versions[j].id);
    var key := BadgeKey(badge.setId, badge.id);
    var entries := BadgeEntries(sets);
    BadgeEntriesCover(sets, i, j);
    SavedBadgeLookup(stored, sets, badge);
    var v := LastValue(entries, key);
    var k :| 0 <= k < |entries| && entries[k] == (key, v.value);
    assert entries[k] in entries;
  }
}
