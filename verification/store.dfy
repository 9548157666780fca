/**
 * The overlay's shared store: the broadcaster and user ids, the emote,
 * badge, cheer and user tables, and the log of chat messages on screen.
 * Every setter computes its new table or log from the old one and assigns
 * it; the tables are JavaScript objects, so a merge is an object spread.
 */
module Store {
  import opened Wrappers
  import opened Json
  import opened OrderedRecord
  import opened ChatTypes
  import opened Seqs

  const ClientId: string := "nl4u7l1h4dt48e8hj58yha0we527kg"

  /** `message.message_id`, compared with `!==`. */
  function MessageId(message: Json): Option<Json> {
    Field(message, "message_id")
  }

  /** The log without the messages whose `message_id` is `id`, in their original order. */
  function WithoutMessage(log: seq<Json>, id: Option<Json>): (r: seq<Json>)
    ensures forall m :: m in r <==> m in log && MessageId(m) != id
    ensures |r| <= |log|
  {
    if log == [] then []
    else WithoutMessage(log[..|log| - 1], id) + (if MessageId(log[|log| - 1]) != id then [log[|log| - 1]] else [])
  }

  /** Removing by id distributes over concatenation: the survivors keep their relative order. */
  lemma {:induction false} WithoutMessageAppend(a: seq<Json>, b: seq<Json>, id: Option<Json>)
    ensures WithoutMessage(a + b, id) == WithoutMessage(a, id) + WithoutMessage(b, id)
    decreases |b|
  {
    if b == [] {
      assert a + b == a;
    } else {
      AppendFrontLast(a, b);
      WithoutMessageAppend(a, b[..|b| - 1], id);
    }
  }

  /** When no message carries the id, removing it changes nothing. */
  lemma {:induction false} WithoutAbsentMessage(log: seq<Json>, id: Option<Json>)
    requires forall i :: 0 <= i < |log| ==> MessageId(log[i]) != id
    ensures WithoutMessage(log, id) == log
  {
    if log != [] {
      FrontLast(log);
      WithoutAbsentMessage(log[..|log| - 1], id);
    }
  }

  /** A message added and then removed by its own id leaves no trace of any message with that id. */
  lemma RemoveAfterAdd(log: seq<Json>, message: Json)
    ensures WithoutMessage(log + [message], MessageId(message)) == WithoutMessage(log, MessageId(message))
  {
    WithoutMessageAppend(log, [message], MessageId(message));
    assert [message][..0] == [];
  }

  /** The emote table without every entry whose `id` is `id`. */
  function WithoutEmote(emotes: Table<ChatEmote>, id: string): (r: Table<ChatEmote>)
    ensures forall name :: name in r.entries <==> name in emotes.entries && emotes.entries[name].id != id
    ensures forall name :: name in r.entries ==> r.entries[name] == emotes.entries[name]
  {
    Filter(emotes, (e: ChatEmote) => e.id != id)
  }

  /** Removing an id no entry has leaves the table as it was, order included. */
  lemma WithoutAbsentEmote(emotes: Table<ChatEmote>, id: string)
    requires forall name :: name in emotes.entries ==> emotes.entries[name].id != id
    ensures WithoutEmote(emotes, id) == emotes
  {
    FilterKeepAll(emotes, (e: ChatEmote) => e.id != id);
  }

  /** The shared store. */
  class ChatStore {
    var broadcasterId: Option<string>
    var clientId: string
    var chatBadges: Table<ChatBadge>
    var chatCheers: Table<ChatCheer>
    var chatEmotes: Table<ChatEmote>
    var chatMessageEvents: seq<Json>
    var userId: Option<string>
    var userLogin: Option<string>
    var userInformation: Table<UserInformation>

    /** Every table and the log empty, no ids, the application's client id. */
    predicate IsInitial()
      reads this
    {
      broadcasterId == None && clientId == ClientId &&
      chatBadges == Empty() && chatCheers == Empty() && chatEmotes == Empty() &&
      chatMessageEvents == [] && userId == None && userLogin == None &&
      userInformation == Empty()
    }

    constructor ()
      ensures IsInitial()
    {
      broadcasterId := None;
      clientId := ClientId;
      chatBadges := Empty();
      chatCheers := Empty();
      chatEmotes := Empty();
      chatMessageEvents := [];
      userId := None;
      userLogin := None;
      userInformation := Empty();
    }

    method SetBroadcasterId(id: Option<string>)
      modifies this`broadcasterId
      ensures broadcasterId == id
    {
      broadcasterId := id;
    }

    method SetUserId(id: Option<string>)
      modifies this`userId
      ensures userId == id
    {
      userId := id;
    }

    method SetUserLogin(login: Option<string>)
      modifies this`userLogin
      ensures userLogin == login
    {
      userLogin := login;
    }

    /** Merge badges in: the argument's keys win, every other badge is kept. */
    method SetChatBadges(badges: Table<ChatBadge>)
      modifies this`chatBadges
      ensures chatBadges.entries == old(chatBadges.entries) + badges.entries
      ensures chatBadges == Merge(old(chatBadges), badges)
    {
      MergeSemantics(chatBadges, badges);
      chatBadges := Merge(chatBadges, badges);
    }

    /** Merge cheer tiers in: the argument's keys win, every other tier is kept. */
    method SetChatCheers(cheers: Table<ChatCheer>)
      modifies this`chatCheers
      ensures chatCheers.entries == old(chatCheers.entries) + cheers.entries
      ensures chatCheers == Merge(old(chatCheers), cheers)
    {
      MergeSemantics(chatCheers, cheers);
      chatCheers := Merge(chatCheers, cheers);
    }

    /** Merge emotes in: the argument's names win, every other emote is kept. */
    method SetChatEmotes(emotes: Table<ChatEmote>)
      modifies this`chatEmotes
      ensures chatEmotes.entries == old(chatEmotes.entries) + emotes.entries
      ensures chatEmotes == Merge(old(chatEmotes), emotes)
    {
      MergeSemantics(chatEmotes, emotes);
      chatEmotes := Merge(chatEmotes, emotes);
    }

    /** Drop every emote with this id, under whatever name it is stored. */
    method RemoveChatEmote(emoteId: string)
      modifies this`chatEmotes
      ensures chatEmotes == WithoutEmote(old(chatEmotes), emoteId)
    {
      chatEmotes := WithoutEmote(chatEmotes, emoteId);
    }

    /** Append a message; no deduplication. */
    method AddChatMessage(message: Json)
      modifies this`chatMessageEvents
      ensures chatMessageEvents == old(chatMessageEvents) + [message]
    {
      chatMessageEvents := chatMessageEvents + [message];
    }

    /** Drop every message whose `message_id` equals the deletion event's. */
    method DeleteChatMessage(deletion: Json)
      modifies this`chatMessageEvents
      ensures chatMessageEvents == WithoutMessage(old(chatMessageEvents), MessageId(deletion))
    {
      chatMessageEvents := WithoutMessage(chatMessageEvents, MessageId(deletion));
    }

    /** Drop every message whose `message_id` equals the given message's. */
    method RemoveChatMessage(message: Json)
      modifies this`chatMessageEvents
      ensures chatMessageEvents == WithoutMessage(old(chatMessageEvents), MessageId(message))
    {
      chatMessageEvents := WithoutMessage(chatMessageEvents, MessageId(message));
    }

    /** Upsert a user keyed by its id; other users are unchanged. */
    method AddUserInformation(userInfo: UserInformation)
      modifies this`userInformation
      ensures userInformation.entries == old(userInformation.entries)[userInfo.id := userInfo]
      ensures userInformation == Put(old(userInformation), userInfo.id, userInfo)
    {
      userInformation := Put(userInformation, userInfo.id, userInfo);
    }

    method Reset()
      modifies this
      ensures IsInitial()
    {
      broadcasterId := None;
      clientId := ClientId;
      chatBadges := Empty();
      chatCheers := Empty();
      chatEmotes := Empty();
      chatMessageEvents := [];
      userId := None;
      userLogin := None;
      userInformation := Empty();
    }
  }

  /** The settings kept across page loads. */
  class PersistedStore {
    var accessToken: string
    var authStateValue: string
    var betterTTVEnabled: bool
    var channel: string
    var frankerFaceZEnabled: bool
    var sevenTVEnabled: bool

    constructor ()
      ensures accessToken == "" && authStateValue == "" && channel == ""
      ensures betterTTVEnabled && frankerFaceZEnabled && sevenTVEnabled
    {
      accessToken := "";
      authStateValue := "";
      betterTTVEnabled := true;
      channel := "";
      frankerFaceZEnabled := true;
      sevenTVEnabled := true;
    }

    method SetAccessToken(token: string)
      modifies this`accessToken
      ensures accessToken == token
    {
      accessToken := token;
    }

    method SetAuthStateValue(value: string)
      modifies this`authStateValue
      ensures authStateValue == value
    {
      authStateValue := value;
    }

    method SetBetterTTVEnabled(enabled: bool)
      modifies this`betterTTVEnabled
      ensures betterTTVEnabled == enabled
    {
      betterTTVEnabled := enabled;
    }

    method SetChannel(channel: string)
      modifies this`channel
      ensures this.channel == channel
    {
      this.channel := channel;
    }

    method SetFrankerFaceZEnabled(enabled: bool)
      modifies this`frankerFaceZEnabled
      ensures frankerFaceZEnabled == enabled
    {
      frankerFaceZEnabled := enabled;
    }

    method SetSevenTVEnabled(enabled: bool)
      modifies this`sevenTVEnabled
      ensures sevenTVEnabled == enabled
    {
      sevenTVEnabled := enabled;
    }

    /** The stored token; an empty one is an error ("Access token is not set."). */
    method GetAccessToken() returns (r: Result<string, string>)
      ensures r.Success? <==> accessToken != ""
      ensures r.Success? ==> r.value == accessToken
    {
      if accessToken == "" {
        r := Failure("Access token is not set.");
      } else {
        r := Success(accessToken);
      }
    }
  }
}
