/**
 * Routing of EventSub notifications into the store: a chat message is
 * appended (after fetching the sender's user information when none is
 * stored), a deletion removes messages by id, anything else is ignored.
 */
module EventSubHandler {
  import opened Wrappers
  import opened Json
  import opened OrderedRecord
  import opened ChatTypes
  import opened Store

  /** `data.eventType`. */
  function EventType(event: Json): Option<Json> {
    Field(event, "eventType")
  }

  /**
   * The key `userInformation[data.chatter_user_id]` looks up: the id itself,
   * or "undefined" when the event carries none.
   */
  function ChatterKey(event: Json): string {
    match StringAt(event, ["chatter_user_id"])
    case Some(id) => id
    case None => "undefined"
  }

  /** The user table after a chat message: unchanged unless the sender was unknown and the lookup found someone. */
  function UsersAfterMessage(users: Table<UserInformation>, event: Json, fetched: Option<UserInformation>): Table<UserInformation> {
    if ChatterKey(event) in users.entries || fetched.None? then users
    else Put(users, fetched.value.id, fetched.value)
  }

  /** The part of the store the handler reads and writes: the user table and the message log. */
  datatype StoreView = StoreView(users: Table<UserInformation>, log: seq<Json>)

  function ViewOf(store: ChatStore): StoreView
    reads store
  {
    StoreView(store.userInformation, store.chatMessageEvents)
  }

  /**
   * Where a call of the async handler stands once its synchronous part has
   * run: finished, or suspended at `await fetchUserInformation`. The client
   * calls the handler without awaiting it, so other calls can run while one
   * is suspended.
   */
  datatype Progress = Finished | AwaitingUser

  predicate IsChatMessage(event: Json) {
    EventType(event) == Some(JStr("channel.chat.message"))
  }

  predicate IsMessageDelete(event: Json) {
    EventType(event) == Some(JStr("channel.chat.message_delete"))
  }

  /** The synchronous part of a call, up to its `await` or its end. */
  function Start(v: StoreView, event: Json): (StoreView, Progress) {
    if IsChatMessage(event) then
      if ChatterKey(event) in v.users.entries then (v.(log := v.log + [event]), Finished)
      else (v, AwaitingUser)
    else if IsMessageDelete(event) then (v.(log := WithoutMessage(v.log, MessageId(event))), Finished)
    else (v, Finished)
  }

  /** The rest of a suspended call once the lookup answers, applied to the store as it is then. */
  function Resume(v: StoreView, event: Json, fetched: Option<UserInformation>): StoreView {
    var users := if fetched.Some? then Put(v.users, fetched.value.id, fetched.value) else v.users;
    StoreView(users, v.log + [event])
  }

  /**
   * `twitchEventSubHandler` up to its first `await`: a message from a known
   * sender is appended, a message from an unknown sender suspends the call
   * without touching the store, a deletion removes messages by id.
   */
  method TwitchEventSubHandler(store: ChatStore, event: Json) returns (progress: Progress)
    modifies store`chatMessageEvents
    ensures (ViewOf(store), progress) == Start(old(ViewOf(store)), event)
  {
    progress := Finished;
    var eventType := EventType(event);
    if eventType == Some(JStr("channel.chat.message")) {
      var currentUserInfo := Get(store.userInformation, ChatterKey(event));
      if currentUserInfo.None? {
        return AwaitingUser;
      }
      store.AddChatMessage(event);
    } else if eventType == Some(JStr("channel.chat.message_delete")) {
      store.DeleteChatMessage(event);
    }
  }

  /**
   * The rest of a call suspended at the lookup: a found user is upserted
   * (the table is not consulted again) and the message is appended.
   * `fetched` is what the request returns, `null` becoming `None`.
   */
  method ResumeAfterLookup(store: ChatStore, event: Json, fetched: Option<UserInformation>)
    modifies store`chatMessageEvents, store`userInformation
    ensures ViewOf(store) == Resume(old(ViewOf(store)), event, fetched)
  {
    if fetched.Some? {
      store.AddUserInformation(fetched.value);
    }
    store.AddChatMessage(event);
  }

  /** A call that runs to its end: started, then resumed at once when it suspended. */
  function Uninterrupted(v: StoreView, event: Json, fetched: Option<UserInformation>): StoreView {
    var (s, progress) := Start(v, event);
    if progress == AwaitingUser then Resume(s, event, fetched) else s
  }

  /**
   * Run alone, a call looks the sender up only when unknown, upserts a found
   * user and appends the message; a deletion removes messages by id; any
   * other event changes nothing.
   */
  lemma UninterruptedCall(v: StoreView, event: Json, fetched: Option<UserInformation>)
    ensures Start(v, event).1 == AwaitingUser <==> IsChatMessage(event) && ChatterKey(event) !in v.users.entries
    ensures var r := Uninterrupted(v, event, fetched);
      && (IsChatMessage(event) ==> r.log == v.log + [event] && r.users == UsersAfterMessage(v.users, event, fetched))
      && (IsMessageDelete(event) ==> r.log == WithoutMessage(v.log, MessageId(event)) && r.users == v.users)
      && (!IsChatMessage(event) && !IsMessageDelete(event) ==> r == v)
  {
  }

  /**
   * A message from an unknown sender, then one from a known sender while the
   * first waits for its lookup: the second reaches the log first.
   */
  lemma InterleavedMessagesReorder(v: StoreView, m1: Json, m2: Json, fetched: Option<UserInformation>)
    requires IsChatMessage(m1) && ChatterKey(m1) !in v.users.entries
    requires IsChatMessage(m2) && ChatterKey(m2) in v.users.entries
    ensures Start(v, m1) == (v, AwaitingUser)
    ensures var w := Start(v, m2).0;
      Resume(w, m1, fetched).log == v.log + [m2, m1]
  {
    assert v.log + [m2] + [m1] == v.log + [m2, m1];
  }

  /**
   * A deletion of a message whose call is still waiting for its lookup finds
   * nothing to remove, and the message is appended afterwards: it stays in
   * the log. Had the call finished first, the deletion would have removed it.
   */
  lemma DeleteDuringLookupKeepsMessage(v: StoreView, m: Json, d: Json, fetched: Option<UserInformation>)
    requires IsChatMessage(m) && ChatterKey(m) !in v.users.entries
    requires IsMessageDelete(d) && MessageId(d) == MessageId(m)
    ensures var w := Start(v, d).0;
      var r := Resume(w, m, fetched);
      r.log == WithoutMessage(v.log, MessageId(m)) + [m] && m in r.log
    ensures var r := Start(Uninterrupted(v, m, fetched), d).0;
      forall x :: x in r.log ==> MessageId(x) != MessageId(m)
  {
  }

  /** A chat message from a sender already known never changes the user table, whatever the lookup would say. */
  lemma KnownSenderKeepsUsers(users: Table<UserInformation>, event: Json, fetched: Option<UserInformation>)
    requires ChatterKey(event) in users.entries
    ensures UsersAfterMessage(users, event, fetched) == users
  {
  }

  /** An unknown sender found by the lookup is upserted under its own id; no other user changes. */
  lemma UnknownSenderUpserted(users: Table<UserInformation>, event: Json, u: UserInformation)
    requires ChatterKey(event) !in users.entries
    ensures Get(UsersAfterMessage(users, event, Some(u)), u.id) == Some(u)
    ensures forall k :: k != u.id ==> Get(UsersAfterMessage(users, event, Some(u)), k) == Get(users, k)
  {
  }
}
