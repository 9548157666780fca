/**
 * The BetterTTV push client: once its socket opens it joins the
 * broadcaster's channel, retrying every second while the socket is not
 * open, and turns `emote_create` and `emote_delete` messages into calls on
 * the emote registry. Those calls, the join message and the retry timer are
 * appended to a log.
 */
module BetterTTVWebsocket {
  import opened Wrappers
  import opened Json

  const JoinRetryDelayMs: nat := 1000

  datatype BetterTTVEffect =
    | SendJoin(message: Json)
    | RetryJoin(delayMs: nat)
    | AddEmote(emote: Json)
    | RemoveEmote(emoteId: string)

  /** `twitch:${broadcasterId}`: a missing id is written as `null`. */
  function ChannelName(broadcasterId: Option<string>): (r: string)
    ensures broadcasterId.Some? ==> r == "twitch:" + broadcasterId.value
    ensures broadcasterId.None? ==> r == "twitch:null"
  {
    "twitch:" + broadcasterId.GetOr("null")
  }

  /** `{ name: "join_channel", data: { name: ChannelName(broadcasterId) } }`. */
  function JoinMessage(broadcasterId: Option<string>): Json {
    JObj(map["name" := JStr("join_channel"), "data" := JObj(map["name" := JStr(ChannelName(broadcasterId))])])
  }

  /** `joinChannel`: send the join message if the socket is open, else try again in a second. */
  function JoinEffects(socketOpen: bool, broadcasterId: Option<string>): seq<BetterTTVEffect> {
    if socketOpen then [SendJoin(JoinMessage(broadcasterId))] else [RetryJoin(JoinRetryDelayMs)]
  }

  /** The registry calls one parsed message triggers (`hasOwnProperty` is a field lookup on an object). */
  function MessageEffects(data: Json): seq<BetterTTVEffect> {
    var payload := Field(data, "data").GetOr(JNull);
    var name := Field(data, "name");
    if name == Some(JStr("emote_delete")) then
      (match Field(payload, "emoteId") case Some(JStr(id)) => [RemoveEmote(id)] case _ => [])
    else if name == Some(JStr("emote_create")) then
      (match Field(payload, "emote")
       case Some(emote) => if Field(emote, "code").Some? then [AddEmote(emote)] else []
       case None => [])
    else []
  }

  /** An open socket gets exactly one join message, naming the broadcaster's channel; a closed one gets none and a retry in 1 s. */
  lemma JoinSendsOne(socketOpen: bool, broadcasterId: Option<string>)
    ensures socketOpen ==>
      var e := JoinEffects(socketOpen, broadcasterId);
      |e| == 1 && e[0].SendJoin? &&
      Path(e[0].message, ["name"]) == Some(JStr("join_channel")) &&
      Path(e[0].message, ["data", "name"]) == Some(JStr(ChannelName(broadcasterId)))
    ensures !socketOpen ==> JoinEffects(socketOpen, broadcasterId) == [RetryJoin(1000)]
  {
    var m := JoinMessage(broadcasterId);
    assert Field(m, "data") == Some(JObj(map["name" := JStr(ChannelName(broadcasterId))]));
  }

  /**
   * `emote_delete` removes only when `data.emoteId` is a string,
   * `emote_create` adds only when `data.emote` has a `code`, and any other
   * message does nothing.
   */
  lemma MessageDispatch(data: Json)
    ensures forall e :: e in MessageEffects(data) && e.RemoveEmote? ==>
      Field(data, "name") == Some(JStr("emote_delete")) && Path(data, ["data", "emoteId"]) == Some(JStr(e.emoteId))
    ensures forall e :: e in MessageEffects(data) && e.AddEmote? ==>
      Field(data, "name") == Some(JStr("emote_create")) && Path(data, ["data", "emote"]) == Some(e.emote) &&
      Field(e.emote, "code").Some?
    ensures |MessageEffects(data)| <= 1
    ensures Field(data, "name") != Some(JStr("emote_delete")) && Field(data, "name") != Some(JStr("emote_create")) ==>
      MessageEffects(data) == []
  {
  }

  /** A create message whose emote has a code is passed on as it stands. */
  lemma CreateIsPassedOn(emote: Json)
    requires Field(emote, "code").Some?
    ensures MessageEffects(JObj(map["name" := JStr("emote_create"), "data" := JObj(map["emote" := emote])])) == [AddEmote(emote)]
  {
    var data := JObj(map["name" := JStr("emote_create"), "data" := JObj(map["emote" := emote])]);
    assert Field(data, "name") == Some(JStr("emote_create"));
    assert "emote_create"[7] != "emote_delete"[7];
  }

  /**
   * The `message` listener as written: it handles a frame only when the event
   * carries `utf8Data`, whose text `parse` (`JSON.parse`) reads. A `utf8Data`
   * that is not a string is dropped here.
   */
  function MessageEventEffectsAsWritten(event: Json, parse: string -> Json): seq<BetterTTVEffect> {
    match Field(event, "utf8Data")
    case Some(JStr(text)) => MessageEffects(parse(text))
    case _ => []
  }

  /** As written, a browser `MessageEvent` triggers no registry call at all. */
  lemma BrowserMessageIgnoredAsWritten(event: Json, parse: string -> Json)
    requires IsBrowserMessageEvent(event)
    ensures MessageEventEffectsAsWritten(event, parse) == []
  {
  }

  /**
   * As written, no browser `MessageEvent` reaches the handler: even a create
   * message, which the handler passes on, adds nothing.
   */
  lemma BrowserCreateLostAsWritten(event: Json, text: string, parse: string -> Json, emote: Json)
    requires IsBrowserMessageEvent(event) && Field(event, "data") == Some(JStr(text))
    requires parse(text) == JObj(map["name" := JStr("emote_create"), "data" := JObj(map["emote" := emote])])
    requires Field(emote, "code").Some?
    ensures MessageEventEffectsAsWritten(event, parse) == []
    ensures MessageEffects(parse(text)) == [AddEmote(emote)]
  {
    CreateIsPassedOn(emote);
  }

  /** The socket's listeners; the module-level socket itself is a flag of the events. */
  class BetterTTVClient {
    var log: seq<BetterTTVEffect>

    constructor ()
      ensures log == []
    {
      log := [];
    }

    /** `joinChannel(connection)`, one attempt. */
    method JoinChannel(socketOpen: bool, broadcasterId: Option<string>)
      modifies this
      ensures log == old(log) + JoinEffects(socketOpen, broadcasterId)
    {
      if !socketOpen {
        log := log + [RetryJoin(JoinRetryDelayMs)];
        return;
      }
      log := log + [SendJoin(JoinMessage(broadcasterId))];
    }

    /** The `message` listener, from the parsed payload on. */
    method OnMessage(data: Json)
      modifies this
      ensures log == old(log) + MessageEffects(data)
    {
      var payload := Field(data, "data").GetOr(JNull);
      var name := Field(data, "name");
      if name == Some(JStr("emote_delete")) {
        var id := Field(payload, "emoteId");
        if id.Some? && id.value.JStr? {
          log := log + [RemoveEmote(id.value.s)];
        }
      } else if name == Some(JStr("emote_create")) {
        var emote := Field(payload, "emote");
        if emote.Some? && Field(emote.value, "code").Some? {
          log := log + [AddEmote(emote.value)];
        }
      }
    }
  }
}
