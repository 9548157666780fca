/**
 * The EventSub subscription request: a POST to the Helix subscriptions
 * endpoint whose JSON body names the subscription type, its version, its
 * condition and the WebSocket session that should receive the events.
 */
module EventSubscribe {
  import opened Wrappers
  import opened Json

  const TwitchHelixUrl: string := "https://api.twitch.tv/helix/"
  const SubscriptionsUrl: string := TwitchHelixUrl + "eventsub/subscriptions"

  datatype Header = Header(name: string, value: string)

  datatype Request = Request(httpMethod: string, url: string, headers: seq<Header>, body: Json)

  /** What a subscription body says, read back out of it. */
  datatype Subscription = Subscription(
    subscriptionType: string,
    version: string,
    condition: map<string, string>,
    sessionId: string)

  function ConditionJson(condition: map<string, string>): Json {
    JObj(map k | k in condition :: JStr(condition[k]))
  }

  /** `{type, version, condition, transport: {method: "websocket", session_id}}`. */
  function SubscriptionBody(sessionId: string, subscriptionType: string, condition: map<string, string>, version: string): Json {
    JObj(map[
      "type" := JStr(subscriptionType),
      "version" := JStr(version),
      "condition" := ConditionJson(condition),
      "transport" := JObj(map["method" := JStr("websocket"), "session_id" := JStr(sessionId)])])
  }

  /** A condition object whose values are all strings. */
  function ReadCondition(j: Json): Option<map<string, string>> {
    if j.JObj? && forall k :: k in j.fields ==> j.fields[k].JStr? then
      Some(map k | k in j.fields :: j.fields[k].s)
    else None
  }

  /** Read a body back: the independent description of what the server is asked for. */
  function ReadBody(body: Json): Option<Subscription> {
    match (StringAt(body, ["type"]), StringAt(body, ["version"]), Path(body, ["condition"]),
           StringAt(body, ["transport", "method"]), StringAt(body, ["transport", "session_id"]))
    case (Some(t), Some(v), Some(c), Some("websocket"), Some(s)) =>
      (match ReadCondition(c)
       case Some(cond) => Some(Subscription(t, v, cond, s))
       case None => None)
    case _ => None
  }

  /**
   * The request `eventSubscribe` sends. The token is read straight from the
   * persisted store, so an empty one is sent as `Bearer ` rather than refused.
   */
  function SubscriptionRequest(
    clientId: string, accessToken: string,
    sessionId: string, subscriptionType: string, condition: map<string, string>, version: string := "1"): (r: Request)
    ensures r.httpMethod == "POST" && r.url == SubscriptionsUrl
    ensures r.headers == [
      Header("Client-Id", clientId),
      Header("Authorization", "Bearer " + accessToken),
      Header("Content-Type", "application/json")]
  {
    Request("POST", SubscriptionsUrl, [
      Header("Client-Id", clientId),
      Header("Authorization", "Bearer " + accessToken),
      Header("Content-Type", "application/json")],
      SubscriptionBody(sessionId, subscriptionType, condition, version))
  }

  /** The body carries its arguments unchanged: reading it back gives exactly them. */
  lemma BodyRoundTrip(sessionId: string, subscriptionType: string, condition: map<string, string>, version: string)
    ensures ReadBody(SubscriptionBody(sessionId, subscriptionType, condition, version))
      == Some(Subscription(subscriptionType, version, condition, sessionId))
  {
    var c := ConditionJson(condition);
    BodyFields(sessionId, subscriptionType, condition, version);
    assert ReadCondition(c) == Some(condition) by {
      assert (map k | k in c.fields :: c.fields[k].s) == condition;
    }
  }

  /** Each field `ReadBody` looks up is where the body put it. */
  lemma BodyFields(sessionId: string, subscriptionType: string, condition: map<string, string>, version: string)
    ensures var body := SubscriptionBody(sessionId, subscriptionType, condition, version);
      Path(body, ["condition"]) == Some(ConditionJson(condition)) &&
      StringAt(body, ["type"]) == Some(subscriptionType) &&
      StringAt(body, ["version"]) == Some(version) &&
      StringAt(body, ["transport", "method"]) == Some("websocket") &&
      StringAt(body, ["transport", "session_id"]) == Some(sessionId)
  {
    var body := SubscriptionBody(sessionId, subscriptionType, condition, version);
    assert Path(body, ["condition"]) == Some(ConditionJson(condition));
    assert StringAt(body, ["type"]) == Some(subscriptionType);
    assert StringAt(body, ["version"]) == Some(version);
    assert StringAt(body, ["transport", "method"]) == Some("websocket");
    assert StringAt(body, ["transport", "session_id"]) == Some(sessionId);
  }

  /** Without an explicit version, the body asks for version "1". */
  lemma DefaultVersionIsOne(clientId: string, accessToken: string, sessionId: string, subscriptionType: string, condition: map<string, string>)
    ensures ReadBody(SubscriptionRequest(clientId, accessToken, sessionId, subscriptionType, condition).body).value.version == "1"
  {
    BodyRoundTrip(sessionId, subscriptionType, condition, "1");
  }
}
