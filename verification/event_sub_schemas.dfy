/**
 * The shape tests the EventSub client applies to parsed frames before it
 * trusts them. Each accepts any value that has the listed fields with the
 * listed kinds; fields not listed are ignored, as a non-strict object
 * schema does.
 */
module EventSubSchemas {
  import opened Wrappers
  import opened Json

  /** The fields the tests read. */
  const EventPath: seq<string> := ["event"]
  const SubscriptionTypePath: seq<string> := ["subscription", "type"]
  const MessageIdPath: seq<string> := ["metadata", "message_id"]
  const MessageTypePath: seq<string> := ["metadata", "message_type"]
  const MessageTimestampPath: seq<string> := ["metadata", "message_timestamp"]
  const SessionIdPath: seq<string> := ["payload", "session", "id"]
  const SessionStatusPath: seq<string> := ["payload", "session", "status"]
  const KeepalivePath: seq<string> := ["payload", "session", "keepalive_timeout_seconds"]
  const ReconnectUrlPath: seq<string> := ["payload", "session", "reconnect_url"]
  const ConnectedAtPath: seq<string> := ["payload", "session", "connected_at"]

  /** A string at the path. */
  predicate HasString(j: Json, path: seq<string>) {
    Path(j, path).Some? && Path(j, path).value.JStr?
  }

  /** A number or `null` at the path. */
  predicate HasNullableNumber(j: Json, path: seq<string>) {
    Path(j, path).Some? && (Path(j, path).value.JNum? || Path(j, path).value.JNull?)
  }

  /** A string or `null` at the path. */
  predicate HasNullableString(j: Json, path: seq<string>) {
    Path(j, path).Some? && (Path(j, path).value.JStr? || Path(j, path).value.JNull?)
  }

  /** `event` is an object and `subscription.type` a string. */
  predicate IsSubscriptionEvent(j: Json) {
    IsObject(Path(j, EventPath)) && HasString(j, SubscriptionTypePath)
  }

  /** The frame Twitch sends when it asks the client to move to another URL. */
  predicate IsEventSubReconnectMessage(j: Json) {
    HasString(j, MessageIdPath) &&
    Path(j, MessageTypePath) == Some(JStr("session_reconnect")) &&
    HasString(j, MessageTimestampPath) &&
    HasString(j, SessionIdPath) &&
    HasString(j, SessionStatusPath) &&
    HasNullableNumber(j, KeepalivePath) &&
    HasString(j, ReconnectUrlPath) &&
    HasString(j, ConnectedAtPath)
  }

  /** The first frame of a session. */
  predicate IsEventSubWelcomeMessage(j: Json) {
    HasString(j, MessageIdPath) &&
    Path(j, MessageTypePath) == Some(JStr("session_welcome")) &&
    HasString(j, MessageTimestampPath) &&
    HasString(j, SessionIdPath) &&
    HasString(j, SessionStatusPath) &&
    HasString(j, ConnectedAtPath) &&
    HasNullableNumber(j, KeepalivePath) &&
    HasNullableString(j, ReconnectUrlPath)
  }

  /** The fields each test reads. */
  const SubscriptionEventPaths: seq<seq<string>> := [EventPath, SubscriptionTypePath]

  const ReconnectPaths: seq<seq<string>> := [
    MessageIdPath, MessageTypePath, MessageTimestampPath,
    SessionIdPath, SessionStatusPath,
    KeepalivePath, ReconnectUrlPath,
    ConnectedAtPath]

  const WelcomePaths: seq<seq<string>> := [
    MessageIdPath, MessageTypePath, MessageTimestampPath,
    SessionIdPath, SessionStatusPath, ConnectedAtPath,
    KeepalivePath, ReconnectUrlPath]

  /** Two values that agree on every listed path. */
  predicate AgreeOn(a: Json, b: Json, paths: seq<seq<string>>) {
    forall i :: 0 <= i < |paths| ==> Path(a, paths[i]) == Path(b, paths[i])
  }

  /** `isSubscriptionEvent` depends on its listed fields only: anything else may differ or be added. */
  lemma SubscriptionEventReadsListedFields(a: Json, b: Json)
    requires AgreeOn(a, b, SubscriptionEventPaths)
    ensures IsSubscriptionEvent(a) == IsSubscriptionEvent(b)
  {
    assert Path(a, SubscriptionEventPaths[0]) == Path(b, SubscriptionEventPaths[0]);
    assert Path(a, SubscriptionEventPaths[1]) == Path(b, SubscriptionEventPaths[1]);
  }

  /** `isEventSubReconnectMessage` depends on its listed fields only. */
  lemma ReconnectReadsListedFields(a: Json, b: Json)
    requires AgreeOn(a, b, ReconnectPaths)
    ensures IsEventSubReconnectMessage(a) == IsEventSubReconnectMessage(b)
  {
    var p := ReconnectPaths;
    assert Path(a, p[0]) == Path(b, p[0]) && Path(a, p[1]) == Path(b, p[1]);
    assert Path(a, p[2]) == Path(b, p[2]) && Path(a, p[3]) == Path(b, p[3]);
    assert Path(a, p[4]) == Path(b, p[4]) && Path(a, p[5]) == Path(b, p[5]);
    assert Path(a, p[6]) == Path(b, p[6]) && Path(a, p[7]) == Path(b, p[7]);
  }

  /** `isEventSubWelcomeMessage` depends on its listed fields only. */
  lemma WelcomeReadsListedFields(a: Json, b: Json)
    requires AgreeOn(a, b, WelcomePaths)
    ensures IsEventSubWelcomeMessage(a) == IsEventSubWelcomeMessage(b)
  {
    var p := WelcomePaths;
    assert Path(a, p[0]) == Path(b, p[0]) && Path(a, p[1]) == Path(b, p[1]);
    assert Path(a, p[2]) == Path(b, p[2]) && Path(a, p[3]) == Path(b, p[3]);
    assert Path(a, p[4]) == Path(b, p[4]) && Path(a, p[5]) == Path(b, p[5]);
    assert Path(a, p[6]) == Path(b, p[6]) && Path(a, p[7]) == Path(b, p[7]);
  }

  /** Adding a field to an object does not change what a path through a different first field finds. */
  lemma {:induction false} PathIgnoresOtherField(m: map<string, Json>, k: string, v: Json, path: seq<string>)
    requires path != [] && path[0] != k
    ensures Path(JObj(m[k := v]), path) == Path(JObj(m), path)
  {
    assert Field(JObj(m[k := v]), path[0]) == Field(JObj(m), path[0]);
  }

  /** A top-level field outside `metadata` and `payload` never turns a welcome or reconnect frame away. */
  lemma ExtraTopLevelFieldAccepted(m: map<string, Json>, k: string, v: Json)
    requires k != "metadata" && k != "payload"
    ensures IsEventSubWelcomeMessage(JObj(m[k := v])) == IsEventSubWelcomeMessage(JObj(m))
    ensures IsEventSubReconnectMessage(JObj(m[k := v])) == IsEventSubReconnectMessage(JObj(m))
  {
    forall i | 0 <= i < |WelcomePaths| ensures Path(JObj(m[k := v]), WelcomePaths[i]) == Path(JObj(m), WelcomePaths[i]) {
      PathIgnoresOtherField(m, k, v, WelcomePaths[i]);
    }
    forall i | 0 <= i < |ReconnectPaths| ensures Path(JObj(m[k := v]), ReconnectPaths[i]) == Path(JObj(m), ReconnectPaths[i]) {
      PathIgnoresOtherField(m, k, v, ReconnectPaths[i]);
    }
    WelcomeReadsListedFields(JObj(m[k := v]), JObj(m));
    ReconnectReadsListedFields(JObj(m[k := v]), JObj(m));
  }

  /** No frame is both a welcome and a reconnect: the message types differ. */
  lemma WelcomeExcludesReconnect(j: Json)
    ensures !(IsEventSubWelcomeMessage(j) && IsEventSubReconnectMessage(j))
  {
  }

  /** A reconnect frame always carries a string URL, though possibly the empty one. */
  lemma ReconnectHasUrl(j: Json)
    requires IsEventSubReconnectMessage(j)
    ensures StringAt(j, ReconnectUrlPath).Some?
  {
  }

  /** A reconnect frame whose URL is `null` is not a reconnect frame; a welcome may carry `null` there. */
  lemma NullUrlOnlyInWelcome(j: Json)
    requires Path(j, ReconnectUrlPath) == Some(JNull)
    ensures !IsEventSubReconnectMessage(j)
  {
  }
}
