/**
 * The EventSub session client. The primary socket is owned by a
 * reconnecting WebSocket hook; a temporary socket is opened only to follow
 * a `session_reconnect` handover. Both sockets feed one ledger of recently
 * seen message ids, and every frame re-arms an inactivity watchdog whose
 * period follows the keepalive Twitch announced.
 *
 * The client is modelled twice: `Session` values and step functions, about
 * which the properties are proved, and the `EventSubClient` class, whose
 * handlers update their fields in place and are proved to take exactly
 * those steps. Timers, sockets and the hook become events and logged
 * effects.
 */
module TwitchWebSocketClient {
  import opened Wrappers
  import opened Numbers
  import opened Json
  import opened EventSubSchemas
  import EventSubscribe
  import SubscribeToChat

  const MaximumDeduplicationIds: nat := 50
  const TwitchWebSocketEventSubUrl: string := "wss://eventsub.wss.twitch.tv/ws"
  const InitialKeepaliveSeconds: real := 10.0
  const WatchdogGraceMs: real := 2000.0

  /** What the socket delivers: nothing usable, text that is not JSON, or a parsed value. */
  datatype Frame = NoData | Malformed | Parsed(json: Json)

  /** The observable effects of the handlers, in the order they happen. */
  datatype Effect =
    | Subscribe(broadcasterId: string, sessionId: string)
    | Dispatch(event: Json)
    | ClosePrimary
    | CloseTemporary
    | OpenTemporary(url: string)

  // ---------------------------------------------------------------------------
  // Backoff of the hook and the watchdog period

  /** `Math.min(2 ** attempt * 1000, 10000)`. */
  function ReconnectInterval(attempt: nat): int {
    Min(Pow2(attempt) * 1000, 10000)
  }

  /** 1 s, 2 s, 4 s, 8 s, then 10 s for every later attempt. */
  lemma ReconnectIntervalSchedule(attempt: nat)
    ensures attempt < 4 ==> ReconnectInterval(attempt) == Pow2(attempt) * 1000
    ensures attempt >= 4 ==> ReconnectInterval(attempt) == 10000
    ensures 1000 <= ReconnectInterval(attempt) <= 10000
  {
    if attempt >= 4 {
      Pow2Monotone(4, attempt);
    } else {
      assert Pow2(attempt) <= 8 by {
        if attempt > 0 { assert Pow2(attempt - 1) <= 4 by { if attempt > 1 { assert Pow2(attempt - 2) <= 2; } } }
      }
    }
  }

  /** `(keepalive || 10) * 1000 + 2000` milliseconds. */
  function WatchdogPeriod(keepaliveSeconds: real): real {
    (if keepaliveSeconds == 0.0 then 10.0 else keepaliveSeconds) * 1000.0 + WatchdogGraceMs
  }

  // ---------------------------------------------------------------------------
  // The ledger of seen message ids

  predicate Distinct<T(==)>(s: seq<T>) {
    forall i, j :: 0 <= i < j < |s| ==> s[i] != s[j]
  }

  /**
   * `rememberMessageId`: a known id changes nothing; a new id goes last and,
   * once the ledger holds more than 50, the oldest id is dropped.
   */
  function Remember(ledger: seq<Json>, id: Json): (r: seq<Json>)
    ensures id in r
    ensures Distinct(ledger) ==> Distinct(r)
    ensures |ledger| <= MaximumDeduplicationIds ==> |r| <= MaximumDeduplicationIds
    ensures id in ledger ==> r == ledger
    ensures id !in ledger ==>
      |ledger| <= |r| <= |ledger| + 1 && r[|r| - 1] == id && r[..|r| - 1] == ledger[|ledger| + 1 - |r|..]
    ensures id !in ledger && |ledger| < MaximumDeduplicationIds ==> |r| == |ledger| + 1
  {
    if id in ledger then ledger
    else
      var pushed := ledger + [id];
      assert pushed[|pushed| - 1] == id;
      if |pushed| > MaximumDeduplicationIds then pushed[1..] else pushed
  }

  /** `jsonData?.metadata?.message_id`. */
  function MessageIdOf(j: Json): Option<Json> {
    Path(j, MessageIdPath)
  }

  /** The frame has a truthy message id that the ledger does not hold yet. */
  predicate IsFresh(ledger: seq<Json>, j: Json) {
    Truthy(MessageIdOf(j)) && MessageIdOf(j).value !in ledger
  }

  // ---------------------------------------------------------------------------
  // Reading frames

  function MessageType(j: Json): Option<Json> {
    Path(j, MessageTypePath)
  }

  /** The `message_type` cases the handlers switch on. */
  datatype MessageKind = SessionWelcome | Notification | SessionReconnect | Revocation | OtherMessage

  /** `switch (jsonData.metadata.message_type)`: strict equality with each case label. */
  function KindOf(j: Json): MessageKind {
    var t := MessageType(j);
    if t == Some(JStr("session_welcome")) then SessionWelcome
    else if t == Some(JStr("notification")) then Notification
    else if t == Some(JStr("session_reconnect")) then SessionReconnect
    else if t == Some(JStr("revocation")) then Revocation
    else OtherMessage
  }

  /** Each case label selects its own case. */
  lemma KindOfLabels(j: Json)
    ensures MessageType(j) == Some(JStr("session_welcome")) ==> KindOf(j) == SessionWelcome
    ensures MessageType(j) == Some(JStr("notification")) ==> KindOf(j) == Notification
    ensures MessageType(j) == Some(JStr("session_reconnect")) ==> KindOf(j) == SessionReconnect
    ensures MessageType(j) == Some(JStr("revocation")) ==> KindOf(j) == Revocation
  {
    assert "notification"[0] != "session_welcome"[0];
    assert "session_reconnect"[8] != "session_welcome"[8];
    assert "session_reconnect"[0] != "notification"[0];
    assert "revocation"[0] != "session_welcome"[0] && "revocation"[0] != "notification"[0];
    assert "revocation"[0] != "session_reconnect"[0];
  }

  /** The keepalive after a welcome: its value when it is a number of at least 10, else the old one. */
  function KeepaliveAfter(keepaliveSeconds: real, welcome: Json): real {
    match Path(welcome, KeepalivePath)
    case Some(JNum(n)) => if n >= 10.0 then n else keepaliveSeconds
    case _ => keepaliveSeconds
  }

  function SessionIdOf(welcome: Json): string {
    StringAt(welcome, SessionIdPath).GetOr("")
  }

  function ReconnectUrlOf(reconnect: Json): string {
    StringAt(reconnect, ReconnectUrlPath).GetOr("")
  }

  /** `{ ...payload.event, eventType: payload.subscription.type }`, when the payload is a subscription event. */
  function DispatchedEvent(payload: Option<Json>): (r: Option<Json>)
    ensures r.Some? <==> payload.Some? && IsSubscriptionEvent(payload.value)
    ensures r.Some? ==> Field(r.value, "eventType") == Path(payload.value, SubscriptionTypePath)
    ensures r.Some? ==> forall k :: k != "eventType" ==> Field(r.value, k) == Field(Path(payload.value, EventPath).value, k)
  {
    if payload.Some? && IsSubscriptionEvent(payload.value) then
      var event := Path(payload.value, EventPath).value;
      Some(JObj(event.fields["eventType" := Path(payload.value, SubscriptionTypePath).value]))
    else None
  }

  /** A store id the client treats as present: non-null and non-empty. */
  predicate Present(id: Option<string>) {
    id.Some? && id.value != ""
  }

  // ---------------------------------------------------------------------------
  // Session values and steps

  datatype Session = Session(
    socketUrl: string,
    baseUrl: string,
    keepaliveSeconds: real,
    watchdogMs: Option<real>,
    followingReconnect: bool,
    isUsingReconnectUrl: bool,
    hasTemporarySocket: bool,
    reconnectUrl: Option<string>,
    processedMessageIds: seq<Json>,
    effects: seq<Effect>)

  /** The state when the component mounts. */
  function InitialSession(): (s: Session)
    ensures Valid(s)
  {
    Session(TwitchWebSocketEventSubUrl, TwitchWebSocketEventSubUrl, InitialKeepaliveSeconds, None,
            false, false, false, None, [], [])
  }

  /** What holds between any two events. */
  predicate Valid(s: Session) {
    s.keepaliveSeconds >= InitialKeepaliveSeconds &&
    |s.processedMessageIds| <= MaximumDeduplicationIds &&
    Distinct(s.processedMessageIds) &&
    (s.reconnectUrl.Some? ==> s.reconnectUrl.value != "") &&
    (s.hasTemporarySocket ==> s.reconnectUrl.Some?)
  }

  /** `resetInactivityWatchdog`: a new timer with the period of the current keepalive. */
  function Rearm(s: Session): Session {
    s.(watchdogMs := Some(WatchdogPeriod(s.keepaliveSeconds)))
  }

  /** `closeTemporarySocket`: close it if there is one; afterwards there is none. */
  function DropTemporary(s: Session): Session {
    s.(hasTemporarySocket := false,
       effects := s.effects + (if s.hasTemporarySocket then [CloseTemporary] else []))
  }

  /** The `notification` branch, shared by both sockets. */
  function OnNotification(s: Session, j: Json): Session {
    match DispatchedEvent(Field(j, "payload"))
    case Some(event) => s.(effects := s.effects + [Dispatch(event)])
    case None => s
  }

  /** A welcome on the primary socket, after deduplication. */
  function OnPrimaryWelcome(s: Session, j: Json, broadcasterId: Option<string>, userId: Option<string>): Session {
    if !IsEventSubWelcomeMessage(j) then s
    else
      var c := DropTemporary(s.(keepaliveSeconds := KeepaliveAfter(s.keepaliveSeconds, j)));
      if c.followingReconnect then c.(followingReconnect := false)
      else if SessionIdOf(j) != "" && Present(broadcasterId) && Present(userId) then
        c.(effects := c.effects + [Subscribe(broadcasterId.value, SessionIdOf(j))])
      else c
  }

  /**
   * A `session_reconnect` on the primary socket, after deduplication.
   * `temporarySocketOpens` says whether `new WebSocket(url)` succeeds.
   */
  function OnPrimaryReconnect(s: Session, j: Json, temporarySocketOpens: bool): Session {
    if !IsEventSubReconnectMessage(j) then s
    else
      var url := ReconnectUrlOf(j);
      if url == "" then s.(effects := s.effects + [ClosePrimary])
      else
        var c := DropTemporary(s).(reconnectUrl := Some(url));
        if temporarySocketOpens then c.(hasTemporarySocket := true, effects := c.effects + [OpenTemporary(url)])
        else c.(effects := c.effects + [ClosePrimary])
  }

  /** A frame on the primary socket. */
  function PrimaryStep(s: Session, frame: Frame, broadcasterId: Option<string>, userId: Option<string>, temporarySocketOpens: bool): Session {
    match frame
    case NoData => s
    case Malformed => Rearm(s)
    case Parsed(j) =>
      var a := Rearm(s);
      if !IsFresh(a.processedMessageIds, j) then a
      else
        var r := a.(processedMessageIds := Remember(a.processedMessageIds, MessageIdOf(j).value));
        PrimaryDispatch(r, j, KindOf(j), broadcasterId, userId, temporarySocketOpens)
  }

  /** The `switch` of the primary handler, once the frame is known to be fresh. */
  function PrimaryDispatch(r: Session, j: Json, kind: MessageKind, broadcasterId: Option<string>, userId: Option<string>, temporarySocketOpens: bool): Session {
    match kind
    case SessionWelcome => OnPrimaryWelcome(r, j, broadcasterId, userId)
    case Notification => OnNotification(r, j)
    case SessionReconnect => OnPrimaryReconnect(r, j, temporarySocketOpens)
    case _ => r
  }

  /** A welcome on the temporary socket: hand the session over to the reconnect URL. */
  function OnTemporaryWelcome(s: Session, j: Json): Session {
    if !IsEventSubWelcomeMessage(j) then s else DropTemporary(HandOver(s, j))
  }

  /** The welcome's keepalive, the reconnect flags and URL taken over, and the primary socket closed. */
  function HandOver(s: Session, j: Json): Session {
    var k := s.(keepaliveSeconds := KeepaliveAfter(s.keepaliveSeconds, j),
                isUsingReconnectUrl := true, followingReconnect := true);
    var u := if k.reconnectUrl.Some? then k.(socketUrl := k.reconnectUrl.value) else k;
    u.(effects := u.effects + [ClosePrimary])
  }

  /** A frame on the temporary socket; frames without string data never reach the handler. */
  function TemporaryStep(s: Session, frame: Frame): Session {
    match frame
    case NoData => s
    case Malformed => Rearm(s)
    case Parsed(j) =>
      var a := Rearm(s);
      if !IsFresh(a.processedMessageIds, j) then a
      else
        var r := a.(processedMessageIds := Remember(a.processedMessageIds, MessageIdOf(j).value));
        TemporaryDispatch(r, j, KindOf(j))
  }

  /** The `switch` of the temporary socket's handler, once the frame is known to be fresh. */
  function TemporaryDispatch(r: Session, j: Json, kind: MessageKind): Session {
    match kind
    case SessionWelcome => OnTemporaryWelcome(r, j)
    case Notification => OnNotification(r, j)
    case _ => r
  }

  /** `shouldReconnect`: leaving a reconnect URL sends later attempts back to the base URL. */
  function ShouldReconnectStep(s: Session): Session {
    if s.isUsingReconnectUrl then s.(isUsingReconnectUrl := false, socketUrl := s.baseUrl) else s
  }

  /** The watchdog fires: the primary socket is closed so that the hook reconnects. */
  function WatchdogStep(s: Session): Session {
    s.(effects := s.effects + [ClosePrimary])
  }

  /** Unmount: the timer is cleared and the temporary socket closed. */
  function TeardownStep(s: Session): Session {
    DropTemporary(s).(watchdogMs := None)
  }

  // ---------------------------------------------------------------------------
  // Properties

  /** What the primary `switch` leaves alone, and what it may change only on a welcome. */
  lemma PrimaryDispatchFacts(r: Session, j: Json, kind: MessageKind, broadcasterId: Option<string>, userId: Option<string>, opens: bool)
    ensures var d := PrimaryDispatch(r, j, kind, broadcasterId, userId, opens);
      d.watchdogMs == r.watchdogMs && d.processedMessageIds == r.processedMessageIds &&
      (Valid(r) ==> Valid(d)) &&
      (d.keepaliveSeconds != r.keepaliveSeconds ==>
        kind == SessionWelcome && IsEventSubWelcomeMessage(j) &&
        Path(j, KeepalivePath) == Some(JNum(d.keepaliveSeconds)) && d.keepaliveSeconds >= 10.0) &&
      (!(kind == SessionWelcome && IsEventSubWelcomeMessage(j)) ==>
        forall e :: e in d.effects && e.Subscribe? ==> e in r.effects)
  {
    match kind
    case SessionWelcome =>
      PrimaryWelcomeFacts(r, j, broadcasterId, userId);
    case Notification =>
      NotificationFacts(r, j);
    case SessionReconnect =>
      PrimaryReconnectFacts(r, j, opens);
    case _ =>
  }

  /** A primary welcome keeps the timer and ledger; it changes the keepalive only to the welcome's own value. */
  lemma PrimaryWelcomeFacts(r: Session, j: Json, broadcasterId: Option<string>, userId: Option<string>)
    ensures var d := OnPrimaryWelcome(r, j, broadcasterId, userId);
      d.watchdogMs == r.watchdogMs && d.processedMessageIds == r.processedMessageIds &&
      (Valid(r) ==> Valid(d)) &&
      (d.keepaliveSeconds != r.keepaliveSeconds ==>
        IsEventSubWelcomeMessage(j) && Path(j, KeepalivePath) == Some(JNum(d.keepaliveSeconds)) && d.keepaliveSeconds >= 10.0) &&
      (!IsEventSubWelcomeMessage(j) ==> d == r)
  {
  }

  /** A notification only appends a dispatch. */
  lemma NotificationFacts(r: Session, j: Json)
    ensures var d := OnNotification(r, j);
      d.(effects := r.effects) == r && (Valid(r) ==> Valid(d)) &&
      forall e :: e in d.effects && e.Subscribe? ==> e in r.effects
  {
  }

  /** A primary reconnect request keeps the timer, ledger and keepalive, and never subscribes. */
  lemma PrimaryReconnectFacts(r: Session, j: Json, opens: bool)
    ensures var d := OnPrimaryReconnect(r, j, opens);
      d.watchdogMs == r.watchdogMs && d.processedMessageIds == r.processedMessageIds &&
      d.keepaliveSeconds == r.keepaliveSeconds && (Valid(r) ==> Valid(d)) &&
      forall e :: e in d.effects && e.Subscribe? ==> e in r.effects
  {
    if IsEventSubReconnectMessage(j) {
      var url := ReconnectUrlOf(j);
      if url == "" {
        NoSubscribeAdded(r.effects, [ClosePrimary]);
      } else {
        var c := DropTemporary(r).(reconnectUrl := Some(url));
        NoSubscribeAdded(r.effects, if r.hasTemporarySocket then [CloseTemporary] else []);
        NoSubscribeAdded(c.effects, [if opens then OpenTemporary(url) else ClosePrimary]);
      }
    }
  }

  /** Appending effects that are not subscriptions adds no subscription. */
  lemma NoSubscribeAdded(before: seq<Effect>, added: seq<Effect>)
    requires forall e :: e in added ==> !e.Subscribe?
    ensures forall e :: e in before + added && e.Subscribe? ==> e in before
  {
  }

  /** The same for the temporary socket's `switch`, which never subscribes. */
  lemma TemporaryDispatchFacts(r: Session, j: Json, kind: MessageKind)
    ensures var d := TemporaryDispatch(r, j, kind);
      d.watchdogMs == r.watchdogMs && d.processedMessageIds == r.processedMessageIds &&
      (Valid(r) ==> Valid(d)) &&
      (d.keepaliveSeconds != r.keepaliveSeconds ==>
        kind == SessionWelcome && IsEventSubWelcomeMessage(j) &&
        Path(j, KeepalivePath) == Some(JNum(d.keepaliveSeconds)) && d.keepaliveSeconds >= 10.0) &&
      (forall e :: e in d.effects && e.Subscribe? ==> e in r.effects)
  {
    match kind
    case SessionWelcome =>
    case Notification =>
      NotificationFacts(r, j);
    case _ =>
  }

  /** The state a fresh frame is dispatched from: re-armed, its id remembered. */
  function Admitted(s: Session, j: Json): Session
    requires IsFresh(Rearm(s).processedMessageIds, j)
  {
    var a := Rearm(s);
    a.(processedMessageIds := Remember(a.processedMessageIds, MessageIdOf(j).value))
  }

  /** Every event keeps the keepalive at least 10, the ledger bounded and duplicate-free, and a temporary socket tied to a URL. */
  lemma StepsPreserveValid(s: Session, frame: Frame, broadcasterId: Option<string>, userId: Option<string>, opens: bool)
    requires Valid(s)
    ensures Valid(PrimaryStep(s, frame, broadcasterId, userId, opens))
    ensures s.hasTemporarySocket ==> Valid(TemporaryStep(s, frame))
    ensures Valid(ShouldReconnectStep(s)) && Valid(WatchdogStep(s)) && Valid(TeardownStep(s))
  {
    PrimaryStepValid(s, frame, broadcasterId, userId, opens);
    if s.hasTemporarySocket {
      TemporaryStepValid(s, frame);
    }
  }

  lemma PrimaryStepValid(s: Session, frame: Frame, broadcasterId: Option<string>, userId: Option<string>, opens: bool)
    requires Valid(s)
    ensures Valid(PrimaryStep(s, frame, broadcasterId, userId, opens))
  {
    if frame.Parsed? && IsFresh(Rearm(s).processedMessageIds, frame.json) {
      var j := frame.json;
      PrimaryDispatchFacts(Admitted(s, j), j, KindOf(j), broadcasterId, userId, opens);
    }
  }

  lemma TemporaryStepValid(s: Session, frame: Frame)
    requires Valid(s)
    ensures Valid(TemporaryStep(s, frame))
  {
    if frame.Parsed? && IsFresh(Rearm(s).processedMessageIds, frame.json) {
      var j := frame.json;
      TemporaryDispatchFacts(Admitted(s, j), j, KindOf(j));
    }
  }

  /** A frame without a fresh id only re-arms the watchdog: no subscribe, dispatch, flag, URL or ledger change. */
  lemma StaleFrameOnlyRearms(s: Session, j: Json, broadcasterId: Option<string>, userId: Option<string>, opens: bool)
    requires !IsFresh(s.processedMessageIds, j)
    ensures PrimaryStep(s, Parsed(j), broadcasterId, userId, opens) == Rearm(s)
    ensures TemporaryStep(s, Parsed(j)) == Rearm(s)
  {
  }

  /** The sockets share the ledger: an id handled on one socket is dropped on the other, and on the same one. */
  lemma LedgerIsShared(s: Session, j: Json, j2: Json, broadcasterId: Option<string>, userId: Option<string>, opens: bool)
    requires IsFresh(s.processedMessageIds, j)
    requires MessageIdOf(j2) == MessageIdOf(j)
    ensures var p := PrimaryStep(s, Parsed(j), broadcasterId, userId, opens);
      TemporaryStep(p, Parsed(j2)) == Rearm(p) &&
      PrimaryStep(p, Parsed(j2), broadcasterId, userId, opens) == Rearm(p)
    ensures var t := TemporaryStep(s, Parsed(j));
      PrimaryStep(t, Parsed(j2), broadcasterId, userId, opens) == Rearm(t) &&
      TemporaryStep(t, Parsed(j2)) == Rearm(t)
  {
    var id := MessageIdOf(j).value;
    PrimaryDispatchFacts(Admitted(s, j), j, KindOf(j), broadcasterId, userId, opens);
    TemporaryDispatchFacts(Admitted(s, j), j, KindOf(j));
    var p := PrimaryStep(s, Parsed(j), broadcasterId, userId, opens);
    assert id in p.processedMessageIds;
    StaleFrameOnlyRearms(p, j2, broadcasterId, userId, opens);
    var t := TemporaryStep(s, Parsed(j));
    assert id in t.processedMessageIds;
    StaleFrameOnlyRearms(t, j2, broadcasterId, userId, opens);
  }

  /**
   * Any frame with data re-arms the watchdog before deduplication, with the
   * period of the keepalive in force before the frame.
   */
  lemma FrameRearmsWatchdog(s: Session, frame: Frame, broadcasterId: Option<string>, userId: Option<string>, opens: bool)
    requires frame != NoData
    ensures PrimaryStep(s, frame, broadcasterId, userId, opens).watchdogMs == Some(WatchdogPeriod(s.keepaliveSeconds))
    ensures TemporaryStep(s, frame).watchdogMs == Some(WatchdogPeriod(s.keepaliveSeconds))
  {
    if frame.Parsed? && IsFresh(Rearm(s).processedMessageIds, frame.json) {
      var j := frame.json;
      PrimaryDispatchFacts(Admitted(s, j), j, KindOf(j), broadcasterId, userId, opens);
      TemporaryDispatchFacts(Admitted(s, j), j, KindOf(j));
    }
  }

  /** The keepalive changes only on a fresh welcome that carries a number of at least 10, and then becomes that number. */
  lemma KeepaliveOnlyFromWelcome(s: Session, frame: Frame, broadcasterId: Option<string>, userId: Option<string>, opens: bool)
    ensures var k := PrimaryStep(s, frame, broadcasterId, userId, opens).keepaliveSeconds;
      k != s.keepaliveSeconds ==>
        frame.Parsed? && IsEventSubWelcomeMessage(frame.json) &&
        Path(frame.json, KeepalivePath) == Some(JNum(k)) && k >= 10.0
    ensures var k := TemporaryStep(s, frame).keepaliveSeconds;
      k != s.keepaliveSeconds ==>
        frame.Parsed? && IsEventSubWelcomeMessage(frame.json) &&
        Path(frame.json, KeepalivePath) == Some(JNum(k)) && k >= 10.0
  {
    if frame.Parsed? && IsFresh(Rearm(s).processedMessageIds, frame.json) {
      var j := frame.json;
      PrimaryDispatchFacts(Admitted(s, j), j, KindOf(j), broadcasterId, userId, opens);
      TemporaryDispatchFacts(Admitted(s, j), j, KindOf(j));
    }
  }

  /** A fresh primary welcome during a handover clears `followingReconnect` and subscribes to nothing. */
  lemma WelcomeAfterHandoverDoesNotSubscribe(s: Session, j: Json, broadcasterId: Option<string>, userId: Option<string>, opens: bool)
    requires IsFresh(s.processedMessageIds, j) && IsEventSubWelcomeMessage(j)
    requires s.followingReconnect
    ensures var r := PrimaryStep(s, Parsed(j), broadcasterId, userId, opens);
      !r.followingReconnect &&
      r.effects == s.effects + (if s.hasTemporarySocket then [CloseTemporary] else [])
  {
    KindOfLabels(j);
  }

  /**
   * Otherwise a fresh primary welcome closes any temporary socket and then
   * subscribes exactly once, and only when the session id, the broadcaster id
   * and the user id are all present.
   */
  lemma WelcomeSubscribesOnce(s: Session, j: Json, broadcasterId: Option<string>, userId: Option<string>, opens: bool)
    requires IsFresh(s.processedMessageIds, j) && IsEventSubWelcomeMessage(j)
    requires !s.followingReconnect
    ensures var r := PrimaryStep(s, Parsed(j), broadcasterId, userId, opens);
      var subscribes := SessionIdOf(j) != "" && Present(broadcasterId) && Present(userId);
      !r.hasTemporarySocket &&
      r.effects == s.effects + (if s.hasTemporarySocket then [CloseTemporary] else [])
                             + (if subscribes then [Subscribe(broadcasterId.value, SessionIdOf(j))] else [])
  {
    KindOfLabels(j);
  }

  /**
   * A fresh welcome on the temporary socket never subscribes: it marks the
   * handover, points the primary at the stored reconnect URL, closes the
   * primary and then the temporary socket.
   */
  lemma TemporaryWelcomeHandsOver(s: Session, j: Json)
    requires Valid(s) && s.hasTemporarySocket
    requires IsFresh(s.processedMessageIds, j) && IsEventSubWelcomeMessage(j)
    ensures var r := TemporaryStep(s, Parsed(j));
      r.isUsingReconnectUrl && r.followingReconnect && !r.hasTemporarySocket &&
      r.socketUrl == s.reconnectUrl.value &&
      r.effects == s.effects + [ClosePrimary, CloseTemporary]
  {
    KindOfLabels(j);
    var a := Admitted(s, j);
    assert TemporaryStep(s, Parsed(j)) == OnTemporaryWelcome(a, j);
    assert a.hasTemporarySocket && a.reconnectUrl == s.reconnectUrl && a.effects == s.effects;
    var h := HandOver(a, j);
    assert h.hasTemporarySocket && h.socketUrl == s.reconnectUrl.value && h.effects == s.effects + [ClosePrimary];
    assert h.effects + [CloseTemporary] == s.effects + [ClosePrimary, CloseTemporary];
  }

  /** A reconnect frame with a URL opens a temporary socket to it or, when that fails, closes the primary. */
  lemma ReconnectOpensTemporary(s: Session, j: Json, broadcasterId: Option<string>, userId: Option<string>, opens: bool)
    requires IsFresh(s.processedMessageIds, j) && IsEventSubReconnectMessage(j)
    requires ReconnectUrlOf(j) != ""
    ensures var r := PrimaryStep(s, Parsed(j), broadcasterId, userId, opens);
      r.reconnectUrl == Some(ReconnectUrlOf(j)) &&
      r.hasTemporarySocket == opens &&
      r.effects == s.effects + (if s.hasTemporarySocket then [CloseTemporary] else [])
                             + (if opens then [OpenTemporary(ReconnectUrlOf(j))] else [ClosePrimary])
  {
    KindOfLabels(j);
  }

  /** A reconnect frame with an empty URL passes the schema but only closes the primary. */
  lemma EmptyReconnectUrlClosesPrimary(s: Session, j: Json, broadcasterId: Option<string>, userId: Option<string>, opens: bool)
    requires IsFresh(s.processedMessageIds, j) && IsEventSubReconnectMessage(j)
    requires ReconnectUrlOf(j) == ""
    ensures var r := PrimaryStep(s, Parsed(j), broadcasterId, userId, opens);
      r.effects == s.effects + [ClosePrimary] && r.reconnectUrl == s.reconnectUrl &&
      r.hasTemporarySocket == s.hasTemporarySocket
  {
    KindOfLabels(j);
  }

  /** The only step that subscribes is a fresh welcome on the primary socket. */
  lemma OnlyPrimaryWelcomeSubscribes(s: Session, frame: Frame, broadcasterId: Option<string>, userId: Option<string>, opens: bool)
    ensures (forall e :: e in TemporaryStep(s, frame).effects && e.Subscribe? ==> e in s.effects)
    ensures !(frame.Parsed? && IsFresh(s.processedMessageIds, frame.json) && IsEventSubWelcomeMessage(frame.json)) ==>
      forall e :: e in PrimaryStep(s, frame, broadcasterId, userId, opens).effects && e.Subscribe? ==> e in s.effects
  {
    if frame.Parsed? && IsFresh(Rearm(s).processedMessageIds, frame.json) {
      var j := frame.json;
      PrimaryDispatchFacts(Admitted(s, j), j, KindOf(j), broadcasterId, userId, opens);
      TemporaryDispatchFacts(Admitted(s, j), j, KindOf(j));
    }
  }

  /** `shouldReconnect` leaves the session off the reconnect URL, back on the base URL if it was on one. */
  lemma ShouldReconnectFallsBack(s: Session)
    ensures !ShouldReconnectStep(s).isUsingReconnectUrl
    ensures s.isUsingReconnectUrl ==> ShouldReconnectStep(s).socketUrl == s.baseUrl
    ensures !s.isUsingReconnectUrl ==> ShouldReconnectStep(s) == s
  {
  }

  // ---------------------------------------------------------------------------
  // The call `subscribeToChat(broadcasterId, userId, sessionId)` as written

  /**
   * The requests the welcome handler sends as the call is written: three
   * arguments go to a two-parameter function, so its session parameter
   * receives the user id and the session id is dropped.
   */
  function WelcomeSubscriptionsAsWritten(clientId: string, accessToken: string,
                                         broadcasterId: string, userId: string, sessionId: string): seq<EventSubscribe.Request> {
    SubscribeToChat.ChatSubscriptions(clientId, accessToken, broadcasterId, userId)
  }

  /** As written, the subscriptions name the user id as their session: wrong whenever the two differ. */
  lemma AsWrittenSubscribesWrongSession(clientId: string, accessToken: string, broadcasterId: string, userId: string, sessionId: string)
    requires userId != sessionId
    ensures var rs := WelcomeSubscriptionsAsWritten(clientId, accessToken, broadcasterId, userId, sessionId);
      |rs| == 2 && EventSubscribe.ReadBody(rs[0].body).Some? && EventSubscribe.ReadBody(rs[1].body).Some? &&
      EventSubscribe.ReadBody(rs[0].body).value.sessionId != sessionId &&
      EventSubscribe.ReadBody(rs[1].body).value.sessionId != sessionId
  {
    SubscribeToChat.ChatSubscriptionsContent(clientId, accessToken, broadcasterId, userId);
  }

  /** The requests a `Subscribe` effect stands for: the welcome's own session id. */
  function WelcomeSubscriptions(clientId: string, accessToken: string, effect: Effect): seq<EventSubscribe.Request>
    requires effect.Subscribe?
  {
    SubscribeToChat.ChatSubscriptions(clientId, accessToken, effect.broadcasterId, effect.sessionId)
  }

  /** Corrected, every request a welcome triggers names the session that welcome opened. */
  lemma WelcomeSubscribesOwnSession(s: Session, j: Json, broadcasterId: Option<string>, userId: Option<string>, opens: bool,
                                    clientId: string, accessToken: string)
    requires IsFresh(s.processedMessageIds, j) && IsEventSubWelcomeMessage(j) && !s.followingReconnect
    requires SessionIdOf(j) != "" && Present(broadcasterId) && Present(userId)
    ensures var r := PrimaryStep(s, Parsed(j), broadcasterId, userId, opens);
      var e := r.effects[|r.effects| - 1];
      e.Subscribe? &&
      forall q :: q in WelcomeSubscriptions(clientId, accessToken, e) ==>
        EventSubscribe.ReadBody(q.body).Some? && EventSubscribe.ReadBody(q.body).value.sessionId == SessionIdOf(j)
  {
    WelcomeSubscribesOnce(s, j, broadcasterId, userId, opens);
    var r := PrimaryStep(s, Parsed(j), broadcasterId, userId, opens);
    assert r.effects[|r.effects| - 1] == Subscribe(broadcasterId.value, SessionIdOf(j));
    SubscribeNamesItsSession(clientId, accessToken, broadcasterId.value, SessionIdOf(j));
  }

  /**
   * As written, the requests behind the `Subscribe` effect of a fresh welcome
   * carry the user id where the welcome's session id belongs.
   */
  lemma AsWrittenWelcomeSendsUserId(s: Session, j: Json, broadcasterId: Option<string>, userId: Option<string>, opens: bool,
                                    clientId: string, accessToken: string)
    requires IsFresh(s.processedMessageIds, j) && IsEventSubWelcomeMessage(j) && !s.followingReconnect
    requires SessionIdOf(j) != "" && Present(broadcasterId) && Present(userId)
    ensures var r := PrimaryStep(s, Parsed(j), broadcasterId, userId, opens);
      var e := r.effects[|r.effects| - 1];
      e.Subscribe? && e.sessionId == SessionIdOf(j) &&
      forall q :: q in WelcomeSubscriptionsAsWritten(clientId, accessToken, e.broadcasterId, userId.value, e.sessionId) ==>
        EventSubscribe.ReadBody(q.body).Some? && EventSubscribe.ReadBody(q.body).value.sessionId == userId.value
  {
    WelcomeSubscribesOnce(s, j, broadcasterId, userId, opens);
    var r := PrimaryStep(s, Parsed(j), broadcasterId, userId, opens);
    assert r.effects[|r.effects| - 1] == Subscribe(broadcasterId.value, SessionIdOf(j));
    SubscribeNamesItsSession(clientId, accessToken, broadcasterId.value, userId.value);
  }

  /** The requests of a `Subscribe` effect carry that effect's session id. */
  lemma SubscribeNamesItsSession(clientId: string, accessToken: string, broadcasterId: string, sessionId: string)
    ensures forall q :: q in WelcomeSubscriptions(clientId, accessToken, Subscribe(broadcasterId, sessionId)) ==>
      EventSubscribe.ReadBody(q.body).Some? && EventSubscribe.ReadBody(q.body).value.sessionId == sessionId
  {
    SubscribeToChat.ChatSubscriptionsContent(clientId, accessToken, broadcasterId, sessionId);
  }

  // ---------------------------------------------------------------------------
  // The component, with its refs as fields

  class EventSubClient {
    const baseUrl: string
    var socketUrl: string
    var keepaliveSeconds: real
    var watchdogMs: Option<real>
    var followingReconnect: bool
    var isUsingReconnectUrl: bool
    var hasTemporarySocket: bool
    var reconnectUrl: Option<string>
    var processedMessageIds: seq<Json>
    var effects: seq<Effect>

    function Snapshot(): Session
      reads this
    {
      Session(socketUrl, baseUrl, keepaliveSeconds, watchdogMs, followingReconnect, isUsingReconnectUrl,
              hasTemporarySocket, reconnectUrl, processedMessageIds, effects)
    }

    constructor ()
      ensures Snapshot() == InitialSession()
    {
      baseUrl := TwitchWebSocketEventSubUrl;
      socketUrl := TwitchWebSocketEventSubUrl;
      keepaliveSeconds := InitialKeepaliveSeconds;
      watchdogMs := None;
      followingReconnect := false;
      isUsingReconnectUrl := false;
      hasTemporarySocket := false;
      reconnectUrl := None;
      processedMessageIds := [];
      effects := [];
    }

    method ResetInactivityWatchdog()
      modifies this
      ensures Snapshot() == Rearm(old(Snapshot()))
    {
      watchdogMs := Some(WatchdogPeriod(keepaliveSeconds));
    }

    method HasSeenMessageId(id: Json) returns (seen: bool)
      ensures seen <==> id in processedMessageIds
    {
      seen := id in processedMessageIds;
    }

    method RememberMessageId(id: Json)
      modifies this
      ensures Snapshot() == old(Snapshot()).(processedMessageIds := Remember(old(processedMessageIds), id))
    {
      if id in processedMessageIds {
        return;
      }
      processedMessageIds := processedMessageIds + [id];
      if |processedMessageIds| > MaximumDeduplicationIds {
        processedMessageIds := processedMessageIds[1..];
      }
    }

    method CloseTemporarySocket()
      modifies this
      ensures Snapshot() == DropTemporary(old(Snapshot()))
    {
      if hasTemporarySocket {
        effects := effects + [CloseTemporary];
      }
      hasTemporarySocket := false;
    }

    method HandleNotification(j: Json)
      modifies this
      ensures Snapshot() == OnNotification(old(Snapshot()), j)
    {
      var event := DispatchedEvent(Field(j, "payload"));
      if event.Some? {
        effects := effects + [Dispatch(event.value)];
      }
    }

    /** Deduplicate a parsed frame; `fresh` says whether it is to be handled. */
    method Deduplicate(j: Json) returns (isNew: bool)
      modifies this
      ensures isNew == IsFresh(old(processedMessageIds), j)
      ensures Snapshot() == if isNew then old(Snapshot()).(processedMessageIds := Remember(old(processedMessageIds), MessageIdOf(j).value))
                            else old(Snapshot())
    {
      var messageId := MessageIdOf(j);
      if !Truthy(messageId) {
        return false;
      }
      var seen := HasSeenMessageId(messageId.value);
      if seen {
        return false;
      }
      RememberMessageId(messageId.value);
      return true;
    }

    /** The hook delivered a frame on the primary socket. */
    method OnPrimaryFrame(frame: Frame, broadcasterId: Option<string>, userId: Option<string>, temporarySocketOpens: bool)
      modifies this
      ensures Snapshot() == PrimaryStep(old(Snapshot()), frame, broadcasterId, userId, temporarySocketOpens)
    {
      if frame.NoData? {
        return;
      }
      ResetInactivityWatchdog();
      if frame.Malformed? {
        return;
      }
      var j := frame.json;
      var isNew := Deduplicate(j);
      if !isNew {
        return;
      }
      HandlePrimaryMessage(j, KindOf(j), broadcasterId, userId, temporarySocketOpens);
    }

    /** The `switch` on the message type of a fresh primary frame. */
    method HandlePrimaryMessage(j: Json, kind: MessageKind, broadcasterId: Option<string>, userId: Option<string>, temporarySocketOpens: bool)
      modifies this
      ensures Snapshot() == PrimaryDispatch(old(Snapshot()), j, kind, broadcasterId, userId, temporarySocketOpens)
    {
      match kind
      case SessionWelcome =>
        HandlePrimaryWelcome(j, broadcasterId, userId);
      case Notification =>
        HandleNotification(j);
      case SessionReconnect =>
        HandlePrimaryReconnect(j, temporarySocketOpens);
      case _ =>
    }

    /** A welcome on the primary socket. */
    method HandlePrimaryWelcome(j: Json, broadcasterId: Option<string>, userId: Option<string>)
      modifies this
      ensures Snapshot() == OnPrimaryWelcome(old(Snapshot()), j, broadcasterId, userId)
    {
      if IsEventSubWelcomeMessage(j) {
        var sessionId := SessionIdOf(j);
        keepaliveSeconds := KeepaliveAfter(keepaliveSeconds, j);
        CloseTemporarySocket();
        if followingReconnect {
          followingReconnect := false;
        } else if sessionId != "" && Present(broadcasterId) && Present(userId) {
          effects := effects + [Subscribe(broadcasterId.value, sessionId)];
        }
      }
    }

    /** A reconnect request on the primary socket. */
    method HandlePrimaryReconnect(j: Json, temporarySocketOpens: bool)
      modifies this
      ensures Snapshot() == OnPrimaryReconnect(old(Snapshot()), j, temporarySocketOpens)
    {
      if IsEventSubReconnectMessage(j) {
        var url := ReconnectUrlOf(j);
        if url != "" {
          CloseTemporarySocket();
          reconnectUrl := Some(url);
          if temporarySocketOpens {
            hasTemporarySocket := true;
            effects := effects + [OpenTemporary(url)];
          } else {
            effects := effects + [ClosePrimary];
          }
        } else {
          effects := effects + [ClosePrimary];
        }
      }
    }

    /** The temporary socket delivered a frame; its handlers exist only while it does. */
    method OnTempFrame(frame: Frame)
      requires hasTemporarySocket
      modifies this
      ensures Snapshot() == TemporaryStep(old(Snapshot()), frame)
    {
      if frame.NoData? {
        return;
      }
      ResetInactivityWatchdog();
      if frame.Malformed? {
        return;
      }
      var j := frame.json;
      var isNew := Deduplicate(j);
      if !isNew {
        return;
      }
      HandleTemporaryMessage(j, KindOf(j));
    }

    /** The `switch` on the message type of a fresh frame on the temporary socket. */
    method HandleTemporaryMessage(j: Json, kind: MessageKind)
      modifies this
      ensures Snapshot() == TemporaryDispatch(old(Snapshot()), j, kind)
    {
      match kind
      case SessionWelcome =>
        HandleTemporaryWelcome(j);
      case Notification =>
        HandleNotification(j);
      case _ =>
    }

    /** A welcome on the temporary socket. */
    method HandleTemporaryWelcome(j: Json)
      modifies this
      ensures Snapshot() == OnTemporaryWelcome(old(Snapshot()), j)
    {
      if IsEventSubWelcomeMessage(j) {
        TakeOver(j);
        CloseTemporarySocket();
      }
    }

    /** The welcome's keepalive, the reconnect URL in use, and the primary socket closed. */
    method TakeOver(j: Json)
      modifies this
      ensures Snapshot() == HandOver(old(Snapshot()), j)
    {
      keepaliveSeconds := KeepaliveAfter(keepaliveSeconds, j);
      isUsingReconnectUrl := true;
      followingReconnect := true;
      if reconnectUrl.Some? {
        socketUrl := reconnectUrl.value;
      }
      effects := effects + [ClosePrimary];
    }

    /** The hook asks whether to reconnect after a close: always yes. */
    method ShouldReconnect() returns (reconnect: bool)
      modifies this
      ensures reconnect
      ensures Snapshot() == ShouldReconnectStep(old(Snapshot()))
    {
      if isUsingReconnectUrl {
        isUsingReconnectUrl := false;
        socketUrl := baseUrl;
      }
      return true;
    }

    /** The inactivity timer fired. */
    method OnWatchdogFired()
      requires watchdogMs.Some?
      modifies this
      ensures Snapshot() == WatchdogStep(old(Snapshot()))
    {
      effects := effects + [ClosePrimary];
    }

    /** The component unmounts. */
    method Teardown()
      modifies this
      ensures Snapshot() == TeardownStep(old(Snapshot()))
    {
      CloseTemporarySocket();
      watchdogMs := None;
    }
  }
}
