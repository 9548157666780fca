/**
 * The 7TV push client. Module-level variables hold the retry counter, the
 * pending reconnect timer, the heartbeat interval and the count of missed
 * heartbeats; socket listeners update them. Each listener is an event here,
 * `Math.random` is a jitter parameter, and what the client does to the
 * outside world (timers, sends, closes, emote changes) is appended to a log.
 *
 * The state is modelled as `SevenTVState` values with one step function per
 * event, about which the properties are proved, and as the `SevenTVClient`
 * class, whose methods update their fields in place and are proved to take
 * exactly those steps.
 */
module SevenTVWebsocket {
  import opened Wrappers
  import opened Numbers
  import opened Strings
  import opened Json

  const MaxReconnectRetries: nat := 8
  const BaseReconnectDelayMs: nat := 1000
  const MaxReconnectDelayMs: nat := 60000
  const RateLimitMinDelayMs: nat := 30000
  const MaxMissedHeartbeats: nat := 3

  // Close codes of the 7TV event API that the close handler tests.
  const ServerError: int := 4000
  const RateLimited: int := 4005
  const Restart: int := 4006
  const Maintenance: int := 4007
  const Timeout: int := 4008

  /** What the client does outside its own variables, in order. */
  datatype SevenTVEffect =
    | Connect
    | ScheduleReconnect(delayMs: int)
    | CancelReconnect
    | SendSubscribe(subscriptionType: string, objectId: string)
    | StartHeartbeat(interval: Option<Json>)
    | StopHeartbeat
    | CloseSocket(code: Option<int>)
    | AddEmote(emote: Option<Json>)
    | RemoveEmote(id: Option<Json>)

  // ---------------------------------------------------------------------------
  // Backoff

  /** `Math.min(minDelay * 2 ** attempt, 60000)`. */
  function ExpDelay(attempt: nat, minDelay: nat): int {
    Min(minDelay * Pow2(attempt), MaxReconnectDelayMs)
  }

  /**
   * A jitter drawn by `Math.random() * 0.4 - 0.2`, in thousandths:
   * at least -20 % and less than +20 %.
   */
  predicate IsJitter(permille: int) {
    -200 <= permille < 200
  }

  /** `computeBackoff`: `Math.max(0, Math.floor(exp + exp * jitter))`. */
  function Backoff(attempt: nat, minDelay: nat, permille: int): int {
    Max(0, ExpDelay(attempt, minDelay) * (1000 + permille) / 1000)
  }

  lemma MulBounds(e: int, p: int)
    requires e >= 0 && -200 <= p <= 200
    ensures -200 * e <= e * p <= 200 * e
  {
    if p >= 0 {
      assert e * p <= e * 200 by { assert e * (200 - p) >= 0; }
    } else {
      assert e * p >= e * -200 by { assert e * (p + 200) >= 0; }
    }
  }

  /**
   * The un-jittered delay doubles from `minDelay` and is capped at 60 s; the
   * jittered one is never negative and lies within 20 % of it (up to the
   * rounding down of `Math.floor`).
   */
  lemma BackoffBounds(attempt: nat, minDelay: nat, permille: int)
    requires IsJitter(permille)
    ensures 0 <= ExpDelay(attempt, minDelay) <= MaxReconnectDelayMs
    ensures minDelay * Pow2(attempt) <= MaxReconnectDelayMs ==> ExpDelay(attempt, minDelay) == minDelay * Pow2(attempt)
    ensures 0 <= Backoff(attempt, minDelay, permille)
    ensures 1000 * Backoff(attempt, minDelay, permille) <= 1200 * ExpDelay(attempt, minDelay)
    ensures 800 * ExpDelay(attempt, minDelay) < 1000 * (Backoff(attempt, minDelay, permille) + 1)
    ensures permille == 0 ==> Backoff(attempt, minDelay, permille) == ExpDelay(attempt, minDelay)
  {
    var e := ExpDelay(attempt, minDelay);
    assert e >= 0 by { assert minDelay * Pow2(attempt) >= 0; }
    MulBounds(e, permille);
    var x := e * (1000 + permille);
    assert x == 1000 * e + e * permille;
    assert 800 * e <= x <= 1200 * e;
    var q := x / 1000;
    assert 1000 * q <= x < 1000 * (q + 1);
    assert Backoff(attempt, minDelay, permille) == q;
  }

  /** With the 1 s base the delays are 1, 2, 4, 8, 16, 32 s and then 60 s; with the 30 s base, 30 s and then 60 s. */
  lemma ExpDelaySchedule(attempt: nat)
    ensures attempt <= 5 ==> ExpDelay(attempt, BaseReconnectDelayMs) == 1000 * Pow2(attempt)
    ensures attempt >= 6 ==> ExpDelay(attempt, BaseReconnectDelayMs) == MaxReconnectDelayMs
    ensures ExpDelay(0, RateLimitMinDelayMs) == RateLimitMinDelayMs
    ensures attempt >= 1 ==> ExpDelay(attempt, RateLimitMinDelayMs) == MaxReconnectDelayMs
  {
    assert Pow2(5) == 32 && Pow2(6) == 64;
    if attempt <= 5 {
      Pow2Monotone(attempt, 5);
    } else {
      Pow2Monotone(6, attempt);
    }
    if attempt >= 1 {
      Pow2Monotone(1, attempt);
    }
  }

  // ---------------------------------------------------------------------------
  // `/429|rate.?limit/i`

  /** `rate`, any one character but a line terminator or none, then `limit`, ignoring ASCII case, starting at `i`. */
  predicate RateLimitAt(s: string, i: nat) {
    i + 9 <= |s| && EqualsIgnoreCase(s[i..i + 4], "rate") &&
    (EqualsIgnoreCase(s[i + 4..i + 9], "limit") ||
     (i + 10 <= |s| && !IsLineTerminator(s[i + 4]) && EqualsIgnoreCase(s[i + 5..i + 10], "limit")))
  }

  /** `/429|rate.?limit/i.test(s)`. */
  predicate MentionsRateLimit(s: string) {
    Contains(s, "429") || exists i: nat :: i <= |s| && RateLimitAt(s, i)
  }

  /** The pattern accepts the spellings servers use. */
  lemma RateLimitMatches()
    ensures MentionsRateLimit("Rate Limited")
    ensures MentionsRateLimit("rate-limit")
    ensures MentionsRateLimit("HTTP 429")
  {
    SpacedRateLimitMatches();
    HyphenatedRateLimitMatches();
    assert OccursAt("HTTP 429", "429", 5);
  }

  lemma SpacedRateLimitMatches()
    ensures RateLimitAt("Rate Limited", 0)
  {
    assert LowerAscii("Rate Limited"[0..4]) == "rate";
    assert LowerAscii("Rate Limited"[5..10]) == "limit";
  }

  lemma HyphenatedRateLimitMatches()
    ensures RateLimitAt("rate-limit", 0)
  {
    assert LowerAscii("rate-limit"[0..4]) == "rate";
    assert LowerAscii("rate-limit"[5..10]) == "limit";
  }

  /** It rejects text without either spelling, and a line break between the two words. */
  lemma RateLimitRejects()
    ensures !MentionsRateLimit("")
    ensures !MentionsRateLimit("rate\nlimit")
  {
    var t := "rate\nlimit";
    forall i: nat | i <= |t| ensures !OccursAt(t, "429", i) && !RateLimitAt(t, i) {
      if i + 3 <= |t| {
        assert t[i..i + 3][0] == t[i] != '4';
      }
      if i == 0 {
        assert LowerAscii(t[4..9])[0] == '\n';
        assert IsLineTerminator(t[4]);
      } else if i == 1 {
        assert LowerAscii(t[1..5])[0] == 'a';
      }
    }
  }

  // ---------------------------------------------------------------------------
  // Frames

  datatype OpCode = Dispatch | Hello | Heartbeat | Reconnect | Acknowledgement | Error | EndOfStream | UnknownOp

  /** `switch (op)`: strict equality with the numeric opcodes. */
  function OpCodeOf(op: Json): OpCode {
    match op
    case JNum(n) =>
      if n == 0.0 then Dispatch
      else if n == 1.0 then Hello
      else if n == 2.0 then Heartbeat
      else if n == 4.0 then Reconnect
      else if n == 5.0 then Acknowledgement
      else if n == 6.0 then Error
      else if n == 7.0 then EndOfStream
      else UnknownOp
    case _ => UnknownOp
  }

  /** The parsed message has own properties `op`, `t` and `d`. */
  predicate IsEnvelope(data: Json) {
    data.JObj? && "op" in data.fields && "t" in data.fields && "d" in data.fields
  }

  /** `body[key] || []` for a change list. */
  function ChangeList(body: Option<Json>, key: string): seq<Json> {
    match body
    case Some(b) => (match Field(b, key) case Some(JArr(items)) => items case _ => [])
    case None => []
  }

  predicate IsEmoteChange(entry: Json) {
    Field(entry, "key") == Some(JStr("emotes"))
  }

  /** One `addSevenTVEmote(entry.value)` per `emotes` entry, in order. */
  function AddsOf(entries: seq<Json>): (r: seq<SevenTVEffect>)
    ensures |r| <= |entries|
    ensures forall e :: e in r ==> e.AddEmote?
  {
    if entries == [] then []
    else
      var last := entries[|entries| - 1];
      AddsOf(entries[..|entries| - 1]) + (if IsEmoteChange(last) then [AddEmote(Field(last, "value"))] else [])
  }

  /** One `removeSevenTVEmote(entry.old_value.id)` per `emotes` entry, in order. */
  function RemovesOf(entries: seq<Json>): (r: seq<SevenTVEffect>)
    ensures |r| <= |entries|
    ensures forall e :: e in r ==> e.RemoveEmote?
  {
    if entries == [] then []
    else
      var last := entries[|entries| - 1];
      RemovesOf(entries[..|entries| - 1]) + (if IsEmoteChange(last) then [RemoveEmote(Path(last, ["old_value", "id"]))] else [])
  }

  /** The entries whose values are added: pushed, then added, then updated. */
  function AddedEntries(d: Json): seq<Json> {
    var body := Field(d, "body");
    ChangeList(body, "pushed") + ChangeList(body, "added") + ChangeList(body, "updated")
  }

  /** The entries whose old values are removed: removed, then pulled, then updated. */
  function RemovedEntries(d: Json): seq<Json> {
    var body := Field(d, "body");
    ChangeList(body, "removed") + ChangeList(body, "pulled") + ChangeList(body, "updated")
  }

  /** What a Dispatch does: every add first, then every remove. */
  function DispatchEffects(d: Json): seq<SevenTVEffect> {
    AddsOf(AddedEntries(d)) + RemovesOf(RemovedEntries(d))
  }

  lemma {:induction false} AddsOfAppend(a: seq<Json>, b: seq<Json>)
    ensures AddsOf(a + b) == AddsOf(a) + AddsOf(b)
    decreases |b|
  {
    if b == [] {
      assert a + b == a;
    } else {
      var b0 := b[..|b| - 1];
      var last := b[|b| - 1];
      var tail := if IsEmoteChange(last) then [AddEmote(Field(last, "value"))] else [];
      assert (a + b)[..|a + b| - 1] == a + b0;
      assert (a + b)[|a + b| - 1] == last;
      assert AddsOf(a + b) == AddsOf(a + b0) + tail;
      assert AddsOf(b) == AddsOf(b0) + tail;
      AddsOfAppend(a, b0);
    }
  }

  /** An emote is added exactly when an `emotes` entry carries it; entries under other keys add nothing. */
  lemma {:induction false} AddsOfMembers(entries: seq<Json>, v: Option<Json>)
    ensures AddEmote(v) in AddsOf(entries) <==> exists i :: 0 <= i < |entries| && IsEmoteChange(entries[i]) && Field(entries[i], "value") == v
  {
    if entries != [] {
      var init := entries[..|entries| - 1];
      AddsOfMembers(init, v);
      if exists i :: 0 <= i < |init| && IsEmoteChange(init[i]) && Field(init[i], "value") == v {
        var i :| 0 <= i < |init| && IsEmoteChange(init[i]) && Field(init[i], "value") == v;
        assert entries[i] == init[i];
      }
      if exists i :: 0 <= i < |entries| && IsEmoteChange(entries[i]) && Field(entries[i], "value") == v {
        var i :| 0 <= i < |entries| && IsEmoteChange(entries[i]) && Field(entries[i], "value") == v;
        if i < |init| {
          assert init[i] == entries[i];
        }
      }
    }
  }

  /** An id is removed exactly when an `emotes` entry's old value carries it. */
  lemma {:induction false} RemovesOfMembers(entries: seq<Json>, id: Option<Json>)
    ensures RemoveEmote(id) in RemovesOf(entries) <==>
      exists i :: 0 <= i < |entries| && IsEmoteChange(entries[i]) && Path(entries[i], ["old_value", "id"]) == id
  {
    if entries != [] {
      var init := entries[..|entries| - 1];
      RemovesOfMembers(init, id);
      if exists i :: 0 <= i < |init| && IsEmoteChange(init[i]) && Path(init[i], ["old_value", "id"]) == id {
        var i :| 0 <= i < |init| && IsEmoteChange(init[i]) && Path(init[i], ["old_value", "id"]) == id;
        assert entries[i] == init[i];
      }
      if exists i :: 0 <= i < |entries| && IsEmoteChange(entries[i]) && Path(entries[i], ["old_value", "id"]) == id {
        var i :| 0 <= i < |entries| && IsEmoteChange(entries[i]) && Path(entries[i], ["old_value", "id"]) == id;
        if i < |init| {
          assert init[i] == entries[i];
        }
      }
    }
  }

  /**
   * A Dispatch issues all its adds before any remove, so an updated emote is
   * added under its new value and then removed by its old id.
   */
  lemma DispatchAddsBeforeRemoves(d: Json)
    ensures var r := DispatchEffects(d);
      forall i, j :: 0 <= i < j < |r| && r[j].AddEmote? ==> r[i].AddEmote?
    ensures forall e :: e in DispatchEffects(d) ==> e.AddEmote? || e.RemoveEmote?
  {
    var adds := AddsOf(AddedEntries(d));
    var removes := RemovesOf(RemovedEntries(d));
    var r := adds + removes;
    forall i | 0 <= i < |adds| ensures r[i].AddEmote? {
      assert r[i] in adds;
    }
    forall i | |adds| <= i < |r| ensures r[i].RemoveEmote? {
      assert r[i] == removes[i - |adds|];
      assert r[i] in removes;
    }
  }

  /** Every `emotes` entry of `updated` is both added from `value` and removed by `old_value.id`. */
  lemma UpdatedEmoteIsReplaced(d: Json, k: nat)
    requires k < |ChangeList(Field(d, "body"), "updated")|
    requires IsEmoteChange(ChangeList(Field(d, "body"), "updated")[k])
    ensures var e := ChangeList(Field(d, "body"), "updated")[k];
      AddEmote(Field(e, "value")) in DispatchEffects(d) &&
      RemoveEmote(Path(e, ["old_value", "id"])) in DispatchEffects(d)
  {
    var body := Field(d, "body");
    var updated := ChangeList(body, "updated");
    var e := updated[k];
    var added := AddedEntries(d);
    var removed := RemovedEntries(d);
    var offA := |ChangeList(body, "pushed") + ChangeList(body, "added")|;
    var offR := |ChangeList(body, "removed") + ChangeList(body, "pulled")|;
    assert added[offA + k] == e;
    assert removed[offR + k] == e;
    AddsOfMembers(added, Field(e, "value"));
    RemovesOfMembers(removed, Path(e, ["old_value", "id"]));
  }

  // ---------------------------------------------------------------------------
  // State and steps

  datatype SevenTVState = SevenTVState(
    retryCount: nat,
    reconnectPending: bool,
    heartbeatHandle: bool,
    heartbeatTicking: bool,
    missedHeartbeats: nat,
    log: seq<SevenTVEffect>)

  /** The module's variables before the first connection. */
  function InitialState(): (s: SevenTVState)
    ensures Valid(s)
  {
    SevenTVState(0, false, false, false, 0, [])
  }

  /**
   * What holds between events: a pending timer implies retries are left, the
   * counters are bounded, and an interval that ticks is held by the handle.
   */
  predicate Valid(s: SevenTVState) {
    s.retryCount <= MaxReconnectRetries &&
    (s.reconnectPending ==> s.retryCount < MaxReconnectRetries) &&
    s.missedHeartbeats <= MaxMissedHeartbeats &&
    (s.heartbeatTicking ==> s.heartbeatHandle)
  }

  /** `scheduleReconnect`: nothing while a timer is pending or once 8 retries are used; otherwise one timer. */
  function ScheduleStep(s: SevenTVState, overrideDelay: Option<int>, permille: int): SevenTVState {
    if s.reconnectPending || s.retryCount >= MaxReconnectRetries then s
    else
      var delay := overrideDelay.GetOr(Backoff(s.retryCount, BaseReconnectDelayMs, permille));
      s.(reconnectPending := true, log := s.log + [ScheduleReconnect(delay)])
  }

  /** The reconnect timer fires: the retry is counted and a new socket connects. */
  function TimerFiredStep(s: SevenTVState): SevenTVState
    requires s.reconnectPending
  {
    s.(reconnectPending := false, retryCount := s.retryCount + 1, log := s.log + [Connect])
  }

  /** The `error` listener: a socket that is not open schedules a reconnect. */
  function ErrorStep(s: SevenTVState, socketOpen: bool, permille: int): SevenTVState {
    if socketOpen then s else ScheduleStep(s, None, permille)
  }

  /** The `open` listener: the retry counter restarts and a pending timer is cancelled. */
  function OpenStep(s: SevenTVState): SevenTVState {
    if s.reconnectPending then s.(retryCount := 0, reconnectPending := false, log := s.log + [CancelReconnect])
    else s.(retryCount := 0)
  }

  /** Whether a close is treated as rate limiting. */
  predicate IsRateLimitedClose(code: int, reason: string) {
    code == RateLimited || MentionsRateLimit(reason)
  }

  /** Whether a close that is not rate limiting asks for a reconnect. */
  predicate IsRecoverableClose(code: int, wasClean: bool) {
    code == Restart || code == Maintenance || code == Timeout || code == ServerError || !wasClean
  }

  /** Clearing the heartbeat interval and forgetting its handle. */
  function StopHeartbeatStep(s: SevenTVState): SevenTVState {
    if s.heartbeatHandle then s.(heartbeatHandle := false, heartbeatTicking := false, log := s.log + [StopHeartbeat])
    else s
  }

  /** The `close` listener. */
  function CloseStep(s: SevenTVState, code: int, reason: string, wasClean: bool, permille: int): SevenTVState {
    var a := StopHeartbeatStep(s);
    if IsRateLimitedClose(code, reason) then
      ScheduleStep(a, Some(Max(RateLimitMinDelayMs, Backoff(a.retryCount, RateLimitMinDelayMs, permille))), permille)
    else if IsRecoverableClose(code, wasClean) then ScheduleStep(a, None, permille)
    else a
  }

  /** One tick of the heartbeat interval. */
  function TickStep(s: SevenTVState): SevenTVState {
    var missed := s.missedHeartbeats + 1;
    if missed > MaxMissedHeartbeats then s.(missedHeartbeats := 0, log := s.log + [CloseSocket(Some(Timeout))])
    else s.(missedHeartbeats := missed)
  }

  /** The text the error opcode tests: the payload if it is a string, else its `JSON.stringify` (given). */
  function ErrorText(d: Json, stringified: string): string {
    if d.JStr? then d.s else stringified
  }

  /** `String(message)` for the values an end-of-stream message can carry; other values read as empty. */
  function MessageText(message: Option<Json>): string {
    match message
    case None => "undefined"
    case Some(JStr(s)) => s
    case Some(JNull) => "null"
    case Some(JBool(b)) => if b then "true" else "false"
    case Some(_) => ""
  }

  /** The `message` listener, from the parsed payload on. */
  function MessageStep(s: SevenTVState, data: Json, emoteSetId: string, stringified: string, permille: int): SevenTVState {
    if !IsEnvelope(data) then s
    else
      var d := data.fields["d"];
      match OpCodeOf(data.fields["op"])
      case Dispatch => s.(log := s.log + DispatchEffects(d))
      case Reconnect => ScheduleStep(s.(log := s.log + [CloseSocket(None)]), Some(1000), permille)
      case Hello =>
        var subscribed := s.(log := s.log + [SendSubscribe("emote_set.*", emoteSetId)]);
        if subscribed.heartbeatHandle then subscribed
        else subscribed.(heartbeatHandle := true, heartbeatTicking := true,
                         log := subscribed.log + [StartHeartbeat(Field(d, "heartbeat_interval"))])
      case Error =>
        if MentionsRateLimit(ErrorText(d, stringified)) then ScheduleStep(s, Some(RateLimitMinDelayMs), permille) else s
      case Heartbeat => s.(missedHeartbeats := 0)
      case EndOfStream =>
        var a := s.(heartbeatTicking := false);
        if Field(d, "code") == Some(JNum(RateLimited as real)) || MentionsRateLimit(MessageText(Field(d, "message"))) then
          ScheduleStep(a, Some(Max(RateLimitMinDelayMs, BaseReconnectDelayMs)), permille)
        else ScheduleStep(a, None, permille)
      case _ => s
  }

  /**
   * The `message` listener as written: it handles a frame only when the event
   * carries a string `utf8Data`, whose text `parse` (`JSON.parse`) reads.
   */
  function MessageEventStepAsWritten(s: SevenTVState, event: Json, parse: string -> Json,
                                     emoteSetId: string, stringified: string, permille: int): SevenTVState {
    match Field(event, "utf8Data")
    case Some(JStr(text)) => MessageStep(s, parse(text), emoteSetId, stringified, permille)
    case _ => s
  }

  /** As written, a browser `MessageEvent` leaves the client state and its log as they were. */
  lemma BrowserMessageIgnoredAsWritten(s: SevenTVState, event: Json, parse: string -> Json,
                                       emoteSetId: string, stringified: string, permille: int)
    requires IsBrowserMessageEvent(event)
    ensures MessageEventStepAsWritten(s, event, parse, emoteSetId, stringified, permille) == s
  {
  }

  /**
   * As written, no browser `MessageEvent` reaches the handler: even a hello,
   * on which the handler subscribes to the emote set, changes nothing.
   */
  lemma BrowserHelloLostAsWritten(s: SevenTVState, event: Json, text: string, parse: string -> Json,
                                  emoteSetId: string, stringified: string, permille: int)
    requires IsBrowserMessageEvent(event) && Field(event, "data") == Some(JStr(text))
    requires IsEnvelope(parse(text)) && OpCodeOf(parse(text).fields["op"]) == Hello
    ensures MessageEventStepAsWritten(s, event, parse, emoteSetId, stringified, permille) == s
    ensures var r := MessageStep(s, parse(text), emoteSetId, stringified, permille);
      |r.log| > |s.log| && r.log[|s.log|] == SendSubscribe("emote_set.*", emoteSetId)
  {
  }

  // ---------------------------------------------------------------------------
  // Properties

  /** Every event keeps the state valid. */
  lemma StepsPreserveValid(s: SevenTVState, socketOpen: bool, code: int, reason: string, wasClean: bool,
                           data: Json, emoteSetId: string, stringified: string, overrideDelay: Option<int>, permille: int)
    requires Valid(s)
    ensures Valid(ScheduleStep(s, overrideDelay, permille))
    ensures s.reconnectPending ==> Valid(TimerFiredStep(s))
    ensures Valid(ErrorStep(s, socketOpen, permille))
    ensures Valid(OpenStep(s))
    ensures Valid(CloseStep(s, code, reason, wasClean, permille))
    ensures Valid(TickStep(s))
    ensures Valid(MessageStep(s, data, emoteSetId, stringified, permille))
  {
    ScheduleKeepsValid(s, overrideDelay, permille);
    ScheduleKeepsValid(s, None, permille);
    CloseKeepsValid(s, code, reason, wasClean, permille);
    MessageKeepsValid(s, data, emoteSetId, stringified, permille);
  }

  lemma ScheduleKeepsValid(s: SevenTVState, overrideDelay: Option<int>, permille: int)
    requires Valid(s)
    ensures Valid(ScheduleStep(s, overrideDelay, permille))
  {
  }

  lemma CloseKeepsValid(s: SevenTVState, code: int, reason: string, wasClean: bool, permille: int)
    requires Valid(s)
    ensures Valid(CloseStep(s, code, reason, wasClean, permille))
  {
    var a := StopHeartbeatStep(s);
    assert Valid(a);
    ScheduleKeepsValid(a, None, permille);
    ScheduleKeepsValid(a, Some(Max(RateLimitMinDelayMs, Backoff(a.retryCount, RateLimitMinDelayMs, permille))), permille);
  }

  lemma MessageKeepsValid(s: SevenTVState, data: Json, emoteSetId: string, stringified: string, permille: int)
    requires Valid(s)
    ensures Valid(MessageStep(s, data, emoteSetId, stringified, permille))
  {
    if IsEnvelope(data) {
      match OpCodeOf(data.fields["op"])
      case Reconnect =>
        ScheduleKeepsValid(s.(log := s.log + [CloseSocket(None)]), Some(1000), permille);
      case Error =>
        ScheduleKeepsValid(s, Some(RateLimitMinDelayMs), permille);
      case EndOfStream =>
        var a := s.(heartbeatTicking := false);
        ScheduleKeepsValid(a, None, permille);
        ScheduleKeepsValid(a, Some(Max(RateLimitMinDelayMs, BaseReconnectDelayMs)), permille);
      case _ =>
    }
  }

  /** `scheduleReconnect` does nothing while a reconnect is pending or once the retries are used up, and otherwise arms exactly one timer. */
  lemma ScheduleIsGuarded(s: SevenTVState, overrideDelay: Option<int>, permille: int)
    ensures s.reconnectPending || s.retryCount >= MaxReconnectRetries ==> ScheduleStep(s, overrideDelay, permille) == s
    ensures !s.reconnectPending && s.retryCount < MaxReconnectRetries ==>
      var r := ScheduleStep(s, overrideDelay, permille);
      r.reconnectPending && r.retryCount == s.retryCount &&
      r.log == s.log + [ScheduleReconnect(if overrideDelay.Some? then overrideDelay.value else Backoff(s.retryCount, BaseReconnectDelayMs, permille))]
  {
  }

  /** Whether a step arms a timer or connects. */
  predicate Reconnects(before: SevenTVState, after: SevenTVState) {
    after.reconnectPending || exists i :: |before.log| <= i < |after.log| && (after.log[i].Connect? || after.log[i].ScheduleReconnect?)
  }

  /** The log gains no timer and no connection between two states. */
  lemma NoReconnectWhenOnlyAppending(s: SevenTVState, r: SevenTVState, added: seq<SevenTVEffect>)
    requires !r.reconnectPending && r.log == s.log + added
    requires forall e :: e in added ==> !e.Connect? && !e.ScheduleReconnect?
    ensures !Reconnects(s, r)
  {
    forall i | |s.log| <= i < |r.log| ensures !(r.log[i].Connect? || r.log[i].ScheduleReconnect?) {
      assert r.log[i] == added[i - |s.log|];
    }
  }

  /** A scheduling attempt after the retries are used up changes nothing. */
  lemma ExhaustedScheduleIsNoOp(s: SevenTVState, overrideDelay: Option<int>, permille: int)
    requires s.retryCount >= MaxReconnectRetries
    ensures ScheduleStep(s, overrideDelay, permille) == s
  {
  }

  /** Once the retries are used up and no timer is pending, no event but `open` ever schedules or connects again. */
  lemma GivingUpIsPermanent(s: SevenTVState, socketOpen: bool, code: int, reason: string, wasClean: bool,
                            data: Json, emoteSetId: string, stringified: string, permille: int)
    requires s.retryCount >= MaxReconnectRetries && !s.reconnectPending
    ensures var r := ErrorStep(s, socketOpen, permille); r.retryCount == s.retryCount && !Reconnects(s, r)
    ensures var r := CloseStep(s, code, reason, wasClean, permille); r.retryCount == s.retryCount && !Reconnects(s, r)
    ensures var r := TickStep(s); r.retryCount == s.retryCount && !Reconnects(s, r)
    ensures var r := MessageStep(s, data, emoteSetId, stringified, permille); r.retryCount == s.retryCount && !Reconnects(s, r)
  {
    NoReconnectWhenOnlyAppending(s, ErrorStep(s, socketOpen, permille), []);
    GivenUpClose(s, code, reason, wasClean, permille);
    var t := TickStep(s);
    NoReconnectWhenOnlyAppending(s, t, t.log[|s.log|..]);
    GivenUpMessage(s, data, emoteSetId, stringified, permille);
  }

  lemma GivenUpClose(s: SevenTVState, code: int, reason: string, wasClean: bool, permille: int)
    requires s.retryCount >= MaxReconnectRetries && !s.reconnectPending
    ensures var r := CloseStep(s, code, reason, wasClean, permille); r.retryCount == s.retryCount && !Reconnects(s, r)
  {
    var a := StopHeartbeatStep(s);
    ExhaustedScheduleIsNoOp(a, None, permille);
    ExhaustedScheduleIsNoOp(a, Some(Max(RateLimitMinDelayMs, Backoff(a.retryCount, RateLimitMinDelayMs, permille))), permille);
    assert CloseStep(s, code, reason, wasClean, permille) == a;
    NoReconnectWhenOnlyAppending(s, a, if s.heartbeatHandle then [StopHeartbeat] else []);
  }

  lemma GivenUpMessage(s: SevenTVState, data: Json, emoteSetId: string, stringified: string, permille: int)
    requires s.retryCount >= MaxReconnectRetries && !s.reconnectPending
    ensures var r := MessageStep(s, data, emoteSetId, stringified, permille); r.retryCount == s.retryCount && !Reconnects(s, r)
  {
    var r := MessageStep(s, data, emoteSetId, stringified, permille);
    if IsEnvelope(data) {
      var d := data.fields["d"];
      match OpCodeOf(data.fields["op"])
      case Dispatch =>
        DispatchAddsBeforeRemoves(d);
        NoReconnectWhenOnlyAppending(s, r, DispatchEffects(d));
      case Reconnect =>
        ExhaustedScheduleIsNoOp(s.(log := s.log + [CloseSocket(None)]), Some(1000), permille);
        NoReconnectWhenOnlyAppending(s, r, [CloseSocket(None)]);
      case Hello =>
        NoReconnectWhenOnlyAppending(s, r, r.log[|s.log|..]);
      case Error =>
        ExhaustedScheduleIsNoOp(s, Some(RateLimitMinDelayMs), permille);
        NoReconnectWhenOnlyAppending(s, r, []);
      case EndOfStream =>
        var e := s.(heartbeatTicking := false);
        ExhaustedScheduleIsNoOp(e, None, permille);
        ExhaustedScheduleIsNoOp(e, Some(Max(RateLimitMinDelayMs, BaseReconnectDelayMs)), permille);
        NoReconnectWhenOnlyAppending(s, r, []);
      case _ =>
        NoReconnectWhenOnlyAppending(s, r, []);
    } else {
      NoReconnectWhenOnlyAppending(s, r, []);
    }
  }

  /** The retry counter moves only when a scheduled reconnect fires (one up) and when a socket opens (back to 0). */
  lemma RetryCountChanges(s: SevenTVState, socketOpen: bool, code: int, reason: string, wasClean: bool,
                          data: Json, emoteSetId: string, stringified: string, permille: int)
    ensures ErrorStep(s, socketOpen, permille).retryCount == s.retryCount
    ensures CloseStep(s, code, reason, wasClean, permille).retryCount == s.retryCount
    ensures TickStep(s).retryCount == s.retryCount
    ensures MessageStep(s, data, emoteSetId, stringified, permille).retryCount == s.retryCount
    ensures s.reconnectPending ==> TimerFiredStep(s).retryCount == s.retryCount + 1
    ensures OpenStep(s).retryCount == 0 && !OpenStep(s).reconnectPending
  {
    CloseKeepsRetries(s, code, reason, wasClean, permille);
    MessageKeepsRetries(s, data, emoteSetId, stringified, permille);
  }

  lemma CloseKeepsRetries(s: SevenTVState, code: int, reason: string, wasClean: bool, permille: int)
    ensures CloseStep(s, code, reason, wasClean, permille).retryCount == s.retryCount
  {
  }

  lemma MessageKeepsRetries(s: SevenTVState, data: Json, emoteSetId: string, stringified: string, permille: int)
    ensures MessageStep(s, data, emoteSetId, stringified, permille).retryCount == s.retryCount
  {
    if IsEnvelope(data) {
      match OpCodeOf(data.fields["op"])
      case _ =>
    }
  }

  /** A rate-limited close that schedules a reconnect waits at least 30 s. */
  lemma RateLimitedCloseWaits(s: SevenTVState, code: int, reason: string, wasClean: bool, permille: int)
    requires IsRateLimitedClose(code, reason)
    requires !s.reconnectPending && s.retryCount < MaxReconnectRetries
    ensures var r := CloseStep(s, code, reason, wasClean, permille);
      r.reconnectPending && r.log[|r.log| - 1].ScheduleReconnect? && r.log[|r.log| - 1].delayMs >= RateLimitMinDelayMs
  {
  }

  /** A recoverable close schedules the standard backoff; a clean close with any other code does not reconnect. */
  lemma CloseClassification(s: SevenTVState, code: int, reason: string, wasClean: bool, permille: int)
    requires !IsRateLimitedClose(code, reason)
    ensures IsRecoverableClose(code, wasClean) ==>
      CloseStep(s, code, reason, wasClean, permille) == ScheduleStep(StopHeartbeatStep(s), None, permille)
    ensures !IsRecoverableClose(code, wasClean) ==>
      var r := CloseStep(s, code, reason, wasClean, permille);
      r == StopHeartbeatStep(s) && r.reconnectPending == s.reconnectPending &&
      (!s.reconnectPending ==> !Reconnects(s, r))
  {
    if !s.reconnectPending {
      NoReconnectWhenOnlyAppending(s, StopHeartbeatStep(s), if s.heartbeatHandle then [StopHeartbeat] else []);
    }
  }

  /** A heartbeat tick counts a miss; the fourth miss in a row closes the socket with 4008 and starts counting again. */
  lemma TickCountsMisses(s: SevenTVState)
    requires Valid(s)
    ensures s.missedHeartbeats < MaxMissedHeartbeats ==>
      TickStep(s) == s.(missedHeartbeats := s.missedHeartbeats + 1)
    ensures s.missedHeartbeats == MaxMissedHeartbeats ==>
      TickStep(s) == s.(missedHeartbeats := 0, log := s.log + [CloseSocket(Some(Timeout))])
  {
  }

  /** A Heartbeat opcode clears the miss counter and changes nothing else. */
  lemma HeartbeatResetsMisses(s: SevenTVState, data: Json, emoteSetId: string, stringified: string, permille: int)
    requires IsEnvelope(data) && data.fields["op"] == JNum(2.0)
    ensures MessageStep(s, data, emoteSetId, stringified, permille) == s.(missedHeartbeats := 0)
  {
  }

  /**
   * A Hello always sends one `emote_set.*` subscription for the user's emote
   * set, and starts a heartbeat only when no interval handle is held.
   */
  lemma HelloSubscribesOnce(s: SevenTVState, data: Json, emoteSetId: string, stringified: string, permille: int)
    requires IsEnvelope(data) && data.fields["op"] == JNum(1.0)
    ensures var r := MessageStep(s, data, emoteSetId, stringified, permille);
      r.log == s.log + [SendSubscribe("emote_set.*", emoteSetId)] +
               (if s.heartbeatHandle then [] else [StartHeartbeat(Field(data.fields["d"], "heartbeat_interval"))]) &&
      r.heartbeatHandle && r.retryCount == s.retryCount && r.reconnectPending == s.reconnectPending
  {
  }

  /**
   * End of stream stops the interval but keeps its handle, so a later Hello
   * starts no heartbeat until a close forgets the handle.
   */
  lemma EndOfStreamKeepsHandle(s: SevenTVState, data: Json, hello: Json, emoteSetId: string, stringified: string, permille: int)
    requires IsEnvelope(data) && data.fields["op"] == JNum(7.0)
    requires IsEnvelope(hello) && hello.fields["op"] == JNum(1.0)
    requires s.heartbeatHandle
    ensures var e := MessageStep(s, data, emoteSetId, stringified, permille);
      !e.heartbeatTicking && e.heartbeatHandle &&
      !MessageStep(e, hello, emoteSetId, stringified, permille).heartbeatTicking
  {
  }

  /** A Reconnect opcode closes the socket and then asks for a reconnect in 1 s. */
  lemma ReconnectOpcodeCloses(s: SevenTVState, data: Json, emoteSetId: string, stringified: string, permille: int)
    requires IsEnvelope(data) && data.fields["op"] == JNum(4.0)
    requires !s.reconnectPending && s.retryCount < MaxReconnectRetries
    ensures MessageStep(s, data, emoteSetId, stringified, permille).log == s.log + [CloseSocket(None), ScheduleReconnect(1000)]
  {
  }

  // ---------------------------------------------------------------------------
  // The module's variables as a class

  class SevenTVClient {
    const emoteSetId: string
    var retryCount: nat
    var reconnectPending: bool
    var heartbeatHandle: bool
    var heartbeatTicking: bool
    var missedHeartbeats: nat
    var log: seq<SevenTVEffect>

    function Snapshot(): SevenTVState
      reads this
    {
      SevenTVState(retryCount, reconnectPending, heartbeatHandle, heartbeatTicking, missedHeartbeats, log)
    }

    constructor (emoteSetId: string)
      ensures Snapshot() == InitialState() && this.emoteSetId == emoteSetId
    {
      this.emoteSetId := emoteSetId;
      retryCount := 0;
      reconnectPending := false;
      heartbeatHandle := false;
      heartbeatTicking := false;
      missedHeartbeats := 0;
      log := [];
    }

    method ScheduleReconnect(overrideDelay: Option<int>, permille: int)
      modifies this
      ensures Snapshot() == ScheduleStep(old(Snapshot()), overrideDelay, permille)
    {
      if reconnectPending {
        return;
      }
      if retryCount >= MaxReconnectRetries {
        return;
      }
      var delay := if overrideDelay.Some? then overrideDelay.value else Backoff(retryCount, BaseReconnectDelayMs, permille);
      reconnectPending := true;
      log := log + [SevenTVEffect.ScheduleReconnect(delay)];
    }

    method OnReconnectTimer()
      requires reconnectPending
      modifies this
      ensures Snapshot() == TimerFiredStep(old(Snapshot()))
    {
      reconnectPending := false;
      retryCount := retryCount + 1;
      log := log + [Connect];
    }

    method OnError(socketOpen: bool, permille: int)
      modifies this
      ensures Snapshot() == ErrorStep(old(Snapshot()), socketOpen, permille)
    {
      if !socketOpen {
        ScheduleReconnect(None, permille);
      }
    }

    method OnOpen()
      modifies this
      ensures Snapshot() == OpenStep(old(Snapshot()))
    {
      retryCount := 0;
      if reconnectPending {
        log := log + [CancelReconnect];
        reconnectPending := false;
      }
    }

    method OnClose(code: int, reason: string, wasClean: bool, permille: int)
      modifies this
      ensures Snapshot() == CloseStep(old(Snapshot()), code, reason, wasClean, permille)
    {
      if heartbeatHandle {
        log := log + [StopHeartbeat];
        heartbeatHandle := false;
        heartbeatTicking := false;
      }
      if code == RateLimited || MentionsRateLimit(reason) {
        var delay := Max(RateLimitMinDelayMs, Backoff(retryCount, RateLimitMinDelayMs, permille));
        ScheduleReconnect(Some(delay), permille);
        return;
      }
      if code == Restart || code == Maintenance || code == Timeout || code == ServerError || !wasClean {
        ScheduleReconnect(None, permille);
      }
    }

    method OnHeartbeatTick()
      requires heartbeatTicking
      modifies this
      ensures Snapshot() == TickStep(old(Snapshot()))
    {
      missedHeartbeats := missedHeartbeats + 1;
      if missedHeartbeats > MaxMissedHeartbeats {
        log := log + [CloseSocket(Some(Timeout))];
        missedHeartbeats := 0;
      }
    }

    /** The first change-list loop of a Dispatch: add every `emotes` entry's value. */
    method AddChangedEmotes(entries: seq<Json>)
      modifies this`log
      ensures log == old(log) + AddsOf(entries)
    {
      for i := 0 to |entries|
        invariant log == old(log) + AddsOf(entries[..i])
      {
        assert entries[..i + 1][..i] == entries[..i];
        var entry := entries[i];
        if Field(entry, "key") == Some(JStr("emotes")) {
          log := log + [AddEmote(Field(entry, "value"))];
        }
      }
      assert entries[..|entries|] == entries;
    }

    /** The second change-list loop of a Dispatch: remove every `emotes` entry's old id. */
    method RemoveChangedEmotes(entries: seq<Json>)
      modifies this`log
      ensures log == old(log) + RemovesOf(entries)
    {
      for i := 0 to |entries|
        invariant log == old(log) + RemovesOf(entries[..i])
      {
        assert entries[..i + 1][..i] == entries[..i];
        var entry := entries[i];
        if Field(entry, "key") == Some(JStr("emotes")) {
          log := log + [RemoveEmote(Path(entry, ["old_value", "id"]))];
        }
      }
      assert entries[..|entries|] == entries;
    }

    method OnMessage(data: Json, stringified: string, permille: int)
      modifies this
      ensures Snapshot() == MessageStep(old(Snapshot()), data, emoteSetId, stringified, permille)
    {
      if !IsEnvelope(data) {
        return;
      }
      var d := data.fields["d"];
      match OpCodeOf(data.fields["op"])
      case Dispatch =>
        AddChangedEmotes(AddedEntries(d));
        RemoveChangedEmotes(RemovedEntries(d));
      case Reconnect =>
        log := log + [CloseSocket(None)];
        ScheduleReconnect(Some(1000), permille);
      case Hello =>
        log := log + [SendSubscribe("emote_set.*", emoteSetId)];
        if !heartbeatHandle {
          heartbeatHandle := true;
          heartbeatTicking := true;
          log := log + [StartHeartbeat(Field(d, "heartbeat_interval"))];
        }
      case Error =>
        var text := ErrorText(d, stringified);
        if MentionsRateLimit(text) {
          ScheduleReconnect(Some(RateLimitMinDelayMs), permille);
        }
      case Heartbeat =>
        missedHeartbeats := 0;
      case EndOfStream =>
        heartbeatTicking := false;
        if Field(d, "code") == Some(JNum(RateLimited as real)) || MentionsRateLimit(MessageText(Field(d, "message"))) {
          ScheduleReconnect(Some(Max(RateLimitMinDelayMs, BaseReconnectDelayMs)), permille);
        } else {
          ScheduleReconnect(None, permille);
        }
      case _ =>
    }
  }
}
